/**
 The dialog's intent engine: a fixed chain of substring tests on the
 lower-cased input, returning one of four labels.
 */
module IntentEngine {
  import opened Text

  const Labels: set<string> := {"booking", "callback", "info", "unknown"}

  function DetectIntent(text: string): (r: string)
    ensures r in Labels
    ensures var t := Lower(text);
            && (r == "booking" <==> IsSubstring("termin", t))
            && (r == "callback" <==> !IsSubstring("termin", t) && IsSubstring("rückruf", t))
            && (r == "info" <==>
                  !IsSubstring("termin", t) && !IsSubstring("rückruf", t) && (IsSubstring("frage", t) || IsSubstring("info", t)))
            && (r == "unknown" <==>
                  !IsSubstring("termin", t) && !IsSubstring("rückruf", t) && !IsSubstring("frage", t) && !IsSubstring("info", t))
  {
    var t := Lower(text);
    if Contains(t, "termin") then
      "booking"
    else if Contains(t, "rückruf") || Contains(t, "zurückrufen") then
      ZurueckrufenContainsRueckruf(t);
      "callback"
    else if Contains(t, "frage") || Contains(t, "info") then
      "info"
    else
      "unknown"
  }

  /** Every text containing "zurückrufen" contains "rückruf", so the second test of the callback check never decides. */
  lemma ZurueckrufenContainsRueckruf(t: string)
    ensures IsSubstring("zurückrufen", t) ==> IsSubstring("rückruf", t)
  {
    if IsSubstring("zurückrufen", t) {
      ContainsPart("rückruf", "zurückrufen", 2, t);
    }
  }

  /** Matching ignores case: the label depends only on the lower-cased text. */
  lemma DetectIntentIgnoresCase(text: string)
    ensures DetectIntent(Lower(text)) == DetectIntent(text)
  {
  }
}
