/**
 Intent detection for the voice channel: ordered keyword matching on the
 lower-cased transcript. Booking words are checked first, then cancel
 words, then callback words.
 */
module VoiceIntents {
  import opened Text

  datatype VoiceIntent = Booking | Callback | Cancel | Unknown

  const BookingKeywords: seq<string> :=
    ["termin", "termin machen", "termin vereinbaren", "buchen", "vereinbaren", "zeit", "kommen", "dringend"]

  const CallbackKeywords: seq<string> :=
    ["rückruf", "zurückrufen", "anrufen", "bitte anrufen", "melden", "kontakt"]

  const CancelKeywords: seq<string> :=
    ["absagen", "stornieren", "verschieben", "doch nicht", "nicht kommen"]

  /** Some keyword of the list occurs in `t`. */
  ghost predicate Mentions(t: string, keywords: seq<string>)
  {
    exists j :: 0 <= j < |keywords| && IsSubstring(keywords[j], t)
  }

  /** Tries the keywords in order and stops at the first one that occurs in `t`. */
  function AnyKeyword(keywords: seq<string>, t: string): (b: bool)
    ensures b <==> Mentions(t, keywords)
  {
    if |keywords| == 0 then
      false
    else if Contains(t, keywords[0]) then
      true
    else
      var b := AnyKeyword(keywords[1..], t);
      assert Mentions(t, keywords[1..]) ==> Mentions(t, keywords) by {
        if Mentions(t, keywords[1..]) {
          var j :| 0 <= j < |keywords[1..]| && IsSubstring(keywords[1..][j], t);
          assert keywords[j + 1] == keywords[1..][j];
        }
      }
      assert Mentions(t, keywords) ==> Mentions(t, keywords[1..]) by {
        if Mentions(t, keywords) {
          var j :| 0 <= j < |keywords| && IsSubstring(keywords[j], t);
          assert keywords[1..][j - 1] == keywords[j];
        }
      }
      b
  }

  /**
   The intent of a transcript: booking whenever a booking word occurs,
   cancel only without booking words, callback only without booking and
   cancel words, and unknown when no keyword occurs.
   */
  function DetectIntent(text: string): (r: VoiceIntent)
    ensures var t := Lower(text);
            && (r == Booking <==> Mentions(t, BookingKeywords))
            && (r == Cancel <==> !Mentions(t, BookingKeywords) && Mentions(t, CancelKeywords))
            && (r == Callback <==>
                  !Mentions(t, BookingKeywords) && !Mentions(t, CancelKeywords) && Mentions(t, CallbackKeywords))
            && (r == Unknown <==>
                  !Mentions(t, BookingKeywords) && !Mentions(t, CancelKeywords) && !Mentions(t, CallbackKeywords))
  {
    var t := Lower(text);
    if AnyKeyword(BookingKeywords, t) then Booking
    else if AnyKeyword(CancelKeywords, t) then Cancel
    else if AnyKeyword(CallbackKeywords, t) then Callback
    else Unknown
  }

  /** The intent depends on the text only through its lower-cased form. */
  lemma DetectIntentIgnoresCase(text: string)
    ensures DetectIntent(Lower(text)) == DetectIntent(text)
  {
  }

  /**
   "nicht kommen" is listed as a cancel phrase, but it contains the booking
   word "kommen", which is checked first: such a transcript is always a
   booking.
   */
  lemma NichtKommenIsBooking(text: string)
    requires IsSubstring("nicht kommen", Lower(text))
    ensures DetectIntent(text) == Booking
  {
    ContainsPart("kommen", "nicht kommen", 6, Lower(text));
    assert BookingKeywords[6] == "kommen";
  }

  /**
   The same holds for "termin" inside a longer booking phrase, so the
   phrases "termin machen" and "termin vereinbaren" never decide anything
   that "termin" alone would not.
   */
  lemma LongBookingPhrasesAreRedundant(text: string)
    ensures Mentions(Lower(text), BookingKeywords) <==>
              Mentions(Lower(text), ["termin", "buchen", "vereinbaren", "zeit", "kommen", "dringend"])
  {
    var t := Lower(text);
    var short: seq<string> := ["termin", "buchen", "vereinbaren", "zeit", "kommen", "dringend"];
    if Mentions(t, BookingKeywords) {
      var j :| 0 <= j < |BookingKeywords| && IsSubstring(BookingKeywords[j], t);
      if j == 1 || j == 2 {
        ContainsPart("termin", BookingKeywords[j], 0, t);
        assert IsSubstring(short[0], t);
      } else {
        assert IsSubstring(short[if j == 0 then 0 else j - 2], t);
      }
    }
    if Mentions(t, short) {
      var j :| 0 <= j < |short| && IsSubstring(short[j], t);
      assert IsSubstring(BookingKeywords[if j == 0 then 0 else j + 2], t);
    }
  }
}
