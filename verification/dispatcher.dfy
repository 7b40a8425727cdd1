/**
 Central slot selection: the practice identifier picks the generator.
 The comparison is on the identifier's string value, as with a string
 enumeration, so a value that names no practice falls through to an empty
 catalog instead of an error.

 The 30-minute generator is not part of this model; callers pass it in as
 `default30`.
 */
module Dispatcher {
  import opened Schemas
  import Default20
  import KrebsNottuln

  /** The catalog for the practice whose string value is `value`. */
  function SlotsForValue(value: string, forDate: Date, default30: Date -> seq<SlotModel>): (r: seq<SlotModel>)
    ensures value == PracticeValue(PhysioDefault20) ==> r == Default20.GenerateDefault20Slots(forDate)
    ensures value == PracticeValue(PhysioDefault30) ==> r == default30(forDate)
    ensures value == PracticeValue(PhysioKrebsNottuln) ==> r == KrebsNottuln.GenerateKrebsSlots(forDate)
    ensures (forall p: PracticeId :: value != PracticeValue(p)) ==> r == []
  {
    if value == PracticeValue(PhysioDefault20) then
      Default20.GenerateDefault20Slots(forDate)
    else if value == PracticeValue(PhysioDefault30) then
      default30(forDate)
    else if value == PracticeValue(PhysioKrebsNottuln) then
      KrebsNottuln.GenerateKrebsSlots(forDate)
    else
      []
  }

  /** Each practice gets exactly its own generator's list, unfiltered and in order. */
  function GetSlotsForPractice(practiceId: PracticeId, forDate: Date, default30: Date -> seq<SlotModel>): (r: seq<SlotModel>)
    ensures practiceId == PhysioDefault20 ==> r == Default20.GenerateDefault20Slots(forDate)
    ensures practiceId == PhysioDefault30 ==> r == default30(forDate)
    ensures practiceId == PhysioKrebsNottuln ==> r == KrebsNottuln.GenerateKrebsSlots(forDate)
  {
    SlotsForValue(PracticeValue(practiceId), forDate, default30)
  }

  /** A value that names none of the practices yields an empty catalog and never an error. */
  lemma UnknownPracticeFallsBack(value: string, forDate: Date, default30: Date -> seq<SlotModel>)
    requires forall p: PracticeId :: value != PracticeValue(p)
    ensures SlotsForValue(value, forDate, default30) == []
  {
    assert value != PracticeValue(PhysioDefault20);
    assert value != PracticeValue(PhysioDefault30);
    assert value != PracticeValue(PhysioKrebsNottuln);
  }
}
