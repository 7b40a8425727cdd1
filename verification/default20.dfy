/**
 The standard 20-minute practice: Monday to Friday, 08:00 to 18:00,
 every slot a bookable treatment slot.
 */
module Default20 {
  import opened Schemas
  import SlotGrid

  const OpenTime: int := Time(8, 0)
  const CloseTime: int := Time(18, 0)
  const SlotDurationMinutes: int := 20

  /** No slots at the weekend; on a weekday, the 08:00-18:00 window cut into 20-minute treatment slots. */
  function GenerateDefault20Slots(forDate: Date): (r: seq<SlotModel>)
    ensures Weekday(forDate) >= 5 ==> r == []
    ensures Weekday(forDate) < 5 ==>
              SlotGrid.Grid(r, Combine(forDate, OpenTime), Combine(forDate, CloseTime), SlotDurationMinutes)
    ensures forall i :: 0 <= i < |r| ==> r[i].slotType == Treatment && r[i].isBookable
  {
    if Weekday(forDate) >= 5 then
      []
    else
      SlotGrid.Lay(Combine(forDate, OpenTime), Combine(forDate, CloseTime), SlotDurationMinutes,
                   t => Treatment)
  }

  /**
   A weekday has exactly 30 contiguous slots: the first starts at 08:00,
   the last ends at 18:00, and every slot lies within that window.
   */
  lemma WeekdayHasThirtySlots(forDate: Date)
    requires Weekday(forDate) < 5
    ensures var r := GenerateDefault20Slots(forDate);
            && |r| == 30
            && r[0].startTime == Combine(forDate, Time(8, 0))
            && r[29].endTime == Combine(forDate, Time(18, 0))
            && (forall i :: 0 <= i < |r| - 1 ==> r[i + 1].startTime == r[i].endTime)
            && (forall i :: 0 <= i < |r| ==>
                  && Combine(forDate, OpenTime).minutes <= r[i].startTime.minutes
                  && r[i].endTime.minutes <= Combine(forDate, CloseTime).minutes
                  && r[i].endTime.minutes == r[i].startTime.minutes + 20
                  && r[i].durationMinutes == 20)
  {
  }
}
