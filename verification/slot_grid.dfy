/**
 The layout loop both slot generators share: starting at the opening
 instant, lay slots of a fixed duration back to back while the next one
 still ends by closing time, classify each by its start instant, and drop
 any remainder shorter than one slot.
 */
module SlotGrid {
  import opened Schemas

  /**
   The layout of `slots` from `start` to `close`: the i-th slot starts i
   durations after `start` and lasts exactly one duration, a slot is
   bookable exactly when it is a treatment slot, the last slot ends by
   `close`, and one more slot would not fit.
   */
  ghost predicate Grid(slots: seq<SlotModel>, start: DateTime, close: DateTime, duration: int)
  {
    && (|slots| > 0 ==> start.minutes + duration * |slots| <= close.minutes)
    && start.minutes + duration * (|slots| + 1) > close.minutes
    && forall i :: 0 <= i < |slots| ==>
         && slots[i].startTime == AddMinutes(start, duration * i)
         && slots[i].endTime == AddMinutes(slots[i].startTime, duration)
         && slots[i].durationMinutes == duration
         && (slots[i].isBookable <==> slots[i].slotType == Treatment)
  }

  /** The slot starting at `t`, typed by `classify`; only a treatment slot is bookable. */
  function MakeSlot(t: DateTime, duration: int, classify: DateTime -> SlotType): SlotModel
  {
    var kind := classify(t);
    SlotModel(t, AddMinutes(t, duration), duration, kind, kind == Treatment)
  }

  /**
   The slots from cursor `cur` until `close`. The remainder left when the
   next slot would end after `close` is dropped.
   */
  function Lay(cur: DateTime, close: DateTime, duration: int, classify: DateTime -> SlotType): (r: seq<SlotModel>)
    requires duration > 0
    ensures Grid(r, cur, close, duration)
    ensures forall i :: 0 <= i < |r| ==> r[i].slotType == classify(r[i].startTime)
    decreases close.minutes - cur.minutes
  {
    if cur.minutes + duration <= close.minutes then
      var next := AddMinutes(cur, duration);
      var rest := Lay(next, close, duration, classify);
      var r := [MakeSlot(cur, duration, classify)] + rest;
      assert duration * (|rest| + 1) == duration + duration * |rest|;
      assert duration * (|rest| + 2) == duration + duration * (|rest| + 1);
      assert forall i :: 1 <= i < |r| ==> r[i].startTime == AddMinutes(cur, duration * i) by {
        forall i | 1 <= i < |r|
          ensures r[i].startTime == AddMinutes(cur, duration * i)
        {
          assert r[i] == rest[i - 1];
          assert duration * (i - 1) + duration == duration * i;
        }
      }
      r
    else
      []
  }

  /** Laid-out slots are contiguous: each starts where the previous ended. */
  lemma GridIsContiguous(slots: seq<SlotModel>, start: DateTime, close: DateTime, duration: int)
    requires duration > 0
    requires Grid(slots, start, close, duration)
    ensures forall i :: 0 <= i < |slots| - 1 ==> slots[i + 1].startTime == slots[i].endTime
    ensures forall i, j :: 0 <= i < j < |slots| ==> slots[i].endTime.minutes <= slots[j].startTime.minutes
  {
    forall i, j | 0 <= i < j < |slots|
      ensures slots[i].endTime.minutes <= slots[j].startTime.minutes
    {
      var gap := j - i - 1;
      assert duration * gap >= 0;
      assert duration * j == duration * i + duration + duration * gap;
    }
    forall i | 0 <= i < |slots| - 1
      ensures slots[i + 1].startTime == slots[i].endTime
    {
      assert duration * (i + 1) == duration * i + duration;
    }
  }
}
