/**
 The premium practice "Physio Krebs Nottuln": a weekly plan with opening
 and closing times per weekday and blocked administrative and house-visit
 ranges, and the generator that turns the plan into a day's 20-minute slots.
 */
module KrebsNottuln {
  import opened Schemas
  import SlotGrid

  const SlotDurationMinutes: int := 20

  /** A half-open range `[start, end)` of times of day, in minutes since midnight. */
  datatype TimeRange = TimeRange(start: int, end: int)

  datatype DayPlan = DayPlan(openAt: int, closeAt: int, admin: seq<TimeRange>, houseVisit: seq<TimeRange>)

  /** The weekly plan, keyed by weekday (Monday is 0). Sunday has no entry. */
  const WeeklyPlan: map<int, DayPlan> := map[
    // Monday
    0 := DayPlan(Time(8, 30), Time(18, 30),
                 [TimeRange(Time(8, 0), Time(8, 30)),
                  TimeRange(Time(10, 30), Time(11, 0)),
                  TimeRange(Time(13, 0), Time(14, 0)),
                  TimeRange(Time(16, 0), Time(16, 30))],
                 []),
    // Tuesday
    1 := DayPlan(Time(8, 30), Time(19, 0),
                 [TimeRange(Time(16, 0), Time(16, 20))],
                 [TimeRange(Time(8, 30), Time(14, 0))]),
    // Wednesday
    2 := DayPlan(Time(6, 30), Time(18, 0),
                 [TimeRange(Time(6, 30), Time(7, 0)),
                  TimeRange(Time(9, 0), Time(9, 30)),
                  TimeRange(Time(11, 30), Time(12, 0)),
                  TimeRange(Time(14, 0), Time(14, 30))],
                 [TimeRange(Time(15, 0), Time(18, 0))]),
    // Thursday
    3 := DayPlan(Time(8, 0), Time(19, 0),
                 [TimeRange(Time(8, 0), Time(8, 30)),
                  TimeRange(Time(10, 30), Time(11, 0)),
                  TimeRange(Time(13, 0), Time(14, 0)),
                  TimeRange(Time(16, 0), Time(16, 30)),
                  TimeRange(Time(18, 30), Time(19, 0))],
                 []),
    // Friday
    4 := DayPlan(Time(14, 0), Time(18, 30),
                 [TimeRange(Time(14, 0), Time(14, 30)),
                  TimeRange(Time(16, 30), Time(17, 0))],
                 []),
    // Saturday
    5 := DayPlan(Time(12, 0), Time(16, 0), [], [])
  ]

  /** Instant `t` lies in range `r` taken on date `d`. */
  ghost predicate Covers(r: TimeRange, t: DateTime, d: Date)
  {
    Combine(d, r.start).minutes <= t.minutes < Combine(d, r.end).minutes
  }

  /** Instant `t` lies in at least one of `ranges` taken on date `d`. */
  ghost predicate Within(t: DateTime, ranges: seq<TimeRange>, d: Date)
  {
    exists i :: 0 <= i < |ranges| && Covers(ranges[i], t, d)
  }

  /** Scans `ranges` in order and answers whether `check` falls in one of them. */
  function IsInRanges(check: DateTime, ranges: seq<TimeRange>, forDate: Date): (b: bool)
    ensures b <==> Within(check, ranges, forDate)
  {
    if |ranges| == 0 then
      false
    else if Combine(forDate, ranges[0].start).minutes <= check.minutes < Combine(forDate, ranges[0].end).minutes then
      assert Covers(ranges[0], check, forDate);
      true
    else
      var rest := IsInRanges(check, ranges[1..], forDate);
      assert Within(check, ranges, forDate) ==> Within(check, ranges[1..], forDate) by {
        if Within(check, ranges, forDate) {
          var i :| 0 <= i < |ranges| && Covers(ranges[i], check, forDate);
          assert i != 0;
          assert ranges[1..][i - 1] == ranges[i];
        }
      }
      assert Within(check, ranges[1..], forDate) ==> Within(check, ranges, forDate) by {
        if Within(check, ranges[1..], forDate) {
          var i :| 0 <= i < |ranges[1..]| && Covers(ranges[1..][i], check, forDate);
          assert ranges[i + 1] == ranges[1..][i];
        }
      }
      rest
  }

  /** The type of the slot starting at `t`: house visit first, then administration. */
  function Classify(t: DateTime, day: DayPlan, forDate: Date): (r: SlotType)
    ensures r == HouseVisit <==> Within(t, day.houseVisit, forDate)
    ensures r == Admin <==> !Within(t, day.houseVisit, forDate) && Within(t, day.admin, forDate)
    ensures r == Treatment <==> !Within(t, day.houseVisit, forDate) && !Within(t, day.admin, forDate)
  {
    if IsInRanges(t, day.houseVisit, forDate) then HouseVisit
    else if IsInRanges(t, day.admin, forDate) then Admin
    else Treatment
  }

  /**
   The day's slots: none on a weekday without a plan entry; otherwise
   20-minute slots back to back from opening until no further slot fits
   before closing, each typed by where its start instant falls.
   */
  function GenerateKrebsSlots(forDate: Date): (r: seq<SlotModel>)
    ensures Weekday(forDate) !in WeeklyPlan ==> r == []
    ensures Weekday(forDate) in WeeklyPlan ==>
              var day := WeeklyPlan[Weekday(forDate)];
              SlotGrid.Grid(r, Combine(forDate, day.openAt), Combine(forDate, day.closeAt), SlotDurationMinutes)
    ensures forall i :: 0 <= i < |r| ==>
              var day := WeeklyPlan[Weekday(forDate)];
              && (r[i].slotType == HouseVisit <==> Within(r[i].startTime, day.houseVisit, forDate))
              && (r[i].slotType == Admin <==>
                    !Within(r[i].startTime, day.houseVisit, forDate) && Within(r[i].startTime, day.admin, forDate))
  {
    var weekday := Weekday(forDate);
    if weekday !in WeeklyPlan then
      []
    else
      var day := WeeklyPlan[weekday];
      SlotGrid.Lay(Combine(forDate, day.openAt), Combine(forDate, day.closeAt), SlotDurationMinutes,
                   t => Classify(t, day, forDate))
  }

  /** Every plan entry opens before it closes and lies within one day. */
  lemma WeeklyPlanIsWithinOneDay()
    ensures forall w :: w in WeeklyPlan ==> 0 <= WeeklyPlan[w].openAt < WeeklyPlan[w].closeAt <= Time(19, 0)
    ensures forall w :: w in WeeklyPlan <==> 0 <= w <= 5
  {
  }

  /** Sunday has no plan entry, so it has no slots. */
  lemma SundayHasNoSlots(forDate: Date)
    requires Weekday(forDate) == 6
    ensures GenerateKrebsSlots(forDate) == []
  {
  }

  /**
   On a planned weekday the slot count is the whole number of 20-minute
   periods between opening and closing; the first slot starts at opening,
   the last ends by closing, and all of them fall on the requested date.
   */
  lemma KrebsSlotCount(forDate: Date)
    requires Weekday(forDate) in WeeklyPlan
    ensures var day := WeeklyPlan[Weekday(forDate)];
            var r := GenerateKrebsSlots(forDate);
            && |r| == (day.closeAt - day.openAt) / SlotDurationMinutes
            && r[0].startTime == Combine(forDate, day.openAt)
            && r[|r| - 1].endTime.minutes <= Combine(forDate, day.closeAt).minutes
            && forall i :: 0 <= i < |r| ==> DateOf(r[i].startTime) == forDate && DateOf(r[i].endTime) == forDate
  {
    WeeklyPlanIsWithinOneDay();
    var day := WeeklyPlan[Weekday(forDate)];
    var r := GenerateKrebsSlots(forDate);
    var base := forDate.ordinal * MinutesPerDay;
    assert |r| > 0;
    forall i | 0 <= i < |r|
      ensures DateOf(r[i].startTime) == forDate && DateOf(r[i].endTime) == forDate
    {
      assert base <= r[i].startTime.minutes < r[i].endTime.minutes <= base + day.closeAt;
      assert r[i].startTime.minutes / MinutesPerDay == forDate.ordinal;
      assert r[i].endTime.minutes / MinutesPerDay == forDate.ordinal;
    }
  }

  /** Friday 14:00-18:30 holds 13 slots; the last ends at 18:20 and the 10-minute remainder is dropped. */
  lemma FridayDropsRemainder(forDate: Date)
    requires Weekday(forDate) == 4
    ensures var r := GenerateKrebsSlots(forDate);
            |r| == 13 && r[12].endTime == Combine(forDate, Time(18, 20))
  {
  }

  /**
   Only the start instant classifies a slot: Monday's 10:50 slot is
   administrative although it runs to 11:10, past the 10:30-11:00 range.
   */
  lemma MondayAdminSlotCrossesRangeEnd(forDate: Date)
    requires Weekday(forDate) == 0
    ensures var r := GenerateKrebsSlots(forDate);
            && |r| > 7
            && r[7].startTime == Combine(forDate, Time(10, 50))
            && r[7].endTime == Combine(forDate, Time(11, 10))
            && r[7].slotType == Admin
            && !r[7].isBookable
  {
    var r := GenerateKrebsSlots(forDate);
    var day := WeeklyPlan[0];
    assert Covers(day.admin[1], r[7].startTime, forDate);
  }

  /**
   An administrative range lying before opening never marks a slot:
   Monday's 08:00-08:30 range is dead, and the first Monday slot, at 08:30,
   is a bookable treatment slot.
   */
  lemma MondayFirstSlotIsTreatment(forDate: Date)
    requires Weekday(forDate) == 0
    ensures var r := GenerateKrebsSlots(forDate);
            && |r| > 0
            && r[0].startTime == Combine(forDate, Time(8, 30))
            && r[0].slotType == Treatment
            && r[0].isBookable
  {
  }

  /** On Tuesday every slot starting in [08:30, 14:00) is a house visit. */
  lemma TuesdayMorningIsHouseVisit(forDate: Date)
    requires Weekday(forDate) == 1
    ensures var r := GenerateKrebsSlots(forDate);
            && |r| > 0
            && forall i :: 0 <= i < |r| && Combine(forDate, Time(8, 30)).minutes <= r[i].startTime.minutes < Combine(forDate, Time(14, 0)).minutes
                 ==> r[i].slotType == HouseVisit && !r[i].isBookable
  {
  }

  /** On Wednesday every slot starting in [15:00, 18:00) is a house visit. */
  lemma WednesdayAfternoonIsHouseVisit(forDate: Date)
    requires Weekday(forDate) == 2
    ensures var r := GenerateKrebsSlots(forDate);
            && |r| > 26
            && forall i :: 0 <= i < |r| && Combine(forDate, Time(15, 0)).minutes <= r[i].startTime.minutes < Combine(forDate, Time(18, 0)).minutes
                 ==> r[i].slotType == HouseVisit && !r[i].isBookable
  {
  }

  /**
   Wednesday's 14:50 slot is a bookable treatment slot although it runs
   into the house-visit block that starts at 15:00; the first house-visit
   slot is the 15:10 one.
   */
  lemma WednesdaySlotStraddlesHouseVisit(forDate: Date)
    requires Weekday(forDate) == 2
    ensures var r := GenerateKrebsSlots(forDate);
            && |r| > 26
            && r[25].startTime == Combine(forDate, Time(14, 50))
            && r[25].endTime == Combine(forDate, Time(15, 10))
            && r[25].slotType == Treatment
            && r[26].slotType == HouseVisit
  {
  }

  /** Tuesday's last slot, 18:30-18:50, is a bookable treatment slot. */
  lemma TuesdayAfternoonIsBookable(forDate: Date)
    requires Weekday(forDate) == 1
    ensures var r := GenerateKrebsSlots(forDate);
            && |r| == 31
            && r[30].startTime == Combine(forDate, Time(18, 30))
            && r[30].slotType == Treatment
            && r[30].isBookable
  {
  }
}
