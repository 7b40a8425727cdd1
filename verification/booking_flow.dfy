/**
 The booking decision engine. Two policies turn a day's slot catalog into
 either a booked ticket or a callback ticket:

 - the request policy (form, dashboard, API) asks for a callback when the
   day has no slots or contains a house visit anywhere, and otherwise books
   the first bookable slot, falling back to a callback;
 - the voice shortcut books the chronologically first slot of any
   non-empty catalog, with no further checks.

 Ticket identifiers and creation instants come from a random source and
 the clock; both are parameters here.
 */
module BookingFlow {
  import opened Optional
  import opened Schemas
  import SlotGrid
  import Dispatcher
  import Default20
  import KrebsNottuln

  const ReasonNoSlots: string := "Keine verfügbaren Slots an diesem Tag"
  const ReasonHouseVisit: string := "Hausbesuch – Rückruf erforderlich"
  const ReasonNoBookableSlot: string := "Kein buchbarer Slot gefunden"
  const ReasonVoiceNoSlot: string := "Kein Slot verfügbar – Rückruf notwendig"
  const MessageBooked: string := "Termin gebucht"
  const MessageVoiceBooked: string := "Termin gebucht (Voice)"

  /** The two outcomes a policy can return. */
  datatype Decision = Ticketed(ticket: TicketModel) | CallbackNeeded(callback: CallbackTicket)

  // ---------------------------------------------------------------------
  // Catalog scans
  // ---------------------------------------------------------------------

  ghost predicate HasHouseVisit(slots: seq<SlotModel>)
  {
    exists i :: 0 <= i < |slots| && slots[i].slotType == HouseVisit
  }

  ghost predicate HasBookable(slots: seq<SlotModel>)
  {
    exists i :: 0 <= i < |slots| && slots[i].isBookable
  }

  /** `k` is the position of the first bookable slot. */
  ghost predicate FirstBookableAt(slots: seq<SlotModel>, k: int)
  {
    && 0 <= k < |slots|
    && slots[k].isBookable
    && forall j :: 0 <= j < k ==> !slots[j].isBookable
  }

  /** Scans the catalog in order for a house-visit slot. */
  function AnyHouseVisit(slots: seq<SlotModel>): (b: bool)
    ensures b <==> HasHouseVisit(slots)
  {
    if |slots| == 0 then
      false
    else if slots[0].slotType == HouseVisit then
      true
    else
      var b := AnyHouseVisit(slots[1..]);
      assert HasHouseVisit(slots[1..]) ==> HasHouseVisit(slots) by {
        if HasHouseVisit(slots[1..]) {
          var i :| 0 <= i < |slots[1..]| && slots[1..][i].slotType == HouseVisit;
          assert slots[i + 1] == slots[1..][i];
        }
      }
      assert HasHouseVisit(slots) ==> HasHouseVisit(slots[1..]) by {
        if HasHouseVisit(slots) {
          var i :| 0 <= i < |slots| && slots[i].slotType == HouseVisit;
          assert slots[1..][i - 1] == slots[i];
        }
      }
      b
  }

  /** Scans the catalog in order for the first bookable slot, returning its position. */
  function FirstBookable(slots: seq<SlotModel>): (k: Option<nat>)
    ensures k.None? <==> !HasBookable(slots)
    ensures k.Some? ==> FirstBookableAt(slots, k.value)
  {
    if |slots| == 0 then
      None
    else if slots[0].isBookable then
      Some(0)
    else
      match FirstBookable(slots[1..])
      case None =>
        assert !HasBookable(slots) by {
          forall i | 0 <= i < |slots|
            ensures !slots[i].isBookable
          {
            if i > 0 {
              assert slots[1..][i - 1] == slots[i];
            }
          }
        }
        None
      case Some(k) =>
        assert slots[k + 1] == slots[1..][k];
        assert FirstBookableAt(slots, k + 1) by {
          forall j | 0 <= j < k + 1
            ensures !slots[j].isBookable
          {
            if j > 0 {
              assert slots[1..][j - 1] == slots[j];
            }
          }
        }
        Some(k + 1)
  }

  // ---------------------------------------------------------------------
  // Outcome shapes
  // ---------------------------------------------------------------------

  /** `r` is a callback for the request's patient and practice, with the given reason. */
  ghost predicate IsCallbackFor(r: Decision, practiceId: PracticeId, name: string, phone: Option<string>,
                                reason: string, ticketId: string, now: DateTime)
  {
    && r.CallbackNeeded?
    && r.callback.reason == reason
    && r.callback.practiceId == practiceId
    && r.callback.patientName == name
    && r.callback.patientPhone == phone
    && r.callback.status == Callback
    && r.callback.ticketId == ticketId
    && r.callback.createdAt == now
  }

  /** `r` is a booked ticket for `slot`, embedding `request`. */
  ghost predicate IsTicketFor(r: Decision, practiceId: PracticeId, request: BookingRequest, slot: SlotModel,
                              message: string, ticketId: string, now: DateTime)
  {
    && r.Ticketed?
    && r.ticket.slot == Some(slot)
    && r.ticket.practiceId == practiceId
    && r.ticket.bookingRequest == request
    && r.ticket.status == Booked
    && r.ticket.message == Some(message)
    && r.ticket.ticketId == Some(ticketId)
    && r.ticket.createdAt == now
  }

  function CallbackFor(practiceId: PracticeId, name: string, phone: Option<string>, reason: string,
                       ticketId: string, now: DateTime): CallbackTicket
  {
    CallbackTicket(ticketId, practiceId, name, phone, reason, createdAt := now)
  }

  // ---------------------------------------------------------------------
  // The request policy
  // ---------------------------------------------------------------------

  /**
   The request policy applied to a day's catalog. The checks run in a
   fixed order and the first that applies decides: an empty catalog, a
   house visit anywhere that day, a first bookable slot, and otherwise no
   bookable slot.
   */
  function DecideOnCatalog(request: BookingRequest, slots: seq<SlotModel>, ticketId: string, now: DateTime): (r: Decision)
    ensures |slots| == 0 ==>
              IsCallbackFor(r, request.practiceId, request.patientName, request.patientPhone, ReasonNoSlots, ticketId, now)
    ensures |slots| > 0 && HasHouseVisit(slots) ==>
              IsCallbackFor(r, request.practiceId, request.patientName, request.patientPhone, ReasonHouseVisit, ticketId, now)
    ensures !HasHouseVisit(slots) && HasBookable(slots) ==>
              exists k :: FirstBookableAt(slots, k) && IsTicketFor(r, request.practiceId, request, slots[k], MessageBooked, ticketId, now)
    ensures |slots| > 0 && !HasHouseVisit(slots) && !HasBookable(slots) ==>
              IsCallbackFor(r, request.practiceId, request.patientName, request.patientPhone, ReasonNoBookableSlot, ticketId, now)
    ensures r.Ticketed? ==>
              && !HasHouseVisit(slots)
              && exists k :: FirstBookableAt(slots, k) && r.ticket.slot == Some(slots[k])
  {
    if |slots| == 0 then
      CallbackNeeded(CallbackFor(request.practiceId, request.patientName, request.patientPhone, ReasonNoSlots, ticketId, now))
    else if AnyHouseVisit(slots) then
      CallbackNeeded(CallbackFor(request.practiceId, request.patientName, request.patientPhone, ReasonHouseVisit, ticketId, now))
    else
      match FirstBookable(slots)
      case Some(k) =>
        Ticketed(TicketModel(
          ticketId := Some(ticketId),
          practiceId := request.practiceId,
          bookingRequest := request,
          slot := Some(slots[k]),
          status := Booked,
          message := Some(MessageBooked),
          createdAt := now))
      case None =>
        CallbackNeeded(CallbackFor(request.practiceId, request.patientName, request.patientPhone, ReasonNoBookableSlot, ticketId, now))
  }

  /** The request policy on the catalog the dispatcher produces for the requested practice and date. */
  function ProcessBookingRequest(request: BookingRequest, default30: Date -> seq<SlotModel>, ticketId: string, now: DateTime): (r: Decision)
    ensures r.Ticketed? ==>
              && r.ticket.bookingRequest == request
              && r.ticket.slot.Some?
              && r.ticket.slot.value.isBookable
              && r.ticket.slot.value in Dispatcher.GetSlotsForPractice(request.practiceId, request.requestedDate, default30)
    ensures r.CallbackNeeded? ==>
              && r.callback.practiceId == request.practiceId
              && r.callback.reason in {ReasonNoSlots, ReasonHouseVisit, ReasonNoBookableSlot}
  {
    var slots := Dispatcher.GetSlotsForPractice(request.practiceId, request.requestedDate, default30);
    DecideOnCatalog(request, slots, ticketId, now)
  }

  /** Everything in two outcomes agrees except, for a ticket, the embedded request. */
  ghost predicate SameOutcome(a: Decision, b: Decision)
  {
    && a.Ticketed? == b.Ticketed?
    && (a.Ticketed? ==> a.ticket == b.ticket.(bookingRequest := a.ticket.bookingRequest))
    && (a.CallbackNeeded? ==> a.callback == b.callback)
  }

  /** The requested time of day and the e-mail address never influence the decision. */
  lemma RequestedTimeAndEmailAreIgnored(request: BookingRequest, time: Option<string>, email: Option<string>,
                                        default30: Date -> seq<SlotModel>, ticketId: string, now: DateTime)
    ensures SameOutcome(ProcessBookingRequest(request, default30, ticketId, now),
                        ProcessBookingRequest(request.(requestedTime := time, patientEmail := email), default30, ticketId, now))
  {
  }

  // ---------------------------------------------------------------------
  // The voice shortcut
  // ---------------------------------------------------------------------

  /** The voice policy applied to a day's catalog: the first slot, whatever it is, or a callback. */
  function AutoBookOnCatalog(practiceId: PracticeId, name: string, phone: string, forDate: Date, slots: seq<SlotModel>,
                             ticketId: string, requestCreatedAt: DateTime, now: DateTime): (r: Decision)
    ensures |slots| == 0 ==> IsCallbackFor(r, practiceId, name, Some(phone), ReasonVoiceNoSlot, ticketId, now)
    ensures |slots| > 0 ==>
              IsTicketFor(r, practiceId,
                          BookingRequest(practiceId, name, Some(phone), requestedDate := forDate, createdAt := requestCreatedAt),
                          slots[0], MessageVoiceBooked, ticketId, now)
  {
    if |slots| == 0 then
      CallbackNeeded(CallbackFor(practiceId, name, Some(phone), ReasonVoiceNoSlot, ticketId, now))
    else
      Ticketed(TicketModel(
        ticketId := Some(ticketId),
        practiceId := practiceId,
        bookingRequest := BookingRequest(practiceId, name, Some(phone), requestedDate := forDate, createdAt := requestCreatedAt),
        slot := Some(slots[0]),
        status := Booked,
        message := Some(MessageVoiceBooked),
        createdAt := now))
  }

  /** The voice policy on the catalog the dispatcher produces for the practice and date. */
  function AutoBookFromVoice(practiceId: PracticeId, name: string, phone: string, forDate: Date,
                             default30: Date -> seq<SlotModel>, ticketId: string,
                             requestCreatedAt: DateTime, now: DateTime): (r: Decision)
    ensures r.Ticketed? <==> |Dispatcher.GetSlotsForPractice(practiceId, forDate, default30)| > 0
    ensures r.Ticketed? ==>
              && r.ticket.slot == Some(Dispatcher.GetSlotsForPractice(practiceId, forDate, default30)[0])
              && r.ticket.bookingRequest.requestedDate == forDate
              && r.ticket.bookingRequest.practiceId == practiceId
              && r.ticket.status == Booked
  {
    var slots := Dispatcher.GetSlotsForPractice(practiceId, forDate, default30);
    AutoBookOnCatalog(practiceId, name, phone, forDate, slots, ticketId, requestCreatedAt, now)
  }

  // ---------------------------------------------------------------------
  // The policies on the generated catalogs
  // ---------------------------------------------------------------------

  /**
   A ticket from the request policy for a practice whose generator is part
   of this model always holds a treatment slot, never a blocked one.
   */
  lemma BookedSlotIsTreatment(request: BookingRequest, default30: Date -> seq<SlotModel>, ticketId: string, now: DateTime)
    requires request.practiceId != PhysioDefault30
    ensures var r := ProcessBookingRequest(request, default30, ticketId, now);
            r.Ticketed? ==> r.ticket.slot.Some? && r.ticket.slot.value.slotType == Treatment
  {
  }

  /**
   At the Krebs practice every Tuesday and every Wednesday has a house-visit
   block, so the request policy always answers with a house-visit callback
   on those days, although both days also have bookable slots.
   */
  lemma KrebsHouseVisitDaysEndInCallback(request: BookingRequest, default30: Date -> seq<SlotModel>, ticketId: string, now: DateTime)
    requires request.practiceId == PhysioKrebsNottuln
    requires Weekday(request.requestedDate) == 1 || Weekday(request.requestedDate) == 2
    ensures HasBookable(KrebsNottuln.GenerateKrebsSlots(request.requestedDate))
    ensures IsCallbackFor(ProcessBookingRequest(request, default30, ticketId, now), request.practiceId, request.patientName,
                          request.patientPhone, ReasonHouseVisit, ticketId, now)
  {
    var d := request.requestedDate;
    var slots := KrebsNottuln.GenerateKrebsSlots(d);
    KrebsNottuln.KrebsSlotCount(d);
    if Weekday(d) == 1 {
      KrebsNottuln.TuesdayMorningIsHouseVisit(d);
      assert slots[0].slotType == HouseVisit;
      KrebsNottuln.TuesdayAfternoonIsBookable(d);
      assert slots[|slots| - 1].isBookable;
    } else {
      KrebsNottuln.WednesdaySlotStraddlesHouseVisit(d);
      assert slots[26].slotType == HouseVisit;
      assert slots[25].isBookable;
    }
  }

  /**
   The two policies disagree on a Krebs Tuesday: the request policy asks
   for a callback, while the voice shortcut books the day's first slot,
   which is a house visit and not bookable.
   */
  lemma VoiceBooksBlockedSlotOnKrebsTuesday(forDate: Date, name: string, phone: string, default30: Date -> seq<SlotModel>,
                                            ticketId: string, requestCreatedAt: DateTime, now: DateTime)
    requires Weekday(forDate) == 1
    ensures var v := AutoBookFromVoice(PhysioKrebsNottuln, name, phone, forDate, default30, ticketId, requestCreatedAt, now);
            && v.Ticketed?
            && v.ticket.slot.Some?
            && v.ticket.slot.value.slotType == HouseVisit
            && !v.ticket.slot.value.isBookable
    ensures var request := BookingRequest(PhysioKrebsNottuln, name, Some(phone), requestedDate := forDate, createdAt := requestCreatedAt);
            ProcessBookingRequest(request, default30, ticketId, now).CallbackNeeded?
  {
  }

  /** The standard practice books 08:00 on any weekday and calls back at the weekend. */
  lemma Default20BooksEightOClock(request: BookingRequest, default30: Date -> seq<SlotModel>, ticketId: string, now: DateTime)
    requires request.practiceId == PhysioDefault20
    ensures var r := ProcessBookingRequest(request, default30, ticketId, now);
            && (Weekday(request.requestedDate) < 5 ==>
                  r.Ticketed? && r.ticket.slot.Some? && r.ticket.slot.value.startTime == Combine(request.requestedDate, Time(8, 0)))
            && (Weekday(request.requestedDate) >= 5 ==>
                  IsCallbackFor(r, request.practiceId, request.patientName, request.patientPhone, ReasonNoSlots, ticketId, now))
  {
  }

  /** The Krebs practice has no Sunday plan, so a Sunday request always ends in a no-slots callback. */
  lemma KrebsSundayEndsInCallback(request: BookingRequest, default30: Date -> seq<SlotModel>, ticketId: string, now: DateTime)
    requires request.practiceId == PhysioKrebsNottuln
    requires Weekday(request.requestedDate) == 6
    ensures IsCallbackFor(ProcessBookingRequest(request, default30, ticketId, now), request.practiceId, request.patientName,
                          request.patientPhone, ReasonNoSlots, ticketId, now)
  {
  }

  /**
   For the default-20 practice, which the telephone handlers always book
   for, the voice shortcut can only ever book a bookable treatment slot,
   because that generator produces nothing else.
   */
  lemma VoiceOnDefault20BooksTreatment(name: string, phone: string, forDate: Date, default30: Date -> seq<SlotModel>,
                                       ticketId: string, requestCreatedAt: DateTime, now: DateTime)
    ensures var v := AutoBookFromVoice(PhysioDefault20, name, phone, forDate, default30, ticketId, requestCreatedAt, now);
            && (v.Ticketed? <==> Weekday(forDate) < 5)
            && (v.Ticketed? ==> v.ticket.slot.Some? && v.ticket.slot.value.slotType == Treatment && v.ticket.slot.value.isBookable)
  {
  }
}
