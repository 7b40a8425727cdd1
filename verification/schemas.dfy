/**
 The value types shared by the slot generators, the dispatcher and the
 booking policies: practice identifiers, slot and ticket enumerations, the
 slot record, the booking request and the two outcome records.

 Calendar values are integers. A `Date` is a proleptic Gregorian day number
 (day 1 is 0001-01-01, a Monday), a time of day is a count of minutes since
 midnight, and a `DateTime` is a count of minutes since the start of day 0,
 so combining a date with a time of day is plain addition.
 */
module Schemas {
  import opened Optional

  // ---------------------------------------------------------------------
  // Calendar values
  // ---------------------------------------------------------------------

  const MinutesPerDay: int := 1440

  /** A calendar date, as its proleptic Gregorian ordinal. */
  datatype Date = Date(ordinal: int)

  /** An instant with minute resolution, counted from the start of day 0. */
  datatype DateTime = DateTime(minutes: int)

  /** A time of day `hh:mm`, in minutes since midnight. */
  function Time(hour: int, minute: int): (t: int)
    requires 0 <= hour < 24 && 0 <= minute < 60
    ensures 0 <= t < MinutesPerDay
    ensures t / 60 == hour && t % 60 == minute
  {
    hour * 60 + minute
  }

  /** Monday is 0 and Sunday is 6, whatever the sign of the ordinal. */
  function Weekday(d: Date): (w: int)
    ensures 0 <= w < 7
  {
    (d.ordinal + 6) % 7
  }

  /** The instant at time of day `t` on date `d`. */
  function Combine(d: Date, t: int): DateTime
  {
    DateTime(d.ordinal * MinutesPerDay + t)
  }

  /** The calendar date on which an instant falls. */
  function DateOf(dt: DateTime): Date
  {
    Date(dt.minutes / MinutesPerDay)
  }

  function AddMinutes(dt: DateTime, m: int): DateTime
  {
    DateTime(dt.minutes + m)
  }

  /** Combining a date with a time of day and taking the date back is the identity. */
  lemma DateOfCombine(d: Date, t: int)
    requires 0 <= t < MinutesPerDay
    ensures DateOf(Combine(d, t)) == d
  {
  }

  // ---------------------------------------------------------------------
  // Enumerations
  // ---------------------------------------------------------------------

  datatype PracticeId = PhysioKrebsNottuln | PhysioDefault20 | PhysioDefault30

  /** The string value each practice identifier stands for. */
  function PracticeValue(p: PracticeId): string
  {
    match p
    case PhysioKrebsNottuln => "physio_krebs_nottuln"
    case PhysioDefault20 => "physio_default_20min"
    case PhysioDefault30 => "physio_default_30min"
  }

  const AllPracticeIds: set<PracticeId> := {PhysioKrebsNottuln, PhysioDefault20, PhysioDefault30}

  /** Exactly three tenants, with pairwise distinct string values. */
  lemma PracticeIdIsClosed()
    ensures forall p: PracticeId :: p in AllPracticeIds
    ensures |AllPracticeIds| == 3
    ensures forall p, q: PracticeId :: PracticeValue(p) == PracticeValue(q) ==> p == q
  {
    forall p: PracticeId
      ensures p in AllPracticeIds
    {
      match p
      case PhysioKrebsNottuln =>
      case PhysioDefault20 =>
      case PhysioDefault30 =>
    }
  }

  datatype SlotType = Treatment | Admin | HouseVisit

  const AllSlotTypes: set<SlotType> := {Treatment, Admin, HouseVisit}

  datatype TicketStatus = Open | Booked | Callback | Closed

  const AllTicketStatuses: set<TicketStatus> := {Open, Booked, Callback, Closed}

  /** Exactly three slot types. */
  lemma SlotTypeIsClosed()
    ensures forall t: SlotType :: t in AllSlotTypes
    ensures |AllSlotTypes| == 3
  {
    forall t: SlotType
      ensures t in AllSlotTypes
    {
      match t
      case Treatment =>
      case Admin =>
      case HouseVisit =>
    }
  }

  /** Exactly four ticket statuses. */
  lemma TicketStatusIsClosed()
    ensures forall s: TicketStatus :: s in AllTicketStatuses
    ensures |AllTicketStatuses| == 4
  {
    forall s: TicketStatus
      ensures s in AllTicketStatuses
    {
      match s
      case Open =>
      case Booked =>
      case Callback =>
      case Closed =>
    }
  }

  // ---------------------------------------------------------------------
  // Records. A parameter with a default value is a field the source
  // declares with a default; instants the source takes from the clock
  // and identifiers it draws at random are ordinary parameters.
  // ---------------------------------------------------------------------

  datatype SlotModel = SlotModel(
    startTime: DateTime,
    endTime: DateTime,
    durationMinutes: int,
    slotType: SlotType,
    isBookable: bool := true
  )

  datatype BookingRequest = BookingRequest(
    practiceId: PracticeId,
    patientName: string,
    patientPhone: Option<string> := None,
    patientEmail: Option<string> := None,
    requestedDate: Date,
    requestedTime: Option<string> := None,
    createdAt: DateTime
  )

  datatype TicketModel = TicketModel(
    ticketId: Option<string> := None,
    practiceId: PracticeId,
    bookingRequest: BookingRequest,
    slot: Option<SlotModel> := None,
    status: TicketStatus,
    message: Option<string> := None,
    createdAt: DateTime
  )

  datatype CallbackTicket = CallbackTicket(
    ticketId: string,
    practiceId: PracticeId := PhysioDefault20,
    patientName: string := "Unbekannt (Voice)",
    patientPhone: Option<string> := None,
    reason: string,
    status: TicketStatus := Callback,
    createdAt: DateTime
  )

  /** A slot built without an explicit bookability flag is bookable. */
  lemma SlotIsBookableByDefault(start: DateTime, end: DateTime, duration: int, kind: SlotType)
    ensures SlotModel(start, end, duration, kind).isBookable
  {
  }

  /** Phone, e-mail and requested time of a booking request are optional and start out absent. */
  lemma BookingRequestDefaults(p: PracticeId, name: string, d: Date, at: DateTime)
    ensures var req := BookingRequest(p, name, requestedDate := d, createdAt := at);
            req.patientPhone == None && req.patientEmail == None && req.requestedTime == None
  {
  }

  /** Identifier, slot and message of a ticket are optional and start out absent. */
  lemma TicketModelDefaults(p: PracticeId, req: BookingRequest, s: TicketStatus, at: DateTime)
    ensures var t := TicketModel(practiceId := p, bookingRequest := req, status := s, createdAt := at);
            t.ticketId == None && t.slot == None && t.message == None
  {
  }

  /** A callback ticket given only its identifier, reason and time is an anonymous voice callback. */
  lemma CallbackTicketDefaults(id: string, reason: string, at: DateTime)
    ensures var c := CallbackTicket(id, reason := reason, createdAt := at);
            && c.status == Callback
            && c.practiceId == PhysioDefault20
            && c.patientName == "Unbekannt (Voice)"
            && c.patientPhone == None
  {
  }
}
