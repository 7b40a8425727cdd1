/**
 The dashboard's two views over a list of tickets: per-status tallies and
 the tickets created today. Loading the tickets and reading today's date
 are left to the caller, which passes both in.
 */
module Dashboard {
  import opened Schemas

  datatype Stats = Stats(total: nat, open: nat, booked: nat, callback: nat, closed: nat)

  /** The status of each ticket, in order. */
  function Statuses(tickets: seq<TicketModel>): seq<TicketStatus>
  {
    seq(|tickets|, i requires 0 <= i < |tickets| => tickets[i].status)
  }

  /** How many of the tickets have status `s`. */
  ghost function CountOf(tickets: seq<TicketModel>, s: TicketStatus): nat
  {
    multiset(Statuses(tickets))[s]
  }

  /**
   The tallies: the number of tickets, and for each of the four statuses
   the number of tickets with that status. As every ticket has exactly one
   of the four, the four tallies add up to the total.
   */
  method DashboardStats(tickets: seq<TicketModel>) returns (stats: Stats)
    ensures stats.total == |tickets|
    ensures stats.open == CountOf(tickets, Open)
    ensures stats.booked == CountOf(tickets, Booked)
    ensures stats.callback == CountOf(tickets, Callback)
    ensures stats.closed == CountOf(tickets, Closed)
    ensures stats.open + stats.booked + stats.callback + stats.closed == stats.total
  {
    stats := Stats(|tickets|, 0, 0, 0, 0);
    var i := 0;
    while i < |tickets|
      invariant 0 <= i <= |tickets|
      invariant stats.total == |tickets|
      invariant stats.open == multiset(Statuses(tickets[..i]))[Open]
      invariant stats.booked == multiset(Statuses(tickets[..i]))[Booked]
      invariant stats.callback == multiset(Statuses(tickets[..i]))[Callback]
      invariant stats.closed == multiset(Statuses(tickets[..i]))[Closed]
      invariant stats.open + stats.booked + stats.callback + stats.closed == i
    {
      var ticket := tickets[i];
      assert Statuses(tickets[..i + 1]) == Statuses(tickets[..i]) + [ticket.status];
      match ticket.status {
        case Open => stats := stats.(open := stats.open + 1);
        case Booked => stats := stats.(booked := stats.booked + 1);
        case Callback => stats := stats.(callback := stats.callback + 1);
        case Closed => stats := stats.(closed := stats.closed + 1);
      }
      i := i + 1;
    }
    assert tickets[..i] == tickets;
  }

  /** The tickets created on `today`, in their original order. */
  function DashboardToday(tickets: seq<TicketModel>, today: Date): (r: seq<TicketModel>)
    ensures |r| <= |tickets|
    ensures forall t :: t in r <==> t in tickets && DateOf(t.createdAt) == today
  {
    if |tickets| == 0 then
      []
    else
      var rest := DashboardToday(tickets[1..], today);
      assert forall t :: t in tickets <==> t == tickets[0] || t in tickets[1..];
      if DateOf(tickets[0].createdAt) == today then [tickets[0]] + rest else rest
  }

  /**
   Filtering a concatenation is concatenating the filtered parts: together
   with the single-ticket case this pins the result down as the
   order-preserving selection of today's tickets.
   */
  lemma {:induction false} DashboardTodayDistributes(a: seq<TicketModel>, b: seq<TicketModel>, today: Date)
    ensures DashboardToday(a + b, today) == DashboardToday(a, today) + DashboardToday(b, today)
    decreases |a|
  {
    if |a| == 0 {
      assert a + b == b;
    } else {
      assert (a + b)[1..] == a[1..] + b;
      DashboardTodayDistributes(a[1..], b, today);
    }
  }

  /** A single ticket is kept exactly when it was created today. */
  lemma DashboardTodaySingle(t: TicketModel, today: Date)
    ensures DashboardToday([t], today) == if DateOf(t.createdAt) == today then [t] else []
  {
  }
}
