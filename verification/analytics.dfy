/** Organizer analytics: totals over the caller's events and per-event
    figures, served through a module-level cache. */
module Analytics {
  import opened Records
  import opened DocumentStore
  import Tickets

  const OrganizersAnalyticsOnly := "Forbidden - Only organizers can access analytics"

  /** A cache key: `allAnalytics-<user id>` or `eventAnalytics-<event id>`.
      The two prefixes differ, so the two kinds never collide. */
  datatype CacheKey = AllAnalytics(userId: UserId) | EventAnalytics(eventId: EventId)

  /** The two analytics bodies. */
  datatype Stats =
    | Overall(totalApplicants: nat, totalTicketSold: int, totalScannedTickets: nat)
    | PerEvent(applicants: nat, ticketsSold: int, scannedTickets: nat)

  /** `tickets.filter(t => t.scanned).length`: the number of scanned tickets. */
  function ScannedCount(tickets: seq<Ticket>): (n: nat)
    ensures n == |set i | 0 <= i < |tickets| && tickets[i].scanned|
    ensures n <= |tickets|
    ensures n == 0 <==> forall i :: 0 <= i < |tickets| ==> !tickets[i].scanned
  {
    var isScanned := (t: Ticket) => t.scanned;
    var scanned := Filter(tickets, isScanned);
    FilterCount(tickets, isScanned);
    assert Matches(tickets, isScanned) == set i | 0 <= i < |tickets| && tickets[i].scanned;
    assert |scanned| > 0 ==> exists j :: 0 <= j < |tickets| && tickets[j] == scanned[0];
    |scanned|
  }

  /** The three reductions of `getAllEventAnalytics`, one event at a time. */
  function SumApplicants(events: seq<Event>): nat
  {
    if |events| == 0 then 0 else |events[0].applicants| + SumApplicants(events[1..])
  }

  function SumSold(events: seq<Event>): int
  {
    if |events| == 0 then 0 else SoldOrZero(events[0]) + SumSold(events[1..])
  }

  function SumScanned(events: seq<Event>): nat
  {
    if |events| == 0 then 0 else ScannedCount(events[0].tickets) + SumScanned(events[1..])
  }

  /** The number of embedded tickets over all the events. */
  function SumTickets(events: seq<Event>): nat
  {
    if |events| == 0 then 0 else |events[0].tickets| + SumTickets(events[1..])
  }

  /** The overall figures for a list of events. */
  function OverallStats(events: seq<Event>): Stats
  {
    Overall(SumApplicants(events), SumSold(events), SumScanned(events))
  }

  /** The figures of `getSingleEventAnalytics` for one event. */
  function EventStats(e: Event): Stats
  {
    PerEvent(|e.applicants|, SoldOrZero(e), ScannedCount(e.tickets))
  }

  /** The scanned total never exceeds the number of embedded tickets. */
  lemma {:induction false} ScannedWithinTickets(events: seq<Event>)
    ensures SumScanned(events) <= SumTickets(events)
  {
    if |events| > 0 {
      ScannedWithinTickets(events[1..]);
    }
  }

  /** The totals of two lists of events add up. */
  lemma {:induction false} TotalsAdd(a: seq<Event>, b: seq<Event>)
    ensures SumApplicants(a + b) == SumApplicants(a) + SumApplicants(b)
    ensures SumSold(a + b) == SumSold(a) + SumSold(b)
    ensures SumScanned(a + b) == SumScanned(a) + SumScanned(b)
  {
    if |a| > 0 {
      assert (a + b)[1..] == a[1..] + b;
      TotalsAdd(a[1..], b);
    } else {
      assert a + b == b;
    }
  }

  /** The overall figures for a single event are its per-event figures. */
  lemma OverallOfOneEvent(e: Event)
    ensures OverallStats([e]).totalApplicants == EventStats(e).applicants
    ensures OverallStats([e]).totalTicketSold == EventStats(e).ticketsSold
    ensures OverallStats([e]).totalScannedTickets == EventStats(e).scannedTickets
  {
    assert [e][1..] == [];
    assert SumApplicants([e]) == |e.applicants| + SumApplicants([]);
    assert SumSold([e]) == SoldOrZero(e) + SumSold([]);
    assert SumScanned([e]) == ScannedCount(e.tickets) + SumScanned([]);
  }

  /** Where every event's sold count matches its embedded tickets (as ticket
      sales keep it), the tickets sold cover the tickets scanned. */
  lemma {:induction false} SoldCoversScanned(events: seq<Event>)
    requires forall i :: 0 <= i < |events| ==> Tickets.CountMatchesTickets(events[i])
    ensures SumScanned(events) <= SumSold(events)
  {
    if |events| > 0 {
      SoldCoversScanned(events[1..]);
    }
  }

  /** The module-level cache (no expiry is modelled). */
  class AnalyticsCache {
    var entries: map<CacheKey, Stats>

    constructor ()
      ensures entries == map[]
    {
      entries := map[];
    }
  }

  /** `getAllEventAnalytics`: organizers only; a cached value for the caller
      is returned as stored; otherwise the totals over the events whose
      stored organizer id equals the caller's user id are computed, cached
      and returned. */
  method GetAllEventAnalytics(events: seq<Event>, cache: AnalyticsCache, caller: User)
    returns (reply: Reply<Stats>)
    modifies cache
    ensures var key := AllAnalytics(caller.id);
            if caller.role != "organizer" then
              reply == Fail(403, OrganizersAnalyticsOnly) && cache.entries == old(cache.entries)
            else if key in old(cache.entries) then
              reply == Reply(200, "", Some(old(cache.entries)[key])) && cache.entries == old(cache.entries)
            else
              var stats := OverallStats(Filter(events, (e: Event) => OwnedBy(e, caller.id)));
              reply == Reply(200, "", Some(stats)) && cache.entries == old(cache.entries)[key := stats]
  {
    if caller.role != "organizer" {
      return Fail(403, OrganizersAnalyticsOnly);
    }
    var key := AllAnalytics(caller.id);
    if key in cache.entries {
      return Reply(200, "", Some(cache.entries[key]));
    }
    var stats := OverallStats(Filter(events, (e: Event) => OwnedBy(e, caller.id)));
    cache.entries := cache.entries[key := stats];
    reply := Reply(200, "", Some(stats));
  }

  /** `getSingleEventAnalytics`: a cached value for the event is returned
      before the event is even looked up; a missing event is 404; otherwise
      the event's figures are computed, cached and returned. The ownership
      test has an empty body, so the caller plays no part. */
  method GetSingleEventAnalytics(events: seq<Event>, cache: AnalyticsCache, eventId: EventId, caller: User)
    returns (reply: Reply<Stats>)
    modifies cache
    ensures var key := EventAnalytics(eventId);
            var ei := EventIndex(events, eventId);
            if key in old(cache.entries) then
              reply == Reply(200, "", Some(old(cache.entries)[key])) && cache.entries == old(cache.entries)
            else if ei.None? then
              reply == Fail(404, NoEventFoundHere) && cache.entries == old(cache.entries)
            else
              var stats := EventStats(events[ei.value]);
              reply == Reply(200, "", Some(stats)) && cache.entries == old(cache.entries)[key := stats]
  {
    var key := EventAnalytics(eventId);
    if key in cache.entries {
      return Reply(200, "", Some(cache.entries[key]));
    }
    var ei := EventIndex(events, eventId);
    if ei.None? {
      return Fail(404, NoEventFoundHere);
    }
    var e := events[ei.value];
    if !OwnedBy(e, caller.id) {
    }
    var stats := EventStats(e);
    cache.entries := cache.entries[key := stats];
    reply := Reply(200, "", Some(stats));
  }

  /** Any two callers get the same figures for the same event and cache. */
  method AnyCallerSeesEvent(events: seq<Event>, cache: AnalyticsCache, eventId: EventId, a: User, b: User)
    returns (ra: Reply<Stats>, rb: Reply<Stats>)
    modifies cache
    ensures ra == rb
  {
    ra := GetSingleEventAnalytics(events, cache, eventId, a);
    rb := GetSingleEventAnalytics(events, cache, eventId, b);
  }

  /** A second request is served from the cache even after the store has
      changed in between: the figures stay as first computed. */
  method CachedFiguresAreKept(events: seq<Event>, later: seq<Event>, cache: AnalyticsCache, caller: User)
    returns (first: Reply<Stats>, second: Reply<Stats>)
    modifies cache
    ensures caller.role == "organizer" ==> second == first
  {
    first := GetAllEventAnalytics(events, cache, caller);
    second := GetAllEventAnalytics(later, cache, caller);
  }
}
