/** The document store: the five collections in natural (insertion) order,
    the queries the controllers issue, and the store operations they use
    (`create`, `save`, `findByIdAndUpdate`, `updateOne`, `deleteOne`). */
module DocumentStore {
  import opened Records

  /** The first index of `s` whose element satisfies `p`: a `findOne` in natural order. */
  function FirstIndex<T>(s: seq<T>, p: T -> bool): (r: Option<nat>)
    ensures r.Some? ==> r.value < |s| && p(s[r.value])
    ensures r.Some? ==> forall j :: 0 <= j < r.value ==> !p(s[j])
    ensures r.None? <==> forall j :: 0 <= j < |s| ==> !p(s[j])
  {
    if |s| == 0 then None
    else if p(s[0]) then Some(0)
    else match FirstIndex(s[1..], p)
      case None => None
      case Some(k) => Some(k + 1)
  }

  /** Two searches whose tests agree position by position find the same index. */
  lemma FirstIndexAgree<T, U>(s: seq<T>, p: T -> bool, t: seq<U>, q: U -> bool)
    requires |s| == |t| && forall i :: 0 <= i < |s| ==> p(s[i]) == q(t[i])
    ensures FirstIndex(s, p) == FirstIndex(t, q)
  {
    var a, b := FirstIndex(s, p), FirstIndex(t, q);
    if a.Some? && b.Some? {
      assert q(t[a.value]) && p(s[b.value]);
    }
  }

  /** The elements of `s` that satisfy `p`, in order: a `find` by filter. */
  function Filter<T>(s: seq<T>, p: T -> bool): (r: seq<T>)
    ensures |r| <= |s|
    ensures forall i :: 0 <= i < |r| ==> r[i] in s && p(r[i])
    ensures forall i :: 0 <= i < |s| && p(s[i]) ==> s[i] in r
    ensures (forall i :: 0 <= i < |s| ==> !p(s[i])) ==> r == []
  {
    if |s| == 0 then []
    else if p(s[0]) then [s[0]] + Filter(s[1..], p)
    else Filter(s[1..], p)
  }

  /** The positions of `s` whose element satisfies `p`. */
  ghost function Matches<T>(s: seq<T>, p: T -> bool): set<int>
  {
    set i | 0 <= i < |s| && p(s[i])
  }

  /** Filtering keeps order: the filter of a longer list extends the
      filter of its prefix by the new element exactly when it matches. */
  lemma {:induction false} FilterAppend<T>(s: seq<T>, p: T -> bool, x: T)
    ensures Filter(s + [x], p) == Filter(s, p) + (if p(x) then [x] else [])
  {
    if |s| == 0 {
      assert s + [x] == [x];
      assert [x][1..] == [];
    } else {
      assert (s + [x])[0] == s[0];
      assert (s + [x])[1..] == s[1..] + [x];
      FilterAppend(s[1..], p, x);
    }
  }

  /** The matching positions of a longer list: those of its prefix, and
      the new last position when its element matches. */
  lemma MatchesAppend<T>(s: seq<T>, p: T -> bool, x: T)
    ensures var last := if p(x) then {|s|} else {};
            Matches(s + [x], p) == Matches(s, p) + last && Matches(s, p) !! last
  {
    var last := if p(x) then {|s|} else {};
    forall i ensures i in Matches(s + [x], p) <==> i in Matches(s, p) + last {
      if 0 <= i < |s| {
        assert (s + [x])[i] == s[i];
      }
    }
  }

  /** The filter holds one element per matching position: its length is
      the number of elements that satisfy the test. */
  lemma {:induction false} FilterCount<T>(s: seq<T>, p: T -> bool)
    ensures |Filter(s, p)| == |Matches(s, p)|
    decreases |s|
  {
    if |s| == 0 {
      assert Matches(s, p) == {};
    } else {
      var s', x := s[..|s| - 1], s[|s| - 1];
      assert s == s' + [x];
      FilterAppend(s', p, x);
      FilterCount(s', p);
      MatchesAppend(s', p, x);
    }
  }

  // The queries of the controllers, each a first match in natural order.

  /** `Event.findById(id)`. */
  function EventIndex(events: seq<Event>, id: EventId): Option<nat>
  {
    FirstIndex(events, (e: Event) => e.id == id)
  }

  /** `Event.findOne({$and: [{_id: id}, {"organizer.organizerId": caller}]})`. */
  function OwnedEventIndex(events: seq<Event>, id: EventId, caller: UserId): Option<nat>
  {
    FirstIndex(events, (e: Event) => e.id == id && OwnedBy(e, caller))
  }

  /** `User.findById(id)`. */
  function UserIndex(users: seq<User>, id: UserId): Option<nat>
  {
    FirstIndex(users, (u: User) => u.id == id)
  }

  /** `User.findOne({email})`. */
  function UserByEmail(users: seq<User>, email: string): Option<nat>
  {
    FirstIndex(users, (u: User) => u.email == email)
  }

  /** `Organizer.findOne({userId})`. */
  function OrganizerOf(organizers: seq<Organizer>, userId: UserId): Option<nat>
  {
    FirstIndex(organizers, (o: Organizer) => o.userId == userId)
  }

  /** `Attendee.findOne({userId})`. */
  function AttendeeOf(attendees: seq<Attendee>, userId: UserId): Option<nat>
  {
    FirstIndex(attendees, (a: Attendee) => a.userId == userId)
  }

  /** `Ticket.findOne({qrCode})`. */
  function TicketByQr(tickets: seq<Ticket>, qrCode: string): Option<nat>
  {
    FirstIndex(tickets, (t: Ticket) => t.qrCode == qrCode)
  }

  /** The first embedded ticket with id `id`: the element the positional
      operator `tickets.$` designates. */
  function EmbeddedTicket(ts: seq<Ticket>, id: TicketId): Option<nat>
  {
    FirstIndex(ts, (t: Ticket) => t.id == id)
  }

  /** `{$set: {"tickets.$.scanned": true}}` on a ticket list: the first ticket
      with id `id` is marked scanned, every other element is left alone. */
  function MarkEmbeddedScanned(ts: seq<Ticket>, id: TicketId): (r: seq<Ticket>)
    ensures |r| == |ts|
    ensures EmbeddedTicket(ts, id).None? ==> r == ts
    ensures EmbeddedTicket(ts, id).Some? ==>
              var k := EmbeddedTicket(ts, id).value;
              r[k] == ts[k].(scanned := true) &&
              forall j :: 0 <= j < |ts| && j != k ==> r[j] == ts[j]
  {
    match EmbeddedTicket(ts, id)
    case None => ts
    case Some(k) => ts[k := ts[k].(scanned := true)]
  }

  // Keys of the collections, as one raw id space.
  function UserKey(u: User): nat { u.id.oid }
  function OrganizerKey(o: Organizer): nat { o.id.oid }
  function AttendeeKey(a: Attendee): nat { a.id.oid }
  function EventKey(e: Event): nat { e.id.oid }
  function TicketKey(t: Ticket): nat { t.id.oid }

  /** Every record of `s` has a key below `bound`, and no key occurs twice. */
  ghost predicate Keyed<T>(s: seq<T>, key: T -> nat, bound: nat)
  {
    && (forall i :: 0 <= i < |s| ==> key(s[i]) < bound)
    && (forall i, j :: 0 <= i < j < |s| ==> key(s[i]) != key(s[j]))
  }

  lemma KeyedAppend<T>(s: seq<T>, key: T -> nat, bound: nat, x: T)
    requires Keyed(s, key, bound) && key(x) == bound
    ensures Keyed(s + [x], key, bound + 1)
  {
  }

  lemma KeyedGrow<T>(s: seq<T>, key: T -> nat, bound: nat, bound': nat)
    requires Keyed(s, key, bound) && bound <= bound'
    ensures Keyed(s, key, bound')
  {
  }

  lemma KeyedUpdate<T>(s: seq<T>, key: T -> nat, bound: nat, i: nat, x: T)
    requires Keyed(s, key, bound) && i < |s| && key(x) == key(s[i])
    ensures Keyed(s[i := x], key, bound)
  {
  }

  lemma KeyedRemove<T>(s: seq<T>, key: T -> nat, bound: nat, i: nat)
    requires Keyed(s, key, bound) && i < |s|
    ensures Keyed(s[..i] + s[i + 1..], key, bound)
  {
    var r := s[..i] + s[i + 1..];
    forall a, b | 0 <= a < b < |r| ensures key(r[a]) != key(r[b]) {
      var a' := if a < i then a else a + 1;
      var b' := if b < i then b else b + 1;
      assert r[a] == s[a'] && r[b] == s[b'];
    }
  }

  /** In a keyed collection the element with a given key is the only one. */
  lemma KeyedUnique<T>(s: seq<T>, key: T -> nat, bound: nat, i: nat, j: nat)
    requires Keyed(s, key, bound) && i < |s| && j < |s| && key(s[i]) == key(s[j])
    ensures i == j
  {
  }

  /** The in-memory document store. */
  class Store {
    var users: seq<User>
    var organizers: seq<Organizer>
    var attendees: seq<Attendee>
    var events: seq<Event>
    var tickets: seq<Ticket>
    var nextId: nat  // the object-id allocator shared by all collections

    /** Ids are unique within each collection and were all handed out by the
        allocator, so a user id never equals an organizer document id. */
    ghost predicate Valid()
      reads this
    {
      && Keyed(users, UserKey, nextId)
      && Keyed(organizers, OrganizerKey, nextId)
      && Keyed(attendees, AttendeeKey, nextId)
      && Keyed(events, EventKey, nextId)
      && Keyed(tickets, TicketKey, nextId)
      && (forall i, j :: 0 <= i < |users| && 0 <= j < |organizers| ==>
            users[i].id.oid != organizers[j].id.oid)
    }

    constructor ()
      ensures Valid()
      ensures users == [] && organizers == [] && attendees == [] && events == [] && tickets == []
    {
      users, organizers, attendees, events, tickets := [], [], [], [], [];
      nextId := 0;
    }

    /** `User.create(...)`. */
    method CreateUser(name: string, username: string, email: string, role: string, password: string)
      returns (u: User)
      requires Valid()
      modifies this
      ensures Valid()
      ensures u == User(UserId(old(nextId)), name, username, email, role, password)
      ensures forall i :: 0 <= i < |old(users)| ==> old(users)[i].id != u.id
      ensures users == old(users) + [u] && nextId == old(nextId) + 1
      ensures organizers == old(organizers) && attendees == old(attendees)
      ensures events == old(events) && tickets == old(tickets)
    {
      u := User(UserId(nextId), name, username, email, role, password);
      KeyedAppend(users, UserKey, nextId, u);
      KeyedGrow(organizers, OrganizerKey, nextId, nextId + 1);
      KeyedGrow(attendees, AttendeeKey, nextId, nextId + 1);
      KeyedGrow(events, EventKey, nextId, nextId + 1);
      KeyedGrow(tickets, TicketKey, nextId, nextId + 1);
      users := users + [u];
      nextId := nextId + 1;
    }

    /** `Organizer.create({userId, organizationName, createdEvents: []})`. */
    method CreateOrganizer(userId: UserId, organizationName: string) returns (o: Organizer)
      requires Valid()
      modifies this
      ensures Valid()
      ensures o == Organizer(OrganizerId(old(nextId)), userId, organizationName, [])
      ensures organizers == old(organizers) + [o] && nextId == old(nextId) + 1
      ensures users == old(users) && attendees == old(attendees)
      ensures events == old(events) && tickets == old(tickets)
    {
      o := Organizer(OrganizerId(nextId), userId, organizationName, []);
      KeyedGrow(users, UserKey, nextId, nextId + 1);
      KeyedAppend(organizers, OrganizerKey, nextId, o);
      KeyedGrow(attendees, AttendeeKey, nextId, nextId + 1);
      KeyedGrow(events, EventKey, nextId, nextId + 1);
      KeyedGrow(tickets, TicketKey, nextId, nextId + 1);
      organizers := organizers + [o];
      nextId := nextId + 1;
    }

    /** `Attendee.create({userId, appliedEvents: [], reminders: [], tickets: []})`. */
    method CreateAttendee(userId: UserId) returns (a: Attendee)
      requires Valid()
      modifies this
      ensures Valid()
      ensures a == Attendee(AttendeeId(old(nextId)), userId, [], [], [])
      ensures attendees == old(attendees) + [a] && nextId == old(nextId) + 1
      ensures users == old(users) && organizers == old(organizers)
      ensures events == old(events) && tickets == old(tickets)
    {
      a := Attendee(AttendeeId(nextId), userId, [], [], []);
      KeyedGrow(users, UserKey, nextId, nextId + 1);
      KeyedGrow(organizers, OrganizerKey, nextId, nextId + 1);
      KeyedAppend(attendees, AttendeeKey, nextId, a);
      KeyedGrow(events, EventKey, nextId, nextId + 1);
      KeyedGrow(tickets, TicketKey, nextId, nextId + 1);
      attendees := attendees + [a];
      nextId := nextId + 1;
    }

    /** `new Event({...}).save()`: the new document gets a fresh id. */
    method CreateEvent(e: Event) returns (saved: Event)
      requires Valid()
      modifies this
      ensures Valid()
      ensures saved == e.(id := EventId(old(nextId)))
      ensures events == old(events) + [saved] && nextId == old(nextId) + 1
      ensures users == old(users) && organizers == old(organizers)
      ensures attendees == old(attendees) && tickets == old(tickets)
    {
      saved := e.(id := EventId(nextId));
      KeyedGrow(users, UserKey, nextId, nextId + 1);
      KeyedGrow(organizers, OrganizerKey, nextId, nextId + 1);
      KeyedGrow(attendees, AttendeeKey, nextId, nextId + 1);
      KeyedAppend(events, EventKey, nextId, saved);
      KeyedGrow(tickets, TicketKey, nextId, nextId + 1);
      events := events + [saved];
      nextId := nextId + 1;
    }

    /** `new Ticket({...}).save()`: the new document gets a fresh id. */
    method CreateTicket(t: Ticket) returns (saved: Ticket)
      requires Valid()
      modifies this
      ensures Valid()
      ensures saved == t.(id := TicketId(old(nextId)))
      ensures forall i :: 0 <= i < |old(tickets)| ==> old(tickets)[i].id != saved.id
      ensures tickets == old(tickets) + [saved] && nextId == old(nextId) + 1
      ensures users == old(users) && organizers == old(organizers)
      ensures attendees == old(attendees) && events == old(events)
    {
      saved := t.(id := TicketId(nextId));
      KeyedGrow(users, UserKey, nextId, nextId + 1);
      KeyedGrow(organizers, OrganizerKey, nextId, nextId + 1);
      KeyedGrow(attendees, AttendeeKey, nextId, nextId + 1);
      KeyedGrow(events, EventKey, nextId, nextId + 1);
      KeyedAppend(tickets, TicketKey, nextId, saved);
      tickets := tickets + [saved];
      nextId := nextId + 1;
    }

    /** Writes back the event document at index `i` (`save`, `findByIdAndUpdate`). */
    method PutEvent(i: nat, e: Event)
      requires Valid() && i < |events| && e.id == events[i].id
      modifies this
      ensures Valid()
      ensures events == old(events)[i := e]
      ensures users == old(users) && organizers == old(organizers)
      ensures attendees == old(attendees) && tickets == old(tickets) && nextId == old(nextId)
    {
      KeyedUpdate(events, EventKey, nextId, i, e);
      events := events[i := e];
    }

    /** Writes back the attendee document at index `i`. */
    method PutAttendee(i: nat, a: Attendee)
      requires Valid() && i < |attendees| && a.id == attendees[i].id
      modifies this
      ensures Valid()
      ensures attendees == old(attendees)[i := a]
      ensures users == old(users) && organizers == old(organizers)
      ensures events == old(events) && tickets == old(tickets) && nextId == old(nextId)
    {
      KeyedUpdate(attendees, AttendeeKey, nextId, i, a);
      attendees := attendees[i := a];
    }

    /** Writes back the organizer document at index `i`. */
    method PutOrganizer(i: nat, o: Organizer)
      requires Valid() && i < |organizers| && o.id == organizers[i].id
      modifies this
      ensures Valid()
      ensures organizers == old(organizers)[i := o]
      ensures users == old(users) && attendees == old(attendees)
      ensures events == old(events) && tickets == old(tickets) && nextId == old(nextId)
    {
      KeyedUpdate(organizers, OrganizerKey, nextId, i, o);
      organizers := organizers[i := o];
    }

    /** Writes back the ticket document at index `i`. */
    method PutTicket(i: nat, t: Ticket)
      requires Valid() && i < |tickets| && t.id == tickets[i].id
      modifies this
      ensures Valid()
      ensures tickets == old(tickets)[i := t]
      ensures users == old(users) && organizers == old(organizers)
      ensures attendees == old(attendees) && events == old(events) && nextId == old(nextId)
    {
      KeyedUpdate(tickets, TicketKey, nextId, i, t);
      tickets := tickets[i := t];
    }

    /** `event.deleteOne()` for the event at index `i`. */
    method RemoveEvent(i: nat)
      requires Valid() && i < |events|
      modifies this
      ensures Valid()
      ensures events == old(events)[..i] + old(events)[i + 1..]
      ensures forall j :: 0 <= j < |events| ==> events[j].id != old(events)[i].id
      ensures users == old(users) && organizers == old(organizers)
      ensures attendees == old(attendees) && tickets == old(tickets) && nextId == old(nextId)
    {
      KeyedRemove(events, EventKey, nextId, i);
      ghost var was := events;
      events := events[..i] + events[i + 1..];
      forall j | 0 <= j < |events| ensures events[j].id != was[i].id {
        var j' := if j < i then j else j + 1;
        assert events[j] == was[j'] && j' != i;
        assert EventKey(was[j']) != EventKey(was[i]);
      }
    }
  }
}
