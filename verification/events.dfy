/** The event handlers: creation, ownership-filtered deletion and listing,
    single lookup and search. */
module Events {
  import opened Records
  import opened DocumentStore

  const NoEventFound := "No Event Found."
  const OrganizersOnly := "Access denied. Only organizers can perform this action."
  const OrganizerDetailsMissing := "Organizer details not found"
  const NoFileUploaded := "No file uploaded"
  const NotFoundOrUnauthorized := "No event found or unauthorized"

  /** The validated event form. `reminders` is the day string of the one
      reminder seeded at creation; `ticketsSold` is the optional sold count
      the form may carry. */
  datatype EventInput = EventInput(title: string, location: string, category: string,
                                   description: string, date: string, time: string,
                                   price: int, capacity: int, reminders: string,
                                   ticketsSold: Option<int>)

  /** `getEvents` of the event routes: every stored event, in store order,
      with their number; unlike the attendee listing it has no "No Events"
      marker. */
  function GetEvents(events: seq<Event>): (r: Reply<Counted<seq<Event>>>)
    ensures r.status == 200 && r.data.Some?
    ensures r.data.value.count == |events| && r.data.value.data == events
    ensures forall i :: 0 <= i < |events| ==> events[i] in r.data.value.data
    ensures forall k :: 0 <= k < |r.data.value.data| ==> r.data.value.data[k] in events
  {
    Reply(200, "", Some(Counted(|events|, events)))
  }

  /** `getSingleEvent`: 404 exactly when no event has the id. */
  function GetSingleEvent(events: seq<Event>, id: EventId): (r: Reply<Event>)
    ensures r.status == 404 <==> forall i :: 0 <= i < |events| ==> events[i].id != id
    ensures r.status == 404 ==> r == Fail(404, NoEventFound)
    ensures r.status == 200 ==> r.data.Some? && r.data.value in events && r.data.value.id == id
    ensures r.status in {200, 404}
  {
    match EventIndex(events, id)
    case None => Fail(404, NoEventFound)
    case Some(i) => Reply(200, "", Some(events[i]))
  }

  /** `searchEvents`. `matches` stands for the case-insensitive pattern test
      on title, location, category or organization name. The count is the
      number of matching events, and the data is "No Events" exactly when
      that count is 0. */
  function SearchEvents(events: seq<Event>, matches: Event -> bool): (r: Reply<Counted<EventData>>)
    ensures r.status == 200 && r.data.Some?
    ensures r.data.value.count == 0 <==> r.data.value.data.NoEvents?
    ensures r.data.value.data.NoEvents? ==> forall i :: 0 <= i < |events| ==> !matches(events[i])
    ensures r.data.value.count == |set i | 0 <= i < |events| && matches(events[i])|
    ensures r.data.value.data.EventArray? ==>
              var found := r.data.value.data.events;
              && r.data.value.count == |found| && found == Filter(events, matches)
              && (forall k :: 0 <= k < |found| ==> found[k] in events && matches(found[k]))
              && (forall i :: 0 <= i < |events| && matches(events[i]) ==> events[i] in found)
  {
    var found := Filter(events, matches);
    FilterCount(events, matches);
    assert Matches(events, matches) == set i | 0 <= i < |events| && matches(events[i]);
    Reply(200, "", Some(Counted(|found|, if |found| == 0 then NoEvents else EventArray(found))))
  }

  /** `getMyEvents`: the events whose stored organizer id equals the caller's
      user id, in store order, with their number. */
  function GetMyEvents(events: seq<Event>, caller: UserId): (r: Reply<Counted<seq<Event>>>)
    ensures r.status == 200 && r.data.Some? && r.data.value.count == |r.data.value.data|
    ensures r.data.value.count == |set i | 0 <= i < |events| && OwnedBy(events[i], caller)|
    ensures r.data.value.data == Filter(events, (e: Event) => OwnedBy(e, caller))
    ensures forall k :: 0 <= k < |r.data.value.data| ==>
              r.data.value.data[k] in events && OwnedBy(r.data.value.data[k], caller)
    ensures forall i :: 0 <= i < |events| && OwnedBy(events[i], caller) ==> events[i] in r.data.value.data
  {
    var owned := (e: Event) => OwnedBy(e, caller);
    var mine := Filter(events, owned);
    FilterCount(events, owned);
    assert Matches(events, owned) == set i | 0 <= i < |events| && OwnedBy(events[i], caller);
    Reply(200, "", Some(Counted(|mine|, mine)))
  }

  /** `getEventApplicants`: the applicants of the event with this id whose
      stored organizer id equals the caller's user id, else 404. */
  function GetEventApplicants(events: seq<Event>, id: EventId, caller: UserId)
    : (r: Reply<Counted<seq<Applicant>>>)
    ensures r.status == 200 <==>
              exists i :: 0 <= i < |events| && events[i].id == id && OwnedBy(events[i], caller)
    ensures r.status != 200 ==> r == Fail(404, NotFoundOrUnauthorized)
    ensures r.status == 200 ==>
              exists i :: 0 <= i < |events| && events[i].id == id && OwnedBy(events[i], caller) &&
                r.data == Some(Counted(|events[i].applicants|, events[i].applicants))
  {
    match OwnedEventIndex(events, id, caller)
    case None => Fail(404, NotFoundOrUnauthorized)
    case Some(i) =>
      var applicants := events[i].applicants;
      Reply(200, "", Some(Counted(|applicants|, applicants)))
  }

  /** When every event names an Organizer document as its owner, as
      `addEvent` stores it, and no user id equals an Organizer document id,
      then `getMyEvents` lists nothing for any stored user. */
  lemma MyEventsAlwaysEmpty(events: seq<Event>, users: seq<User>, organizers: seq<Organizer>, k: nat)
    requires k < |users|
    requires forall i :: 0 <= i < |events| ==>
               exists j :: 0 <= j < |organizers| && events[i].organizer.organizerId == organizers[j].id
    requires forall i, j :: 0 <= i < |users| && 0 <= j < |organizers| ==>
               users[i].id.oid != organizers[j].id.oid
    ensures GetMyEvents(events, users[k].id).data.value.count == 0
  {
    forall i | 0 <= i < |events| ensures !OwnedBy(events[i], users[k].id) {
      var j :| 0 <= j < |organizers| && events[i].organizer.organizerId == organizers[j].id;
      assert users[k].id.oid != organizers[j].id.oid;
    }
  }

  /** The event document `addEvent` builds before saving it: the form's
      fields, with the sold count the form supplies (0 when it has none).
      Its organizer id is the Organizer document's id, not the user's. */
  function Draft(input: EventInput, backdrop: string, user: User, organizer: Organizer): Event
  {
    Event(EventId(0), input.title, input.location, input.category, input.description,
          input.date, input.time, input.price, input.capacity, backdrop,
          [], Some(if input.ticketsSold.Some? then input.ticketsSold.value else 0),
          [], [Reminder(input.reminders, user.email, false)],
          Author(organizer.id, organizer.organizationName, user.email))
  }

  /** `addEvent`. The caller must be a stored organizer user with an
      Organizer profile and must have uploaded a file; the form must pass the
      schema. `backdrop` is the URL the image store returned. */
  method AddEvent(db: Store, caller: UserId, hasFile: bool, backdrop: string,
                  body: Validated<EventInput>) returns (reply: Reply<Event>)
    requires db.Valid()
    modifies db
    ensures db.Valid()
    ensures db.users == old(db.users) && db.attendees == old(db.attendees)
    ensures db.tickets == old(db.tickets)
    ensures var ui := UserIndex(old(db.users), caller);
            var oi := OrganizerOf(old(db.organizers), caller);
            if ui.None? || old(db.users)[ui.value].role != "organizer" then
              reply == Fail(403, OrganizersOnly) && unchanged(db)
            else if oi.None? then
              reply == Fail(404, OrganizerDetailsMissing) && unchanged(db)
            else if !hasFile then
              reply == Fail(400, NoFileUploaded) && unchanged(db)
            else if body.Rejected? then
              reply == Fail(400, body.message) && unchanged(db)
            else
              var user := old(db.users)[ui.value];
              var org := old(db.organizers)[oi.value];
              var e := Draft(body.value, backdrop, user, org).(id := EventId(old(db.nextId)));
              && reply == Reply(201, "", Some(e))
              && db.events == old(db.events) + [e]
              && db.organizers == old(db.organizers)[oi.value := org.(createdEvents := org.createdEvents + [Summary(e)])]
  {
    var ui := UserIndex(db.users, caller);
    if ui.None? || db.users[ui.value].role != "organizer" {
      return Fail(403, OrganizersOnly);
    }
    var user := db.users[ui.value];
    var oi := OrganizerOf(db.organizers, caller);
    if oi.None? {
      return Fail(404, OrganizerDetailsMissing);
    }
    var org := db.organizers[oi.value];
    if !hasFile {
      return Fail(400, NoFileUploaded);
    }
    if body.Rejected? {
      return Fail(400, body.message);
    }
    var saved := db.CreateEvent(Draft(body.value, backdrop, user, org));
    db.PutOrganizer(oi.value, org.(createdEvents := org.createdEvents + [Summary(saved)]));
    reply := Reply(201, "", Some(saved));
  }

  /** A new event starts with no applicants, no tickets, the form's sold
      count (0 when the form has none) and exactly one unsent reminder for
      the creating user's email, and names the Organizer document as its
      owner. */
  lemma DraftShape(input: EventInput, backdrop: string, user: User, organizer: Organizer, id: EventId)
    ensures var e := Draft(input, backdrop, user, organizer).(id := id);
            && e.applicants == [] && e.tickets == []
            && (input.ticketsSold.Some? ==> e.ticketsSold == input.ticketsSold)
            && (input.ticketsSold.None? ==> e.ticketsSold == Some(0))
            && e.reminders == [Reminder(input.reminders, user.email, false)]
            && e.organizer.organizerId == organizer.id
  {
  }

  /** `deleteEvent`: the first event with this id whose stored organizer id
      equals the caller's user id is removed; otherwise 404 and nothing changes. */
  method DeleteEvent(db: Store, id: EventId, caller: UserId) returns (reply: Reply<()>)
    requires db.Valid()
    modifies db
    ensures db.Valid()
    ensures db.users == old(db.users) && db.organizers == old(db.organizers)
    ensures db.attendees == old(db.attendees) && db.tickets == old(db.tickets)
    ensures OwnedEventIndex(old(db.events), id, caller).None? ==>
              reply == Fail(404, NotFoundOrUnauthorized) && unchanged(db)
    ensures OwnedEventIndex(old(db.events), id, caller).Some? ==>
              var i := OwnedEventIndex(old(db.events), id, caller).value;
              && reply == Reply(200, "", Some(()))
              && db.events == old(db.events)[..i] + old(db.events)[i + 1..]
              && forall j :: 0 <= j < |db.events| ==> db.events[j].id != id
  {
    var i := OwnedEventIndex(db.events, id, caller);
    if i.None? {
      return Fail(404, NotFoundOrUnauthorized);
    }
    db.RemoveEvent(i.value);
    reply := Reply(200, "", Some(()));
  }

  /** An event whose id is new to the collection and whose stored organizer
      id is not the caller's is not found by the caller's ownership query. */
  lemma NewEventNotOwned(events: seq<Event>, e: Event, caller: UserId)
    requires forall j :: 0 <= j < |events| ==> events[j].id != e.id
    requires !OwnedBy(e, caller)
    ensures OwnedEventIndex(events + [e], e.id, caller).None?
  {
    var all := events + [e];
    forall j | 0 <= j < |all| ensures !(all[j].id == e.id && OwnedBy(all[j], caller)) {
      if j < |events| {
        assert all[j] == events[j];
      }
    }
  }

  /** The organizer who creates an event can never delete it: the stored
      organizer id is the Organizer document's id, which no user id equals. */
  method CreatorCannotDelete(db: Store, caller: UserId, backdrop: string, body: Validated<EventInput>)
    returns (created: Reply<Event>, deleted: Reply<()>)
    requires db.Valid()
    modifies db
    ensures created.status == 201 ==> created.data.Some? && deleted == Fail(404, NotFoundOrUnauthorized)
  {
    created := AddEvent(db, caller, true, backdrop, body);
    if created.status != 201 {
      deleted := Fail(404, NotFoundOrUnauthorized);
      return;
    }
    var e := created.data.value;
    ghost var ui := UserIndex(old(db.users), caller).value;
    ghost var oi := OrganizerOf(old(db.organizers), caller).value;
    assert old(db.users)[ui].id.oid != old(db.organizers)[oi].id.oid;
    assert forall j :: 0 <= j < |old(db.events)| ==> old(db.events)[j].id.oid < old(db.nextId);
    NewEventNotOwned(old(db.events), e, caller);
    deleted := DeleteEvent(db, e.id, caller);
  }
}
