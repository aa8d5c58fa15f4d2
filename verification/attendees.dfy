/** The attendee handlers: the event listing, applying to an event, the
    applied-events listing and setting a reminder. */
module Attendees {
  import opened Records
  import opened DocumentStore
  import Events

  const AttendeeDetailsMissing := "Attendee details not found"
  const AlreadyAppliedMessage := "Already applied."
  const OwnEvent := "You can't apply for your own event."
  const Applied := "Applied for event successfully"
  const AttendeeNotFound := "Attendee not found"
  const NoAttendeeFound := "No Attendee Found."
  const ReminderSet := "Reminder set successfully"

  /** `getEvents` of the attendee routes: every stored event with their
      number, and the "No Events" marker in place of an empty array. */
  function GetEvents(events: seq<Event>): (r: Reply<Counted<EventData>>)
    ensures r.status == 200 && r.data.Some? && r.data.value.count == |events|
    ensures r.data.value.data.NoEvents? <==> |events| == 0
    ensures r.data.value.data.EventArray? ==> r.data.value.data.events == events
  {
    Reply(200, "", Some(Counted(|events|, if |events| == 0 then NoEvents else EventArray(events))))
  }

  /** The two event listings report the same count, and carry the same
      events whenever there is at least one. */
  lemma ListingsAgree(events: seq<Event>)
    ensures GetEvents(events).data.value.count == Events.GetEvents(events).data.value.count
    ensures |events| > 0 ==>
              GetEvents(events).data.value.data == EventArray(Events.GetEvents(events).data.value.data)
  {
  }

  /** `event.applicants.some(a => a.applicantId == user.id)`. */
  predicate AlreadyApplied(applicants: seq<Applicant>, user: UserId)
  {
    exists i :: 0 <= i < |applicants| && applicants[i].applicantId == user
  }

  /** No user appears twice among an event's applicants. */
  predicate DistinctApplicants(applicants: seq<Applicant>)
  {
    forall i, j :: 0 <= i < j < |applicants| ==> applicants[i].applicantId != applicants[j].applicantId
  }

  /** The applicant entry pushed for the requesting user. */
  function ApplicantOf(user: User): Applicant
  {
    Applicant(user.id, user.name, user.username, user.email)
  }

  /** The event after the user's application has been pushed. */
  function WithApplicant(e: Event, user: User): (r: Event)
    ensures r.id == e.id && |r.applicants| == |e.applicants| + 1
    ensures r.applicants[..|e.applicants|] == e.applicants
    ensures r.applicants[|e.applicants|] == ApplicantOf(user)
    ensures r.(applicants := e.applicants) == e
    ensures AlreadyApplied(r.applicants, user.id)
    ensures forall u :: AlreadyApplied(e.applicants, u) ==> AlreadyApplied(r.applicants, u)
  {
    var r := e.(applicants := e.applicants + [ApplicantOf(user)]);
    assert r.applicants[|e.applicants|].applicantId == user.id;
    assert forall i :: 0 <= i < |e.applicants| ==> r.applicants[i] == e.applicants[i];
    r
  }

  /** The duplicate check keeps the applicant list free of repeats. */
  lemma {:induction false} ApplyKeepsApplicantsDistinct(e: Event, user: User)
    requires DistinctApplicants(e.applicants)
    requires !AlreadyApplied(e.applicants, user.id)
    ensures DistinctApplicants(WithApplicant(e, user).applicants)
  {
    var r := WithApplicant(e, user).applicants;
    var n := |e.applicants|;
    forall i, j | 0 <= i < j < |r| ensures r[i].applicantId != r[j].applicantId {
      assert r[i] == e.applicants[i];
      if j == n {
        assert r[j].applicantId == user.id;
      } else {
        assert r[j] == e.applicants[j];
      }
    }
  }

  /** `applyToEvent`: event lookup, attendee lookup, the duplicate check and
      the own-event check, in that order; on success the user is pushed onto
      the event's applicants and the event's snapshot onto the attendee's
      applied events. */
  method ApplyToEvent(db: Store, eventId: EventId, caller: User) returns (reply: Reply<()>)
    requires db.Valid()
    modifies db
    ensures db.Valid()
    ensures db.users == old(db.users) && db.organizers == old(db.organizers)
    ensures db.tickets == old(db.tickets) && db.nextId == old(db.nextId)
    ensures var ei := EventIndex(old(db.events), eventId);
            var ai := AttendeeOf(old(db.attendees), caller.id);
            if ei.None? then
              reply == Fail(404, NoEventFoundHere) && unchanged(db)
            else if ai.None? then
              reply == Fail(404, AttendeeDetailsMissing) && unchanged(db)
            else if AlreadyApplied(old(db.events)[ei.value].applicants, caller.id) then
              reply == Fail(409, AlreadyAppliedMessage) && unchanged(db)
            else if OwnedBy(old(db.events)[ei.value], caller.id) then
              reply == Fail(405, OwnEvent) && unchanged(db)
            else
              var e := old(db.events)[ei.value];
              var a := old(db.attendees)[ai.value];
              && reply == Reply(200, Applied, None)
              && db.events == old(db.events)[ei.value := WithApplicant(e, caller)]
              && db.attendees == old(db.attendees)[ai.value := a.(appliedEvents := a.appliedEvents + [Summary(e)])]
  {
    var ei := EventIndex(db.events, eventId);
    if ei.None? {
      return Fail(404, NoEventFoundHere);
    }
    var e := db.events[ei.value];
    var ai := AttendeeOf(db.attendees, caller.id);
    if ai.None? {
      return Fail(404, AttendeeDetailsMissing);
    }
    var a := db.attendees[ai.value];
    if AlreadyApplied(e.applicants, caller.id) {
      return Fail(409, AlreadyAppliedMessage);
    }
    if OwnedBy(e, caller.id) {
      return Fail(405, OwnEvent);
    }
    db.PutEvent(ei.value, WithApplicant(e, caller));
    db.PutAttendee(ai.value, a.(appliedEvents := a.appliedEvents + [Summary(e)]));
    reply := Reply(200, Applied, None);
  }

  /** Applying twice: once the first application succeeds, the second is
      refused as a duplicate and changes nothing. */
  method ApplyTwice(db: Store, eventId: EventId, caller: User) returns (first: Reply<()>, second: Reply<()>)
    requires db.Valid()
    modifies db
    ensures first.status == 200 ==> second == Fail(409, AlreadyAppliedMessage)
  {
    first := ApplyToEvent(db, eventId, caller);
    ghost var ei := EventIndex(old(db.events), eventId);
    ghost var ai := AttendeeOf(old(db.attendees), caller.id);
    if first.status == 200 {
      assert db.attendees[ai.value].userId == caller.id;
      assert db.events[ei.value] == WithApplicant(old(db.events)[ei.value], caller);
      assert db.events[ei.value].id == eventId;
      assert EventIndex(db.events, eventId) == ei by {
        forall j | 0 <= j < ei.value ensures db.events[j].id != eventId {
          assert db.events[j] == old(db.events)[j];
        }
      }
    }
    second := ApplyToEvent(db, eventId, caller);
  }

  /** `getAppliedEvents`: the applied-event snapshots of the caller's
      attendee profile with their number, else 404. */
  function GetAppliedEvents(attendees: seq<Attendee>, caller: UserId): (r: Reply<Counted<seq<EventSummary>>>)
    ensures r.status == 404 <==> forall i :: 0 <= i < |attendees| ==> attendees[i].userId != caller
    ensures r.status == 404 ==> r == Fail(404, AttendeeNotFound)
    ensures r.status == 200 ==>
              exists i :: 0 <= i < |attendees| && attendees[i].userId == caller &&
                r.data == Some(Counted(|attendees[i].appliedEvents|, attendees[i].appliedEvents))
    ensures r.status in {200, 404}
  {
    match AttendeeOf(attendees, caller)
    case None => Fail(404, AttendeeNotFound)
    case Some(i) =>
      var applied := attendees[i].appliedEvents;
      Reply(200, "", Some(Counted(|applied|, applied)))
  }

  /** After a successful application the event's snapshot is the last entry
      of the caller's applied-events listing. */
  method ApplyThenList(db: Store, eventId: EventId, caller: User) returns (applied: Reply<()>, listed: Reply<Counted<seq<EventSummary>>>)
    requires db.Valid()
    modifies db
    ensures applied.status == 200 ==>
              && listed.status == 200 && listed.data.Some?
              && var items := listed.data.value.data;
                 |items| > 0 && items[|items| - 1].eventId == eventId
  {
    applied := ApplyToEvent(db, eventId, caller);
    ghost var ai := AttendeeOf(old(db.attendees), caller.id);
    if applied.status == 200 {
      assert db.attendees[ai.value].userId == caller.id;
      assert AttendeeOf(db.attendees, caller.id) == ai by {
        forall j | 0 <= j < ai.value ensures db.attendees[j].userId != caller.id {
          assert db.attendees[j] == old(db.attendees)[j];
        }
      }
    }
    listed := GetAppliedEvents(db.attendees, caller.id);
  }

  /** `setReminder`: attendee lookup, then event lookup; on success the
      reminder, unsent and addressed to the caller's email, is pushed onto the
      attendee (with the event id) and onto the event. */
  method SetReminder(db: Store, eventId: EventId, caller: User, reminderTime: string) returns (reply: Reply<()>)
    requires db.Valid()
    modifies db
    ensures db.Valid()
    ensures db.users == old(db.users) && db.organizers == old(db.organizers)
    ensures db.tickets == old(db.tickets) && db.nextId == old(db.nextId)
    ensures var ai := AttendeeOf(old(db.attendees), caller.id);
            var ei := EventIndex(old(db.events), eventId);
            if ai.None? then
              reply == Fail(404, NoAttendeeFound) && unchanged(db)
            else if ei.None? then
              reply == Fail(404, Events.NoEventFound) && unchanged(db)
            else
              var rem := Reminder(reminderTime, caller.email, false);
              var a := old(db.attendees)[ai.value];
              var e := old(db.events)[ei.value];
              && reply == Reply(201, ReminderSet, None)
              && db.attendees == old(db.attendees)[ai.value := a.(reminders := a.reminders + [AttendeeReminder(rem, e.id)])]
              && db.events == old(db.events)[ei.value := e.(reminders := e.reminders + [rem])]
  {
    var ai := AttendeeOf(db.attendees, caller.id);
    var ei := EventIndex(db.events, eventId);
    if ai.None? {
      return Fail(404, NoAttendeeFound);
    }
    if ei.None? {
      return Fail(404, Events.NoEventFound);
    }
    var rem := Reminder(reminderTime, caller.email, false);
    var a := db.attendees[ai.value];
    var e := db.events[ei.value];
    db.PutAttendee(ai.value, a.(reminders := a.reminders + [AttendeeReminder(rem, e.id)]));
    db.PutEvent(ei.value, e.(reminders := e.reminders + [rem]));
    reply := Reply(201, ReminderSet, None);
  }
}
