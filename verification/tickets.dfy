/** Ticket issue and ticket scanning. */
module Tickets {
  import opened Records
  import opened DocumentStore
  import Attendees
  import Events

  const SoldOutMessage := "This event is sold out."
  const QrFailed := "Failed to generate QR code"
  const OrganizersScanOnly := "Forbidden - Only organizers can scan tickets"
  const NoTicketFound := "No ticket found."
  const BadTicketToken := "Invalid or expired ticket token"
  const NoMatchingEvent := "No matching event found for this organizer."
  const AlreadyScanned := "Ticket has already been scanned"
  const Verified := "Ticket verified successfully"

  /** The body of a successful `generateTicket` reply. */
  datatype Issued = Issued(ticketId: TicketId, qrCode: string)

  /** `event.ticketsSold >= event.capacity`; a missing count compares false. */
  predicate SoldOut(e: Event)
  {
    e.ticketsSold.Some? && e.ticketsSold.value >= e.capacity
  }

  /** The event after `{$push: {tickets: t}, $inc: {ticketsSold: 1}}`; `$inc`
      on a missing count stores 1. */
  function WithTicket(e: Event, t: Ticket): (r: Event)
    ensures r.id == e.id && r.organizer == e.organizer && r.capacity == e.capacity
    ensures r.tickets == e.tickets + [t]
    ensures r.ticketsSold == Some(SoldOrZero(e) + 1)
    ensures r.(tickets := e.tickets, ticketsSold := e.ticketsSold) == e
  {
    e.(tickets := e.tickets + [t], ticketsSold := Some(SoldOrZero(e) + 1))
  }

  /** The sold count agrees with the number of embedded tickets. */
  predicate CountMatchesTickets(e: Event)
  {
    SoldOrZero(e) == |e.tickets|
  }

  /** A sale keeps the sold count and the embedded tickets in step. */
  lemma SaleKeepsCount(e: Event, t: Ticket)
    requires CountMatchesTickets(e)
    ensures CountMatchesTickets(WithTicket(e, t))
  {
  }

  /** With a recorded count, the sold-out gate never lets a sale go past the
      capacity. */
  lemma SaleWithinCapacity(e: Event, t: Ticket)
    requires e.ticketsSold.Some? && !SoldOut(e)
    ensures WithTicket(e, t).ticketsSold.value <= e.capacity
  {
  }

  /** A missing count is never sold out, whatever the capacity, and a sale
      then records a count of 1. */
  lemma MissingCountNeverSoldOut(e: Event, t: Ticket)
    requires e.ticketsSold.None?
    ensures !SoldOut(e) && WithTicket(e, t).ticketsSold == Some(1)
  {
  }

  /** An event created from a form whose sold count already reaches the
      capacity is sold out from the start; with no count in the form it is
      sold out only at a capacity of 0 or less. */
  lemma DraftSoldOut(input: Events.EventInput, backdrop: string, user: User, organizer: Organizer)
    ensures SoldOut(Events.Draft(input, backdrop, user, organizer)) <==>
              if input.ticketsSold.Some? then input.ticketsSold.value >= input.capacity
              else input.capacity <= 0
  {
  }

  /** `generateTicket`. The attendee lookup is answered before the event
      lookup, then the sold-out gate. `sign` issues the ticket token over
      `{eventId, userId}` and `render` is the QR encoder, which may fail. */
  method GenerateTicket(db: Store, eventId: EventId, caller: User,
                        sign: Payload -> string, render: string -> Option<string>)
    returns (reply: Reply<Issued>)
    requires db.Valid()
    modifies db
    ensures db.Valid()
    ensures db.users == old(db.users) && db.organizers == old(db.organizers)
    ensures var ai := AttendeeOf(old(db.attendees), caller.id);
            var ei := EventIndex(old(db.events), eventId);
            if ai.None? then
              reply == Fail(404, Attendees.NoAttendeeFound) && unchanged(db)
            else if ei.None? then
              reply == Fail(404, NoEventFoundHere) && unchanged(db)
            else if SoldOut(old(db.events)[ei.value]) then
              reply == Fail(410, SoldOutMessage) && unchanged(db)
            else
              var e := old(db.events)[ei.value];
              var token := sign(TicketPayload(e.id, caller.id));
              if render(token).None? then
                reply == Fail(500, QrFailed) && unchanged(db)
              else
                var a := old(db.attendees)[ai.value];
                var t := Ticket(TicketId(old(db.nextId)), e.id, caller.id, render(token).value, token, false, e.price);
                && reply == Reply(200, "", Some(Issued(t.id, t.qrCode)))
                && db.tickets == old(db.tickets) + [t]
                && db.attendees == old(db.attendees)[ai.value := a.(tickets := a.tickets + [t])]
                && db.events == old(db.events)[ei.value := WithTicket(e, t)]
  {
    var ei := EventIndex(db.events, eventId);
    var ai := AttendeeOf(db.attendees, caller.id);
    if ai.None? {
      return Fail(404, Attendees.NoAttendeeFound);
    }
    if ei.None? {
      return Fail(404, NoEventFoundHere);
    }
    var e := db.events[ei.value];
    if SoldOut(e) {
      return Fail(410, SoldOutMessage);
    }
    var token := sign(TicketPayload(e.id, caller.id));
    var url := render(token);
    if url.None? {
      return Fail(500, QrFailed);
    }
    var a := db.attendees[ai.value];
    var t := db.CreateTicket(Ticket(TicketId(0), e.id, caller.id, url.value, token, false, e.price));
    db.PutAttendee(ai.value, a.(tickets := a.tickets + [t]));
    db.PutEvent(ei.value, WithTicket(e, t));
    reply := Reply(200, "", Some(Issued(t.id, t.qrCode)));
  }

  /** The claims a ticket token carries; a login token has none. */
  function TicketClaims(p: Payload): Option<(EventId, UserId)>
  {
    match p
    case TicketPayload(eventId, userId) => Some((eventId, userId))
    case LoginPayload(_) => None
  }

  /** `Event.updateOne({_id: eventId, "tickets._id": id}, {$set: {"tickets.$.scanned": true}})`:
      in the first event with that id that holds the ticket, the first
      embedded copy is marked scanned. Ids and owners are untouched. */
  function MarkInEvents(events: seq<Event>, eventId: EventId, id: TicketId): (r: seq<Event>)
    ensures |r| == |events|
    ensures forall i :: 0 <= i < |events| ==>
              && r[i].id == events[i].id && r[i].organizer == events[i].organizer
              && |r[i].tickets| == |events[i].tickets|
    ensures forall i :: 0 <= i < |events| && (events[i].id != eventId || EmbeddedTicket(events[i].tickets, id).None?) ==>
              r[i] == events[i]
    ensures var k := FirstIndex(events, (e: Event) => e.id == eventId && EmbeddedTicket(e.tickets, id).Some?);
            k.Some? ==>
              var j := EmbeddedTicket(events[k.value].tickets, id).value;
              && r[k.value].tickets[j].scanned
              && r[k.value] == events[k.value].(tickets := MarkEmbeddedScanned(events[k.value].tickets, id))
              && forall i :: 0 <= i < |events| && i != k.value ==> r[i] == events[i]
  {
    match FirstIndex(events, (e: Event) => e.id == eventId && EmbeddedTicket(e.tickets, id).Some?)
    case None => events
    case Some(k) => events[k := events[k].(tickets := MarkEmbeddedScanned(events[k].tickets, id))]
  }

  /** `Attendee.updateOne({userId, "tickets._id": id}, {$set: {"tickets.$.scanned": true}})`. */
  function MarkInAttendees(attendees: seq<Attendee>, userId: UserId, id: TicketId): (r: seq<Attendee>)
    ensures |r| == |attendees|
    ensures forall i :: 0 <= i < |attendees| ==>
              && r[i].id == attendees[i].id && r[i].userId == attendees[i].userId
              && |r[i].tickets| == |attendees[i].tickets|
    ensures forall i :: 0 <= i < |attendees| && (attendees[i].userId != userId || EmbeddedTicket(attendees[i].tickets, id).None?) ==>
              r[i] == attendees[i]
    ensures var k := FirstIndex(attendees, (a: Attendee) => a.userId == userId && EmbeddedTicket(a.tickets, id).Some?);
            k.Some? ==>
              var j := EmbeddedTicket(attendees[k.value].tickets, id).value;
              && r[k.value].tickets[j].scanned
              && r[k.value] == attendees[k.value].(tickets := MarkEmbeddedScanned(attendees[k.value].tickets, id))
              && forall i :: 0 <= i < |attendees| && i != k.value ==> r[i] == attendees[i]
  {
    match FirstIndex(attendees, (a: Attendee) => a.userId == userId && EmbeddedTicket(a.tickets, id).Some?)
    case None => attendees
    case Some(k) => attendees[k := attendees[k].(tickets := MarkEmbeddedScanned(attendees[k].tickets, id))]
  }

  /** `scanTicket`. Role, ticket lookup by QR code, token verification, the
      scanner's ownership of the event the token names, the scanned flag; on
      success the ticket record and its embedded copies are marked scanned. */
  method ScanTicket(db: Store, qrCode: string, caller: User, verify: string -> Option<Payload>)
    returns (reply: Reply<()>)
    requires db.Valid()
    modifies db
    ensures db.Valid()
    ensures db.users == old(db.users) && db.organizers == old(db.organizers) && db.nextId == old(db.nextId)
    ensures var ti := TicketByQr(old(db.tickets), qrCode);
            if caller.role != "organizer" then
              reply == Fail(403, OrganizersScanOnly) && unchanged(db)
            else if ti.None? then
              reply == Fail(404, NoTicketFound) && unchanged(db)
            else
              var t := old(db.tickets)[ti.value];
              var decoded := verify(t.token);
              if decoded.None? then
                reply == Fail(400, BadTicketToken) && unchanged(db)
              else
                var claims := TicketClaims(decoded.value);
                if claims.None? || OwnedEventIndex(old(db.events), claims.value.0, caller.id).None? then
                  reply == Fail(404, NoMatchingEvent) && unchanged(db)
                else if t.scanned then
                  reply == Fail(400, AlreadyScanned) && unchanged(db)
                else
                  && reply == Reply(200, Verified, None)
                  && db.tickets == old(db.tickets)[ti.value := t.(scanned := true)]
                  && db.events == MarkInEvents(old(db.events), claims.value.0, t.id)
                  && db.attendees == MarkInAttendees(old(db.attendees), claims.value.1, t.id)
  {
    if caller.role != "organizer" {
      return Fail(403, OrganizersScanOnly);
    }
    var ti := TicketByQr(db.tickets, qrCode);
    if ti.None? {
      return Fail(404, NoTicketFound);
    }
    var t := db.tickets[ti.value];
    var decoded := verify(t.token);
    if decoded.None? {
      return Fail(400, BadTicketToken);
    }
    var claims := TicketClaims(decoded.value);
    if claims.None? || OwnedEventIndex(db.events, claims.value.0, caller.id).None? {
      return Fail(404, NoMatchingEvent);
    }
    var (eventId, userId) := claims.value;
    if t.scanned {
      return Fail(400, AlreadyScanned);
    }
    db.PutTicket(ti.value, t.(scanned := true));
    var ek := FirstIndex(db.events, (e: Event) => e.id == eventId && EmbeddedTicket(e.tickets, t.id).Some?);
    if ek.Some? {
      var e := db.events[ek.value];
      db.PutEvent(ek.value, e.(tickets := MarkEmbeddedScanned(e.tickets, t.id)));
    }
    var ak := FirstIndex(db.attendees, (a: Attendee) => a.userId == userId && EmbeddedTicket(a.tickets, t.id).Some?);
    if ak.Some? {
      var a := db.attendees[ak.value];
      db.PutAttendee(ak.value, a.(tickets := MarkEmbeddedScanned(a.tickets, t.id)));
    }
    reply := Reply(200, Verified, None);
  }

  /** What a successful scan writes keeps the ticket findable by its QR
      code with the same token, keeps the event findable for its owner, and
      leaves the ticket marked scanned. */
  lemma ScanKeepsLookups(tickets: seq<Ticket>, events: seq<Event>, qrCode: string, caller: User,
                         verify: string -> Option<Payload>)
    requires TicketByQr(tickets, qrCode).Some?
    requires var t := tickets[TicketByQr(tickets, qrCode).value];
             && verify(t.token).Some? && TicketClaims(verify(t.token).value).Some?
             && OwnedEventIndex(events, TicketClaims(verify(t.token).value).value.0, caller.id).Some?
    ensures var ti := TicketByQr(tickets, qrCode).value;
            var t := tickets[ti];
            var eventId := TicketClaims(verify(t.token).value).value.0;
            var tickets' := tickets[ti := t.(scanned := true)];
            var events' := MarkInEvents(events, eventId, t.id);
            && TicketByQr(tickets', qrCode) == Some(ti)
            && tickets'[ti].token == t.token && tickets'[ti].scanned
            && OwnedEventIndex(events', eventId, caller.id) == OwnedEventIndex(events, eventId, caller.id)
  {
    var ti := TicketByQr(tickets, qrCode).value;
    var t := tickets[ti];
    var eventId := TicketClaims(verify(t.token).value).value.0;
    var tickets' := tickets[ti := t.(scanned := true)];
    var events' := MarkInEvents(events, eventId, t.id);
    FirstIndexAgree(tickets, (x: Ticket) => x.qrCode == qrCode, tickets', (x: Ticket) => x.qrCode == qrCode);
    FirstIndexAgree(events, (e: Event) => e.id == eventId && OwnedBy(e, caller.id),
                    events', (e: Event) => e.id == eventId && OwnedBy(e, caller.id));
  }

  /** A ticket is admitted once: after a successful scan, scanning the same
      QR code again is refused as already scanned. */
  method ScanTwice(db: Store, qrCode: string, caller: User, verify: string -> Option<Payload>)
    returns (first: Reply<()>, second: Reply<()>)
    requires db.Valid()
    modifies db
    ensures first.status == 200 ==> second == Fail(400, AlreadyScanned)
  {
    first := ScanTicket(db, qrCode, caller, verify);
    if first.status == 200 {
      ScanKeepsLookups(old(db.tickets), old(db.events), qrCode, caller, verify);
    }
    second := ScanTicket(db, qrCode, caller, verify);
  }
}
