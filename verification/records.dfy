/** Record shapes of the event API's document store, the HTTP reply and the
    signed-token payloads. */
module Records {

  datatype Option<+T> = None | Some(value: T)

  // Object ids. All five collections draw their ids from one id space
  // (`oid`), but each collection has its own id kind, so that a comparison
  // between an id of one kind and an id of another is written out in full.
  datatype UserId = UserId(oid: nat)
  datatype OrganizerId = OrganizerId(oid: nat)
  datatype AttendeeId = AttendeeId(oid: nat)
  datatype EventId = EventId(oid: nat)
  datatype TicketId = TicketId(oid: nat)

  /** A registered account; `password` holds the bcrypt hash. */
  datatype User = User(id: UserId, name: string, username: string, email: string,
                       role: string, password: string)

  /** The `organizer` sub-document of an event (IAuthor). */
  datatype Author = Author(organizerId: OrganizerId, organizationName: string, email: string)

  datatype Applicant = Applicant(applicantId: UserId, name: string, username: string, email: string)

  /** A reminder embedded in an event; `reminderTime` is a DD/MM/YYYY day string. */
  datatype Reminder = Reminder(reminderTime: string, email: string, sent: bool)

  /** The attendee's copy of a reminder: the same three fields plus the event id. */
  datatype AttendeeReminder = AttendeeReminder(reminder: Reminder, eventId: EventId)

  /** A ticket; the canonical record lives in the ticket collection and copies
      are embedded in the event and in the attendee. */
  datatype Ticket = Ticket(id: TicketId, eventId: EventId, attendeeId: UserId, qrCode: string,
                           token: string, scanned: bool, price: int)

  /** The event snapshot stored in an organizer's `createdEvents` and in an
      attendee's `appliedEvents` (ICreatedEvents and IAppliedEvents have the same shape). */
  datatype EventSummary = EventSummary(eventId: EventId, title: string, location: string,
                                       category: string, description: string, date: string,
                                       time: string, price: int, capacity: int, backdrop: string)

  /** An event; `ticketsSold` may be missing from a document (None). */
  datatype Event = Event(id: EventId, title: string, location: string, category: string,
                         description: string, date: string, time: string, price: int,
                         capacity: int, backdrop: string, applicants: seq<Applicant>,
                         ticketsSold: Option<int>, tickets: seq<Ticket>,
                         reminders: seq<Reminder>, organizer: Author)

  datatype Attendee = Attendee(id: AttendeeId, userId: UserId, appliedEvents: seq<EventSummary>,
                               reminders: seq<AttendeeReminder>, tickets: seq<Ticket>)

  datatype Organizer = Organizer(id: OrganizerId, userId: UserId, organizationName: string,
                                 createdEvents: seq<EventSummary>)

  /** Payloads signed into tokens: `{id}` for a login, `{eventId, userId}` for a ticket. */
  datatype Payload = LoginPayload(id: UserId) | TicketPayload(eventId: EventId, userId: UserId)

  /** An HTTP reply: status code, message (the `message` or `error` text) and body data. */
  datatype Reply<T> = Reply(status: nat, message: string, data: Option<T>)

  /** A reply body that carries a count beside the data. */
  datatype Counted<D> = Counted(count: nat, data: D)

  /** `events.length === 0 ? "No Events" : events`. */
  datatype EventData = NoEvents | EventArray(events: seq<Event>)

  /** The outcome of a request-body schema check: the validated fields, or
      the schema's first error message. */
  datatype Validated<T> = Accepted(value: T) | Rejected(message: string)

  /** The 404 message the attendee, ticket and analytics handlers share. */
  const NoEventFoundHere := "No event found"

  function Fail<T>(status: nat, message: string): Reply<T>
  {
    Reply(status, message, None)
  }

  /** The ownership filter `{"organizer.organizerId": req.user.id}`: the stored
      organizer id is compared with a user id on their raw object-id values. */
  predicate OwnedBy(e: Event, caller: UserId)
  {
    e.organizer.organizerId.oid == caller.oid
  }

  /** The snapshot pushed into `createdEvents` and `appliedEvents`. */
  function Summary(e: Event): EventSummary
  {
    EventSummary(e.id, e.title, e.location, e.category, e.description, e.date, e.time,
                 e.price, e.capacity, e.backdrop)
  }

  /** `event.ticketsSold || 0`. */
  function SoldOrZero(e: Event): int
  {
    match e.ticketsSold
    case Some(k) => k
    case None => 0
  }
}
