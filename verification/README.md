# eventful-api: a Dafny model of the event-ticketing core

eventful-api is an Express/Mongoose service. Organizers publish events. Attendees
apply to events, set reminders and buy tickets that carry a signed token and a QR
code. Organizers scan tickets at the door and read analytics over their events.
A BullMQ worker runs a daily pass that queues reminder e-mails.

This project models the request handlers of that service and the worker. It also
proves what the handlers promise: the order in which they check their guards, what
each error leaves untouched, and exactly what a success writes.

The modules follow the source layout:

| file | module | models |
|---|---|---|
| `records.dfy` | `Records` | the document shapes, the HTTP reply, the token payloads, the ownership test |
| `store.dfy` | `DocumentStore` | the five collections, the `findOne`/`find` queries, create / write-back / delete |
| `auth.dfy` | `Auth` | the `protect` and `restrictTo` middleware |
| `users.dfy` | `Users` | `registerUser`, `loginUser` |
| `events.dfy` | `Events` | `addEvent`, `deleteEvent`, the event listings, `getSingleEvent`, `searchEvents` |
| `attendees.dfy` | `Attendees` | `getEvents`, `applyToEvent`, `getAppliedEvents`, `setReminder` |
| `tickets.dfy` | `Tickets` | `generateTicket`, `scanTicket` |
| `worker.dfy` | `EmailWorker` | the `check-reminders` pass and the `send-email` dispatch |
| `analytics.dfy` | `Analytics` | `getAllEventAnalytics`, `getSingleEventAnalytics` and their cache |

## Modelling choices

- **The store.** `DocumentStore.Store` is a class with one `seq` field per collection, kept in natural (insertion) order.
  - A `findOne` is the first match in that order (`FirstIndex`), and a `find` is an order-preserving filter (`Filter`).
  - The positional update `tickets.$` hits the first embedded element that matches.
  - Sequences are used rather than maps because the handlers depend on this order: analytics sums run over the `find` result, and `findOne` picks the first match.
  - `Store.Valid()` says that ids are unique within each collection and were all handed out by one allocator, `nextId`.
- **Id kinds.** Each collection has its own id kind: `UserId`, `OrganizerId`, `AttendeeId`, `EventId` and `TicketId`, each wrapping a raw object id.
  - `addEvent` stores the Organizer *document* id as the event's `organizer.organizerId`.
  - The ownership filters (`deleteEvent`, `getMyEvents`, `getEventApplicants`, `scanTicket`, `applyToEvent`'s own-event check) compare that field with the caller's *user* id. `Records.OwnedBy` writes out this comparison of raw ids.
  - The consequence is proved: `Events.CreatorCannotDelete` and `Events.MyEventsAlwaysEmpty`.
- **Handlers.** State-changing handlers are methods that take the store. Each early return is a `Reply` with the source's status code and message, and every error branch that returns before the first write is proved to leave the store `unchanged`. The two late 400 replies of `registerUser` come after `User.create`, and the model keeps the created user there, as the source does. Read-only handlers are functions over the collections.
- **External services are parameters.** All of these are taken as given:
  - token signing and verification: `sign`, and `verify`, which may fail;
  - QR rendering: `render`, which may fail;
  - the password hash (`hashedPassword`) and the bcrypt compare (`matches`);
  - the image-store URL (`backdrop`);
  - the outcome of the Joi schema check (`Validated<T>`);
  - the search pattern test (`matches`);
  - today's `DD/MM/YYYY` string (`today`).
- **`ticketsSold` is `Option<int>`.**
  - A missing count is never sold out: `undefined >= capacity` is false.
  - `$inc` on a missing count stores 1.
  - Analytics reads a missing count as `ticketsSold || 0`.
  - `addEvent` stores the count the form supplies, and 0 when the form has none.
- **The e-mail queue** is a class holding the growing sequence of queued jobs.
- **The analytics cache** is a class holding a map from cache key to figures.

## Model

| member | source | states |
|---|---|---|
| DocumentStore.FirstIndex | src/controllers/events.controller.ts:169-171 | a `findOne` result is the first element satisfying the query; none is found exactly when no element satisfies it |
| DocumentStore.Filter | src/controllers/events.controller.ts:196 | a `find` result holds only elements of the collection that satisfy the query, holds every element that does, and is empty when none does |
| DocumentStore.FilterAppend | src/controllers/events.controller.ts:196 | a `find` keeps the collection's order: filtering a collection with one more document at the end gives the earlier result, followed by that document exactly when it matches |
| DocumentStore.FilterCount | src/controllers/analytics.controller.ts:40-45 | a filter result has one element per matching position, so its length is the number of elements that satisfy the test |
| DocumentStore.FirstIndexAgree | src/controllers/tickets.controller.ts:97-121 | two queries whose tests agree record by record find the same record, so a write that keeps the queried fields keeps the later lookups |
| DocumentStore.MarkEmbeddedScanned | src/controllers/tickets.controller.ts:144-153 | the positional `tickets.$.scanned = true` marks the first embedded ticket with the id and leaves every other element and the list length alone; with no such ticket nothing changes |
| DocumentStore.Store.CreateUser | src/controllers/users.controller.ts:29-35 | `User.create` appends one user with a fresh id, distinct from every stored user id, and changes no other collection |
| DocumentStore.Store.CreateOrganizer | src/controllers/users.controller.ts:50-54 | `Organizer.create` appends one profile with a fresh id and empty `createdEvents` |
| DocumentStore.Store.CreateAttendee | src/controllers/users.controller.ts:57-62 | `Attendee.create` appends one profile with a fresh id and empty applied events, reminders and tickets |
| DocumentStore.Store.CreateEvent | src/controllers/events.controller.ts:117-130 | saving a new event appends it under a fresh id and changes no other collection |
| DocumentStore.Store.CreateTicket | src/controllers/tickets.controller.ts:51-59 | saving a new ticket appends it under a fresh id, distinct from every stored ticket id |
| DocumentStore.Store.PutEvent | src/controllers/attendees.controller.ts:64-71 | writing back an event document replaces only that document, keeps its id and keeps ids unique |
| DocumentStore.Store.PutAttendee | src/controllers/attendees.controller.ts:74-89 | writing back an attendee document replaces only that document |
| DocumentStore.Store.PutOrganizer | src/controllers/events.controller.ts:132-147 | `findByIdAndUpdate` on an organizer replaces only that document |
| DocumentStore.Store.PutTicket | src/controllers/tickets.controller.ts:139-141 | saving the ticket record replaces only that record |
| DocumentStore.Store.RemoveEvent | src/controllers/events.controller.ts:180 | `deleteOne` removes exactly that event, keeps the order of the rest, and no remaining event has its id |
| Auth.Split | src/middleware/auth.ts:30 | `split(" ")` gives at least one piece and no piece contains a space |
| Auth.JoinSplit | src/middleware/auth.ts:30 | splitting on spaces loses nothing: joining the pieces with single spaces gives the header back |
| Auth.SplitAfterWord | src/middleware/auth.ts:30 | a space-free word followed by a space is the first piece, and the rest is split on its own |
| Auth.ExtractToken | src/middleware/auth.ts:26-31 | a token exists only when the header is present and starts with "bearer" in any letter case; the token is the second space-separated piece, non-empty and space-free; and whenever the header starts with "bearer" and its second piece is non-empty, that piece is the token |
| Auth.BearerHeaderYieldsToken | src/__tests__/middleware/auth.test.ts:60-83 | "Bearer t", "bearer t" and every other letter case of the scheme yield exactly `t` |
| Auth.NonBearerYieldsNothing | src/__tests__/middleware/auth.test.ts:101-114 | a non-empty header whose first letter is not "b" in either case yields no token, whatever follows |
| Auth.Authenticate | src/middleware/auth.ts:33-60 | no token is 401 "not logged in"; a failed verification is 401 "Invalid token"; any other refusal is 401 "user no longer exists"; access is granted exactly when the verified payload names a stored user, and then that user is returned; every refusal is 401 |
| Auth.LoginTokenAccepted | src/middleware/auth.ts:42-54 | a well-formed bearer header carrying a token that verifies to `{id}` is accepted exactly when a user with that id still exists |
| Auth.Protect | src/middleware/auth.ts:15-61 | on success `req.user` is the found user and `next` runs exactly once; on a refusal the 401 reply is returned and neither `req.user` nor the `next` count changes |
| Auth.RestrictTo | src/middleware/auth.ts:64-74 | `next` runs exactly when the user's role is one of the roles; otherwise the reply is 403 |
| Auth.RoleMatchIsCaseSensitive | src/__tests__/middleware/auth.test.ts:295-310 | the role "Organizer" does not pass `restrictTo("organizer")` |
| Users.RegisterUser | src/controllers/users.controller.ts:10-86 | a schema failure gives 400, an email already taken gives 409, and neither changes the store; otherwise the user record is created first; an unknown role then gives 400 with the user kept and no profile; an organizer without organization name gives 400 with the user kept and no profile; an organizer gets one Organizer profile, an attendee one Attendee profile, no role neither; the 201 body carries id, name, email and role but no password |
| Users.LoginUser | src/controllers/users.controller.ts:88-127 | an empty email or password gives 400 before any lookup; success (200) happens exactly when the first user with that email exists and the password matches its hash, and returns the token signed over that user's id; every other case is the same 401 reply |
| Events.GetEvents | src/controllers/events.controller.ts:10-25 | 200 with the number of stored events, and the data is the stored events in store order |
| Events.GetSingleEvent | src/controllers/events.controller.ts:27-48 | 404 exactly when no event has the id; otherwise 200 with a stored event that has that id |
| Events.SearchEvents | src/controllers/events.controller.ts:50-75 | the count is the number of stored events that match; the data is "No Events" exactly when that count is 0; otherwise the data is the matching events in store order (the filter of the collection), holding every matching event and nothing else, and its length is that count |
| Events.GetMyEvents | src/controllers/events.controller.ts:194-209 | the listing is the events whose stored organizer id equals the caller's user id, in store order (the filter of the collection); the count is its length and equals the number of such stored events |
| Events.GetEventApplicants | src/controllers/events.controller.ts:211-235 | 200 exactly when an event with the id has the caller's user id as stored organizer id, and then its applicants with their number; otherwise 404 |
| Events.MyEventsAlwaysEmpty | src/controllers/events.controller.ts:124 | when every event names an Organizer document as owner, as `addEvent` stores it, `getMyEvents` lists nothing for any stored user |
| Events.DraftShape | src/controllers/events.controller.ts:111-128 | a new event has no applicants, no tickets, the sold count the form supplies (0 when it has none), exactly one unsent reminder for the creator's email at the submitted day, and the Organizer document as owner |
| Events.AddEvent | src/controllers/events.controller.ts:77-165 | guards in order: a missing or non-organizer user gives 403, a missing Organizer profile 404, no file 400, a schema failure 400, each leaving the store unchanged; success appends the event built from the form (with the form's sold count, 0 when it has none) under a fresh id, pushes one snapshot of it onto the organizer's `createdEvents` and changes no user, attendee or ticket |
| Events.DeleteEvent | src/controllers/events.controller.ts:167-192 | if no event has both the id and the caller's user id as stored organizer id, the reply is 404 and nothing changes; otherwise exactly that event is removed and no event with the id remains |
| Events.NewEventNotOwned | src/controllers/events.controller.ts:169-171 | an event with a new id whose stored organizer id is not the caller's is not found by the caller's ownership query |
| Events.CreatorCannotDelete | src/controllers/events.controller.ts:124-180 | after an organizer creates an event, that organizer's delete of it is refused with 404 |
| Attendees.GetEvents | src/controllers/attendees.controller.ts:5-19 | 200 with the number of stored events; the data is "No Events" exactly when there are none, and otherwise the stored events |
| Attendees.ListingsAgree | src/controllers/attendees.controller.ts:5-19 | the attendee listing and the event-route listing report the same count and, when there are events, the same events |
| Attendees.WithApplicant | src/controllers/attendees.controller.ts:63-71 | the push keeps the earlier applicants in place and appends one entry holding the user's id, name, username and email; every other field of the event is kept, and afterwards the user has applied |
| Attendees.ApplyKeepsApplicantsDistinct | src/controllers/attendees.controller.ts:41-71 | because of the duplicate check, an applicant list without repeated users stays without repeats |
| Attendees.ApplyToEvent | src/controllers/attendees.controller.ts:21-101 | guards in order: missing event 404, missing attendee profile 404, already applied 409, own event 405, each leaving the store unchanged; success appends the caller once to the event's applicants and one snapshot of the event to the attendee's applied events, and nothing else changes |
| Attendees.ApplyTwice | src/controllers/attendees.controller.ts:41-51 | once an application succeeds, the same application again is refused with 409 |
| Attendees.GetAppliedEvents | src/controllers/attendees.controller.ts:103-125 | 404 exactly when the caller has no attendee profile; otherwise the profile's applied events with their number |
| Attendees.ApplyThenList | src/controllers/attendees.controller.ts:73-118 | after a successful application the applied-events listing succeeds and its last entry is that event |
| Attendees.SetReminder | src/controllers/attendees.controller.ts:127-176 | missing attendee 404, then missing event 404, both leaving the store unchanged; success (201) appends the unsent reminder for the caller's email to the event, and the same reminder with the event id to the attendee |
| Tickets.WithTicket | src/controllers/tickets.controller.ts:61-70 | a sale appends the ticket once to the event's tickets and sets the sold count to one more than before, counting a missing count as 0; every other field of the event is kept |
| Tickets.SaleKeepsCount | src/controllers/tickets.controller.ts:61-70 | a sale keeps the sold count equal to the number of embedded tickets |
| Tickets.SaleWithinCapacity | src/controllers/tickets.controller.ts:33-38 | with a recorded count, a sale the gate admits never takes the count past capacity |
| Tickets.MissingCountNeverSoldOut | src/controllers/tickets.controller.ts:33 | an event without a recorded count is never sold out, whatever its capacity, and a sale then records a count of 1 |
| Tickets.DraftSoldOut | src/controllers/tickets.controller.ts:33-38 | an event created from a form whose sold count reaches the capacity is refused as sold out from the first sale; with no count in the form it is sold out only at a capacity of 0 or less |
| Tickets.GenerateTicket | src/controllers/tickets.controller.ts:14-84 | missing attendee 404, then missing event 404, then sold out 410, then a failed QR rendering 500, each leaving the store unchanged; success creates exactly one ticket for the event and the caller, with the token signed over `{eventId, userId}`, the rendered QR code, the event's price and unscanned, appends it once to the attendee's and once to the event's tickets, and adds 1 to the sold count; users and organizers are untouched |
| Tickets.MarkInEvents | src/controllers/tickets.controller.ts:144-148 | the positional update marks the ticket scanned in the first event with the id that holds it; that event changes only in its embedded tickets, where only the first copy of the ticket changes, and every other event is kept |
| Tickets.MarkInAttendees | src/controllers/tickets.controller.ts:149-153 | the same for the first attendee of the ticket's user who holds it: only that attendee's first copy of the ticket changes |
| Tickets.ScanTicket | src/controllers/tickets.controller.ts:86-165 | guards in order: non-organizer 403, unknown QR code 404, failed verification 400, no event with the token's event id owned by the caller 404, already scanned 400, each leaving the store unchanged; success sets `scanned` on the ticket record and on its embedded copies in the event and the attendee, and creates nothing |
| Tickets.ScanKeepsLookups | src/controllers/tickets.controller.ts:97-153 | what a successful scan writes keeps the ticket found by its QR code with the same token and now scanned, and keeps the event found for the scanning organizer |
| Tickets.ScanTwice | src/controllers/tickets.controller.ts:132-153 | once a scan succeeds, scanning the same QR code again is refused as already scanned |
| EmailWorker.EmailQueue.Add | src/workers/emailWorker.ts:32-35 | `emailQueue.add` appends exactly one job with that name and data |
| EmailWorker.MarkDueMarks | src/workers/emailWorker.ts:29-38 | after marking, a reminder is sent exactly when it was sent before or is for today; no reminder is still due; times and addresses are kept |
| EmailWorker.PassEvents | src/workers/emailWorker.ts:28-41 | the pass leaves each event as the per-event step leaves it, in place |
| EmailWorker.SavedAreSelected | src/workers/emailWorker.ts:19-41 | the saved events are exactly the events the store query selects |
| EmailWorker.DueRemindersAreDue | src/workers/emailWorker.ts:30 | the due reminders of a list are each of the reminders that meet both conditions and nothing else |
| EmailWorker.JobsForCarryDue | src/workers/emailWorker.ts:29-36 | the inner loop queues one `send-email` job per reminder that is for today and unsent, carrying that reminder, in order, and no other job |
| EmailWorker.UnselectedHasNoDue | src/workers/emailWorker.ts:19-22 | an event the query does not select holds no due reminder |
| EmailWorker.PassJobsAreDue | src/workers/emailWorker.ts:19-36 | although the query may select extra events, the pass queues exactly one job per (event, reminder) pair meeting both conditions on the same reminder, and the jobs carry exactly those reminders in store order |
| EmailWorker.StepIsMarked | src/workers/emailWorker.ts:28-41 | leaving an unselected event alone is the same as marking it |
| EmailWorker.SecondPassQueuesNothing | src/workers/emailWorker.ts:30-37 | a second pass on the same day queues no job |
| EmailWorker.SecondPassChangesNothing | src/workers/emailWorker.ts:28-41 | a second pass on the same day leaves the events as the first pass left them |
| EmailWorker.PassOnlyMarksDue | src/workers/emailWorker.ts:28-41 | the pass changes no event field but the reminders; every due reminder becomes sent with its other fields kept, and every other reminder is kept whole |
| EmailWorker.SavedOnce | src/workers/emailWorker.ts:28-41 | since event ids are unique, no event is saved twice in one pass |
| EmailWorker.MarkDueIdle | src/workers/emailWorker.ts:30 | marking a list that holds no due reminder changes nothing |
| EmailWorker.VisitReminder | src/workers/emailWorker.ts:30-38 | one inner-loop step: a due reminder is queued with the in-memory event as it stands and then marked sent; any other reminder is left alone and queues nothing |
| EmailWorker.QueueDue | src/workers/emailWorker.ts:29-39 | the inner loop queues the event's due reminders, each with the event as it stood at that moment, and returns the event with all its due reminders marked sent |
| EmailWorker.VisitEvent | src/workers/emailWorker.ts:28-41 | one outer iteration: a selected event has its jobs queued and is saved once; any other event is left alone; no other collection changes |
| EmailWorker.CheckReminders | src/workers/emailWorker.ts:15-41 | the whole pass: the events become their marked versions, the queue grows by the pass's jobs, each selected event is saved once, and users, profiles and tickets are untouched |
| EmailWorker.ProcessJob | src/workers/emailWorker.ts:14-49 | `check-reminders` runs the pass, with the events and queue as the pass leaves them, mails nothing and changes no user, organizer, attendee or ticket; a mail goes out exactly for a `send-email` job with data, carrying its reminder and event snapshot; any other job changes nothing |
| EmailWorker.TwoPasses | src/workers/emailWorker.ts:28-41 | two passes on the same day queue each due reminder once in total |
| Analytics.ScannedCount | src/controllers/analytics.controller.ts:40-45 | the scanned count is the number of embedded tickets marked scanned; it never exceeds the number of tickets, and is 0 exactly when none is scanned |
| Analytics.ScannedWithinTickets | src/controllers/analytics.controller.ts:40-45 | `totalScannedTickets` never exceeds the number of embedded tickets over all the events |
| Analytics.TotalsAdd | src/controllers/analytics.controller.ts:32-45 | each total over two lists of events is the sum of the totals over each list |
| Analytics.OverallOfOneEvent | src/controllers/analytics.controller.ts:32-45 | the overall figures for one event equal that event's per-event figures, a missing sold count being 0 in both |
| Analytics.SoldCoversScanned | src/controllers/analytics.controller.ts:36-45 | when each event's sold count matches its embedded tickets, as sales keep it, the total sold covers the total scanned |
| Analytics.AnalyticsCache.constructor | src/controllers/analytics.controller.ts:6 | the cache starts empty |
| Analytics.GetAllEventAnalytics | src/controllers/analytics.controller.ts:8-64 | a non-organizer gets 403; a cached entry for the caller is returned as stored; otherwise the totals over the caller's events (applicants, sold with missing as 0, scanned) are returned and stored under the caller's key, and no other entry changes |
| Analytics.GetSingleEventAnalytics | src/controllers/analytics.controller.ts:66-124 | a cached entry for the event is returned before any lookup; a missing event gives 404; otherwise the event's figures are returned and stored under its key |
| Analytics.AnyCallerSeesEvent | src/controllers/analytics.controller.ts:91-98 | because the ownership test has an empty body, any two callers get the same reply for the same event |
| Analytics.CachedFiguresAreKept | src/controllers/analytics.controller.ts:17-26 | for an organizer, a second request is answered from the cache even if the events changed in between |

## Left out

- Token signing and verification are parameters. Expiry, the secret and the wire format are not modelled.
- The sign/verify round trip is not assumed. Handlers are proved for any `verify`.
- A ticket token that verifies to a login payload names no event. `scanTicket` then answers 404 for "no matching event": the event query with an undefined id is modelled as finding nothing.
- A login token that verifies to a ticket payload names no user id. `protect` then answers 401 "user no longer exists".
- QR rendering is a parameter that may fail; the image encoding is not modelled.
- The password hash is not modelled:
  - bcrypt salt and hash are one value, `hashedPassword`;
  - `compare` is a predicate parameter.
- The image upload is not modelled: the Cloudinary call becomes the URL it returns, and the temporary-file delete is dropped.
- The Joi schemas are not part of this model. A schema check is an outcome, either the validated fields or the first error message. The shapes of the accepted forms are not checked.
- The body of `sendReminderEmails` (nodemailer, the HTML template and date formatting) is not modelled. `ProcessJob` returns the mail it would send.
- The BullMQ connection, the cron schedule, worker concurrency and the completed/failed listeners are not modelled. Jobs are a growing sequence.
- `moment().format("DD/MM/YYYY")` is the `today` parameter.
- The check-reminders pass walks the stored events by index and applies the store query's test to each, instead of iterating a fetched copy. Nothing else writes in between, so the result is the same.
- A `send-email` job whose data lacks a reminder and event would throw in the mailer. It is modelled as sending nothing.
- The analytics cache's 1800-second expiry is not modelled; entries never expire.
- Concurrency is not modelled, and handlers run one at a time on one store. That leaves out:
  - two `generateTicket` calls racing past the sold-out gate;
  - two scans racing on the same ticket;
  - interleaving with the worker.
- The catch-all 500 replies for store or library exceptions are not modelled. The source returns them when a store call throws, and the model's store calls do not fail.
- Dates are strings. `toISOString` in the `createdEvents` and `appliedEvents` snapshots is not modelled, so snapshots copy the stored date string.
- `reminderTime` from the `setReminder` body is taken as the string submitted; its format is not checked.
- The Event, User, Organizer and Attendee model files are not part of this model. Schema defaults and casting are not modelled. When the form has no sold count, `addEvent` stores 0, which assumes the model's default; a document with no count is still handled.
- Prices are integers. The source's price is a JavaScript number and may have a fractional part (99.99). No handler computes with a price; it is only copied into tickets and snapshots.
- The ticket's `purchaseDate` is not modelled; no handler sets or reads it.
- `Auth.Lower` lower-cases ASCII letters only. This is all the "bearer" prefix test needs.
- The logout and profile handlers of the user controller are not modelled; they only clear a cookie and return the request's user.
- Routes, Swagger and server set-up are not modelled: they hold no logic.
