# Bus booking backend: the booking and settlement state machine

This project models, in Dafny, the core of a bus-booking backend (Express and
Prisma over PostgreSQL, with Stripe for card payments). It covers:

- **Inventory.** An administrator creates *schedules* (departures of a *route*
  with a seat count and a price) and can cancel one.
- **Bookings.** A customer reserves named seats on a SCHEDULED departure. One
  transaction inserts a PENDING booking and takes the seats off the schedule's
  `availableSeats` counter. Cancelling gives them back and marks a settled
  payment REFUNDED.
- **Settlement.** A customer opens a payment for a PENDING booking: a row
  upserted on the booking id that records the processor's intent id. The
  payment is then settled by one of two paths, the owner's direct
  confirmation or the processor's signed webhook. Both run the same
  transaction: the payment becomes COMPLETED and the booking CONFIRMED.
- **Queries.** The schedule listing and the route search filter the
  departures and order them by departure time.
- **Errors.** A middleware turns thrown errors into HTTP replies.

The database is the value `Entities.Db`, four append-only tables. A row's id
is its index, so the id of a new row is the table's length. Every handler is
a function from the store (and its request) to a `Step(reply, store)`.
`Backend.Server` is the same store as an object. Its four table fields are
updated in place by one method per state-changing handler, and each method is
proved to produce exactly the reply and the tables of its step function.

The central properties concern two invariants:

- `SeatsBalanced`: for every schedule, `availableSeats` + the seats held by
  its PENDING/CONFIRMED bookings = `totalSeats`.
- `ActiveSeatsDisjoint`: no seat is held by two PENDING/CONFIRMED bookings of
  one schedule.

Booking creation and cancellation keep both invariants, and so does every
request that does not bring a cancelled booking back (`Store.BalanceKept`,
`Store.DisjointnessKept`, `Store.LedgerKeptOverRun`). Only the two settlement
paths can bring one back (`Store.OnlySettlementReactivates`). This is
reachable from a fresh store, and it then breaks both invariants
(`Store.ReactivationBreaksLedger`).

Files:

- `entities.dfy`: rows, statuses, the store, replies, the well-formedness
  invariant and the first-match payment lookup.
- `ledger.dfy`: held seats and the two seat invariants.
- `error_handler.dfy`: the error middleware.
- `booking_controller.dfy`, `payment_controller.dfy`,
  `schedule_controller.dfy`: the handlers as step functions, with their
  properties.
- `store.dfy`: the request dispatcher and the invariants over all requests.
- `backend.dfy`: the mutable `Server` class.

### Where the code and the intended design differ

In each case the model follows the code.

- A second cancel of a booking is a 400 error ("Booking is already
  cancelled"), not a silent success (`CancelTwiceIsAnError`).
- A second direct confirmation is a 400 error ("Payment already completed")
  (`ConfirmTwiceIsAnError`). Webhook deliveries, success and failure
  alike, are idempotent (`WebhookIsIdempotent`).
- Neither settlement path looks at the booking's status. A CANCELLED booking
  whose payment is not COMPLETED becomes CONFIRMED again, and its seats are
  not taken back from the counter (`ConfirmReactivatesCancelledBooking`,
  `ReactivationBreaksLedger`).
- A failure event marks even a COMPLETED payment FAILED, and the booking
  stays CONFIRMED (`FailureEventDowngradesCompletedPayment`).
- Seats repeated inside one request are not refused. Both copies are counted
  and charged (`DuplicateSeatsAreCharged`).
- A seat conflict is answered with status 400 and the list of conflicting
  seats, not 409.
- Deleting a schedule cancels it but leaves its bookings, payments and
  counters as they are.
- A cancelled booking's refund is a status change on the payment row only.

### Modelling choices

- Money is an integer number of cents. The rounding of
  `Math.round(totalAmount * 100)` is therefore the identity, and the charge
  request carries `totalAmount`.
- Times are integers (milliseconds). A date filter selects the whole day
  `[day * 86400000, day * 86400000 + 86399999]`.
- The processor is a set of parameters:
  - the new intent's id and client secret (create);
  - the intent status that retrieving it reports (confirm);
  - whether the webhook signature checks out (webhook);
  - the settlement time `now`.
- A new schedule's status is assumed to be SCHEDULED. The create handler
  does not set it and the database schema is not part of this model; the
  seed script sets SCHEDULED explicitly on the schedules it creates.
- Prisma's `update` of a missing row throws its P2025 error. Deleting an
  unknown schedule therefore reaches the client through the error middleware
  as 404 "Not found".
- Request fields that the handlers only receive after validation (ids,
  times) are typed values. "Missing" is `None` only where the handler itself
  tests for it.

## Model

| member | source | states |
|---|---|---|
| Entities.FindPayment | backend/src/controllers/paymentController.js:213-215 | the lookup returns the first payment row with the key, and None exactly when no row has it |
| Entities.FindPaymentStable | backend/src/controllers/paymentController.js:237-245 | rewriting a payment row without changing whether it has the key leaves the lookup's answer unchanged |
| Entities.PaymentOfBookingIsUnique | backend/src/controllers/paymentController.js:54-68 | in a well-formed store (payments unique per booking, the upsert key) any payment of a booking is the one the lookup by booking finds |
| Ledger.SeatsOf | backend/src/controllers/bookingController.js:37 | a seat is in the flattened list exactly when some counted booking of the schedule names it |
| Ledger.HeldSeatsIsLength | backend/src/controllers/bookingController.js:71-78 | the held-seat count equals the length of the held-seat list, duplicates included |
| Ledger.HeldSeatsAppend | backend/src/controllers/bookingController.js:54-61 | inserting a booking adds exactly its own held seats to each schedule's count |
| Ledger.HeldSeatsUpdate | backend/src/controllers/bookingController.js:164-166 | rewriting one booking changes each count by the difference of what the old and the new row hold |
| Ledger.HeldSeatsUnreferenced | backend/src/controllers/scheduleController.js:149-157 | a schedule that no booking refers to holds no seats |
| Ledger.SeatsOfCounts | backend/src/controllers/scheduleController.js:72 | the flattened seat list names each seat exactly as often as the counted bookings name it, summed booking by booking |
| Ledger.OccurrencesAppend | backend/src/controllers/scheduleController.js:72 | a new booking adds its own seat multiplicities to each seat's count |
| ErrorHandler.Handle | backend/src/middlewares/errorHandler.js:1-28 | ValidationError gives 400 with its details, before any code check; otherwise P2002 gives 409 and P2025 gives 404; anything else gets the error's own status (500 if unset) and message ("Internal server error" if unset); each case holds exactly under its condition |
| ErrorHandler.NotFound | backend/src/middlewares/errorHandler.js:30-35 | an unmatched route gets 404 "Route not found" echoing the path |
| ErrorHandler.MissingRowIsNotFound | backend/src/middlewares/errorHandler.js:18-23 | the ORM's missing-row error reaches the client as 404 "Not found" |
| BookingController.Conflicts | backend/src/controllers/bookingController.js:38 | the conflict list holds exactly the requested seats already held, each as often as requested, and is empty exactly when the request is disjoint from the held seats |
| BookingController.ConflictsOfConcat | backend/src/controllers/bookingController.js:38 | the conflict list keeps request order: filtering a concatenation concatenates the filtered parts |
| BookingController.FirstEmpty | backend/src/utils/validation.js:53 | finds the first empty seat label, and None exactly when every label is non-empty |
| BookingController.Decimal | backend/src/utils/validation.js:53 | the index in the message is spelled as the decimal digits of the number, without leading zeros |
| BookingController.SeatsError | backend/src/controllers/bookingController.js:6-9 | validation fails exactly when the seat list is empty or has an empty label; an empty list gives "seatNumbers" must contain at least 1 items, otherwise the first empty label's index is named in "seatNumbers[i]" is not allowed to be empty |
| BookingController.CreateBooking | backend/src/controllers/bookingController.js:4-90 | refusals in handler order (400 invalid seats with the validator's message, 404 unknown schedule, 400 schedule not SCHEDULED, the conflict reply, 400 not enough seats) leave the store unchanged; the conflict reply happens exactly when some requested seat is held and lists the requested seats that are held, in request order with duplicates kept; the booking is created exactly when all checks pass, as one PENDING row costing price × seat count, with the schedule's counter reduced by the seat count and nothing else changed; well-formedness is kept |
| BookingController.GetBookingById | backend/src/controllers/bookingController.js:92-131 | 404 for an unknown id, 403 unless the caller is the owner or an admin, otherwise the row |
| BookingController.RefundIfPaidRows | backend/src/controllers/bookingController.js:186-191 | in a well-formed store the refund marks REFUNDED exactly the booking's own payment when it is COMPLETED, and no other row changes |
| BookingController.CancelBooking | backend/src/controllers/bookingController.js:133-203 | 404, 403, 400 already cancelled and 400 completed leave the store unchanged; success exactly for an accessible PENDING/CONFIRMED booking, which becomes CANCELLED with its seats returned to the counter and a COMPLETED payment of it marked REFUNDED, and nothing else changed |
| BookingController.GetAllBookings | backend/src/controllers/bookingController.js:205-240 | lists exactly the bookings that pass the optional status and schedule filters, newest first |
| BookingController.CreateBookingKeepsBalance | backend/src/controllers/bookingController.js:53-81 | booking creation keeps availableSeats + held seats = totalSeats on every schedule |
| BookingController.CreateBookingKeepsDisjoint | backend/src/controllers/bookingController.js:37-45 | a created booking shares no seat with any PENDING/CONFIRMED booking of its schedule |
| BookingController.CancelBookingKeepsBalance | backend/src/controllers/bookingController.js:163-184 | cancellation keeps availableSeats + held seats = totalSeats on every schedule |
| BookingController.CancelBookingKeepsDisjoint | backend/src/controllers/bookingController.js:163-166 | cancellation keeps held seat sets disjoint |
| BookingController.CreateThenCancelRestoresSeats | backend/src/controllers/bookingController.js:177-184 | a create followed by the owner's cancel restores every counter and payment and leaves the new booking CANCELLED |
| BookingController.CancelTwiceIsAnError | backend/src/controllers/bookingController.js:155-157 | a second cancel of the same booking is a 400 error that changes nothing |
| BookingController.DuplicateSeatsAreCharged | backend/src/controllers/bookingController.js:47-51 | a request naming one seat twice is accepted, charged twice and takes two units off the counter |
| PaymentController.CreatePaymentIntent | backend/src/controllers/paymentController.js:4-78 | 400 "Booking ID is required", 404, 403 for anyone but the owner (no admin bypass), 400 "Booking is not pending payment", 400 "Booking is already paid", each under its condition and leaving the store unchanged; success exactly otherwise, with a charge of the booking's total in usd and the processor's client secret passed back to the client; an existing payment row only gets the new intent id and PENDING, otherwise a new PENDING row is appended; no booking or schedule changes |
| PaymentController.Settle | backend/src/controllers/paymentController.js:127-142 | the payment becomes COMPLETED at the given time and its booking CONFIRMED, whatever its status was; nothing else changes and well-formedness is kept |
| PaymentController.ConfirmPayment | backend/src/controllers/paymentController.js:80-151 | 400 "Payment ID is required", 404, 403 for anyone but the owner, 400 "Payment already completed", 400 "Payment not successful" when the processor does not report succeeded, each under its condition and leaving the store unchanged; success exactly otherwise, and then the store is settled for that payment |
| PaymentController.GetPaymentById | backend/src/controllers/paymentController.js:153-194 | 404 for an unknown id, 403 unless the caller owns the booking or is an admin, otherwise the row |
| PaymentController.HandleWebhook | backend/src/controllers/paymentController.js:196-257 | a bad signature is 400 with no change; otherwise 200, where a success event settles the first payment with that intent if it is not COMPLETED, a failure event marks it FAILED whatever its status, and any other event changes nothing; counters never change |
| PaymentController.WebhookIsIdempotent | backend/src/controllers/paymentController.js:210-247 | redelivering any event gives the same reply and changes nothing further |
| PaymentController.ConfirmTwiceIsAnError | backend/src/controllers/paymentController.js:112-114 | a second direct confirmation is a 400 error that changes nothing |
| PaymentController.WebhookAfterConfirmIsNoOp | backend/src/controllers/paymentController.js:217 | a success event after the direct confirmation changes nothing |
| PaymentController.ConfirmAfterWebhookIsAnError | backend/src/controllers/paymentController.js:112-114 | after the success event the payment is COMPLETED and the booking CONFIRMED, and the owner's direct confirmation is a 400 error that changes nothing |
| PaymentController.ConfirmReactivatesCancelledBooking | backend/src/controllers/paymentController.js:127-142 | confirming the payment of a CANCELLED booking succeeds and makes it CONFIRMED without touching any counter |
| PaymentController.FailureEventDowngradesCompletedPayment | backend/src/controllers/paymentController.js:241-246 | a failure event turns a COMPLETED payment FAILED and leaves bookings unchanged |
| PaymentController.SettleActiveKeepsLedger | backend/src/controllers/paymentController.js:218-231 | settling the payment of a PENDING/CONFIRMED booking keeps both seat invariants |
| ScheduleController.CreateSchedule | backend/src/controllers/scheduleController.js:134-166 | 400 with the validator's message, `"busNumber" is not allowed to be empty` for an empty bus number and otherwise `"totalSeats" must be greater than or equal to 1` for fewer than one seat; 404 for an unknown route, each leaving the store unchanged; success exactly otherwise, appending a SCHEDULED schedule with every seat available |
| ScheduleController.DeleteSchedule | backend/src/controllers/scheduleController.js:196-209 | an unknown id is 404 "Not found" through the error middleware; otherwise only that schedule's status becomes CANCELLED, and bookings, payments and counters are unchanged |
| ScheduleController.GetScheduleById | backend/src/controllers/scheduleController.js:52-83 | 404 for an unknown id; otherwise the schedule, and a seat list naming each seat exactly as often as the schedule's bookings name it, whatever their status |
| ScheduleController.Lower | backend/src/controllers/scheduleController.js:106-107 | lower-casing keeps the length, leaves no capital letter, changes nothing but capitals, and a second pass changes nothing |
| ScheduleController.ContainsIgnoresQueryCase | backend/src/controllers/scheduleController.js:106-107 | the case of the search text does not change what it matches |
| ScheduleController.Select | backend/src/controllers/scheduleController.js:33-37 | selects exactly the schedules matching the filter, in table order |
| ScheduleController.IncreasingOccursOnce | backend/src/controllers/scheduleController.js:33-37 | a selection lists each schedule at most once |
| ScheduleController.Insert | backend/src/controllers/scheduleController.js:38-40 | inserting into a departure-ordered list keeps it ordered and adds exactly the one id |
| ScheduleController.SortByDeparture | backend/src/controllers/scheduleController.js:38-40 | the result is ordered by departure time and is a permutation of the input |
| ScheduleController.Query | backend/src/controllers/scheduleController.js:33-41 | lists every matching schedule exactly once and no other, earliest departure first |
| ScheduleController.GetAllSchedules | backend/src/controllers/scheduleController.js:7-47 | lists exactly the schedules passing the supplied route, day and status filters, each once, ordered by departure |
| ScheduleController.SearchSchedules | backend/src/controllers/scheduleController.js:88-129 | 400 exactly when origin, destination or date is missing or empty; otherwise exactly the SCHEDULED departures with free seats on that day, on active routes whose endpoints contain the texts ignoring case, each once, ordered by departure |
| Store.Apply | backend/src/server.js:57-65 | every request leaves a well-formed store with no negative counter, the routes unchanged and no table shrunk |
| Store.SettleInactiveReactivates | backend/src/controllers/paymentController.js:136-139 | settling the payment of a CANCELLED or COMPLETED booking reactivates it |
| Store.SettlementShape | backend/src/controllers/paymentController.js:127-142 | a settlement request either settles one payment or leaves bookings and schedules unchanged |
| Store.BalanceKept | backend/src/controllers/bookingController.js:53-81 | every request that reactivates no booking keeps availableSeats + held seats = totalSeats |
| Store.DisjointnessKept | backend/src/controllers/bookingController.js:37-45 | every request that reactivates no booking keeps held seat sets disjoint |
| Store.SettledKeepsLedger | backend/src/controllers/paymentController.js:217-231 | a confirmation or webhook that reactivates nothing keeps both seat invariants |
| Store.OnlySettlementReactivates | backend/src/controllers/paymentController.js:127-142 | a request that reactivates a booking is a confirmation or success event that settles a payment |
| Store.DeletedScheduleRefusesBookings | backend/src/controllers/scheduleController.js:200-203 | after a schedule is cancelled, every valid booking request for it is refused with 400 and changes nothing |
| Store.Run | backend/src/server.js:57-65 | any sequence of requests leaves a well-formed store |
| Store.LedgerKeptOverRun | backend/src/controllers/bookingController.js:163-194 | both seat invariants hold after any sequence of requests in which no step reactivates a booking |
| Store.ScriptStep1 | backend/src/controllers/scheduleController.js:134-166 | from a fresh store, creating a one-seat schedule gives S1: one SCHEDULED schedule with its seat available |
| Store.ScriptStep2 | backend/src/controllers/bookingController.js:4-90 | from S1, the first customer's booking of seat 1A gives S2: one PENDING booking and no seat left |
| Store.ScriptStep3 | backend/src/controllers/paymentController.js:4-78 | from S2, opening a payment for that booking gives S3: one PENDING payment row and nothing else changed |
| Store.ScriptStep4 | backend/src/controllers/bookingController.js:133-203 | from S3, the owner's cancellation gives S4: the booking CANCELLED and the seat available again |
| Store.ScriptStep5 | backend/src/controllers/bookingController.js:4-90 | from S4, a second customer's booking of seat 1A gives S5: a second PENDING booking and no seat left |
| Store.ScriptStep6 | backend/src/controllers/paymentController.js:80-151 | from S5, the first customer's direct confirmation gives S6: the payment COMPLETED and the cancelled booking CONFIRMED |
| Store.ReactivationBreaksLedger | backend/src/controllers/paymentController.js:127-142 | after those steps both invariants hold, and the first customer's confirmation then gives two CONFIRMED/PENDING bookings of seat 1A on a one-seat schedule, breaking both |
| Backend.Server.CreateSchedule | backend/src/controllers/scheduleController.js:134-166 | the in-place handler leaves exactly the reply and tables of the create step and keeps well-formedness |
| Backend.Server.DeleteSchedule | backend/src/controllers/scheduleController.js:196-209 | the in-place handler leaves exactly the reply and tables of the delete step |
| Backend.Server.CreateBooking | backend/src/controllers/bookingController.js:4-90 | the in-place handler leaves exactly the reply and tables of the create step, and keeps the seat balance and disjointness |
| Backend.Server.CancelBooking | backend/src/controllers/bookingController.js:133-203 | the in-place handler leaves exactly the reply and tables of the cancel step, and keeps the seat balance and disjointness |
| Backend.Server.CreatePaymentIntent | backend/src/controllers/paymentController.js:4-78 | the in-place handler leaves exactly the reply and tables of the intent step |
| Backend.Server.Settle | backend/src/controllers/paymentController.js:127-142 | the in-place transaction leaves exactly the settled store |
| Backend.Server.ConfirmPayment | backend/src/controllers/paymentController.js:80-151 | the in-place handler leaves exactly the reply and tables of the confirm step |
| Backend.Server.HandleWebhook | backend/src/controllers/paymentController.js:196-257 | the in-place handler leaves exactly the reply and tables of the webhook step |

## Left out

- Concurrency: each handler is one atomic step. Two requests racing for the
  same seats between the read and the transaction are not modelled.
- The processor itself: intent creation, retrieval, signature checking and
  the client secret are parameters. The text Stripe appends after
  "Webhook Error" is not modelled.
- Floating-point money: amounts are integer cents, so the rounding to cents
  is not modelled.
- Time zones: a date filter is a whole UTC day. The server's local-time
  `setHours` is not modelled, and neither is parsing the date text.
- Joi checks other than the structural ones: uuid and ISO-date formats,
  missing or wrongly typed fields, and the schedule schema's `price` check.
  The ids and times a handler receives are already typed values.
- The response payload's joined relations (route, schedule, user) and
  messages such as "Booking created successfully". Replies carry the row or
  ids instead.
- `updateSchedule`, authentication, users, routes' own CRUD, and the
  frontend. The role checks that the route files apply before the admin
  handlers are not part of this model; the handlers modelled here trust
  their caller.
- The payment description text ("Bus booking: origin to destination"), which
  is sent to the processor and never read back.
- Unicode case folding: case-insensitive matching lower-cases ASCII letters
  only.
- Row timestamps (`createdAt`): the newest-first order of the booking list
  is modelled as descending id, since rows are appended in creation order.
- Logging (`console.error`, `console.log`).
- Processor failures: a call to create or retrieve an intent that throws
  goes to the error middleware with no state change. The model's processor
  always answers.
- ConfirmPayment: the 400 reply for a processor refusal also carries the
  intent status the processor reported; the model's reply has only the
  status code and the error text.
- HandleWebhook: the lookup by intent id takes the first row in table order.
  The database's `findFirst` without an ordering promises no particular row;
  the rows found are the same whenever intent ids are unique.
- Unknown keys in a request body, which the Joi object schemas refuse with
  400.
