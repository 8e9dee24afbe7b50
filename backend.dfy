/** The backend's database as one mutable object. The four tables are fields
    that the handlers update in place, and every handler is proved to leave
    exactly the reply and the tables that its step function describes. */
module Backend {
  import opened Entities
  import opened Ledger
  import BookingController
  import PaymentController
  import ScheduleController
  import ErrorHandler

  class Server {
    var routes: seq<Route>
    var schedules: seq<Schedule>
    var bookings: seq<Booking>
    var payments: seq<Payment>

    /** The tables as one value. */
    function State(): Db
      reads this
    {
      Db(routes, schedules, bookings, payments)
    }

    /** Every foreign key resolves, payments are one per booking, and no
        counter is negative. */
    ghost predicate Valid()
      reads this
    {
      WellFormed(State())
    }

    constructor (db: Db)
      requires WellFormed(db)
      ensures Valid() && State() == db
    {
      routes, schedules, bookings, payments := db.routes, db.schedules, db.bookings, db.payments;
    }

    // -------------------------------------------------------------------------
    // Schedules

    method CreateSchedule(input: ScheduleController.ScheduleInput) returns (reply: Reply<Id>)
      requires Valid()
      modifies this
      ensures Valid()
      ensures Step(reply, State()) == ScheduleController.CreateSchedule(old(State()), input)
    {
      var invalid := ScheduleController.InputError(input);
      if invalid.Some? {
        return Err(400, invalid.value);
      }
      if input.routeId >= |routes| {
        return Err(404, "Route not found");
      }
      schedules := schedules + [Schedule(input.routeId, input.departureTime, input.arrivalTime, input.busNumber,
                                         input.totalSeats, input.totalSeats, input.price, Scheduled)];
      reply := Ok(201, |schedules| - 1);
    }

    method DeleteSchedule(id: Id) returns (reply: Reply<string>)
      requires Valid()
      modifies this
      ensures Valid()
      ensures Step(reply, State()) == ScheduleController.DeleteSchedule(old(State()), id)
    {
      if id >= |schedules| {
        // the ORM's update throws its missing-row error to the middleware
        var e := ErrorHandler.Handle(ErrorHandler.OrmError(ErrorHandler.MissingRow));
        return Err(e.status, ErrorHandler.ErrorText(e.body));
      }
      schedules := schedules[id := schedules[id].(status := ScheduleCancelled)];
      reply := Ok(200, "Schedule cancelled successfully");
    }

    // -------------------------------------------------------------------------
    // Bookings

    method CreateBooking(caller: Caller, scheduleId: Id, seatNumbers: seq<string>)
      returns (reply: BookingController.BookingReply)
      requires Valid()
      modifies this
      ensures Valid()
      ensures Step(reply, State()) == BookingController.CreateBooking(old(State()), caller, scheduleId, seatNumbers)
      ensures SeatsBalanced(old(State())) ==> SeatsBalanced(State())
      ensures ActiveSeatsDisjoint(old(bookings)) ==> ActiveSeatsDisjoint(bookings)
    {
      ghost var before := State();
      if SeatsBalanced(before) {
        BookingController.CreateBookingKeepsBalance(before, caller, scheduleId, seatNumbers);
      }
      if ActiveSeatsDisjoint(before.bookings) {
        BookingController.CreateBookingKeepsDisjoint(before, caller, scheduleId, seatNumbers);
      }
      var invalid := BookingController.SeatsError(seatNumbers);
      if invalid.Some? {
        return BookingController.Rejected(400, invalid.value);
      }
      if scheduleId >= |schedules| {
        return BookingController.Rejected(404, "Schedule not found");
      }
      var s := schedules[scheduleId];
      if s.status != Scheduled {
        return BookingController.Rejected(400, "Schedule is not available for booking");
      }
      var conflicting := BookingController.Conflicts(seatNumbers, SeatsOf(bookings, scheduleId, true));
      if |conflicting| > 0 {
        return BookingController.SeatsTaken(conflicting);
      }
      if s.availableSeats < |seatNumbers| {
        return BookingController.Rejected(400, "Not enough available seats");
      }
      // the transaction: the booking row and the counter change together
      var booking := Booking(caller.userId, scheduleId, seatNumbers, s.price * |seatNumbers|, Pending);
      bookings := bookings + [booking];
      schedules := schedules[scheduleId := s.(availableSeats := s.availableSeats - |seatNumbers|)];
      reply := BookingController.Created(|bookings| - 1, booking);
    }

    method CancelBooking(caller: Caller, id: Id) returns (reply: Reply<Booking>)
      requires Valid()
      modifies this
      ensures Valid()
      ensures Step(reply, State()) == BookingController.CancelBooking(old(State()), caller, id)
      ensures SeatsBalanced(old(State())) ==> SeatsBalanced(State())
      ensures ActiveSeatsDisjoint(old(bookings)) ==> ActiveSeatsDisjoint(bookings)
    {
      ghost var before := State();
      if SeatsBalanced(before) {
        BookingController.CancelBookingKeepsBalance(before, caller, id);
      }
      if ActiveSeatsDisjoint(before.bookings) {
        BookingController.CancelBookingKeepsDisjoint(before, caller, id);
      }
      if id >= |bookings| {
        return Err(404, "Booking not found");
      }
      var b := bookings[id];
      if !CanAccess(caller, b.userId) {
        return Err(403, "Access denied");
      }
      if b.status == Cancelled {
        return Err(400, "Booking is already cancelled");
      }
      if b.status == Completed {
        return Err(400, "Cannot cancel completed booking");
      }
      // the transaction: status, counter and a settled payment change together
      var s := schedules[b.scheduleId];
      var cancelled := b.(status := Cancelled);
      bookings := bookings[id := cancelled];
      schedules := schedules[b.scheduleId := s.(availableSeats := s.availableSeats + |b.seatNumbers|)];
      var paid := FindPayment(payments, ByBooking(id));
      if paid.Some? && payments[paid.value].status == PaymentCompleted {
        payments := payments[paid.value := payments[paid.value].(status := Refunded)];
      }
      reply := Ok(200, cancelled);
    }

    // -------------------------------------------------------------------------
    // Payments

    method CreatePaymentIntent(caller: Caller, bookingId: Option<Id>, intentId: string, clientSecret: string)
      returns (reply: Reply<PaymentController.IntentCreated>)
      requires Valid()
      modifies this
      ensures Valid()
      ensures Step(reply, State()) ==
        PaymentController.CreatePaymentIntent(old(State()), caller, bookingId, intentId, clientSecret)
    {
      if bookingId.None? {
        return Err(400, "Booking ID is required");
      }
      var bid := bookingId.value;
      if bid >= |bookings| {
        return Err(404, "Booking not found");
      }
      var b := bookings[bid];
      if b.userId != caller.userId {
        return Err(403, "Access denied");
      }
      if b.status != Pending {
        return Err(400, "Booking is not pending payment");
      }
      var existing := FindPayment(payments, ByBooking(bid));
      if existing.Some? && payments[existing.value].status == PaymentCompleted {
        return Err(400, "Booking is already paid");
      }
      var charge := PaymentController.ChargeRequest(b.totalAmount, "usd", bid, caller.userId, b.scheduleId);
      // upsert on bookingId
      var pid;
      if existing.Some? {
        pid := existing.value;
        payments := payments[pid := payments[pid].(stripePaymentId := intentId, status := PaymentPending)];
      } else {
        pid := |payments|;
        payments := payments + [Payment(bid, b.totalAmount, "usd", "stripe", intentId, PaymentPending, None)];
      }
      reply := Ok(200, PaymentController.IntentCreated(charge, clientSecret, pid));
    }

    /** Marks payment `k` COMPLETED at `now` and its booking CONFIRMED. */
    method Settle(k: Id, now: int)
      requires Valid() && k < |payments|
      modifies this
      ensures Valid()
      ensures State() == PaymentController.Settle(old(State()), k, now)
    {
      var p := payments[k];
      payments := payments[k := p.(status := PaymentCompleted, paidAt := Some(now))];
      bookings := bookings[p.bookingId := bookings[p.bookingId].(status := Confirmed)];
    }

    method ConfirmPayment(caller: Caller, paymentId: Option<Id>, processorStatus: string, now: int)
      returns (reply: Reply<Payment>)
      requires Valid()
      modifies this
      ensures Valid()
      ensures Step(reply, State()) ==
        PaymentController.ConfirmPayment(old(State()), caller, paymentId, processorStatus, now)
    {
      if paymentId.None? {
        return Err(400, "Payment ID is required");
      }
      var pid := paymentId.value;
      if pid >= |payments| {
        return Err(404, "Payment not found");
      }
      var p := payments[pid];
      if bookings[p.bookingId].userId != caller.userId {
        return Err(403, "Access denied");
      }
      if p.status == PaymentCompleted {
        return Err(400, "Payment already completed");
      }
      if processorStatus != "succeeded" {
        return Err(400, "Payment not successful");
      }
      Settle(pid, now);
      reply := Ok(200, payments[pid]);
    }

    method HandleWebhook(signatureValid: bool, event: PaymentController.Event, now: int)
      returns (reply: Reply<bool>)
      requires Valid()
      modifies this
      ensures Valid()
      ensures Step(reply, State()) == PaymentController.HandleWebhook(old(State()), signatureValid, event, now)
    {
      if !signatureValid {
        return Err(400, "Webhook Error");
      }
      var found := FindPayment(payments, ByIntent(event.intentId));
      if event.kind == PaymentController.IntentSucceeded {
        if found.Some? && payments[found.value].status != PaymentCompleted {
          Settle(found.value, now);
        }
      } else if event.kind == PaymentController.IntentFailed {
        if found.Some? {
          payments := payments[found.value := payments[found.value].(status := PaymentFailed)];
        }
      }
      reply := Ok(200, true);
    }
  }
}
