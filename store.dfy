/** The store as a whole: every state-changing request, each handled as one
    atomic step, and the ledger invariants stated over all of them. */
module Store {
  import opened Entities
  import opened Ledger
  import BookingController
  import PaymentController
  import ScheduleController

  datatype Request =
    | CreateSchedule(input: ScheduleController.ScheduleInput)
    | DeleteSchedule(scheduleId: Id)
    | CreateBooking(caller: Caller, scheduleId: Id, seatNumbers: seq<string>)
    | CancelBooking(caller: Caller, bookingId: Id)
    | CreatePaymentIntent(caller: Caller, forBooking: Option<Id>, intentId: string, clientSecret: string)
    | ConfirmPayment(caller: Caller, paymentId: Option<Id>, processorStatus: string, now: int)
    | Webhook(signatureValid: bool, event: PaymentController.Event, now: int)

  /** The store after one request. */
  function Apply(db: Db, req: Request): (r: Db)
    requires WellFormed(db)
    ensures WellFormed(r)
    ensures forall sid | 0 <= sid < |r.schedules| :: r.schedules[sid].availableSeats >= 0
    ensures r.routes == db.routes
    ensures |r.schedules| >= |db.schedules| && |r.bookings| >= |db.bookings| && |r.payments| >= |db.payments|
  {
    match req
    case CreateSchedule(input) => ScheduleController.CreateSchedule(db, input).db
    case DeleteSchedule(id) => ScheduleController.DeleteSchedule(db, id).db
    case CreateBooking(caller, sid, seats) => BookingController.CreateBooking(db, caller, sid, seats).db
    case CancelBooking(caller, id) => BookingController.CancelBooking(db, caller, id).db
    case CreatePaymentIntent(caller, bid, intent, secret) =>
      PaymentController.CreatePaymentIntent(db, caller, bid, intent, secret).db
    case ConfirmPayment(caller, pid, status, now) =>
      PaymentController.ConfirmPayment(db, caller, pid, status, now).db
    case Webhook(valid, event, now) => PaymentController.HandleWebhook(db, valid, event, now).db
  }

  /** Some booking that held no seats holds them again afterwards. */
  ghost predicate Reactivates(before: Db, after: Db) {
    exists i | 0 <= i < |before.bookings| && i < |after.bookings| ::
      !IsActive(before.bookings[i]) && IsActive(after.bookings[i])
  }

  /** A settlement whose booking is inactive reactivates it. */
  lemma SettleInactiveReactivates(db: Db, k: Id, now: int)
    requires WellFormed(db) && k < |db.payments|
    requires !IsActive(db.bookings[db.payments[k].bookingId])
    ensures Reactivates(db, PaymentController.Settle(db, k, now))
  {
    var bid := db.payments[k].bookingId;
    assert IsActive(PaymentController.Settle(db, k, now).bookings[bid]);
  }

  /** The payment that a request settles, if it settles one. */
  function Settled(db: Db, req: Request): Option<Id>
    requires WellFormed(db)
  {
    match req
    case ConfirmPayment(caller, pid, status, now) =>
      if PaymentController.ConfirmPayment(db, caller, pid, status, now).reply.Ok? then pid else None
    case Webhook(valid, event, now) =>
      if valid && event.kind == PaymentController.IntentSucceeded then
        match FindPayment(db.payments, ByIntent(event.intentId))
        case Some(k) => if db.payments[k].status != PaymentCompleted then Some(k) else None
        case None => None
      else None
    case _ => None
  }

  /** Every request is a settlement of `Settled(db, req)` or keeps every
      booking's status, schedule and seats apart from what it cancels or
      appends. */
  lemma SettlementShape(db: Db, req: Request)
    requires WellFormed(db)
    ensures Settled(db, req).Some? ==>
      Settled(db, req).value < |db.payments| &&
      Apply(db, req) == PaymentController.Settle(db, Settled(db, req).value, req.now)
    ensures Settled(db, req).None? && (req.ConfirmPayment? || req.Webhook?) ==>
      Apply(db, req).bookings == db.bookings && Apply(db, req).schedules == db.schedules
  {
  }

  /** availableSeats + Σ |seatNumbers| of PENDING/CONFIRMED bookings ==
      totalSeats is kept by every request that does not reactivate a booking. */
  lemma BalanceKept(db: Db, req: Request)
    requires WellFormed(db) && SeatsBalanced(db)
    requires !Reactivates(db, Apply(db, req))
    ensures SeatsBalanced(Apply(db, req))
  {
    var r := Apply(db, req);
    match req
    case CreateSchedule(input) =>
      forall sid | 0 <= sid < |r.schedules|
        ensures r.schedules[sid].availableSeats + HeldSeats(r.bookings, sid) == r.schedules[sid].totalSeats
      {
        if sid == |db.schedules| {
          HeldSeatsUnreferenced(db.bookings, sid);
        }
      }
    case DeleteSchedule(id) =>
    case CreateBooking(caller, sid, seats) =>
      BookingController.CreateBookingKeepsBalance(db, caller, sid, seats);
    case CancelBooking(caller, id) =>
      BookingController.CancelBookingKeepsBalance(db, caller, id);
    case CreatePaymentIntent(_, _, _, _) =>
    case ConfirmPayment(_, _, _, _) => SettledKeepsLedger(db, req);
    case Webhook(_, _, _) => SettledKeepsLedger(db, req);
  }

  /** No seat is held twice on one schedule after any request that does not
      reactivate a booking. */
  lemma DisjointnessKept(db: Db, req: Request)
    requires WellFormed(db) && ActiveSeatsDisjoint(db.bookings)
    requires !Reactivates(db, Apply(db, req))
    ensures ActiveSeatsDisjoint(Apply(db, req).bookings)
  {
    match req
    case CreateBooking(caller, sid, seats) =>
      BookingController.CreateBookingKeepsDisjoint(db, caller, sid, seats);
    case CancelBooking(caller, id) =>
      BookingController.CancelBookingKeepsDisjoint(db, caller, id);
    case ConfirmPayment(_, _, _, _) => SettledKeepsLedger(db, req);
    case Webhook(_, _, _) => SettledKeepsLedger(db, req);
    case _ =>
  }

  lemma SettledKeepsLedger(db: Db, req: Request)
    requires WellFormed(db) && (req.ConfirmPayment? || req.Webhook?)
    requires !Reactivates(db, Apply(db, req))
    ensures SeatsBalanced(db) ==> SeatsBalanced(Apply(db, req))
    ensures ActiveSeatsDisjoint(db.bookings) ==> ActiveSeatsDisjoint(Apply(db, req).bookings)
  {
    SettlementShape(db, req);
    match Settled(db, req)
    case Some(k) =>
      if !IsActive(db.bookings[db.payments[k].bookingId]) {
        SettleInactiveReactivates(db, k, req.now);
        assert false;
      }
      PaymentController.SettleActiveKeepsLedger(db, k, req.now);
    case None =>
  }

  /** Only the two settlement paths can bring a booking back: no other
      request turns an inactive booking active. */
  lemma OnlySettlementReactivates(db: Db, req: Request)
    requires WellFormed(db)
    requires Reactivates(db, Apply(db, req))
    ensures Settled(db, req).Some?
  {
    var r := Apply(db, req);
    var i :| 0 <= i < |db.bookings| && i < |r.bookings| && !IsActive(db.bookings[i]) && IsActive(r.bookings[i]);
    SettlementShape(db, req);
    match req
    case CreateBooking(caller, sid, seats) =>
      assert false;
    case CancelBooking(caller, id) =>
      assert false;
    case CreatePaymentIntent(_, _, _, _) =>
      assert false;
    case CreateSchedule(_) =>
      assert false;
    case DeleteSchedule(_) =>
      assert false;
    case ConfirmPayment(_, _, _, _) =>
    case Webhook(_, _, _) =>
  }

  /** Once a schedule is cancelled, every booking request for it is refused
      with 400, whatever the seats. */
  lemma DeletedScheduleRefusesBookings(db: Db, id: Id, caller: Caller, seatNumbers: seq<string>)
    requires id < |db.schedules| && BookingController.ValidSeats(seatNumbers)
    ensures
      var deleted := ScheduleController.DeleteSchedule(db, id).db;
      BookingController.CreateBooking(deleted, caller, id, seatNumbers) ==
        Step(BookingController.Rejected(400, "Schedule is not available for booking"), deleted)
  {
  }

  /** The store after each request of a script in turn. */
  function Run(db: Db, script: seq<Request>): (r: Db)
    requires WellFormed(db)
    ensures WellFormed(r)
    decreases |script|
  {
    if script == [] then db else Run(Apply(db, script[0]), script[1..])
  }

  /** No request of the script, run from `db`, reactivates a booking. */
  ghost predicate NeverReactivates(db: Db, script: seq<Request>)
    requires WellFormed(db)
    decreases |script|
  {
    script == [] ||
    (!Reactivates(db, Apply(db, script[0])) && NeverReactivates(Apply(db, script[0]), script[1..]))
  }

  /** Both ledger invariants hold after any script that reactivates nothing. */
  lemma {:induction false} LedgerKeptOverRun(db: Db, script: seq<Request>)
    requires WellFormed(db) && SeatsBalanced(db) && ActiveSeatsDisjoint(db.bookings)
    requires NeverReactivates(db, script)
    ensures SeatsBalanced(Run(db, script)) && ActiveSeatsDisjoint(Run(db, script).bookings)
    decreases |script|
  {
    if script != [] {
      BalanceKept(db, script[0]);
      DisjointnessKept(db, script[0]);
      LedgerKeptOverRun(Apply(db, script[0]), script[1..]);
    }
  }

  // A concrete script: Ann books seat 1A, opens a payment and cancels; Ben
  // books 1A; Ann then confirms her payment directly.
  const Ann := Caller(1, Customer)
  const Ben := Caller(2, Customer)
  const Coach := Schedule(0, 0, 3600000, "B7", 1, 1, 4500, Scheduled)
  const AnnBooking := Booking(1, 0, ["1A"], 4500, Pending)
  const BenBooking := Booking(2, 0, ["1A"], 4500, Pending)
  const AnnPayment := Payment(0, 4500, "usd", "stripe", "pi_ann", PaymentPending, None)

  const Fresh := Db([Route("Lyon", "Nice", true)], [], [], [])
  const Script := [
    CreateSchedule(ScheduleController.ScheduleInput(0, 0, 3600000, "B7", 1, 4500)),
    CreateBooking(Ann, 0, ["1A"]),
    CreatePaymentIntent(Ann, Some(0), "pi_ann", "secret_ann"),
    CancelBooking(Ann, 0),
    CreateBooking(Ben, 0, ["1A"]),
    ConfirmPayment(Ann, Some(0), "succeeded", 7200000)]

  const S1 := Fresh.(schedules := [Coach])
  const S2 := S1.(schedules := [Coach.(availableSeats := 0)], bookings := [AnnBooking])
  const S3 := S2.(payments := [AnnPayment])
  const S4 := S3.(schedules := [Coach], bookings := [AnnBooking.(status := Cancelled)])
  const S5 := S4.(schedules := [Coach.(availableSeats := 0)],
                  bookings := [AnnBooking.(status := Cancelled), BenBooking])
  const S6 := S5.(bookings := [AnnBooking.(status := Confirmed), BenBooking],
                  payments := [AnnPayment.(status := PaymentCompleted, paidAt := Some(7200000))])

  /** An administrator creates the one-seat schedule. */
  lemma ScriptStep1()
    ensures WellFormed(Fresh) && Apply(Fresh, Script[0]) == S1
  {
  }

  /** Ann books seat 1A, which takes the only seat. */
  lemma ScriptStep2()
    ensures WellFormed(S1) && Apply(S1, Script[1]) == S2
  {
    assert SeatsOf(S1.bookings, 0, true) == [];
  }

  /** Ann opens a payment for her booking. */
  lemma ScriptStep3()
    ensures WellFormed(S2) && Apply(S2, Script[2]) == S3
  {
    assert PaymentController.PaymentOf(S2, 0) == None;
  }

  /** Ann cancels, which gives the seat back. */
  lemma ScriptStep4()
    ensures WellFormed(S3) && Apply(S3, Script[3]) == S4
  {
  }

  /** Ben books seat 1A, which is free again. */
  lemma ScriptStep5()
    ensures WellFormed(S4) && Apply(S4, Script[4]) == S5
  {
    var bs := [AnnBooking.(status := Cancelled)];
    assert S4.bookings == bs;
    assert bs[..0] == [];
    assert SeatsOf(bs, 0, true) == [];
  }

  /** Ann confirms her payment directly. */
  lemma ScriptStep6()
    ensures WellFormed(S5) && Apply(S5, Script[5]) == S6
  {
  }

  /** The last request of the script takes S5 to S6, where both of the customers'
      bookings hold seat 1A on a one-seat schedule: the ledger held until the
      last step and is broken by the confirmation. */
  lemma ReactivationBreaksLedger()
    ensures WellFormed(S5) && Apply(S5, Script[5]) == S6
    ensures SeatsBalanced(S5) && ActiveSeatsDisjoint(S5.bookings)
    ensures !SeatsBalanced(S6) && !ActiveSeatsDisjoint(S6.bookings)
  {
    ScriptStep6();
    var before := [AnnBooking.(status := Cancelled), BenBooking];
    var after := [AnnBooking.(status := Confirmed), BenBooking];
    assert S5.bookings == before && S6.bookings == after;
    assert HeldSeats(before, 0) == 1 by {
      assert before[..1] == [AnnBooking.(status := Cancelled)] && before[..1][..0] == [];
      assert before[1] == BenBooking && Held(BenBooking, 0) == 1;
      assert HeldSeats(before[..1], 0) == 0;
    }
    assert HeldSeats(after, 0) == 2 by {
      assert after[..1] == [AnnBooking.(status := Confirmed)] && after[..1][..0] == [];
      assert after[1] == BenBooking && Held(BenBooking, 0) == 1;
      assert HeldSeats(after[..1], 0) == 1;
    }
    assert after[0].seatNumbers[0] in after[1].seatNumbers;
  }
}
