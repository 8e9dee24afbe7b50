/** The payment handlers: open a payment intent with the processor for a
    PENDING booking, confirm it directly, read it, and react to the
    processor's signed webhook events. The processor is not modelled: what
    it answers (the new intent's id and secret, the status it reports, the
    outcome of the signature check) comes in as parameters. */
module PaymentController {
  import opened Entities
  import opened Ledger

  /** What the handler asks the processor to charge: the booking total in
      cents (`Math.round(totalAmount * 100)` of the dollar amount), in usd. */
  datatype ChargeRequest = ChargeRequest(amount: int, currency: string, bookingId: Id, userId: Id, scheduleId: Id)

  datatype IntentCreated = IntentCreated(charge: ChargeRequest, clientSecret: string, paymentId: Id)

  /** A processor event that passed (or failed) the signature check. */
  datatype Event = Event(kind: string, intentId: string)

  const IntentSucceeded := "payment_intent.succeeded"
  const IntentFailed := "payment_intent.payment_failed"

  /** The payment row of a booking, if it has one. */
  function PaymentOf(db: Db, bookingId: Id): Option<Id> {
    FindPayment(db.payments, ByBooking(bookingId))
  }

  predicate AlreadyPaid(db: Db, bookingId: Id) {
    match PaymentOf(db, bookingId)
    case Some(k) => db.payments[k].status == PaymentCompleted
    case None => false
  }

  function CreatePaymentIntent(db: Db, caller: Caller, bookingId: Option<Id>, intentId: string, clientSecret: string)
    : (r: Step<Reply<IntentCreated>>)
    ensures r.reply.Err? ==> r.db == db
    ensures bookingId.None? ==> r.reply == Err(400, "Booking ID is required")
    ensures bookingId.Some? && bookingId.value >= |db.bookings| ==> r.reply == Err(404, "Booking not found")
    // only the owner may pay: there is no admin bypass here
    ensures bookingId.Some? && bookingId.value < |db.bookings| && db.bookings[bookingId.value].userId != caller.userId ==>
      r.reply == Err(403, "Access denied")
    ensures (bookingId.Some? && bookingId.value < |db.bookings|
             && db.bookings[bookingId.value].userId == caller.userId
             && db.bookings[bookingId.value].status != Pending) ==>
      r.reply == Err(400, "Booking is not pending payment")
    ensures (bookingId.Some? && bookingId.value < |db.bookings|
             && db.bookings[bookingId.value].userId == caller.userId
             && db.bookings[bookingId.value].status == Pending
             && AlreadyPaid(db, bookingId.value)) ==>
      r.reply == Err(400, "Booking is already paid")
    ensures r.reply.Ok? <==>
      && bookingId.Some? && bookingId.value < |db.bookings|
      && db.bookings[bookingId.value].userId == caller.userId
      && db.bookings[bookingId.value].status == Pending
      && !AlreadyPaid(db, bookingId.value)
    ensures r.reply.Ok? ==>
      var bid := bookingId.value;
      var b := db.bookings[bid];
      var pid := r.reply.value.paymentId;
      && r.reply.status == 200
      && r.reply.value.charge == ChargeRequest(b.totalAmount, "usd", bid, caller.userId, b.scheduleId)
      // the processor's client secret goes back to the client, which finishes the payment with it
      && r.reply.value.clientSecret == clientSecret
      && r.db.routes == db.routes && r.db.schedules == db.schedules && r.db.bookings == db.bookings
      // upsert on bookingId: a known row only gets the new intent and PENDING
      && (PaymentOf(db, bid).Some? ==>
            && pid == PaymentOf(db, bid).value
            && r.db.payments == db.payments[pid := db.payments[pid].(stripePaymentId := intentId, status := PaymentPending)])
      // otherwise a new row carries the booking's total
      && (PaymentOf(db, bid).None? ==>
            && pid == |db.payments|
            && r.db.payments == db.payments + [Payment(bid, b.totalAmount, "usd", "stripe", intentId, PaymentPending, None)])
    ensures WellFormed(db) ==> WellFormed(r.db)
  {
    if bookingId.None? then Step(Err(400, "Booking ID is required"), db)
    else if bookingId.value >= |db.bookings| then Step(Err(404, "Booking not found"), db)
    else
      var bid := bookingId.value;
      var b := db.bookings[bid];
      if b.userId != caller.userId then Step(Err(403, "Access denied"), db)
      else if b.status != Pending then Step(Err(400, "Booking is not pending payment"), db)
      else if AlreadyPaid(db, bid) then Step(Err(400, "Booking is already paid"), db)
      else
        var charge := ChargeRequest(b.totalAmount, "usd", bid, caller.userId, b.scheduleId);
        match PaymentOf(db, bid)
        case Some(k) =>
          var p := db.payments[k];
          Step(Ok(200, IntentCreated(charge, clientSecret, k)),
               db.(payments := db.payments[k := p.(stripePaymentId := intentId, status := PaymentPending)]))
        case None =>
          Step(Ok(200, IntentCreated(charge, clientSecret, |db.payments|)),
               db.(payments := db.payments + [Payment(bid, b.totalAmount, "usd", "stripe", intentId, PaymentPending, None)]))
  }

  /** The one transaction both settlement paths run: the payment becomes
      COMPLETED at `now` and its booking CONFIRMED, whatever its status was. */
  function Settle(db: Db, k: Id, now: int): (r: Db)
    requires WellFormed(db) && k < |db.payments|
    ensures WellFormed(r)
    ensures r.routes == db.routes && r.schedules == db.schedules
    ensures r.payments == db.payments[k := db.payments[k].(status := PaymentCompleted, paidAt := Some(now))]
    ensures var bid := db.payments[k].bookingId;
      r.bookings == db.bookings[bid := db.bookings[bid].(status := Confirmed)]
  {
    var p := db.payments[k];
    var b := db.bookings[p.bookingId];
    db.(payments := db.payments[k := p.(status := PaymentCompleted, paidAt := Some(now))],
        bookings := db.bookings[p.bookingId := b.(status := Confirmed)])
  }

  /** The direct confirmation: `processorStatus` is what the processor
      reports for the payment's intent, `now` the settlement time. */
  function ConfirmPayment(db: Db, caller: Caller, paymentId: Option<Id>, processorStatus: string, now: int)
    : (r: Step<Reply<Payment>>)
    requires WellFormed(db)
    ensures r.reply.Err? ==> r.db == db
    ensures paymentId.None? ==> r.reply == Err(400, "Payment ID is required")
    ensures paymentId.Some? && paymentId.value >= |db.payments| ==> r.reply == Err(404, "Payment not found")
    ensures (paymentId.Some? && paymentId.value < |db.payments|
             && db.bookings[db.payments[paymentId.value].bookingId].userId != caller.userId) ==>
      r.reply == Err(403, "Access denied")
    // a second confirmation is an error, not a silent success
    ensures (paymentId.Some? && paymentId.value < |db.payments|
             && db.bookings[db.payments[paymentId.value].bookingId].userId == caller.userId
             && db.payments[paymentId.value].status == PaymentCompleted) ==>
      r.reply == Err(400, "Payment already completed")
    ensures (paymentId.Some? && paymentId.value < |db.payments|
             && db.bookings[db.payments[paymentId.value].bookingId].userId == caller.userId
             && db.payments[paymentId.value].status != PaymentCompleted
             && processorStatus != "succeeded") ==>
      r.reply == Err(400, "Payment not successful")
    ensures r.reply.Ok? <==>
      && paymentId.Some? && paymentId.value < |db.payments|
      && db.bookings[db.payments[paymentId.value].bookingId].userId == caller.userId
      && db.payments[paymentId.value].status != PaymentCompleted
      && processorStatus == "succeeded"
    ensures r.reply.Ok? ==>
      && r.db == Settle(db, paymentId.value, now)
      && r.reply == Ok(200, r.db.payments[paymentId.value])
  {
    if paymentId.None? then Step(Err(400, "Payment ID is required"), db)
    else if paymentId.value >= |db.payments| then Step(Err(404, "Payment not found"), db)
    else
      var pid := paymentId.value;
      var p := db.payments[pid];
      if db.bookings[p.bookingId].userId != caller.userId then Step(Err(403, "Access denied"), db)
      else if p.status == PaymentCompleted then Step(Err(400, "Payment already completed"), db)
      else if processorStatus != "succeeded" then Step(Err(400, "Payment not successful"), db)
      else
        var settled := Settle(db, pid, now);
        Step(Ok(200, settled.payments[pid]), settled)
  }

  function GetPaymentById(db: Db, caller: Caller, id: Id): (r: Reply<Payment>)
    requires WellFormed(db)
    ensures id >= |db.payments| ==> r == Err(404, "Payment not found")
    ensures r.Ok? <==> id < |db.payments| && CanAccess(caller, db.bookings[db.payments[id].bookingId].userId)
    ensures r.Ok? ==> r == Ok(200, db.payments[id])
    ensures r.Err? && id < |db.payments| ==> r == Err(403, "Access denied")
  {
    if id >= |db.payments| then Err(404, "Payment not found")
    else if !CanAccess(caller, db.bookings[db.payments[id].bookingId].userId) then Err(403, "Access denied")
    else Ok(200, db.payments[id])
  }

  /** The webhook: `signatureValid` is the outcome of checking the raw body
      against the signing secret. Any event that passes is acknowledged. */
  function HandleWebhook(db: Db, signatureValid: bool, event: Event, now: int): (r: Step<Reply<bool>>)
    requires WellFormed(db)
    ensures !signatureValid ==> r == Step(Err(400, "Webhook Error"), db)
    ensures signatureValid ==> r.reply == Ok(200, true)
    ensures WellFormed(r.db)
    // no event touches the seat counters
    ensures r.db.routes == db.routes && r.db.schedules == db.schedules
    // a success settles a payment that is not yet COMPLETED, and only that
    ensures signatureValid && event.kind == IntentSucceeded ==>
      match FindPayment(db.payments, ByIntent(event.intentId))
      case Some(k) => r.db == (if db.payments[k].status == PaymentCompleted then db else Settle(db, k, now))
      case None => r.db == db
    // a failure marks the payment FAILED whatever it was; bookings stay
    ensures signatureValid && event.kind == IntentFailed ==>
      && r.db.bookings == db.bookings
      && match FindPayment(db.payments, ByIntent(event.intentId))
         case Some(k) => r.db.payments == db.payments[k := db.payments[k].(status := PaymentFailed)]
         case None => r.db == db
    ensures event.kind != IntentSucceeded && event.kind != IntentFailed ==> r.db == db
  {
    if !signatureValid then Step(Err(400, "Webhook Error"), db)
    else if event.kind == IntentSucceeded then
      match FindPayment(db.payments, ByIntent(event.intentId))
      case Some(k) =>
        if db.payments[k].status != PaymentCompleted then Step(Ok(200, true), Settle(db, k, now))
        else Step(Ok(200, true), db)
      case None => Step(Ok(200, true), db)
    else if event.kind == IntentFailed then
      match FindPayment(db.payments, ByIntent(event.intentId))
      case Some(k) =>
        Step(Ok(200, true), db.(payments := db.payments[k := db.payments[k].(status := PaymentFailed)]))
      case None => Step(Ok(200, true), db)
    else Step(Ok(200, true), db)
  }

  // ---------------------------------------------------------------------------
  // Reconciliation properties

  /** Redelivering any webhook event changes nothing more: success handling
      and failure handling are both idempotent. */
  lemma WebhookIsIdempotent(db: Db, event: Event, now: int, later: int)
    requires WellFormed(db)
    ensures
      var first := HandleWebhook(db, true, event, now);
      HandleWebhook(first.db, true, event, later) == first
  {
    var first := HandleWebhook(db, true, event, now);
    var key := ByIntent(event.intentId);
    match FindPayment(db.payments, key)
    case Some(k) =>
      var p := first.db.payments[k];
      FindPaymentStable(db.payments, k, p, key);
      assert first.db.payments == db.payments[k := p];
      if event.kind == IntentFailed {
        assert first.db.payments[k := p.(status := PaymentFailed)] == first.db.payments;
      }
    case None =>
  }

  /** Direct confirmation is not idempotent: confirming again is a 400 error. */
  lemma ConfirmTwiceIsAnError(db: Db, caller: Caller, paymentId: Id, processorStatus: string, now: int, later: int)
    requires WellFormed(db)
    requires ConfirmPayment(db, caller, Some(paymentId), processorStatus, now).reply.Ok?
    ensures
      var first := ConfirmPayment(db, caller, Some(paymentId), processorStatus, now);
      ConfirmPayment(first.db, caller, Some(paymentId), processorStatus, later)
        == Step(Err(400, "Payment already completed"), first.db)
  {
    var p := db.payments[paymentId];
    var first := ConfirmPayment(db, caller, Some(paymentId), processorStatus, now);
    assert first.db.payments[paymentId].bookingId == p.bookingId;
    assert first.db.bookings[p.bookingId].userId == db.bookings[p.bookingId].userId;
  }

  /** A success event that arrives after the direct confirmation finds the
      payment COMPLETED and changes nothing. */
  lemma WebhookAfterConfirmIsNoOp(db: Db, caller: Caller, paymentId: Id, now: int, later: int)
    requires WellFormed(db)
    requires ConfirmPayment(db, caller, Some(paymentId), "succeeded", now).reply.Ok?
    requires FindPayment(db.payments, ByIntent(db.payments[paymentId].stripePaymentId)) == Some(paymentId)
    ensures
      var confirmed := ConfirmPayment(db, caller, Some(paymentId), "succeeded", now);
      var event := Event(IntentSucceeded, db.payments[paymentId].stripePaymentId);
      HandleWebhook(confirmed.db, true, event, later) == Step(Ok(200, true), confirmed.db)
  {
    var confirmed := ConfirmPayment(db, caller, Some(paymentId), "succeeded", now);
    var key := ByIntent(db.payments[paymentId].stripePaymentId);
    FindPaymentStable(db.payments, paymentId, confirmed.db.payments[paymentId], key);
    assert confirmed.db.payments == db.payments[paymentId := confirmed.db.payments[paymentId]];
  }

  /** When the success event wins the race, the owner's direct confirmation
      afterwards is refused with 400 and changes nothing. */
  lemma ConfirmAfterWebhookIsAnError(db: Db, caller: Caller, event: Event, now: int, processorStatus: string, later: int)
    requires WellFormed(db)
    requires event.kind == IntentSucceeded
    requires FindPayment(db.payments, ByIntent(event.intentId)).Some?
    requires db.payments[FindPayment(db.payments, ByIntent(event.intentId)).value].status != PaymentCompleted
    requires caller.userId == db.bookings[db.payments[FindPayment(db.payments, ByIntent(event.intentId)).value].bookingId].userId
    ensures
      var k := FindPayment(db.payments, ByIntent(event.intentId)).value;
      var notified := HandleWebhook(db, true, event, now);
      && notified.db.payments[k].status == PaymentCompleted
      && notified.db.bookings[db.payments[k].bookingId].status == Confirmed
      && ConfirmPayment(notified.db, caller, Some(k), processorStatus, later)
           == Step(Err(400, "Payment already completed"), notified.db)
  {
    var k := FindPayment(db.payments, ByIntent(event.intentId)).value;
    var notified := HandleWebhook(db, true, event, now);
    var bid := db.payments[k].bookingId;
    assert notified.db.payments[k].bookingId == bid;
    assert notified.db.bookings[bid].userId == db.bookings[bid].userId;
  }

  /** Confirmation does not look at the booking's status: a CANCELLED
      booking whose payment is not COMPLETED is CONFIRMED again, and its
      seats are not taken back from the counter. */
  lemma ConfirmReactivatesCancelledBooking(db: Db, caller: Caller, paymentId: Id, now: int)
    requires WellFormed(db) && paymentId < |db.payments|
    requires db.payments[paymentId].status != PaymentCompleted
    requires db.bookings[db.payments[paymentId].bookingId].status == Cancelled
    requires db.bookings[db.payments[paymentId].bookingId].userId == caller.userId
    ensures
      var r := ConfirmPayment(db, caller, Some(paymentId), "succeeded", now);
      && r.reply.Ok?
      && r.db.bookings[db.payments[paymentId].bookingId].status == Confirmed
      && r.db.schedules == db.schedules
  {
  }

  /** A failure event downgrades even a COMPLETED payment to FAILED and
      leaves its CONFIRMED booking as it is. */
  lemma FailureEventDowngradesCompletedPayment(db: Db, intentId: string, now: int)
    requires WellFormed(db)
    requires FindPayment(db.payments, ByIntent(intentId)).Some?
    requires db.payments[FindPayment(db.payments, ByIntent(intentId)).value].status == PaymentCompleted
    ensures
      var k := FindPayment(db.payments, ByIntent(intentId)).value;
      var r := HandleWebhook(db, true, Event(IntentFailed, intentId), now);
      && r.db.payments[k].status == PaymentFailed
      && r.db.bookings == db.bookings
  {
  }

  /** Settling a payment whose booking still holds its seats keeps the seat
      balance and the disjointness of held seats. */
  lemma SettleActiveKeepsLedger(db: Db, k: Id, now: int)
    requires WellFormed(db) && k < |db.payments|
    requires IsActive(db.bookings[db.payments[k].bookingId])
    ensures SeatsBalanced(db) ==> SeatsBalanced(Settle(db, k, now))
    ensures ActiveSeatsDisjoint(db.bookings) ==> ActiveSeatsDisjoint(Settle(db, k, now).bookings)
  {
    var r := Settle(db, k, now);
    var bid := db.payments[k].bookingId;
    var b := db.bookings[bid];
    assert r.bookings == db.bookings[bid := b.(status := Confirmed)];
    forall sid | 0 <= sid < |db.schedules|
      ensures HeldSeats(r.bookings, sid) == HeldSeats(db.bookings, sid)
    {
      HeldSeatsUpdate(db.bookings, bid, b.(status := Confirmed), sid);
    }
  }
}
