/** The booking handlers: reserve seats on a schedule, read one booking,
    cancel one, and list them all. Each handler is a function from the store
    to its reply and the store it leaves behind. */
module BookingController {
  import opened Entities
  import opened Ledger

  datatype BookingReply =
    | Created(id: Id, booking: Booking)          // 201
    | SeatsTaken(conflictingSeats: seq<string>)  // 400 'Some seats are already booked'
    | Rejected(status: int, error: string)

  /** The requested seats that are already booked, in request order,
      duplicates kept: `seatNumbers.filter(seat => bookedSeats.includes(seat))`. */
  function Conflicts(requested: seq<string>, booked: seq<string>): (r: seq<string>)
    ensures forall x {:trigger x in r} :: x in r <==> x in requested && x in booked
    ensures forall x {:trigger multiset(r)[x]} ::
      multiset(r)[x] == if x in booked then multiset(requested)[x] else 0
    ensures r == [] <==> SeatsDisjoint(requested, booked)
  {
    if requested == [] then []
    else
      assert requested == [requested[0]] + requested[1..];
      (if requested[0] in booked then [requested[0]] else []) + Conflicts(requested[1..], booked)
  }

  /** The conflict list of a longer request extends that of its prefix: the
      reply keeps the request's order. */
  lemma {:induction false} ConflictsOfConcat(a: seq<string>, b: seq<string>, booked: seq<string>)
    ensures Conflicts(a + b, booked) == Conflicts(a, booked) + Conflicts(b, booked)
  {
    if a != [] {
      assert (a + b)[0] == a[0];
      assert (a + b)[1..] == a[1..] + b;
      ConflictsOfConcat(a[1..], b, booked);
    } else {
      assert a + b == b;
    }
  }

  /** What the request schema accepts: at least one seat, each a non-empty string. */
  predicate ValidSeats(seatNumbers: seq<string>) {
    |seatNumbers| > 0 && forall i | 0 <= i < |seatNumbers| :: seatNumbers[i] != ""
  }

  /** The index of the first empty seat label, if there is one. */
  function FirstEmpty(seatNumbers: seq<string>): (r: Option<nat>)
    ensures r.None? <==> forall i | 0 <= i < |seatNumbers| :: seatNumbers[i] != ""
    ensures r.Some? ==>
      && r.value < |seatNumbers| && seatNumbers[r.value] == ""
      && forall i | 0 <= i < r.value :: seatNumbers[i] != ""
  {
    if seatNumbers == [] then None
    else if seatNumbers[0] == "" then Some(0)
    else
      match FirstEmpty(seatNumbers[1..])
      case Some(i) => Some(i + 1)
      case None => None
  }

  /** The number a string of decimal digits spells. */
  function DigitsValue(s: string): nat
    requires forall i | 0 <= i < |s| :: '0' <= s[i] <= '9'
  {
    if s == [] then 0 else DigitsValue(s[..|s| - 1]) * 10 + (s[|s| - 1] as int - '0' as int)
  }

  /** The decimal digits of `n`, without leading zeros. */
  function Decimal(n: nat): (r: string)
    ensures |r| > 0 && forall i | 0 <= i < |r| :: '0' <= r[i] <= '9'
    ensures DigitsValue(r) == n
    ensures r[0] == '0' ==> r == "0"
  {
    var digit := ['0' + (n % 10) as char];
    if n < 10 then digit
    else
      var high := Decimal(n / 10);
      assert (high + digit)[..|high|] == high;
      high + digit
  }

  /** The message of the first check the request schema fails, in the order
      the schema applies them. */
  function SeatsError(seatNumbers: seq<string>): (r: Option<string>)
    ensures r.None? <==> ValidSeats(seatNumbers)
    ensures |seatNumbers| == 0 ==> r == Some("\"seatNumbers\" must contain at least 1 items")
    ensures forall i | 0 <= i < |seatNumbers| && seatNumbers[i] == "" && (forall j | 0 <= j < i :: seatNumbers[j] != "") ::
      r == Some("\"seatNumbers[" + Decimal(i) + "]\" is not allowed to be empty")
  {
    if |seatNumbers| == 0 then Some("\"seatNumbers\" must contain at least 1 items")
    else
      match FirstEmpty(seatNumbers)
      case Some(i) => Some("\"seatNumbers[" + Decimal(i) + "]\" is not allowed to be empty")
      case None => None
  }

  /** The request passes validation and names a schedule open for booking. */
  predicate Bookable(db: Db, scheduleId: Id, seatNumbers: seq<string>) {
    ValidSeats(seatNumbers) && scheduleId < |db.schedules| && db.schedules[scheduleId].status == Scheduled
  }

  function CreateBooking(db: Db, caller: Caller, scheduleId: Id, seatNumbers: seq<string>): (r: Step<BookingReply>)
    // every refusal leaves the store as it was
    ensures !r.reply.Created? ==> r.db == db
    ensures |seatNumbers| == 0 ==>
      r.reply == Rejected(400, "\"seatNumbers\" must contain at least 1 items")
    ensures !ValidSeats(seatNumbers) ==> r.reply.Rejected? && r.reply.status == 400
    // the validator's first message is the reply's text
    ensures SeatsError(seatNumbers).Some? ==> r.reply == Rejected(400, SeatsError(seatNumbers).value)
    ensures ValidSeats(seatNumbers) && scheduleId >= |db.schedules| ==>
      r.reply == Rejected(404, "Schedule not found")
    ensures ValidSeats(seatNumbers) && scheduleId < |db.schedules| && db.schedules[scheduleId].status != Scheduled ==>
      r.reply == Rejected(400, "Schedule is not available for booking")
    // a seat already held is reported, before capacity is looked at
    ensures r.reply.SeatsTaken? <==>
      Bookable(db, scheduleId, seatNumbers) && !SeatsDisjoint(seatNumbers, SeatsOf(db.bookings, scheduleId, true))
    ensures r.reply.SeatsTaken? ==>
      && r.reply.conflictingSeats == Conflicts(seatNumbers, SeatsOf(db.bookings, scheduleId, true))
      && r.reply.conflictingSeats != []
      && forall x {:trigger x in r.reply.conflictingSeats} ::
           x in r.reply.conflictingSeats <==> x in seatNumbers && x in SeatsOf(db.bookings, scheduleId, true)
    ensures (Bookable(db, scheduleId, seatNumbers) && SeatsDisjoint(seatNumbers, SeatsOf(db.bookings, scheduleId, true))
             && db.schedules[scheduleId].availableSeats < |seatNumbers|) ==>
      r.reply == Rejected(400, "Not enough available seats")
    // success: exactly one new PENDING booking, and its seats leave the counter
    ensures r.reply.Created? <==>
      Bookable(db, scheduleId, seatNumbers) && SeatsDisjoint(seatNumbers, SeatsOf(db.bookings, scheduleId, true))
      && db.schedules[scheduleId].availableSeats >= |seatNumbers|
    ensures r.reply.Created? ==>
      var s := db.schedules[scheduleId];
      && r.reply.id == |db.bookings|
      && r.reply.booking == Booking(caller.userId, scheduleId, seatNumbers, s.price * |seatNumbers|, Pending)
      && r.db.bookings == db.bookings + [r.reply.booking]
      && r.db.schedules == db.schedules[scheduleId := s.(availableSeats := s.availableSeats - |seatNumbers|)]
      && r.db.routes == db.routes && r.db.payments == db.payments
      && r.db.schedules[scheduleId].availableSeats >= 0
    ensures WellFormed(db) ==> WellFormed(r.db)
  {
    if SeatsError(seatNumbers).Some? then
      Step(Rejected(400, SeatsError(seatNumbers).value), db)
    else if scheduleId >= |db.schedules| then
      Step(Rejected(404, "Schedule not found"), db)
    else if db.schedules[scheduleId].status != Scheduled then
      Step(Rejected(400, "Schedule is not available for booking"), db)
    else
      var conflicting := Conflicts(seatNumbers, SeatsOf(db.bookings, scheduleId, true));
      if |conflicting| > 0 then
        Step(SeatsTaken(conflicting), db)
      else
        var s := db.schedules[scheduleId];
        if s.availableSeats < |seatNumbers| then
          Step(Rejected(400, "Not enough available seats"), db)
        else
          var booking := Booking(caller.userId, scheduleId, seatNumbers, s.price * |seatNumbers|, Pending);
          Step(Created(|db.bookings|, booking),
               db.(bookings := db.bookings + [booking],
                   schedules := db.schedules[scheduleId := s.(availableSeats := s.availableSeats - |seatNumbers|)]))
  }

  function GetBookingById(db: Db, caller: Caller, id: Id): (r: Reply<Booking>)
    ensures id >= |db.bookings| ==> r == Err(404, "Booking not found")
    ensures id < |db.bookings| && !CanAccess(caller, db.bookings[id].userId) ==> r == Err(403, "Access denied")
    ensures r.Ok? <==> id < |db.bookings| && CanAccess(caller, db.bookings[id].userId)
    ensures r.Ok? ==> r.status == 200 && r.value == db.bookings[id]
  {
    if id >= |db.bookings| then Err(404, "Booking not found")
    else if !CanAccess(caller, db.bookings[id].userId) then Err(403, "Access denied")
    else Ok(200, db.bookings[id])
  }

  /** The payments after a cancellation: the booking's payment, if it was
      COMPLETED, is marked REFUNDED (locally; no refund reaches the processor). */
  function RefundIfPaid(ps: seq<Payment>, bookingId: Id): seq<Payment> {
    match FindPayment(ps, ByBooking(bookingId))
    case Some(k) =>
      if ps[k].status == PaymentCompleted then ps[k := ps[k].(status := Refunded)] else ps
    case None => ps
  }

  /** In a well-formed store the refund touches only the booking's own
      payment, and only when it is COMPLETED. */
  lemma RefundIfPaidRows(db: Db, id: Id)
    requires WellFormed(db)
    ensures var r := RefundIfPaid(db.payments, id);
      && |r| == |db.payments|
      && forall k | 0 <= k < |db.payments| ::
           r[k] ==
             if db.payments[k].bookingId == id && db.payments[k].status == PaymentCompleted
             then db.payments[k].(status := Refunded) else db.payments[k]
  {
    forall k | 0 <= k < |db.payments| && db.payments[k].bookingId == id
      ensures FindPayment(db.payments, ByBooking(id)) == Some(k)
    {
      PaymentOfBookingIsUnique(db, id, k);
    }
  }

  function CancelBooking(db: Db, caller: Caller, id: Id): (r: Step<Reply<Booking>>)
    requires WellFormed(db)
    ensures r.reply.Err? ==> r.db == db
    ensures id >= |db.bookings| ==> r.reply == Err(404, "Booking not found")
    ensures id < |db.bookings| && !CanAccess(caller, db.bookings[id].userId) ==> r.reply == Err(403, "Access denied")
    ensures id < |db.bookings| && CanAccess(caller, db.bookings[id].userId) && db.bookings[id].status == Cancelled ==>
      r.reply == Err(400, "Booking is already cancelled")
    ensures id < |db.bookings| && CanAccess(caller, db.bookings[id].userId) && db.bookings[id].status == Completed ==>
      r.reply == Err(400, "Cannot cancel completed booking")
    ensures r.reply.Ok? <==> id < |db.bookings| && CanAccess(caller, db.bookings[id].userId) && IsActive(db.bookings[id])
    // success: the booking is CANCELLED, its seats return to the counter, a
    // COMPLETED payment of it becomes REFUNDED, and nothing else changes
    ensures r.reply.Ok? ==>
      var b := db.bookings[id];
      var s := db.schedules[b.scheduleId];
      && r.reply == Ok(200, b.(status := Cancelled))
      && r.db.bookings == db.bookings[id := b.(status := Cancelled)]
      && r.db.schedules == db.schedules[b.scheduleId := s.(availableSeats := s.availableSeats + |b.seatNumbers|)]
      && r.db.routes == db.routes
      && |r.db.payments| == |db.payments|
      && forall k | 0 <= k < |db.payments| ::
           r.db.payments[k] ==
             if db.payments[k].bookingId == id && db.payments[k].status == PaymentCompleted
             then db.payments[k].(status := Refunded) else db.payments[k]
    ensures WellFormed(r.db)
  {
    if id >= |db.bookings| then Step(Err(404, "Booking not found"), db)
    else
      var b := db.bookings[id];
      if !CanAccess(caller, b.userId) then Step(Err(403, "Access denied"), db)
      else if b.status == Cancelled then Step(Err(400, "Booking is already cancelled"), db)
      else if b.status == Completed then Step(Err(400, "Cannot cancel completed booking"), db)
      else
        var s := db.schedules[b.scheduleId];
        var cancelled := b.(status := Cancelled);
        var payments := RefundIfPaid(db.payments, id);
        RefundIfPaidRows(db, id);
        Step(Ok(200, cancelled),
             db.(bookings := db.bookings[id := cancelled],
                 schedules := db.schedules[b.scheduleId := s.(availableSeats := s.availableSeats + |b.seatNumbers|)],
                 payments := payments))
  }

  /** The admin listing's optional `status` and `scheduleId` filters. */
  predicate BookingMatches(b: Booking, status: Option<BookingStatus>, scheduleId: Option<Id>) {
    (status.None? || b.status == status.value) && (scheduleId.None? || b.scheduleId == scheduleId.value)
  }

  /** The ids of the bookings that pass the filters, newest first (rows are
      appended in creation order, so `createdAt desc` is descending id). */
  function GetAllBookings(bs: seq<Booking>, status: Option<BookingStatus>, scheduleId: Option<Id>): (r: seq<Id>)
    ensures forall i: int {:trigger i in r} :: i in r <==> 0 <= i < |bs| && BookingMatches(bs[i], status, scheduleId)
    ensures forall a, b | 0 <= a < b < |r| :: r[a] > r[b]
  {
    if bs == [] then []
    else
      var n := |bs| - 1;
      var older := GetAllBookings(bs[..n], status, scheduleId);
      assert forall b | 0 <= b < |older| :: older[b] in older && older[b] < n;
      (if BookingMatches(bs[n], status, scheduleId) then [n] else []) + older
  }

  // ---------------------------------------------------------------------------
  // Properties of the booking lifecycle

  /** Creating a booking keeps availableSeats + held seats == totalSeats. */
  lemma CreateBookingKeepsBalance(db: Db, caller: Caller, scheduleId: Id, seatNumbers: seq<string>)
    requires WellFormed(db) && SeatsBalanced(db)
    ensures SeatsBalanced(CreateBooking(db, caller, scheduleId, seatNumbers).db)
  {
    var r := CreateBooking(db, caller, scheduleId, seatNumbers);
    if r.reply.Created? {
      forall sid | 0 <= sid < |r.db.schedules|
        ensures r.db.schedules[sid].availableSeats + HeldSeats(r.db.bookings, sid) == r.db.schedules[sid].totalSeats
      {
        HeldSeatsAppend(db.bookings, r.reply.booking, sid);
      }
    }
  }

  /** A new booking shares no seat with any PENDING/CONFIRMED booking of its schedule. */
  lemma CreateBookingKeepsDisjoint(db: Db, caller: Caller, scheduleId: Id, seatNumbers: seq<string>)
    requires ActiveSeatsDisjoint(db.bookings)
    ensures ActiveSeatsDisjoint(CreateBooking(db, caller, scheduleId, seatNumbers).db.bookings)
  {
    var r := CreateBooking(db, caller, scheduleId, seatNumbers);
    if r.reply.Created? {
      var bs, n, nb := r.db.bookings, |db.bookings|, r.reply.booking;
      forall i | 0 <= i < n && IsActive(bs[i]) && bs[i].scheduleId == scheduleId
        ensures SeatsDisjoint(nb.seatNumbers, bs[i].seatNumbers) && SeatsDisjoint(bs[i].seatNumbers, nb.seatNumbers)
      {
        assert bs[i] == db.bookings[i];
        forall k | 0 <= k < |bs[i].seatNumbers| ensures bs[i].seatNumbers[k] !in nb.seatNumbers {
          assert bs[i].seatNumbers[k] in SeatsOf(db.bookings, scheduleId, true);
        }
      }
    }
  }

  /** Cancelling keeps availableSeats + held seats == totalSeats. */
  lemma CancelBookingKeepsBalance(db: Db, caller: Caller, id: Id)
    requires WellFormed(db) && SeatsBalanced(db)
    ensures SeatsBalanced(CancelBooking(db, caller, id).db)
  {
    var r := CancelBooking(db, caller, id);
    if r.reply.Ok? {
      var b := db.bookings[id];
      forall sid | 0 <= sid < |r.db.schedules|
        ensures r.db.schedules[sid].availableSeats + HeldSeats(r.db.bookings, sid) == r.db.schedules[sid].totalSeats
      {
        HeldSeatsUpdate(db.bookings, id, b.(status := Cancelled), sid);
      }
    }
  }

  /** Cancelling only releases seats, so no two held seat sets start to overlap. */
  lemma CancelBookingKeepsDisjoint(db: Db, caller: Caller, id: Id)
    requires WellFormed(db) && ActiveSeatsDisjoint(db.bookings)
    ensures ActiveSeatsDisjoint(CancelBooking(db, caller, id).db.bookings)
  {
  }

  /** Create followed by the owner's cancel gives back exactly the seats the
      create took, and leaves the new booking CANCELLED. */
  lemma CreateThenCancelRestoresSeats(db: Db, caller: Caller, scheduleId: Id, seatNumbers: seq<string>)
    requires WellFormed(db)
    requires CreateBooking(db, caller, scheduleId, seatNumbers).reply.Created?
    ensures
      var created := CreateBooking(db, caller, scheduleId, seatNumbers);
      var cancelled := CancelBooking(created.db, caller, created.reply.id);
      && cancelled.reply.Ok?
      && cancelled.db.schedules == db.schedules
      && cancelled.db.payments == db.payments
      && cancelled.db.bookings == db.bookings + [created.reply.booking.(status := Cancelled)]
  {
    var created := CreateBooking(db, caller, scheduleId, seatNumbers);
    var cancelled := CancelBooking(created.db, caller, created.reply.id);
    var s := db.schedules[scheduleId];
    assert cancelled.db.schedules == db.schedules[scheduleId := s];
    assert cancelled.db.payments == db.payments;
  }

  /** Cancel is not idempotent: the second cancel of a booking is a 400 error. */
  lemma CancelTwiceIsAnError(db: Db, caller: Caller, id: Id)
    requires WellFormed(db)
    requires CancelBooking(db, caller, id).reply.Ok?
    ensures
      var first := CancelBooking(db, caller, id);
      CancelBooking(first.db, caller, id) == Step(Err(400, "Booking is already cancelled"), first.db)
  {
  }

  /** Repeating a seat inside one request is not refused: both copies are
      booked and both are taken from the counter. */
  lemma DuplicateSeatsAreCharged()
    ensures
      var db := Db([Route("Paris", "Lyon", true)],
                   [Schedule(0, 0, 3600000, "B1", 2, 2, 4500, Scheduled)], [], []);
      var r := CreateBooking(db, Caller(1, Customer), 0, ["A1", "A1"]);
      && r.reply.Created?
      && r.reply.booking.totalAmount == 9000
      && r.db.schedules[0].availableSeats == 0
  {
    var db := Db([Route("Paris", "Lyon", true)],
                 [Schedule(0, 0, 3600000, "B1", 2, 2, 4500, Scheduled)], [], []);
    assert SeatsOf(db.bookings, 0, true) == [];
  }
}
