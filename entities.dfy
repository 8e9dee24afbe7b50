/** The rows of the booking store, the replies the handlers send, and the
    referential integrity that the relational schema guarantees. */
module Entities {

  datatype Option<T> = None | Some(value: T)

  /** A row id. Tables only ever grow (nothing in the booking and settlement
      handlers deletes a row), so a row's id is its position in its table and
      the next row's id is the table's length. */
  type Id = nat

  datatype Role = Customer | Admin

  /** The principal the authentication middleware attaches to a request. */
  datatype Caller = Caller(userId: Id, role: Role)

  datatype ScheduleStatus = Scheduled | ScheduleCancelled | ScheduleCompleted
  datatype BookingStatus = Pending | Confirmed | Cancelled | Completed
  datatype PaymentStatus = PaymentPending | PaymentCompleted | PaymentFailed | Refunded

  datatype Route = Route(origin: string, destination: string, isActive: bool)

  /** Times are integer milliseconds; money is integer cents. */
  datatype Schedule = Schedule(
    routeId: Id,
    departureTime: int,
    arrivalTime: int,
    busNumber: string,
    totalSeats: int,
    availableSeats: int,
    price: int,
    status: ScheduleStatus)

  datatype Booking = Booking(
    userId: Id,
    scheduleId: Id,
    seatNumbers: seq<string>,
    totalAmount: int,
    status: BookingStatus)

  datatype Payment = Payment(
    bookingId: Id,
    amount: int,
    currency: string,
    paymentMethod: string,
    stripePaymentId: string,
    status: PaymentStatus,
    paidAt: Option<int>)

  /** The whole store: one table per entity. */
  datatype Db = Db(
    routes: seq<Route>,
    schedules: seq<Schedule>,
    bookings: seq<Booking>,
    payments: seq<Payment>)

  /** What a handler answers together with the store it leaves behind. */
  datatype Step<R> = Step(reply: R, db: Db)

  /** A JSON reply: a success status with its payload, or an error status
      with the `error` string of the body. */
  datatype Reply<T> = Ok(status: int, value: T) | Err(status: int, error: string)

  /** The bookings whose seats are held: the `status in [PENDING, CONFIRMED]`
      filter of the seat-conflict query. */
  predicate IsActive(b: Booking) {
    b.status == Pending || b.status == Confirmed
  }

  /** The owner-or-admin rule of the booking and payment read/cancel handlers. */
  predicate CanAccess(caller: Caller, ownerId: Id) {
    caller.role == Admin || caller.userId == ownerId
  }

  /** Foreign keys resolve, every payment belongs to a distinct booking
      (`bookingId` is unique), and no schedule's counter is negative. */
  ghost predicate WellFormed(db: Db) {
    && (forall i | 0 <= i < |db.schedules| ::
          db.schedules[i].routeId < |db.routes| && db.schedules[i].availableSeats >= 0)
    && (forall i | 0 <= i < |db.bookings| :: db.bookings[i].scheduleId < |db.schedules|)
    && (forall i | 0 <= i < |db.payments| :: db.payments[i].bookingId < |db.bookings|)
    && (forall i, j | 0 <= i < j < |db.payments| ::
          db.payments[i].bookingId != db.payments[j].bookingId)
  }

  /** The unique fields a payment row is looked up by. */
  datatype PaymentKey = ByBooking(bookingId: Id) | ByIntent(stripePaymentId: string)

  predicate HasKey(p: Payment, key: PaymentKey) {
    match key
    case ByBooking(b) => p.bookingId == b
    case ByIntent(s) => p.stripePaymentId == s
  }

  /** The first payment row with the given key, as `findUnique`/`findFirst` return it. */
  function FindPayment(ps: seq<Payment>, key: PaymentKey): (r: Option<Id>)
    ensures r.Some? ==> r.value < |ps| && HasKey(ps[r.value], key)
    ensures r.Some? ==> forall j | 0 <= j < r.value :: !HasKey(ps[j], key)
    ensures r.None? <==> forall j | 0 <= j < |ps| :: !HasKey(ps[j], key)
  {
    if |ps| == 0 then None
    else if HasKey(ps[0], key) then Some(0)
    else match FindPayment(ps[1..], key)
      case None => None
      case Some(k) => Some(k + 1)
  }

  /** Rewriting a row without touching its key fields leaves every lookup as it was. */
  lemma {:induction false} FindPaymentStable(ps: seq<Payment>, k: Id, p: Payment, key: PaymentKey)
    requires k < |ps|
    requires HasKey(p, key) == HasKey(ps[k], key)
    ensures FindPayment(ps[k := p], key) == FindPayment(ps, key)
  {
    if |ps| > 0 && k > 0 {
      assert ps[k := p][1..] == ps[1..][k - 1 := p];
      FindPaymentStable(ps[1..], k - 1, p, key);
    }
  }

  /** In a well-formed store the payment found for a booking is the only one it has. */
  lemma PaymentOfBookingIsUnique(db: Db, bid: Id, k: Id)
    requires WellFormed(db)
    requires k < |db.payments| && db.payments[k].bookingId == bid
    ensures FindPayment(db.payments, ByBooking(bid)) == Some(k)
  {
  }
}
