/** Seat accounting over the bookings table: which seats a schedule's bookings
    hold, how many units of capacity they take, and the two invariants the
    booking handlers are meant to keep. */
module Ledger {
  import opened Entities

  /** Whether a booking counts for schedule `sid`: every booking of it, or only
      the PENDING/CONFIRMED ones. */
  predicate Counts(b: Booking, sid: Id, onlyActive: bool) {
    b.scheduleId == sid && (IsActive(b) || !onlyActive)
  }

  /** The seat numbers of schedule `sid`'s bookings, concatenated in table
      order: the `flatMap(b => b.seatNumbers)` over the schedule's bookings. */
  function SeatsOf(bs: seq<Booking>, sid: Id, onlyActive: bool): (r: seq<string>)
    ensures forall x {:trigger x in r} :: x in r <==>
      exists i | 0 <= i < |bs| :: Counts(bs[i], sid, onlyActive) && x in bs[i].seatNumbers
  {
    if bs == [] then []
    else
      var last := bs[|bs| - 1];
      SeatsOf(bs[..|bs| - 1], sid, onlyActive) + (if Counts(last, sid, onlyActive) then last.seatNumbers else [])
  }

  /** The units of capacity one booking takes from schedule `sid`. */
  function Held(b: Booking, sid: Id): nat {
    if Counts(b, sid, true) then |b.seatNumbers| else 0
  }

  /** Σ |seatNumbers| over the PENDING/CONFIRMED bookings of schedule `sid`. */
  function HeldSeats(bs: seq<Booking>, sid: Id): nat {
    if bs == [] then 0 else HeldSeats(bs[..|bs| - 1], sid) + Held(bs[|bs| - 1], sid)
  }

  /** The held-seat list and the held-seat count agree, duplicates included. */
  lemma {:induction false} HeldSeatsIsLength(bs: seq<Booking>, sid: Id)
    ensures |SeatsOf(bs, sid, true)| == HeldSeats(bs, sid)
  {
    if bs != [] {
      HeldSeatsIsLength(bs[..|bs| - 1], sid);
    }
  }

  /** Appending a booking adds exactly its own held seats. */
  lemma HeldSeatsAppend(bs: seq<Booking>, b: Booking, sid: Id)
    ensures HeldSeats(bs + [b], sid) == HeldSeats(bs, sid) + Held(b, sid)
  {
    assert (bs + [b])[..|bs|] == bs;
  }

  /** Rewriting one booking changes the count by the difference of what the
      old and the new row hold. */
  lemma {:induction false} HeldSeatsUpdate(bs: seq<Booking>, k: nat, b: Booking, sid: Id)
    requires k < |bs|
    ensures HeldSeats(bs[k := b], sid) + Held(bs[k], sid) == HeldSeats(bs, sid) + Held(b, sid)
  {
    var n := |bs| - 1;
    if k < n {
      assert bs[k := b][..n] == bs[..n][k := b];
      HeldSeatsUpdate(bs[..n], k, b, sid);
    } else {
      assert bs[k := b][..n] == bs[..n];
    }
  }

  /** A schedule no booking refers to holds nothing. */
  lemma {:induction false} HeldSeatsUnreferenced(bs: seq<Booking>, sid: Id)
    requires forall i | 0 <= i < |bs| :: bs[i].scheduleId != sid
    ensures HeldSeats(bs, sid) == 0
  {
    if bs != [] {
      HeldSeatsUnreferenced(bs[..|bs| - 1], sid);
    }
  }

  /** How many times seat `x` is named by the counted bookings of schedule
      `sid`, summed booking by booking from the first. */
  function Occurrences(bs: seq<Booking>, sid: Id, onlyActive: bool, x: string): nat {
    if bs == [] then 0
    else (if Counts(bs[0], sid, onlyActive) then multiset(bs[0].seatNumbers)[x] else 0)
         + Occurrences(bs[1..], sid, onlyActive, x)
  }

  lemma {:induction false} OccurrencesAppend(bs: seq<Booking>, b: Booking, sid: Id, onlyActive: bool, x: string)
    ensures Occurrences(bs + [b], sid, onlyActive, x) ==
      Occurrences(bs, sid, onlyActive, x) + (if Counts(b, sid, onlyActive) then multiset(b.seatNumbers)[x] else 0)
  {
    if bs != [] {
      assert (bs + [b])[1..] == bs[1..] + [b];
      OccurrencesAppend(bs[1..], b, sid, onlyActive, x);
    } else {
      assert [b][1..] == [];
    }
  }

  /** The flattened list names each seat once per time a counted booking
      names it: duplicates across bookings and within one are all kept. */
  lemma {:induction false} SeatsOfCounts(bs: seq<Booking>, sid: Id, onlyActive: bool)
    ensures forall x :: multiset(SeatsOf(bs, sid, onlyActive))[x] == Occurrences(bs, sid, onlyActive, x)
  {
    if bs != [] {
      var n := |bs| - 1;
      SeatsOfCounts(bs[..n], sid, onlyActive);
      assert bs == bs[..n] + [bs[n]];
      forall x ensures multiset(SeatsOf(bs, sid, onlyActive))[x] == Occurrences(bs, sid, onlyActive, x) {
        OccurrencesAppend(bs[..n], bs[n], sid, onlyActive, x);
      }
    }
  }

  /** For every schedule: availableSeats + Σ |seatNumbers| of its
      PENDING/CONFIRMED bookings == totalSeats. */
  ghost predicate SeatsBalanced(db: Db) {
    forall sid | 0 <= sid < |db.schedules| ::
      db.schedules[sid].availableSeats + HeldSeats(db.bookings, sid) == db.schedules[sid].totalSeats
  }

  predicate SeatsDisjoint(a: seq<string>, b: seq<string>) {
    forall k | 0 <= k < |a| :: a[k] !in b
  }

  /** No seat is held by two distinct PENDING/CONFIRMED bookings of one schedule. */
  ghost predicate ActiveSeatsDisjoint(bs: seq<Booking>) {
    forall i, j | 0 <= i < |bs| && 0 <= j < |bs| && i != j ::
      IsActive(bs[i]) && IsActive(bs[j]) && bs[i].scheduleId == bs[j].scheduleId ==>
        SeatsDisjoint(bs[i].seatNumbers, bs[j].seatNumbers)
  }
}
