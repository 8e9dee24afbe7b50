/** The schedule handlers: create a departure, cancel one (a soft delete),
    read one with the seats its bookings name, and the two filtered listings
    ordered by departure time. */
module ScheduleController {
  import opened Entities
  import opened Ledger
  import ErrorHandler

  // ---------------------------------------------------------------------------
  // Inventory setup

  /** A create request after its fields have been read; the route id and the
      two times are already of the right kind. */
  datatype ScheduleInput = ScheduleInput(
    routeId: Id,
    departureTime: int,
    arrivalTime: int,
    busNumber: string,
    totalSeats: int,
    price: int)

  /** The first structural check the schema fails, in field order. */
  function InputError(input: ScheduleInput): Option<string> {
    if input.busNumber == "" then Some("\"busNumber\" is not allowed to be empty")
    else if input.totalSeats < 1 then Some("\"totalSeats\" must be greater than or equal to 1")
    else None
  }

  function CreateSchedule(db: Db, input: ScheduleInput): (r: Step<Reply<Id>>)
    ensures r.reply.Err? ==> r.db == db
    // the validator reports the first failing field in its own words
    ensures input.busNumber == "" ==> r.reply == Err(400, "\"busNumber\" is not allowed to be empty")
    ensures input.busNumber != "" && input.totalSeats < 1 ==>
      r.reply == Err(400, "\"totalSeats\" must be greater than or equal to 1")
    ensures input.busNumber != "" && input.totalSeats >= 1 && input.routeId >= |db.routes| ==>
      r.reply == Err(404, "Route not found")
    ensures r.reply.Ok? <==> input.busNumber != "" && input.totalSeats >= 1 && input.routeId < |db.routes|
    // a new schedule is open for booking with every seat available
    ensures r.reply.Ok? ==>
      && r.reply == Ok(201, |db.schedules|)
      && r.db == db.(schedules := db.schedules + [Schedule(input.routeId, input.departureTime, input.arrivalTime,
                                                           input.busNumber, input.totalSeats, input.totalSeats,
                                                           input.price, Scheduled)])
      && r.db.schedules[r.reply.value].availableSeats == r.db.schedules[r.reply.value].totalSeats >= 1
    ensures WellFormed(db) ==> WellFormed(r.db)
  {
    match InputError(input)
    case Some(message) => Step(Err(400, message), db)
    case None =>
      if input.routeId >= |db.routes| then Step(Err(404, "Route not found"), db)
      else
        var s := Schedule(input.routeId, input.departureTime, input.arrivalTime, input.busNumber,
                          input.totalSeats, input.totalSeats, input.price, Scheduled);
        Step(Ok(201, |db.schedules|), db.(schedules := db.schedules + [s]))
  }

  /** Soft delete: the schedule is marked CANCELLED and nothing else moves.
      For an unknown id the ORM's update throws its missing-row error, which
      the error middleware turns into a 404. */
  function DeleteSchedule(db: Db, id: Id): (r: Step<Reply<string>>)
    ensures id >= |db.schedules| ==> r == Step(Err(404, "Not found"), db)
    ensures id < |db.schedules| ==>
      && r.reply == Ok(200, "Schedule cancelled successfully")
      && r.db == db.(schedules := db.schedules[id := db.schedules[id].(status := ScheduleCancelled)])
    ensures r.db.bookings == db.bookings && r.db.payments == db.payments && |r.db.schedules| == |db.schedules|
    ensures forall i | 0 <= i < |db.schedules| ::
      && r.db.schedules[i].availableSeats == db.schedules[i].availableSeats
      && r.db.schedules[i].totalSeats == db.schedules[i].totalSeats
    ensures WellFormed(db) ==> WellFormed(r.db)
  {
    if id >= |db.schedules| then
      ErrorHandler.MissingRowIsNotFound();
      var e := ErrorHandler.Handle(ErrorHandler.OrmError(ErrorHandler.MissingRow));
      Step(Err(e.status, ErrorHandler.ErrorText(e.body)), db)
    else
      Step(Ok(200, "Schedule cancelled successfully"),
           db.(schedules := db.schedules[id := db.schedules[id].(status := ScheduleCancelled)]))
  }

  // ---------------------------------------------------------------------------
  // Queries

  datatype ScheduleView = ScheduleView(schedule: Schedule, bookedSeats: seq<string>)

  /** One schedule and the seats named by ALL of its bookings: the query has
      no status filter, so CANCELLED bookings' seats are listed too. */
  function GetScheduleById(db: Db, id: Id): (r: Reply<ScheduleView>)
    ensures r.Err? <==> id >= |db.schedules|
    ensures r.Err? ==> r == Err(404, "Schedule not found")
    ensures r.Ok? ==> r.status == 200 && r.value.schedule == db.schedules[id]
    ensures r.Ok? ==> forall x {:trigger x in r.value.bookedSeats} ::
      x in r.value.bookedSeats <==>
        exists i | 0 <= i < |db.bookings| :: db.bookings[i].scheduleId == id && x in db.bookings[i].seatNumbers
    ensures r.Ok? ==> forall x {:trigger multiset(r.value.bookedSeats)[x]} ::
      multiset(r.value.bookedSeats)[x] == Occurrences(db.bookings, id, false, x)
  {
    if id >= |db.schedules| then Err(404, "Schedule not found")
    else
      SeatsOfCounts(db.bookings, id, false);
      Ok(200, ScheduleView(db.schedules[id], SeatsOf(db.bookings, id, false)))
  }

  /** The day `day` in milliseconds, from 00:00:00.000 to 23:59:59.999. */
  const DayMillis := 86_400_000

  predicate InDay(t: int, day: int) {
    day * DayMillis <= t <= day * DayMillis + DayMillis - 1
  }

  function LowerChar(c: char): char {
    if 'A' <= c <= 'Z' then (c as int + 32) as char else c
  }

  /** ASCII lower-casing: no capital letter is left, and lower-casing
      again changes nothing. */
  function Lower(s: string): (r: string)
    ensures |r| == |s| && forall k | 0 <= k < |s| :: r[k] == LowerChar(s[k])
    ensures forall k | 0 <= k < |r| :: !('A' <= r[k] <= 'Z')
    ensures forall k | 0 <= k < |s| :: !('A' <= s[k] <= 'Z') ==> r[k] == s[k]
    ensures forall k | 0 <= k < |r| :: LowerChar(r[k]) == r[k]
  {
    seq(|s|, k requires 0 <= k < |s| => LowerChar(s[k]))
  }

  predicate IsInfix(needle: string, hay: string) {
    exists i | 0 <= i <= |hay| :: needle <= hay[i..]
  }

  /** `{ contains: query, mode: 'insensitive' }`, over ASCII letters. */
  predicate ContainsIgnoringCase(text: string, query: string) {
    IsInfix(Lower(query), Lower(text))
  }

  /** The letter case of the query does not change what it matches. */
  lemma ContainsIgnoresQueryCase(text: string, query: string)
    ensures ContainsIgnoringCase(text, query) == ContainsIgnoringCase(text, Lower(query))
  {
    assert Lower(Lower(query)) == Lower(query);
  }

  datatype ScheduleQuery =
    | Search(origin: string, destination: string, day: int)
    | Listing(routeId: Option<Id>, onDay: Option<int>, status: Option<ScheduleStatus>)

  /** The `where` clause of each listing. */
  predicate Matches(db: Db, s: Schedule, q: ScheduleQuery) {
    match q
    case Search(origin, destination, day) =>
      && s.routeId < |db.routes|
      && db.routes[s.routeId].isActive
      && ContainsIgnoringCase(db.routes[s.routeId].origin, origin)
      && ContainsIgnoringCase(db.routes[s.routeId].destination, destination)
      && InDay(s.departureTime, day)
      && s.status == Scheduled
      && s.availableSeats > 0
    case Listing(routeId, day, status) =>
      && (routeId.None? || s.routeId == routeId.value)
      && (day.None? || InDay(s.departureTime, day.value))
      && (status.None? || s.status == status.value)
  }

  /** The ids among the first `n` schedules that match, in table order. */
  function Select(db: Db, q: ScheduleQuery, n: nat): (r: seq<Id>)
    requires n <= |db.schedules|
    ensures forall i: int {:trigger i in r} :: i in r <==> 0 <= i < n && Matches(db, db.schedules[i], q)
    ensures forall a, b | 0 <= a < b < |r| :: r[a] < r[b]
  {
    if n == 0 then []
    else
      var earlier := Select(db, q, n - 1);
      assert forall a | 0 <= a < |earlier| :: earlier[a] in earlier && earlier[a] < n - 1;
      earlier + (if Matches(db, db.schedules[n - 1], q) then [n - 1] else [])
  }

  /** In a strictly increasing sequence every element occurs once. */
  lemma {:induction false} IncreasingOccursOnce(s: seq<Id>, x: int)
    requires forall a, b | 0 <= a < b < |s| :: s[a] < s[b]
    ensures multiset(s)[x] == if x in s then 1 else 0
  {
    if s != [] {
      assert s == [s[0]] + s[1..];
      IncreasingOccursOnce(s[1..], x);
      if x == s[0] {
        assert x !in s[1..];
      }
    }
  }

  predicate ValidIds(ss: seq<Schedule>, ids: seq<Id>) {
    forall a | 0 <= a < |ids| :: ids[a] < |ss|
  }

  /** `orderBy: { departureTime: 'asc' }`. */
  predicate DepartureOrdered(ss: seq<Schedule>, ids: seq<Id>)
    requires ValidIds(ss, ids)
  {
    forall a, b | 0 <= a < b < |ids| :: ss[ids[a]].departureTime <= ss[ids[b]].departureTime
  }

  function Insert(ss: seq<Schedule>, id: Id, sorted: seq<Id>): (r: seq<Id>)
    requires id < |ss| && ValidIds(ss, sorted) && DepartureOrdered(ss, sorted)
    ensures ValidIds(ss, r) && DepartureOrdered(ss, r)
    ensures multiset(r) == multiset(sorted) + multiset{id}
    ensures forall x {:trigger x in r} :: x in r <==> x in sorted || x == id
  {
    if sorted == [] then [id]
    else if ss[id].departureTime <= ss[sorted[0]].departureTime then [id] + sorted
    else
      var rest := Insert(ss, id, sorted[1..]);
      assert sorted == [sorted[0]] + sorted[1..];
      assert forall b | 0 <= b < |rest| :: ss[sorted[0]].departureTime <= ss[rest[b]].departureTime by {
        forall b | 0 <= b < |rest| ensures ss[sorted[0]].departureTime <= ss[rest[b]].departureTime {
          assert rest[b] in rest;
        }
      }
      [sorted[0]] + rest
  }

  function SortByDeparture(ss: seq<Schedule>, ids: seq<Id>): (r: seq<Id>)
    requires ValidIds(ss, ids)
    ensures ValidIds(ss, r) && DepartureOrdered(ss, r)
    ensures multiset(r) == multiset(ids)
  {
    if ids == [] then []
    else
      assert ids == [ids[0]] + ids[1..];
      Insert(ss, ids[0], SortByDeparture(ss, ids[1..]))
  }

  /** The matching schedules, each once, earliest departure first. */
  function Query(db: Db, q: ScheduleQuery): (r: seq<Id>)
    ensures ValidIds(db.schedules, r) && DepartureOrdered(db.schedules, r)
    ensures forall i: int {:trigger multiset(r)[i]} ::
      multiset(r)[i] == if 0 <= i < |db.schedules| && Matches(db, db.schedules[i], q) then 1 else 0
  {
    var selected := Select(db, q, |db.schedules|);
    assert forall a | 0 <= a < |selected| :: selected[a] in selected;
    var r := SortByDeparture(db.schedules, selected);
    forall i: int ensures multiset(r)[i] == if 0 <= i < |db.schedules| && Matches(db, db.schedules[i], q) then 1 else 0 {
      IncreasingOccursOnce(selected, i);
    }
    r
  }

  /** The public listing: only the filters that were supplied apply. */
  function GetAllSchedules(db: Db, routeId: Option<Id>, day: Option<int>, status: Option<ScheduleStatus>)
    : (r: seq<Id>)
    ensures ValidIds(db.schedules, r) && DepartureOrdered(db.schedules, r)
    ensures forall i: int {:trigger multiset(r)[i]} ::
      multiset(r)[i] ==
        if && 0 <= i < |db.schedules|
           && (routeId.None? || db.schedules[i].routeId == routeId.value)
           && (day.None? || InDay(db.schedules[i].departureTime, day.value))
           && (status.None? || db.schedules[i].status == status.value)
        then 1 else 0
  {
    Query(db, Listing(routeId, day, status))
  }

  /** The search: all three parameters are required (an empty one counts as
      missing), and only bookable departures of active routes are listed. */
  function SearchSchedules(db: Db, origin: Option<string>, destination: Option<string>, day: Option<int>)
    : (r: Reply<seq<Id>>)
    ensures r.Err? <==> origin.None? || origin == Some("") || destination.None? || destination == Some("") || day.None?
    ensures r.Err? ==> r == Err(400, "Origin, destination, and date are required")
    ensures r.Ok? ==> r.status == 200 && ValidIds(db.schedules, r.value) && DepartureOrdered(db.schedules, r.value)
    ensures r.Ok? ==> forall k | 0 <= k < |r.value| ::
      var s := db.schedules[r.value[k]];
      && s.status == Scheduled
      && s.availableSeats > 0
      && s.routeId < |db.routes|
      && db.routes[s.routeId].isActive
      && ContainsIgnoringCase(db.routes[s.routeId].origin, origin.value)
      && ContainsIgnoringCase(db.routes[s.routeId].destination, destination.value)
      && InDay(s.departureTime, day.value)
    ensures r.Ok? ==> forall i: int {:trigger multiset(r.value)[i]} ::
      multiset(r.value)[i] ==
        if 0 <= i < |db.schedules| && Matches(db, db.schedules[i], Search(origin.value, destination.value, day.value))
        then 1 else 0
  {
    if origin.None? || origin == Some("") || destination.None? || destination == Some("") || day.None? then
      Err(400, "Origin, destination, and date are required")
    else
      var q := Search(origin.value, destination.value, day.value);
      var ids := Query(db, q);
      forall k | 0 <= k < |ids| ensures Matches(db, db.schedules[ids[k]], q) {
        assert multiset(ids)[ids[k]] > 0;
      }
      Ok(200, ids)
  }
}
