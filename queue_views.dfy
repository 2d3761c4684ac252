/**
 * The read side: per-desk and per-location filters of today's tickets, the
 * orderings the views ask for, the desk counters, the desk detail page and
 * the dashboard figures.
 */
module QueueViews {
  import opened Common
  import opened Clock
  import opened Directory
  import opened Tickets

  /** Which tickets a query ranges over: one desk's (`desk.queues`) or one location's. */
  datatype Scope = AtDesk(desk: DeskId) | AtLocation(location: LocationId)

  /** The query filter: in scope, created on `today`, and with the given status if one is given. */
  predicate Matches(r: TicketRecord, scope: Scope, today: int, status: Option<Status>) {
    && DayOf(r.createdAt) == today
    && (match scope
        case AtDesk(d) => r.desk == d
        case AtLocation(l) => r.location == l)
    && (status.None? || r.status == status.value)
  }

  /** `filter(...)` over the ticket table: exactly the matching rows, as often as they occur. */
  function Select(ts: seq<TicketRecord>, scope: Scope, today: int, status: Option<Status>): (r: seq<TicketRecord>)
    ensures |r| <= |ts|
  {
    if ts == [] then []
    else
      var rest := Select(ts[1..], scope, today, status);
      if Matches(ts[0], scope, today, status) then [ts[0]] + rest else rest
  }

  /** `Select` keeps exactly the matching rows, each as often as it occurs in the table. */
  lemma {:induction false} SelectSpec(ts: seq<TicketRecord>, scope: Scope, today: int, status: Option<Status>)
    ensures forall x :: multiset(Select(ts, scope, today, status))[x]
                        == if Matches(x, scope, today, status) then multiset(ts)[x] else 0
    ensures forall x :: x in Select(ts, scope, today, status) <==> x in ts && Matches(x, scope, today, status)
    decreases |ts|
  {
    if ts != [] {
      SelectSpec(ts[1..], scope, today, status);
      assert ts == [ts[0]] + ts[1..];
    }
  }

  /** Filtering a table that grew by appending rows. */
  lemma {:induction false} SelectAppend(a: seq<TicketRecord>, b: seq<TicketRecord>, scope: Scope, today: int, status: Option<Status>)
    ensures Select(a + b, scope, today, status) == Select(a, scope, today, status) + Select(b, scope, today, status)
    decreases |a|
  {
    if a == [] {
      assert a + b == b;
    } else {
      assert (a + b)[1..] == a[1..] + b;
      SelectStep(a + b, scope, today, status);
      SelectStep(a, scope, today, status);
      SelectAppend(a[1..], b, scope, today, status);
    }
  }

  /** Every ticket of the day has exactly one of the four statuses. */
  lemma {:induction false} StatusPartition(ts: seq<TicketRecord>, scope: Scope, today: int)
    ensures |Select(ts, scope, today, None)|
         == |Select(ts, scope, today, Some(Waiting))| + |Select(ts, scope, today, Some(InProgress))|
          + |Select(ts, scope, today, Some(Completed))| + |Select(ts, scope, today, Some(Cancelled))|
    decreases |ts|
  {
    if ts != [] {
      StatusPartition(ts[1..], scope, today);
      SelectStep(ts, scope, today, None);
      SelectStep(ts, scope, today, Some(Waiting));
      SelectStep(ts, scope, today, Some(InProgress));
      SelectStep(ts, scope, today, Some(Completed));
      SelectStep(ts, scope, today, Some(Cancelled));
    }
  }

  lemma SelectStep(ts: seq<TicketRecord>, scope: Scope, today: int, status: Option<Status>)
    requires ts != []
    ensures Select(ts, scope, today, status)
         == (if Matches(ts[0], scope, today, status) then [ts[0]] else []) + Select(ts[1..], scope, today, status)
  {
  }

  // ---- Orderings ----

  /** The two orders the views use. */
  datatype Ordering =
    | PriorityThenArrival   // `-is_priority, created_at`: the table's default order
    | LatestCompletedFirst  // `-completed_at`, a missing completion time last

  /** `a` may be listed before `b` (ties allowed either way). */
  predicate Precedes(o: Ordering, a: TicketRecord, b: TicketRecord) {
    match o
    case PriorityThenArrival =>
      (a.isPriority && !b.isPriority) || (a.isPriority == b.isPriority && a.createdAt <= b.createdAt)
    case LatestCompletedFirst =>
      b.completedAt.None? || (a.completedAt.Some? && a.completedAt.value >= b.completedAt.value)
  }

  lemma PrecedesTotalOrder(o: Ordering)
    ensures forall a, b :: Precedes(o, a, b) || Precedes(o, b, a)
    ensures forall a, b, c :: Precedes(o, a, b) && Precedes(o, b, c) ==> Precedes(o, a, c)
  {
  }

  predicate Sorted(o: Ordering, s: seq<TicketRecord>) {
    forall i, j :: 0 <= i < j < |s| ==> Precedes(o, s[i], s[j])
  }

  /** Inserts `x` before the first element it may precede, so earlier ties stay ahead. */
  function Insert(o: Ordering, x: TicketRecord, s: seq<TicketRecord>): (r: seq<TicketRecord>)
    requires Sorted(o, s)
    ensures Sorted(o, r)
    ensures multiset(r) == multiset(s) + multiset{x}
    decreases |s|
  {
    if s == [] then [x]
    else if Precedes(o, x, s[0]) then
      LeadsSorted(o, x, s);
      [x] + s
    else
      var rest := Insert(o, x, s[1..]);
      assert s == [s[0]] + s[1..];
      InsertedBehind(o, x, s, rest);
      [s[0]] + rest
  }

  /** Putting in front of a sorted list something that may precede its head keeps it sorted. */
  lemma LeadsSorted(o: Ordering, x: TicketRecord, s: seq<TicketRecord>)
    requires Sorted(o, s) && s != [] && Precedes(o, x, s[0])
    ensures Sorted(o, [x] + s)
  {
  }

  lemma PrependSorted(o: Ordering, x: TicketRecord, s: seq<TicketRecord>)
    requires Sorted(o, s)
    requires forall k :: 0 <= k < |s| ==> Precedes(o, x, s[k])
    ensures Sorted(o, [x] + s)
  {
  }

  /** The head of a sorted list stays in front when `x`, which it precedes, is inserted behind it. */
  lemma InsertedBehind(o: Ordering, x: TicketRecord, s: seq<TicketRecord>, rest: seq<TicketRecord>)
    requires Sorted(o, s) && s != [] && !Precedes(o, x, s[0])
    requires Sorted(o, rest) && multiset(rest) == multiset(s[1..]) + multiset{x}
    ensures Sorted(o, [s[0]] + rest)
  {
    PrecedesTotalOrder(o);
    forall k | 0 <= k < |rest| ensures Precedes(o, s[0], rest[k]) {
      assert rest[k] in multiset(rest);
      if rest[k] != x {
        assert rest[k] in multiset(s[1..]);
        var m :| 0 <= m < |s[1..]| && s[1..][m] == rest[k];
        assert s[m + 1] == rest[k];
      }
    }
    PrependSorted(o, s[0], rest);
  }

  /** A stable insertion sort: the result is ordered and holds exactly the input's tickets. */
  function SortBy(o: Ordering, s: seq<TicketRecord>): (r: seq<TicketRecord>)
    ensures Sorted(o, r)
    ensures multiset(r) == multiset(s)
    decreases |s|
  {
    if s == [] then []
    else
      assert s == [s[0]] + s[1..];
      Insert(o, s[0], SortBy(o, s[1..]))
  }

  // ---- Desk queries ----

  /** `Desk.get_waiting_count`. */
  function DeskWaitingCount(desk: DeskId, ts: seq<TicketRecord>, today: int): nat {
    |Select(ts, AtDesk(desk), today, Some(Waiting))|
  }

  /** `Desk.get_serving_count`. */
  function DeskServingCount(desk: DeskId, ts: seq<TicketRecord>, today: int): nat {
    |Select(ts, AtDesk(desk), today, Some(InProgress))|
  }

  /** `Desk.get_today_total`. */
  function DeskTodayTotal(desk: DeskId, ts: seq<TicketRecord>, today: int): nat {
    |Select(ts, AtDesk(desk), today, None)|
  }

  /** A desk never has more waiting and in-service tickets than tickets created today. */
  lemma DeskCountersConsistent(desk: DeskId, ts: seq<TicketRecord>, today: int)
    ensures DeskWaitingCount(desk, ts, today) + DeskServingCount(desk, ts, today) <= DeskTodayTotal(desk, ts, today)
  {
    StatusPartition(ts, AtDesk(desk), today);
  }

  /**
   * `Desk.get_current_serving`: the first of today's in-service tickets of the
   * desk in the table's default order, or none when there is none.
   */
  function CurrentServing(desk: DeskId, ts: seq<TicketRecord>, today: int): (r: Option<TicketRecord>)
    ensures r.Some? ==> r.value in ts && r.value.status == InProgress && r.value.desk == desk
                        && DayOf(r.value.createdAt) == today
    ensures r.Some? ==> forall x :: x in ts && Matches(x, AtDesk(desk), today, Some(InProgress)) ==>
                          Precedes(PriorityThenArrival, r.value, x)
    ensures r.None? <==> DeskServingCount(desk, ts, today) == 0
  {
    var serving := Select(ts, AtDesk(desk), today, Some(InProgress));
    var line := SortBy(PriorityThenArrival, serving);
    SelectSpec(ts, AtDesk(desk), today, Some(InProgress));
    assert |line| == |multiset(line)| == |multiset(serving)| == |serving|;
    if line == [] then None
    else
      assert line[0] in multiset(serving);
      assert forall x :: x in serving ==> x in line by {
        forall x | x in serving ensures x in line {
          assert x in multiset(line);
        }
      }
      Some(line[0])
  }

  /**
   * The desk's waiting line: today's waiting tickets of the desk, priority
   * tickets first and each tier in arrival order.
   */
  function WaitingLine(desk: DeskId, ts: seq<TicketRecord>, today: int): (line: seq<TicketRecord>)
    ensures multiset(line) == multiset(Select(ts, AtDesk(desk), today, Some(Waiting)))
    ensures Sorted(PriorityThenArrival, line)
  {
    SortBy(PriorityThenArrival, Select(ts, AtDesk(desk), today, Some(Waiting)))
  }

  /** What the waiting line means for the customers in it. */
  lemma WaitingLineOrder(desk: DeskId, ts: seq<TicketRecord>, today: int)
    ensures var line := WaitingLine(desk, ts, today);
            && |line| == DeskWaitingCount(desk, ts, today)
            && (forall x :: x in line <==> x in ts && x.desk == desk && x.status == Waiting && DayOf(x.createdAt) == today)
            && (forall i, j :: 0 <= i < j < |line| && line[j].isPriority ==> line[i].isPriority)
            && (forall i, j :: 0 <= i < j < |line| && line[i].isPriority == line[j].isPriority ==>
                  line[i].createdAt <= line[j].createdAt)
  {
    SelectSpec(ts, AtDesk(desk), today, Some(Waiting));
    var line := WaitingLine(desk, ts, today);
    forall x ensures x in line <==> x in multiset(line) {
    }
  }

  /** A waiting ticket of desk 1 at location 1 with only its priority and arrival set. */
  function SampleTicket(id: nat, priority: bool, createdAt: Instant): TicketRecord {
    TicketRecord(id, 1, 1, "", "", "", "", "", priority, Waiting, createdAt, None, None, None, None)
  }

  /** The worked example: T1 (no priority, t=1), T2 (priority, t=2), T3 (priority, t=3) line up as T2, T3, T1. */
  lemma WaitingLineExample()
    ensures var t1, t2, t3 := SampleTicket(1, false, 1), SampleTicket(2, true, 2), SampleTicket(3, true, 3);
            WaitingLine(1, [t1, t2, t3], 0) == [t2, t3, t1]
  {
    var t1, t2, t3 := SampleTicket(1, false, 1), SampleTicket(2, true, 2), SampleTicket(3, true, 3);
    SampleSelect(t1, t2, t3);
    SampleSort(t1, t2, t3);
  }

  lemma SampleSelect(t1: TicketRecord, t2: TicketRecord, t3: TicketRecord)
    requires t1 == SampleTicket(1, false, 1) && t2 == SampleTicket(2, true, 2) && t3 == SampleTicket(3, true, 3)
    ensures Select([t1, t2, t3], AtDesk(1), 0, Some(Waiting)) == [t1, t2, t3]
  {
    var scope, waiting := AtDesk(1), Some(Waiting);
    assert [t1, t2, t3][1..] == [t2, t3] && [t2, t3][1..] == [t3] && [t3][1..] == [];
    assert DayOf(1) == 0 && DayOf(2) == 0 && DayOf(3) == 0;
    assert Select([t3], scope, 0, waiting) == [t3];
    assert Select([t2, t3], scope, 0, waiting) == [t2] + [t3];
    assert Select([t1, t2, t3], scope, 0, waiting) == [t1] + [t2, t3];
  }

  lemma SampleSort(t1: TicketRecord, t2: TicketRecord, t3: TicketRecord)
    requires t1 == SampleTicket(1, false, 1) && t2 == SampleTicket(2, true, 2) && t3 == SampleTicket(3, true, 3)
    ensures SortBy(PriorityThenArrival, [t1, t2, t3]) == [t2, t3, t1]
  {
    var o := PriorityThenArrival;
    assert [t1, t2, t3][1..] == [t2, t3] && [t2, t3][1..] == [t3] && [t3][1..] == [];
    assert SortBy(o, [t3]) == [t3];
    assert SortBy(o, [t2, t3]) == [t2, t3] by {
      assert Insert(o, t2, [t3]) == [t2, t3];
    }
    assert Insert(o, t1, [t2, t3]) == [t2, t3, t1] by {
      assert Insert(o, t1, [t3]) == [t3] + Insert(o, t1, []) == [t3, t1];
      assert [t2, t3][1..] == [t3];
    }
  }

  /** How many completed tickets the desk page lists. */
  const CompletedShown: nat := 10

  /** Today's completed tickets of the desk, most recently completed first. */
  function CompletedByRecency(desk: DeskId, ts: seq<TicketRecord>, today: int): (all: seq<TicketRecord>)
    ensures multiset(all) == multiset(Select(ts, AtDesk(desk), today, Some(Completed)))
    ensures Sorted(LatestCompletedFirst, all)
  {
    SortBy(LatestCompletedFirst, Select(ts, AtDesk(desk), today, Some(Completed)))
  }

  /** `completed_today[:10]`: the first ten of that list. */
  function CompletedToday(desk: DeskId, ts: seq<TicketRecord>, today: int): (shown: seq<TicketRecord>)
    ensures var all := CompletedByRecency(desk, ts, today);
            && |shown| == (if |all| < CompletedShown then |all| else CompletedShown)
            && shown == all[..|shown|]
  {
    var all := CompletedByRecency(desk, ts, today);
    if |all| <= CompletedShown then all else all[..CompletedShown]
  }

  /** The page lists the most recently completed tickets: any completed ticket left off finished no later than every listed one. */
  lemma CompletedTodayMostRecent(desk: DeskId, ts: seq<TicketRecord>, today: int)
    ensures var shown := CompletedToday(desk, ts, today);
            && |shown| <= CompletedShown
            && (forall y :: y in shown ==> y in ts && y.status == Completed && y.desk == desk && DayOf(y.createdAt) == today)
            && (forall x, y :: x in ts && Matches(x, AtDesk(desk), today, Some(Completed)) && x !in shown && y in shown ==>
                  Precedes(LatestCompletedFirst, y, x))
  {
    var all := CompletedByRecency(desk, ts, today);
    var done := Select(ts, AtDesk(desk), today, Some(Completed));
    var shown := CompletedToday(desk, ts, today);
    SelectSpec(ts, AtDesk(desk), today, Some(Completed));
    forall y | y in shown ensures y in done {
      var i :| 0 <= i < |shown| && shown[i] == y;
      assert all[i] == y;
      assert y in multiset(all);
    }
    forall x, y | x in ts && Matches(x, AtDesk(desk), today, Some(Completed)) && x !in shown && y in shown
      ensures Precedes(LatestCompletedFirst, y, x)
    {
      assert x in multiset(done);
      assert x in multiset(all);
      assert all == shown + all[|shown|..];
      PrefixPrecedesRest(LatestCompletedFirst, all, |shown|, x, y);
    }
  }

  /** In a sorted list, everything in a prefix may precede everything after it. */
  lemma PrefixPrecedesRest(o: Ordering, all: seq<TicketRecord>, k: nat, x: TicketRecord, y: TicketRecord)
    requires Sorted(o, all) && k <= |all|
    requires x in all[k..] && y in all[..k]
    ensures Precedes(o, y, x)
  {
    var j :| 0 <= j < |all| - k && all[k..][j] == x;
    var i :| 0 <= i < k && all[..k][i] == y;
    assert all[i] == y && all[k + j] == x;
  }

  // ---- Average service time ----

  function Sum(xs: seq<int>): int
    decreases |xs|
  {
    if xs == [] then 0 else xs[0] + Sum(xs[1..])
  }

  /** Integer mean: `total // count`, and 0 for no values. Python's `//` floors, as Dafny's `/` does for a positive divisor. */
  function FloorMean(xs: seq<int>): (m: int)
    ensures |xs| == 0 ==> m == 0
    ensures |xs| > 0 ==> m * |xs| <= Sum(xs) < m * |xs| + |xs|
  {
    if |xs| == 0 then 0 else Sum(xs) / |xs|
  }

  lemma {:induction false} SumBounds(xs: seq<int>, lo: int, hi: int)
    requires forall i :: 0 <= i < |xs| ==> lo <= xs[i] <= hi
    ensures |xs| * lo <= Sum(xs) <= |xs| * hi
    decreases |xs|
  {
    if xs != [] {
      SumBounds(xs[1..], lo, hi);
      assert |xs| * lo == (|xs| - 1) * lo + lo;
      assert |xs| * hi == (|xs| - 1) * hi + hi;
    }
  }

  lemma PositiveFactor(x: int, n: int)
    requires n > 0 && x * n > 0
    ensures x > 0
  {
  }

  /** The mean of values in [lo, hi] lies in [lo, hi]. */
  lemma FloorMeanWithin(xs: seq<int>, lo: int, hi: int)
    requires |xs| > 0
    requires forall i :: 0 <= i < |xs| ==> lo <= xs[i] <= hi
    ensures lo <= FloorMean(xs) <= hi
  {
    SumBounds(xs, lo, hi);
    var m, n := FloorMean(xs), |xs|;
    assert (m + 1 - lo) * n == (m * n + n) - n * lo;
    PositiveFactor(m + 1 - lo, n);
    assert (hi + 1 - m) * n == (n * hi + n) - m * n;
    PositiveFactor(hi + 1 - m, n);
  }

  lemma FloorMeanExample()
    ensures FloorMean([10, 20, 15]) == 15
    ensures FloorMean([]) == 0
  {
  }

  function ServiceTimes(rs: seq<TicketRecord>): (ms: seq<int>)
    ensures |ms| == |rs| && forall i :: 0 <= i < |rs| ==> ms[i] == ServiceTime(rs[i])
  {
    seq(|rs|, i requires 0 <= i < |rs| => ServiceTime(rs[i]))
  }

  /** `avg_service_time` of the desk page: the floored mean service time of today's completed tickets. */
  function AverageServiceTime(desk: DeskId, ts: seq<TicketRecord>, today: int): (avg: int)
    ensures var done := Select(ts, AtDesk(desk), today, Some(Completed));
            && (|done| == 0 ==> avg == 0)
            && (|done| > 0 ==> avg * |done| <= Sum(ServiceTimes(done)) < avg * |done| + |done|)
  {
    FloorMean(ServiceTimes(Select(ts, AtDesk(desk), today, Some(Completed))))
  }

  /** When every ticket has a chronological history, the average is never negative. */
  lemma AverageServiceTimeNonNegative(desk: DeskId, ts: seq<TicketRecord>, today: int, clock: Instant)
    requires forall x :: x in ts ==> Chronological(x, clock)
    ensures AverageServiceTime(desk, ts, today) >= 0
  {
    var done := Select(ts, AtDesk(desk), today, Some(Completed));
    var ms := ServiceTimes(done);
    SelectSpec(ts, AtDesk(desk), today, Some(Completed));
    if |done| > 0 {
      var hi := Sum(ms);
      forall i | 0 <= i < |ms| ensures 0 <= ms[i] {
        assert done[i] in done;
        MetricsNonNegative(done[i], clock, clock);
      }
      forall i | 0 <= i < |ms| ensures ms[i] <= MaxOf(ms) {
        MaxOfBound(ms, i);
      }
      FloorMeanWithin(ms, 0, MaxOf(ms));
    }
  }

  function MaxOf(xs: seq<int>): int
    requires |xs| > 0
    decreases |xs|
  {
    if |xs| == 1 then xs[0]
    else var m := MaxOf(xs[1..]); if xs[0] >= m then xs[0] else m
  }

  lemma {:induction false} MaxOfBound(xs: seq<int>, i: int)
    requires 0 <= i < |xs|
    ensures xs[i] <= MaxOf(xs)
    decreases |xs|
  {
    if i > 0 {
      MaxOfBound(xs[1..], i - 1);
    }
  }

  // ---- The desk page ----

  datatype DeskDetail = DeskDetail(
    desk: Desk,
    currentServing: Option<TicketRecord>,
    waitingQueue: seq<TicketRecord>,
    completedToday: seq<TicketRecord>,
    totalToday: nat,
    avgServiceTime: int,
    waitingCount: nat,
    isAdmin: bool)

  /**
   * `desk_detail_view`: any logged-in user of the desk's location (or a
   * superuser) may look; the page combines the desk's queries for today.
   */
  function DeskDetailView(u: User, desks: seq<Desk>, deskId: DeskId, ts: seq<TicketRecord>, today: int): (r: Result<DeskDetail, Rejection>)
    ensures FindDesk(desks, deskId).None? ==> r == Failure(NotFound)
    ensures FindDesk(desks, deskId).Some? ==>
              (r.Failure? <==> !CanAccessLocation(u, FindDesk(desks, deskId).value.location))
              && (r.Failure? ==> r.error == Forbidden)
    ensures r.Success? ==>
              && r.value.waitingCount == |r.value.waitingQueue|
              && |r.value.completedToday| <= CompletedShown
              && r.value.waitingCount + (if r.value.currentServing.Some? then 1 else 0) <= r.value.totalToday
    ensures r.Success? ==>
              && r.value.desk == FindDesk(desks, deskId).value
              && r.value.currentServing == CurrentServing(deskId, ts, today)
              && r.value.waitingQueue == WaitingLine(deskId, ts, today)
              && r.value.completedToday == CompletedToday(deskId, ts, today)
              && r.value.totalToday == DeskTodayTotal(deskId, ts, today)
              && r.value.avgServiceTime == AverageServiceTime(deskId, ts, today)
              && r.value.waitingCount == DeskWaitingCount(deskId, ts, today)
              && (r.value.isAdmin <==> IsAdminRole(u))
  {
    match FindDesk(desks, deskId)
    case None => Failure(NotFound)
    case Some(desk) =>
      if LocationCheckDenies(u, desk.location) then Failure(Forbidden)
      else
        var line := WaitingLine(deskId, ts, today);
        var serving := CurrentServing(deskId, ts, today);
        WaitingLineOrder(deskId, ts, today);
        DeskCountersConsistent(deskId, ts, today);
        Success(DeskDetail(
          desk, serving, line, CompletedToday(deskId, ts, today),
          DeskTodayTotal(deskId, ts, today), AverageServiceTime(deskId, ts, today),
          |line|, IsAdminRole(u)))
  }

  // ---- The dashboard ----

  datatype Dashboard = Dashboard(
    locations: seq<Location>,
    isSuperadmin: bool,
    desks: seq<Desk>,
    todayTotal: nat,
    inProgress: nat,
    completed: nat,
    waiting: nat,
    isAdmin: bool)

  /**
   * `dashboard_view`: the user's accessible locations and visible desks, and
   * the day's counts for the user's own location (all zero without one).
   * Cancelled tickets appear only in the total.
   */
  function DashboardView(u: User, allLocations: seq<Location>, allDesks: seq<Desk>, ts: seq<TicketRecord>, today: int): (v: Dashboard)
    ensures forall l :: l in v.locations <==> l in allLocations && l.active && CanAccessLocation(u, l.id)
    ensures forall d :: d in v.desks <==> d in allDesks && CanAccessLocation(u, d.location)
    ensures u.location.None? ==> v.todayTotal == v.inProgress == v.completed == v.waiting == 0
    ensures u.location.Some? ==>
              v.todayTotal == v.waiting + v.inProgress + v.completed
                              + |Select(ts, AtLocation(u.location.value.id), today, Some(Cancelled))|
    ensures v.waiting + v.inProgress + v.completed <= v.todayTotal
    ensures u.location.Some? ==>
              var scope := AtLocation(u.location.value.id);
              && v.todayTotal == |Select(ts, scope, today, None)|
              && v.waiting == |Select(ts, scope, today, Some(Waiting))|
              && v.inProgress == |Select(ts, scope, today, Some(InProgress))|
              && v.completed == |Select(ts, scope, today, Some(Completed))|
    ensures v.isSuperadmin == u.isSuperuser && (v.isAdmin <==> IsAdminRole(u))
  {
    var locations := AccessibleLocations(u, allLocations);
    var desks := VisibleDesks(u, allDesks);
    if u.location.Some? then
      var scope := AtLocation(u.location.value.id);
      StatusPartition(ts, scope, today);
      Dashboard(locations, u.isSuperuser, desks,
                |Select(ts, scope, today, None)|, |Select(ts, scope, today, Some(InProgress))|,
                |Select(ts, scope, today, Some(Completed))|, |Select(ts, scope, today, Some(Waiting))|,
                IsAdminRole(u))
    else
      Dashboard(locations, u.isSuperuser, desks, 0, 0, 0, 0, IsAdminRole(u))
  }
}
