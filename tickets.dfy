/**
 * One walk-in ticket (a row of the queue table): its fields, the four
 * unguarded mutators, the two time metrics, and what sequences of mutations
 * can and cannot do to a ticket.
 */
module Tickets {
  import opened Common
  import opened Clock
  import opened Directory

  datatype Status = Waiting | InProgress | Completed | Cancelled

  /** A ticket as a value: every column of the row. */
  datatype TicketRecord = TicketRecord(
    id: nat,
    location: LocationId,
    desk: DeskId,
    queueNumber: string,
    customerName: string,
    customerPhone: string,
    serviceType: string,
    notes: string,
    isPriority: bool,
    status: Status,
    createdAt: Instant,
    calledAt: Option<Instant>,
    startedAt: Option<Instant>,
    completedAt: Option<Instant>,
    handledBy: Option<UserId>)

  // The four mutators, as functions on rows. None of them looks at the status.

  function AfterCall(r: TicketRecord, now: Instant): TicketRecord {
    r.(calledAt := Some(now))
  }

  function AfterStartServing(r: TicketRecord, server: UserId, now: Instant): TicketRecord {
    r.(status := InProgress, startedAt := Some(now), handledBy := Some(server))
  }

  function AfterComplete(r: TicketRecord, now: Instant): TicketRecord {
    r.(status := Completed, completedAt := Some(now))
  }

  function AfterCancel(r: TicketRecord): TicketRecord {
    r.(status := Cancelled)
  }

  /** `get_waiting_time`, in whole minutes. */
  function WaitingTime(r: TicketRecord, now: Instant): int {
    if r.startedAt.Some? then WholeMinutes(r.startedAt.value - r.createdAt)
    else if r.status == Waiting then WholeMinutes(now - r.createdAt)
    else 0
  }

  /** `get_service_time`, in whole minutes. */
  function ServiceTime(r: TicketRecord): int {
    if r.completedAt.Some? && r.startedAt.Some? then WholeMinutes(r.completedAt.value - r.startedAt.value)
    else 0
  }

  /** The waiting time counts the minutes elapsed until service started, or until now while still waiting. */
  lemma WaitingTimeSpec(r: TicketRecord, now: Instant)
    ensures var end := if r.startedAt.Some? then r.startedAt.value else now;
            var m := WaitingTime(r, now);
            (r.startedAt.Some? || r.status == Waiting) && r.createdAt <= end ==>
              m * 60 <= end - r.createdAt < m * 60 + 60
    ensures r.startedAt.None? && r.status != Waiting ==> WaitingTime(r, now) == 0
  {
  }

  /** The service time counts the minutes from start to completion, and is 0 unless both are recorded. */
  lemma ServiceTimeSpec(r: TicketRecord)
    ensures r.startedAt.None? || r.completedAt.None? ==> ServiceTime(r) == 0
    ensures r.startedAt.Some? && r.completedAt.Some? && r.startedAt.value <= r.completedAt.value ==>
              var m := ServiceTime(r);
              m * 60 <= r.completedAt.value - r.startedAt.value < m * 60 + 60
  {
  }

  /** Worked examples: 12 minutes to start, 5 minutes still waiting, 20 minutes of service. */
  lemma MetricExamples(r: TicketRecord)
    requires r.createdAt == 0
    ensures r.startedAt == Some(12 * 60) ==> WaitingTime(r, 0) == 12
    ensures r.startedAt.None? && r.status == Waiting ==> WaitingTime(r, 5 * 60) == 5
    ensures r.startedAt == Some(0) && r.completedAt == Some(20 * 60) ==> ServiceTime(r) == 20
    ensures r.completedAt.None? ==> ServiceTime(r) == 0
  {
  }

  // ---- Sequences of mutations ----

  /** One request a staff member can make against a ticket. */
  datatype Action = Call(at: Instant) | StartServing(server: UserId, at: Instant) | Complete(at: Instant) | Cancel

  function Apply(r: TicketRecord, a: Action): TicketRecord {
    match a
    case Call(t) => AfterCall(r, t)
    case StartServing(u, t) => AfterStartServing(r, u, t)
    case Complete(t) => AfterComplete(r, t)
    case Cancel => AfterCancel(r)
  }

  function ApplyAll(r: TicketRecord, acts: seq<Action>): TicketRecord
    decreases |acts|
  {
    if acts == [] then r else ApplyAll(Apply(r, acts[0]), acts[1..])
  }

  /** The fields no mutator writes: who the customer is, where, and when they arrived. */
  predicate SameEntry(a: TicketRecord, b: TicketRecord) {
    && a.id == b.id && a.location == b.location && a.desk == b.desk
    && a.queueNumber == b.queueNumber && a.customerName == b.customerName
    && a.customerPhone == b.customerPhone && a.serviceType == b.serviceType
    && a.notes == b.notes && a.isPriority == b.isPriority && a.createdAt == b.createdAt
  }

  lemma {:induction false} ActionsKeepEntry(r: TicketRecord, acts: seq<Action>)
    ensures SameEntry(r, ApplyAll(r, acts))
    decreases |acts|
  {
    if acts != [] {
      ActionsKeepEntry(Apply(r, acts[0]), acts[1..]);
    }
  }

  /** A ticket is still waiting after a run of requests exactly when it was waiting and was only called. */
  lemma {:induction false} WaitingOnlyWhileOnlyCalled(r: TicketRecord, acts: seq<Action>)
    ensures ApplyAll(r, acts).status == Waiting <==>
              r.status == Waiting && forall i :: 0 <= i < |acts| ==> acts[i].Call?
    decreases |acts|
  {
    if acts != [] {
      WaitingOnlyWhileOnlyCalled(Apply(r, acts[0]), acts[1..]);
      assert forall i :: 1 <= i < |acts| ==> acts[i] == acts[1..][i - 1];
    }
  }

  /** No request brings a ticket that has left the waiting state back to it. */
  lemma LeftWaitingForGood(r: TicketRecord, acts: seq<Action>)
    requires r.status != Waiting
    ensures ApplyAll(r, acts).status != Waiting
  {
    WaitingOnlyWhileOnlyCalled(r, acts);
  }

  /** `call_queue` runs `call` then `start_serving`, whatever the ticket's status was. */
  lemma CallQueueEffect(r: TicketRecord, server: UserId, now: Instant)
    ensures var c := ApplyAll(r, [Call(now), StartServing(server, now)]);
            && c.status == InProgress && c.calledAt == Some(now) && c.startedAt == Some(now)
            && c.handledBy == Some(server) && c.completedAt == r.completedAt && SameEntry(r, c)
  {
    var acts := [Call(now), StartServing(server, now)];
    assert acts[1..] == [StartServing(server, now)];
    assert ApplyAll(r, acts) == ApplyAll(AfterCall(r, now), acts[1..]);
    assert ApplyAll(AfterCall(r, now), acts[1..]) == AfterStartServing(AfterCall(r, now), server, now);
  }

  /** Because nothing is guarded, calling a completed or cancelled ticket reopens it, keeping its old completion time. */
  lemma CallReopensFinished(r: TicketRecord, server: UserId, now: Instant)
    requires r.status == Completed || r.status == Cancelled
    ensures var c := AfterStartServing(AfterCall(r, now), server, now);
            c.status == InProgress && c.completedAt == r.completedAt
  {
  }

  // ---- The chronology invariant ----

  /** The instant a request is made; cancelling records none, so it leaves the clock where it was. */
  function TimeOf(a: Action, clock: Instant): Instant {
    match a
    case Call(t) => t
    case StartServing(_, t) => t
    case Complete(t) => t
    case Cancel => clock
  }

  /** The requests arrive in clock order, none before `clock`. */
  predicate InOrder(acts: seq<Action>, clock: Instant)
    decreases |acts|
  {
    acts == [] || (clock <= TimeOf(acts[0], clock) && InOrder(acts[1..], TimeOf(acts[0], clock)))
  }

  /** The clock after a run of requests. */
  function ClockAfter(acts: seq<Action>, clock: Instant): Instant
    decreases |acts|
  {
    if acts == [] then clock else ClockAfter(acts[1..], TimeOf(acts[0], clock))
  }

  predicate Within(t: Option<Instant>, lo: Instant, hi: Instant) {
    t.None? || lo <= t.value <= hi
  }

  /**
   * What a ticket looks like at `clock` when the clock never runs backwards:
   * every recorded instant lies between arrival and now, a ticket in service
   * has a start and a server, and a completed ticket finished after it started.
   */
  predicate Chronological(r: TicketRecord, clock: Instant) {
    && r.createdAt <= clock
    && Within(r.calledAt, r.createdAt, clock)
    && Within(r.startedAt, r.createdAt, clock)
    && Within(r.completedAt, r.createdAt, clock)
    && (r.status == InProgress ==> r.startedAt.Some? && r.handledBy.Some?)
    && (r.status == Completed ==> r.completedAt.Some? && (r.startedAt.Some? ==> r.startedAt.value <= r.completedAt.value))
  }

  lemma ApplyKeepsChronology(r: TicketRecord, a: Action, clock: Instant)
    requires Chronological(r, clock) && clock <= TimeOf(a, clock)
    ensures Chronological(Apply(r, a), TimeOf(a, clock))
  {
  }

  /** Requests made in clock order keep a ticket chronological. */
  lemma {:induction false} ApplyAllKeepsChronology(r: TicketRecord, acts: seq<Action>, clock: Instant)
    requires Chronological(r, clock) && InOrder(acts, clock)
    ensures Chronological(ApplyAll(r, acts), ClockAfter(acts, clock))
    decreases |acts|
  {
    if acts != [] {
      ApplyKeepsChronology(r, acts[0], clock);
      ApplyAllKeepsChronology(Apply(r, acts[0]), acts[1..], TimeOf(acts[0], clock));
    }
  }

  /** On a chronological ticket neither metric is negative. */
  lemma MetricsNonNegative(r: TicketRecord, clock: Instant, now: Instant)
    requires Chronological(r, clock) && clock <= now
    ensures WaitingTime(r, now) >= 0
    ensures r.status == Completed ==> ServiceTime(r) >= 0
    ensures r.status == Completed && r.startedAt.Some? ==>
              ServiceTime(r) == (r.completedAt.value - r.startedAt.value) / 60
  {
  }

  /** A waiting ticket called at `s` and completed at `c` waited and was served the expected minutes. */
  lemma ServedTicketMetrics(r: TicketRecord, server: UserId, s: Instant, c: Instant, now: Instant)
    requires r.status == Waiting && r.startedAt.None? && r.createdAt <= s <= c
    ensures var done := ApplyAll(r, [Call(s), StartServing(server, s), Complete(c)]);
            && done.status == Completed
            && WaitingTime(done, now) == (s - r.createdAt) / 60
            && ServiceTime(done) == (c - s) / 60
  {
    var acts := [Call(s), StartServing(server, s), Complete(c)];
    var called := AfterCall(r, s);
    var started := AfterStartServing(called, server, s);
    assert acts[1..] == [StartServing(server, s), Complete(c)];
    assert acts[1..][1..] == [Complete(c)];
    assert ApplyAll(r, acts) == ApplyAll(called, acts[1..]);
    assert ApplyAll(called, acts[1..]) == ApplyAll(started, acts[1..][1..]);
    assert ApplyAll(started, acts[1..][1..]) == AfterComplete(started, c);
  }

  // ---- A guarded refinement ----

  /** The refusal a guarded state machine gives for a request that does not fit the status. */
  datatype Conflict = StateConflict

  /** Which requests the lifecycle allows from each status (the source checks none of them). */
  predicate Permitted(s: Status, a: Action) {
    match a
    case Call(_) => s == Waiting
    case StartServing(_, _) => s == Waiting
    case Complete(_) => s == InProgress
    case Cancel => s == Waiting || s == InProgress
  }

  /** The guarded mutator: a permitted request behaves like the source's, any other is refused. */
  function GuardedApply(r: TicketRecord, a: Action): (res: Result<TicketRecord, Conflict>)
    ensures res.Success? <==> Permitted(r.status, a)
    ensures res.Success? ==> res.value == Apply(r, a)
  {
    if Permitted(r.status, a) then Success(Apply(r, a)) else Failure(StateConflict)
  }

  /** A run of requests under the guard; a refused request leaves the ticket as it was. */
  function GuardedRun(r: TicketRecord, acts: seq<Action>): TicketRecord
    decreases |acts|
  {
    if acts == [] then r
    else
      match GuardedApply(r, acts[0])
      case Success(next) => GuardedRun(next, acts[1..])
      case Failure(_) => GuardedRun(r, acts[1..])
  }

  /** How far along the lifecycle a status is; both finishing states are final. */
  function Rank(s: Status): nat {
    match s
    case Waiting => 0
    case InProgress => 1
    case Completed => 2
    case Cancelled => 2
  }

  predicate Finished(s: Status) {
    s == Completed || s == Cancelled
  }

  /** Under the guard the status only moves forward. */
  lemma {:induction false} GuardedRunMovesForward(r: TicketRecord, acts: seq<Action>)
    ensures Rank(GuardedRun(r, acts).status) >= Rank(r.status)
    ensures Finished(r.status) ==> GuardedRun(r, acts) == r
    decreases |acts|
  {
    if acts != [] {
      match GuardedApply(r, acts[0])
      case Success(next) =>
        GuardedRunMovesForward(next, acts[1..]);
      case Failure(_) =>
        GuardedRunMovesForward(r, acts[1..]);
    }
  }

  /** A run in which every request is permitted. */
  predicate LegalRun(r: TicketRecord, acts: seq<Action>)
    decreases |acts|
  {
    acts == [] || (Permitted(r.status, acts[0]) && LegalRun(Apply(r, acts[0]), acts[1..]))
  }

  /** On legal runs the guarded and the unguarded machines agree. */
  lemma {:induction false} GuardedAgreesOnLegalRuns(r: TicketRecord, acts: seq<Action>)
    requires LegalRun(r, acts)
    ensures GuardedRun(r, acts) == ApplyAll(r, acts)
    decreases |acts|
  {
    if acts != [] {
      GuardedAgreesOnLegalRuns(Apply(r, acts[0]), acts[1..]);
    }
  }

  // ---- The ticket object ----

  /** A ticket row as a mutable object: the mutators overwrite its fields in place. */
  class Ticket {
    const id: nat
    var location: LocationId
    var desk: DeskId
    var queueNumber: string
    var customerName: string
    var customerPhone: string
    var serviceType: string
    var notes: string
    var isPriority: bool
    var status: Status
    var createdAt: Instant
    var calledAt: Option<Instant>
    var startedAt: Option<Instant>
    var completedAt: Option<Instant>
    var handledBy: Option<UserId>

    /** The row this object currently holds. */
    function View(): TicketRecord
      reads this
    {
      TicketRecord(id, location, desk, queueNumber, customerName, customerPhone, serviceType, notes,
                   isPriority, status, createdAt, calledAt, startedAt, completedAt, handledBy)
    }

    constructor (r: TicketRecord)
      ensures View() == r
    {
      id := r.id;
      location := r.location;
      desk := r.desk;
      queueNumber := r.queueNumber;
      customerName := r.customerName;
      customerPhone := r.customerPhone;
      serviceType := r.serviceType;
      notes := r.notes;
      isPriority := r.isPriority;
      status := r.status;
      createdAt := r.createdAt;
      calledAt := r.calledAt;
      startedAt := r.startedAt;
      completedAt := r.completedAt;
      handledBy := r.handledBy;
    }

    /** `call`: records when the customer was called, nothing else. */
    method Call(now: Instant)
      modifies this
      ensures View() == AfterCall(old(View()), now)
    {
      calledAt := Some(now);
    }

    /** `start_serving`: in service from now, by `server`, whatever the status was. */
    method StartServing(server: UserId, now: Instant)
      modifies this
      ensures View() == AfterStartServing(old(View()), server, now)
    {
      status := InProgress;
      startedAt := Some(now);
      handledBy := Some(server);
    }

    /** `complete`: completed now, whatever the status was. */
    method Complete(now: Instant)
      modifies this
      ensures View() == AfterComplete(old(View()), now)
    {
      status := Completed;
      completedAt := Some(now);
    }

    /** `cancel`: cancelled; no timestamp is touched. */
    method Cancel()
      modifies this
      ensures View() == AfterCancel(old(View()))
    {
      status := Cancelled;
    }
  }
}
