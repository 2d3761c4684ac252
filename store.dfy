/**
 * The ticket table of the service desks and the four views that write to it:
 * adding a customer to a desk's queue, and calling, completing or cancelling
 * a ticket. Each view checks the actor before it touches anything.
 */
module Store {
  import opened Common
  import opened Clock
  import opened Directory
  import opened Tickets
  import opened Numbering
  import opened QueueViews

  /** The add-to-queue form; an optional field that was not sent is None. */
  datatype IntakeForm = IntakeForm(
    customerName: string,
    customerPhone: Option<string>,
    serviceType: string,
    notes: Option<string>,
    isPriority: Option<string>)

  /** `POST.get(field, '')`. */
  function OrEmpty(s: Option<string>): string {
    match s
    case Some(v) => v
    case None => ""
  }

  /**
   * The row `add_to_queue` creates for `desk` at `now`, numbered after the
   * desk's tickets of `today` already in `rs`.
   */
  function Intake(id: nat, desk: Desk, form: IntakeForm, rs: seq<TicketRecord>, now: Instant, today: int): TicketRecord {
    TicketRecord(
      id, desk.location, desk.id,
      QueueNumber(desk.deskNumber, |Select(rs, AtDesk(desk.id), today, None)|),
      form.customerName, OrEmpty(form.customerPhone), form.serviceType, OrEmpty(form.notes),
      form.isPriority == Some("on"),
      Waiting, now, None, None, None, None)
  }

  /** A new ticket waits at its desk's location, untouched by staff, and starts a chronological history. */
  lemma IntakeStartsWaiting(id: nat, desk: Desk, form: IntakeForm, rs: seq<TicketRecord>, now: Instant, today: int)
    ensures var t := Intake(id, desk, form, rs, now, today);
            && t.status == Waiting && t.location == desk.location && t.desk == desk.id
            && (t.isPriority <==> form.isPriority == Some("on"))
            && t.calledAt.None? && t.startedAt.None? && t.completedAt.None? && t.handledBy.None?
            && Chronological(t, now)
  {
  }

  /** Adding a ticket on the day it is counted for raises the desk's count by one and puts it in the waiting line. */
  lemma IntakeCountsUp(id: nat, desk: Desk, form: IntakeForm, rs: seq<TicketRecord>, now: Instant, today: int)
    requires DayOf(now) == today
    ensures var t := Intake(id, desk, form, rs, now, today);
            && DeskTodayTotal(desk.id, rs + [t], today) == DeskTodayTotal(desk.id, rs, today) + 1
            && t in WaitingLine(desk.id, rs + [t], today)
  {
    var t := Intake(id, desk, form, rs, now, today);
    SelectAppend(rs, [t], AtDesk(desk.id), today, None);
    assert Select([t], AtDesk(desk.id), today, None) == [t];
    WaitingLineOrder(desk.id, rs + [t], today);
  }

  /**
   * Under one-at-a-time creation, a ticket created later the same day at the
   * same desk never repeats the number of an earlier one, whatever was
   * created in between.
   */
  lemma LaterIntakeDiffers(desk: Desk, rs: seq<TicketRecord>, extra: seq<TicketRecord>,
                           id1: nat, f1: IntakeForm, t1: Instant, id2: nat, f2: IntakeForm, t2: Instant, today: int)
    requires DayOf(t1) == today
    ensures var first := Intake(id1, desk, f1, rs, t1, today);
            var second := Intake(id2, desk, f2, rs + [first] + extra, t2, today);
            first.queueNumber != second.queueNumber
  {
    var first := Intake(id1, desk, f1, rs, t1, today);
    var scope := AtDesk(desk.id);
    IntakeCountsUp(id1, desk, f1, rs, t1, today);
    SelectAppend(rs + [first], extra, scope, today, None);
    var c1 := |Select(rs, scope, today, None)|;
    var c2 := |Select(rs + [first] + extra, scope, today, None)|;
    assert c2 > c1;
    if QueueNumber(desk.deskNumber, c1) == QueueNumber(desk.deskNumber, c2) {
      QueueNumberInjective(desk.deskNumber, c1, c2);
    }
  }

  /**
   * The checks that `call_queue`, `complete_queue` and `cancel_queue` make, in
   * order: the admin role, that the ticket exists, that its location is the actor's.
   */
  function Gate(actor: User, rs: seq<TicketRecord>, id: nat): (g: Option<Rejection>)
    ensures g.None? <==> IsAdminRole(actor) && 1 <= id <= |rs| && CanAccessLocation(actor, rs[id - 1].location)
    ensures g == Some(NotAdmin) <==> !IsAdminRole(actor)
    ensures g == Some(NotFound) <==> IsAdminRole(actor) && !(1 <= id <= |rs|)
  {
    if !IsAdminRole(actor) then Some(NotAdmin)
    else if !(1 <= id <= |rs|) then Some(NotFound)
    else if LocationCheckDenies(actor, rs[id - 1].location) then Some(Forbidden)
    else None
  }

  /** The ticket table: tickets in creation order, the n-th with identity n. */
  class QueueStore {
    var tickets: seq<Ticket>

    ghost predicate Valid()
      reads this
    {
      forall i :: 0 <= i < |tickets| ==> tickets[i].id == i + 1
    }

    /** The rows of the table. */
    function Records(): (rs: seq<TicketRecord>)
      reads this, tickets
      ensures |rs| == |tickets|
      ensures forall i :: 0 <= i < |tickets| ==> rs[i] == tickets[i].View()
    {
      var ts := tickets;
      seq(|ts|, i requires 0 <= i < |ts| reads ts => ts[i].View())
    }

    constructor ()
      ensures Valid() && tickets == []
    {
      tickets := [];
    }

    /**
     * `add_to_queue`: an admin of the desk's location (or a superuser) adds a
     * customer; the new ticket is numbered from the desk's tickets of `today`
     * and appended, and nothing else changes.
     */
    method AddToQueue(actor: User, desks: seq<Desk>, deskId: DeskId, form: IntakeForm, now: Instant, today: int)
      returns (r: Result<Ticket, Rejection>)
      requires Valid()
      modifies this
      ensures Valid()
      ensures !IsAdminRole(actor) ==> r == Failure(NotAdmin)
      ensures IsAdminRole(actor) && FindDesk(desks, deskId).None? ==> r == Failure(NotFound)
      ensures IsAdminRole(actor) && FindDesk(desks, deskId).Some? ==>
                (r.Failure? <==> !CanAccessLocation(actor, FindDesk(desks, deskId).value.location))
                && (r.Failure? ==> r.error == Forbidden)
      ensures r.Failure? ==> tickets == old(tickets) && Records() == old(Records())
      ensures r.Success? ==>
                && FindDesk(desks, deskId).Some?
                && fresh(r.value)
                && tickets == old(tickets) + [r.value]
                && Records() == old(Records()) + [Intake(|old(tickets)| + 1, FindDesk(desks, deskId).value, form, old(Records()), now, today)]
    {
      if !IsAdminRole(actor) {
        return Failure(NotAdmin);
      }
      var found := FindDesk(desks, deskId);
      if found.None? {
        return Failure(NotFound);
      }
      var desk := found.value;
      if LocationCheckDenies(actor, desk.location) {
        return Failure(Forbidden);
      }
      var rs := Records();
      var t := new Ticket(Intake(|tickets| + 1, desk, form, rs, now, today));
      tickets := tickets + [t];
      r := Success(t);
    }

    /**
     * `call_queue`: after the checks, the ticket is called and put in service
     * by the actor, both at `now`, whatever its status was; no other ticket changes.
     */
    method CallQueue(actor: User, id: nat, now: Instant) returns (r: Result<TicketRecord, Rejection>)
      requires Valid()
      modifies set t | t in tickets
      ensures tickets == old(tickets) && Valid()
      ensures var g := Gate(actor, old(Records()), id);
              if g.Some? then r == Failure(g.value) && Records() == old(Records())
              else r == Success(AfterStartServing(AfterCall(old(Records())[id - 1], now), actor.id, now))
                   && Records() == old(Records())[id - 1 := r.value]
    {
      var g := Gate(actor, Records(), id);
      if g.Some? {
        return Failure(g.value);
      }
      var t := tickets[id - 1];
      t.Call(now);
      t.StartServing(actor.id, now);
      r := Success(t.View());
      OthersUnchanged(id - 1);
    }

    /** `complete_queue`: after the checks, the ticket is completed at `now`, whatever its status was. */
    method CompleteQueue(actor: User, id: nat, now: Instant) returns (r: Result<TicketRecord, Rejection>)
      requires Valid()
      modifies set t | t in tickets
      ensures tickets == old(tickets) && Valid()
      ensures var g := Gate(actor, old(Records()), id);
              if g.Some? then r == Failure(g.value) && Records() == old(Records())
              else r == Success(AfterComplete(old(Records())[id - 1], now))
                   && Records() == old(Records())[id - 1 := r.value]
    {
      var g := Gate(actor, Records(), id);
      if g.Some? {
        return Failure(g.value);
      }
      var t := tickets[id - 1];
      t.Complete(now);
      r := Success(t.View());
      OthersUnchanged(id - 1);
    }

    /** `cancel_queue`: after the checks, the ticket is cancelled; its timestamps stay as they were. */
    method CancelQueue(actor: User, id: nat) returns (r: Result<TicketRecord, Rejection>)
      requires Valid()
      modifies set t | t in tickets
      ensures tickets == old(tickets) && Valid()
      ensures var g := Gate(actor, old(Records()), id);
              if g.Some? then r == Failure(g.value) && Records() == old(Records())
              else r == Success(AfterCancel(old(Records())[id - 1]))
                   && Records() == old(Records())[id - 1 := r.value]
    {
      var g := Gate(actor, Records(), id);
      if g.Some? {
        return Failure(g.value);
      }
      var t := tickets[id - 1];
      t.Cancel();
      r := Success(t.View());
      OthersUnchanged(id - 1);
    }

    /** Only the ticket at index `k` may have changed since the method began. */
    twostate lemma OthersUnchanged(k: nat)
      requires old(Valid()) && k < |old(tickets)| && tickets == old(tickets)
      requires forall j :: 0 <= j < |tickets| && j != k ==> unchanged(tickets[j])
      ensures Records() == old(Records())[k := tickets[k].View()]
    {
    }
  }
}
