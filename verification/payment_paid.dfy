/**
 The last approval tells finance that a payment is paid: the event goes out
 with the row, and never before the authorization.
 */
module PaymentPaid {
  import opened PaymentFigures
  import opened PaymentProtocol
  import opened Workflow
  import opened Wrappers
  import Outbox

  type System = PaymentProtocol.System
  type Step = PaymentProtocol.Step

  ghost predicate PaidSent(o: Outbox.State<Event>, id: Id) {
    exists k :: 0 <= k < |o.rows| && o.rows[k].event.PaidOut? && o.rows[k].event.payment == id
  }

  ghost predicate Holds(events: seq<Event>) {
    exists k :: 0 <= k < |events| && events[k].PaidOut?
  }

  /** A transaction that finishes a payment owes the paid event; no other does. */
  ghost predicate TxPays(s: System, t: Handler)
    requires t.InTx?
  {
    && (t.stored.chain.stage >= 4 ==> PaidSent(s.outbox, t.id) || Holds(t.pending) || Holds(t.staged))
    && (Holds(t.pending) || Holds(t.staged) ==> t.stored.chain.stage >= 4)
  }

  ghost predicate RowPaid(s: System, id: Id)
    requires id in s.payments
  {
    s.payments[id].chain.stage >= 4 ==> PaidSent(s.outbox, id)
  }

  ghost predicate AfterAuthorization(s: System, e: Event) {
    e.PaidOut? ==> Announced(s.outbox, e.payment)
  }

  ghost predicate PaidSafe(s: System) {
    && (forall id :: id in s.payments ==> RowPaid(s, id))
    && (forall h :: h in s.handlers && s.handlers[h].InTx? ==> TxPays(s, s.handlers[h]))
    && (forall k :: 0 <= k < |s.outbox.rows| ==> AfterAuthorization(s, s.outbox.rows[k].event))
  }

  lemma EventsStay(s: System, s': System, id: Id)
    requires |s.outbox.rows| <= |s'.outbox.rows|
    requires forall k :: 0 <= k < |s.outbox.rows| ==> s'.outbox.rows[k].event == s.outbox.rows[k].event
    ensures PaidSent(s.outbox, id) ==> PaidSent(s'.outbox, id)
    ensures Announced(s.outbox, id) ==> Announced(s'.outbox, id)
  {
    if PaidSent(s.outbox, id) {
      var k :| 0 <= k < |s.outbox.rows| && s.outbox.rows[k].event.PaidOut? && s.outbox.rows[k].event.payment == id;
      assert s'.outbox.rows[k].event == s.outbox.rows[k].event;
    }
    if Announced(s.outbox, id) {
      var k :| 0 <= k < |s.outbox.rows| && s.outbox.rows[k].event.Authorized? && s.outbox.rows[k].event.payment == id;
      assert s'.outbox.rows[k].event == s.outbox.rows[k].event;
    }
  }

  /** The events are those there were, and rows and transactions move no further. */
  lemma StillPaid(s: System, s': System)
    requires PaidSafe(s) && |s'.outbox.rows| == |s.outbox.rows|
    requires forall k :: 0 <= k < |s.outbox.rows| ==> s'.outbox.rows[k].event == s.outbox.rows[k].event
    requires forall id :: id in s'.payments && s'.payments[id].chain.stage >= 4 ==>
      id in s.payments && s.payments[id].chain == s'.payments[id].chain
    requires forall g :: g in s'.handlers && s'.handlers[g].InTx? ==>
      (g in s.handlers && s'.handlers[g] == s.handlers[g]) || TxPays(s', s'.handlers[g])
    ensures PaidSafe(s')
  {
    forall id | id in s'.payments ensures RowPaid(s', id) {
      assert s'.payments[id].chain.stage >= 4 ==> RowPaid(s, id);
      EventsStay(s, s', id);
    }
    forall g | g in s'.handlers && s'.handlers[g].InTx? ensures TxPays(s', s'.handlers[g]) {
      if g in s.handlers && s'.handlers[g] == s.handlers[g] {
        assert TxPays(s, s.handlers[g]);
        EventsStay(s, s', s.handlers[g].id);
      }
    }
    forall k | 0 <= k < |s'.outbox.rows| ensures AfterAuthorization(s', s'.outbox.rows[k].event) {
      assert AfterAuthorization(s, s.outbox.rows[k].event);
      EventsStay(s, s', s.outbox.rows[k].event.payment);
    }
  }

  lemma UpdatePays(s: System, h: nat, actor: string, date: string)
    ensures var s' := Apply(s, Update(h, actor, date));
      forall g :: g in s'.handlers && s'.handlers[g].InTx? ==>
        (g in s.handlers && s'.handlers[g] == s.handlers[g]) || TxPays(s', s'.handlers[g])
  {
    var s' := Apply(s, Update(h, actor, date));
    if h in s'.handlers && s'.handlers[h].InTx? && !(h in s.handlers && s'.handlers[h] == s.handlers[h]) {
      var t := s'.handlers[h];
      if t.stored.chain.stage >= 4 {
        assert t.pending[|t.pending| - 1].PaidOut?;
      }
    }
  }

  lemma PublishPays(s: System, h: nat)
    requires PaidSafe(s)
    ensures var s' := Apply(s, Publish(h));
      forall g :: g in s'.handlers && s'.handlers[g].InTx? ==> TxPays(s', s'.handlers[g])
  {
    var s' := Apply(s, Publish(h));
    forall g | g in s'.handlers && s'.handlers[g].InTx? ensures TxPays(s', s'.handlers[g]) {
      var t, t' := s.handlers[g], s'.handlers[g];
      assert TxPays(s, t);
      if t' != t {
        MovesOn(t.pending, t.staged);
      }
    }
  }

  /** Moving the first line over neither adds nor drops a paid event. */
  lemma MovesOn(pending: seq<Event>, staged: seq<Event>)
    requires pending != []
    ensures Holds(pending) || Holds(staged) <==> Holds(pending[1..]) || Holds(staged + [pending[0]])
  {
    var longer := staged + [pending[0]];
    assert longer[|staged|] == pending[0];
    if Holds(pending) {
      var k :| 0 <= k < |pending| && pending[k].PaidOut?;
      assert k > 0 ==> pending[1..][k - 1] == pending[k];
    }
    if Holds(staged) {
      var k :| 0 <= k < |staged| && staged[k].PaidOut?;
      assert longer[k] == staged[k];
    }
  }

  lemma CommitPaid(s: System, s': System, h: nat)
    requires Safe(s) && InFlightTrue(s) && PaidSafe(s) && Commits(s, s', h) && s.handlers[h].pending == []
    requires Safe(s')
    ensures PaidSafe(s')
  {
    var t := s.handlers[h];
    assert TxPays(s, t) && TxTrue(s, t);
    forall id ensures PaidSent(s.outbox, id) ==> PaidSent(s'.outbox, id) { EventsStay(s, s', id); }
    if t.stored.chain.stage >= 4 && !PaidSent(s.outbox, t.id) {
      var k :| 0 <= k < |t.staged| && t.staged[k].PaidOut?;
      assert Speaks(t, t.staged[k]) && s'.outbox.rows[|s.outbox.rows| + k].event == t.staged[k];
    }
    forall id | id in s'.payments ensures RowPaid(s', id) {
      if id != t.id {
        assert RowPaid(s, id);
      }
    }
    forall g | g in s'.handlers && s'.handlers[g].InTx? ensures TxPays(s', s'.handlers[g]) {
      assert TxPays(s, s.handlers[g]);
    }
    forall k | 0 <= k < |s'.outbox.rows| ensures AfterAuthorization(s', s'.outbox.rows[k].event) {
      if k < |s.outbox.rows| {
        assert AfterAuthorization(s, s.outbox.rows[k].event);
        EventsStay(s, s', s.outbox.rows[k].event.payment);
      } else {
        assert Speaks(t, t.staged[k - |s.outbox.rows|]) && RowSafe(s', t.id);
      }
    }
  }

  lemma UpdatePaid(s: System, h: nat, actor: string, date: string)
    requires Safe(s) && PaidSafe(s)
    ensures PaidSafe(Apply(s, Update(h, actor, date)))
  {
    QuietStep(s, Update(h, actor, date));
    UpdatePays(s, h, actor, date);
    StillPaid(s, Apply(s, Update(h, actor, date)));
  }

  lemma PublishPaid(s: System, h: nat)
    requires Safe(s) && PaidSafe(s)
    ensures PaidSafe(Apply(s, Publish(h)))
  {
    QuietStep(s, Publish(h));
    PublishPays(s, h);
    StillPaid(s, Apply(s, Publish(h)));
  }

  lemma ApplyPaid(s: System, step: Step)
    requires Safe(s) && InFlightTrue(s) && PaidSafe(s)
    ensures PaidSafe(Apply(s, step))
  {
    var s' := Apply(s, step);
    match step {
      case Commit(h) =>
        if s' != s {
          CommitEffect(s, h);
          ApplySafe(s, step);
          CommitPaid(s, s', h);
        }
      case WritePatch(h, amount, retention) =>
        PatchWrites(s, h, amount, retention);
        StillPaid(s, s');
      case Create(_, _, _, _, _) => StillPaid(s, s');
      case Delete(_) => StillPaid(s, s');
      case Update(h, actor, date) => UpdatePaid(s, h, actor, date);
      case Publish(h) => PublishPaid(s, h);
      case _ =>
        QuietStep(s, step);
        StillPaid(s, s');
    }
  }

  lemma {:induction false} RunPaid(s: System, steps: seq<Step>)
    requires Safe(s) && InFlightTrue(s) && PaidSafe(s)
    ensures PaidSafe(Run(s, steps))
    decreases |steps|
  {
    if steps != [] {
      ApplyPaid(s, steps[0]);
      ApplySafe(s, steps[0]);
      ApplyTrue(s, steps[0]);
      RunPaid(Apply(s, steps[0]), steps[1..]);
    }
  }

  /**
   Under any interleaving, rollback, crash and deletion: a payment at its last
   stage has a paid event in the outbox; every paid event carries the payable
   of figures some approver of that payment signed; and the payment was
   announced as authorized before.
   */
  lemma PaymentReachesFinance(now: int, steps: seq<Step>)
    ensures var s := Run(Initial(now), steps);
      && (forall id :: id in s.payments && s.payments[id].chain.stage >= 4 ==> PaidSent(s.outbox, id))
      && (forall k :: 0 <= k < |s.outbox.rows| && s.outbox.rows[k].event.PaidOut? ==>
        var e := s.outbox.rows[k].event;
        && Announced(s.outbox, e.payment)
        && exists f <- Signatures(s, e.payment) :: Consistent(f) && e.payable == f.payable)
  {
    RunPaid(Initial(now), steps);
    AuthorizationReachesFinance(now, steps);
    var s := Run(Initial(now), steps);
    assert forall id :: id in s.payments ==> RowPaid(s, id);
    assert forall k :: 0 <= k < |s.outbox.rows| ==> AfterAuthorization(s, s.outbox.rows[k].event);
  }

  /** When no correction lands late, what is paid is the stored row's own payable. */
  lemma PaidAtTheStoredPayable(now: int, steps: seq<Step>)
    requires PatchesInTime(Initial(now), steps)
    ensures var s := Run(Initial(now), steps);
      && (forall id :: id in s.payments && s.payments[id].chain.stage >= 4 ==>
        exists k :: 0 <= k < |s.outbox.rows| && s.outbox.rows[k].event == PaidOut(id, s.payments[id].figures.payable))
      && (forall k :: 0 <= k < |s.outbox.rows| && s.outbox.rows[k].event.PaidOut? ==>
        var e := s.outbox.rows[k].event;
        e.payment in s.payments ==> e.payable == s.payments[e.payment].figures.payable)
  {
    RunPaid(Initial(now), steps);
    SignedIsAuthorized(now, steps);
    var s := Run(Initial(now), steps);
    forall k | 0 <= k < |s.outbox.rows| && s.outbox.rows[k].event.PaidOut?
      ensures var e := s.outbox.rows[k].event;
        e.payment in s.payments ==> e.payable == s.payments[e.payment].figures.payable
    {
      assert SentFor(s, s.outbox.rows[k].event);
    }
    forall id | id in s.payments && s.payments[id].chain.stage >= 4
      ensures exists k :: 0 <= k < |s.outbox.rows|
                          && s.outbox.rows[k].event == PaidOut(id, s.payments[id].figures.payable)
    {
      assert RowPaid(s, id);
      var k :| 0 <= k < |s.outbox.rows| && s.outbox.rows[k].event.PaidOut? && s.outbox.rows[k].event.payment == id;
      assert SentFor(s, s.outbox.rows[k].event);
    }
  }
}
