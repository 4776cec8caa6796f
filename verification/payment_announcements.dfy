/**
 Whether the announcements in the outbox still state what the payments state:
 exactly which correction breaks it, for one write and for whole runs.
 */
module PaymentAnnouncements {
  import ApprovalChain
  import opened GovernanceChains
  import opened PaymentFigures
  import opened PaymentPaid
  import opened PaymentProtocol
  import opened Workflow
  import opened Wrappers
  import Outbox

  type System = PaymentProtocol.System
  type Step = PaymentProtocol.Step

  /** Every authorization in the outbox states the figures its payment now has, every paid event its payable. */
  ghost predicate Sent(s: System) {
    forall k :: 0 <= k < |s.outbox.rows| ==> SentFor(s, s.outbox.rows[k].event)
  }

  ghost predicate AnnouncedAs(s: System, id: Id, f: Figures) {
    exists k :: 0 <= k < |s.outbox.rows| && s.outbox.rows[k].event == Authorized(id, f)
  }

  /** Every payment past authorization has an event with its own figures. */
  ghost predicate Carried(s: System) {
    forall id :: id in s.payments && s.payments[id].chain.stage >= 3 ==> AnnouncedAs(s, id, s.payments[id].figures)
  }

  lemma SentIsCarried(s: System)
    requires Safe(s) && Sent(s)
    ensures Carried(s)
  {
    forall id | id in s.payments && s.payments[id].chain.stage >= 3 ensures AnnouncedAs(s, id, s.payments[id].figures) {
      assert RowSafe(s, id);
      var k :| 0 <= k < |s.outbox.rows| && s.outbox.rows[k].event.Authorized? && s.outbox.rows[k].event.payment == id;
      assert SentFor(s, s.outbox.rows[k].event);
    }
  }

  // ----- One correction -----

  /** A correction's write that would go through: its handler waits, its row is there and free. */
  predicate Lands(s: System, h: nat) {
    h in s.handlers && s.handlers[h].Patching? && s.handlers[h].id in s.payments && !Locked(s, s.handlers[h].id)
  }

  /** The figures it would write, computed from the row as it was read. */
  function Correction(s: System, h: nat, amount: Option<int>, retention: Option<int>): Option<Figures>
    requires Lands(s, h)
  {
    Patched(s.handlers[h].row.figures, amount, retention)
  }

  /** Something in the outbox states figures of this payment that f would contradict. */
  ghost predicate Contradicts(s: System, id: Id, f: Figures)
    requires id in s.payments
  {
    && f != s.payments[id].figures
    && (Announced(s.outbox, id) || (PaidSent(s.outbox, id) && f.payable != s.payments[id].figures.payable))
  }

  /** A write keeps every event true exactly when it is refused or contradicts none. */
  lemma PatchSentExactly(s: System, h: nat, amount: Option<int>, retention: Option<int>)
    requires Sent(s) && Lands(s, h)
    ensures var id, f := s.handlers[h].id, Correction(s, h, amount, retention);
      Sent(Apply(s, WritePatch(h, amount, retention))) <==> f.None? || !Contradicts(s, id, f.value)
  {
    var s' := Apply(s, WritePatch(h, amount, retention));
    var id, f := s.handlers[h].id, Correction(s, h, amount, retention);
    if f.None? || !Contradicts(s, id, f.value) {
      forall k | 0 <= k < |s'.outbox.rows| ensures SentFor(s', s'.outbox.rows[k].event) {
        var e := s.outbox.rows[k].event;
        assert SentFor(s, e);
        assert e.payment == id ==> if e.Authorized? then Announced(s.outbox, id) else PaidSent(s.outbox, id);
      }
    } else {
      var k :| 0 <= k < |s.outbox.rows| && s.outbox.rows[k].event.payment == id
               && (s.outbox.rows[k].event.Authorized? || f.value.payable != s.payments[id].figures.payable);
      assert SentFor(s, s.outbox.rows[k].event) && s'.outbox.rows[k].event == s.outbox.rows[k].event;
      assert !SentFor(s', s'.outbox.rows[k].event);
    }
  }

  /** On runs, only the authorization matters: nothing is announced as paid before it. */
  lemma ContradictsAnnounced(s: System, id: Id, f: Figures)
    requires PaidSafe(s) && id in s.payments
    ensures Contradicts(s, id, f) <==> f != s.payments[id].figures && Announced(s.outbox, id)
  {
    if PaidSent(s.outbox, id) {
      var k :| 0 <= k < |s.outbox.rows| && s.outbox.rows[k].event.PaidOut? && s.outbox.rows[k].event.payment == id;
      assert AfterAuthorization(s, s.outbox.rows[k].event);
    }
  }

  /**
   It leaves every authorized payment with an event of its own exactly when also early, or
   announced with these figures.
   */
  lemma PatchCarriedExactly(s: System, h: nat, amount: Option<int>, retention: Option<int>)
    requires Carried(s) && Lands(s, h)
    ensures var id, f := s.handlers[h].id, Correction(s, h, amount, retention);
      Carried(Apply(s, WritePatch(h, amount, retention)))
      <==> f.None? || f.value == s.payments[id].figures || s.payments[id].chain.stage < 3 || AnnouncedAs(s, id, f.value)
  {
    var s' := Apply(s, WritePatch(h, amount, retention));
    var id, f := s.handlers[h].id, Correction(s, h, amount, retention);
    assert s'.outbox == s.outbox;
    if f.None? {
      assert s'.payments == s.payments;
    } else {
      assert s'.payments == s.payments[id := s.payments[id].(figures := f.value)];
      forall i | i in s'.payments && i != id && s'.payments[i].chain.stage >= 3
        ensures AnnouncedAs(s', i, s'.payments[i].figures)
      {
        assert AnnouncedAs(s, i, s.payments[i].figures);
      }
      assert s.payments[id].chain.stage >= 3 ==> AnnouncedAs(s, id, s.payments[id].figures);
      assert AnnouncedAs(s', id, f.value) <==> AnnouncedAs(s, id, f.value);
      assert s'.payments[id].figures == f.value && s'.payments[id].chain == s.payments[id].chain;
      assert Carried(s') && s'.payments[id].chain.stage >= 3 ==> AnnouncedAs(s', id, s'.payments[id].figures);
    }
  }

  // ----- Whole runs -----

  /** The condition for one step: only a landing correction can fail it. */
  ghost predicate Harmless(s: System, step: Step) {
    step.WritePatch? && Lands(s, step.h) ==>
      var id, f := s.handlers[step.h].id, Correction(s, step.h, step.newAmount, step.newRetention);
      f.None? || f.value == s.payments[id].figures || !Announced(s.outbox, id)
  }

  ghost predicate AllHarmless(s: System, steps: seq<Step>)
    decreases |steps|
  {
    steps == [] || (Harmless(s, steps[0]) && AllHarmless(Apply(s, steps[0]), steps[1..]))
  }

  /** In every state the run goes through. */
  ghost predicate SentThroughout(s: System, steps: seq<Step>)
    decreases |steps|
  {
    Sent(s) && (steps == [] || SentThroughout(Apply(s, steps[0]), steps[1..]))
  }

  ghost predicate CarriedThroughout(s: System, steps: seq<Step>)
    decreases |steps|
  {
    Carried(s) && (steps == [] || CarriedThroughout(Apply(s, steps[0]), steps[1..]))
  }

  lemma SentKept(s: System, s': System)
    requires Sent(s) && InFlightTrue(s) && |s'.outbox.rows| == |s.outbox.rows|
    requires forall k :: 0 <= k < |s.outbox.rows| ==> s'.outbox.rows[k].event == s.outbox.rows[k].event
    requires forall id :: id in s'.payments && id in s.signed ==>
      id in s.payments && s'.payments[id].figures == s.payments[id].figures
    ensures Sent(s')
  {
    forall k | 0 <= k < |s'.outbox.rows| ensures SentFor(s', s'.outbox.rows[k].event) {
      assert SentFor(s, s.outbox.rows[k].event) && Known(s, s.outbox.rows[k].event);
    }
  }

  lemma CommitSent(s: System, s': System, h: nat)
    requires Sent(s) && InFlightTrue(s) && Commits(s, s', h)
    ensures Sent(s')
  {
    var t := s.handlers[h];
    assert TxTrue(s, t);
    forall k | 0 <= k < |s'.outbox.rows| ensures SentFor(s', s'.outbox.rows[k].event) {
      if k < |s.outbox.rows| {
        assert SentFor(s, s.outbox.rows[k].event);
      } else {
        assert Speaks(t, t.staged[k - |s.outbox.rows|]);
      }
    }
  }

  lemma StepSentExactly(s: System, step: Step)
    requires Safe(s) && InFlightTrue(s) && PaidSafe(s) && Sent(s)
    ensures Sent(Apply(s, step)) <==> Harmless(s, step)
  {
    var s' := Apply(s, step);
    match step {
      case Commit(h) =>
        if s' != s {
          CommitEffect(s, h);
          CommitSent(s, s', h);
        }
      case WritePatch(h, amount, retention) =>
        if Lands(s, h) {
          var f := Correction(s, h, amount, retention);
          PatchSentExactly(s, h, amount, retention);
          if f.Some? {
            ContradictsAnnounced(s, s.handlers[h].id, f.value);
          }
        } else {
          PatchWrites(s, h, amount, retention);
          SentKept(s, s');
        }
      case Create(_, _, _, _, _) => SentKept(s, s');
      case Delete(_) => SentKept(s, s');
      case _ =>
        QuietStep(s, step);
        SentKept(s, s');
    }
  }

  lemma {:induction false} RunSentExactly(s: System, steps: seq<Step>)
    requires Safe(s) && InFlightTrue(s) && PaidSafe(s) && Sent(s)
    ensures SentThroughout(s, steps) <==> AllHarmless(s, steps)
    ensures SentThroughout(s, steps) ==> CarriedThroughout(s, steps)
    decreases |steps|
  {
    SentIsCarried(s);
    if steps != [] {
      var s1 := Apply(s, steps[0]);
      StepSentExactly(s, steps[0]);
      if Harmless(s, steps[0]) {
        ApplySafe(s, steps[0]);
        ApplyTrue(s, steps[0]);
        ApplyPaid(s, steps[0]);
        RunSentExactly(s1, steps[1..]);
      } else {
        assert !Sent(s1) && !SentThroughout(s1, steps[1..]);
      }
    }
  }

  /**
   Under any interleaving, every authorization in the outbox states its
   payment's own figures, and every paid event its payable, throughout the run exactly when no correction that
   changes them lands on an announced payment; and then every payment past
   authorization always has an event carrying its own payable.
   */
  lemma AnnouncementsTrueExactly(now: int, steps: seq<Step>)
    ensures SentThroughout(Initial(now), steps) <==> AllHarmless(Initial(now), steps)
    ensures AllHarmless(Initial(now), steps) ==> CarriedThroughout(Initial(now), steps)
  {
    RunSentExactly(Initial(now), steps);
  }

  // ----- Signatures -----

  /** What keeps signatures true as well: a landing correction that changes the figures finds the row unsigned. */
  predicate Early(s: System, step: Step) {
    step.WritePatch? && Lands(s, step.h) ==>
      var id, f := s.handlers[step.h].id, Correction(s, step.h, step.newAmount, step.newRetention);
      f.None? || f.value == s.payments[id].figures || s.payments[id].chain.stage == 0
  }

  predicate AllEarly(s: System, steps: seq<Step>)
    decreases |steps|
  {
    steps == [] || (Early(s, steps[0]) && AllEarly(Apply(s, steps[0]), steps[1..]))
  }

  ghost predicate HonouredThroughout(s: System, steps: seq<Step>)
    decreases |steps|
  {
    Honoured(s) && (steps == [] || HonouredThroughout(Apply(s, steps[0]), steps[1..]))
  }

  lemma PatchBegun(s: System, h: nat, amount: Option<int>, retention: Option<int>)
    requires Begun(s)
    ensures Begun(Apply(s, WritePatch(h, amount, retention)))
  {
    var s' := Apply(s, WritePatch(h, amount, retention));
    PatchWrites(s, h, amount, retention);
    forall id | id in s'.payments ensures s'.payments[id].chain == s.payments[id].chain {
      assert s'.payments[id] != s.payments[id] ==> s.handlers[h].id == id;
    }
  }

  lemma StepHonouredExactly(s: System, step: Step)
    requires Safe(s) && Bound(s)
    ensures Bound(Apply(s, step)) <==> Honoured(Apply(s, step))
    ensures Honoured(Apply(s, step)) <==> Early(s, step)
  {
    if step.WritePatch? {
      ApplyTrue(s, step);
      PatchBegun(s, step.h, step.newAmount, step.newRetention);
      if Lands(s, step.h) {
        PatchHonouredExactly(s, step.h, step.newAmount, step.newRetention);
      } else {
        PatchWrites(s, step.h, step.newAmount, step.newRetention);
        StillHonoured(s, Apply(s, step));
      }
    } else {
      ApplyBound(s, step);
    }
  }

  lemma {:induction false} RunHonouredExactly(s: System, steps: seq<Step>)
    requires Safe(s) && Bound(s)
    ensures HonouredThroughout(s, steps) <==> AllEarly(s, steps)
    decreases |steps|
  {
    if steps != [] {
      StepHonouredExactly(s, steps[0]);
      if Early(s, steps[0]) {
        ApplySafe(s, steps[0]);
        RunHonouredExactly(Apply(s, steps[0]), steps[1..]);
      }
    }
  }

  /**
   Under any interleaving: throughout the run every approver has signed the
   figures stored, and every authorization states them, exactly when each
   correction that changes figures lands on a row nobody has signed.
   */
  lemma SignaturesTrueExactly(now: int, steps: seq<Step>)
    ensures HonouredThroughout(Initial(now), steps) <==> AllEarly(Initial(now), steps)
  {
    RunHonouredExactly(Initial(now), steps);
  }

  // ----- A correction read before the first signature and written after the third -----

  const GROSS := FiguresOf(1000, 0)

  function Stored(chain: Chain): PaymentRow {
    PaymentRow("M", "C", GROSS, chain)
  }

  /** The correction waits with the row it read while approvals go by. */
  function Waiting(chain: Chain, signed: seq<Figures>, outbox: Outbox.State<Event>): System {
    System(map["P" := Stored(chain)], map[0 := Patching("P", Stored(NewChain(Payment, "", "")))], outbox,
           map["P" := signed])
  }

  function Approval(actor: string, date: string): seq<Step> {
    [Read(1, "P"), Update(1, actor, date), Publish(1), Commit(1)]
  }

  /** The same with the approver's transaction open. */
  function Approving(chain: Chain, signed: seq<Figures>, outbox: Outbox.State<Event>, t: Handler): System {
    var s := Waiting(chain, signed, outbox);
    s.(handlers := s.handlers[1 := t])
  }

  lemma ApproverUpdates(chain: Chain, signed: seq<Figures>, outbox: Outbox.State<Event>, actor: string, date: string)
    requires 0 <= chain.stage <= 2 && AdvanceChain(Payment, chain, actor, date).Moved?
    ensures var moved := AdvanceChain(Payment, chain, actor, date);
      && moved.signed == Some(chain.stage)
      && Apply(Apply(Waiting(chain, signed, outbox), Read(1, "P")), Update(1, actor, date))
         == Approving(chain, signed, outbox, InTx("P", Stored(moved.chain),
                                                  Announcements("P", Stored(moved.chain), chain.stage), []))
  {
    var s1 := Apply(Waiting(chain, signed, outbox), Read(1, "P"));
    assert s1 == Approving(chain, signed, outbox, Advancing("P", Stored(chain)));
    assert !Locked(s1, "P");
  }

  lemma ApproverPublishes(chain: Chain, signed: seq<Figures>, outbox: Outbox.State<Event>, next: Chain,
                          events: seq<Event>)
    requires |events| <= 1
    ensures Apply(Approving(chain, signed, outbox, InTx("P", Stored(next), events, [])), Publish(1))
         == Approving(chain, signed, outbox, InTx("P", Stored(next), [], events))
  {
    if events != [] {
      assert events == [events[0]] && events[1..] == [] && [] + [events[0]] == events;
    }
  }

  lemma ApproverCommits(chain: Chain, signed: seq<Figures>, outbox: Outbox.State<Event>, next: Chain,
                        events: seq<Event>)
    requires |events| <= 1
    ensures var s := Approving(chain, signed, outbox, InTx("P", Stored(next), events, []));
      Apply(Apply(s, Publish(1)), Commit(1)) == Waiting(next, signed + [GROSS], EnqueueAll(outbox, events))
  {
    ApproverPublishes(chain, signed, outbox, next, events);
    var published := Approving(chain, signed, outbox, InTx("P", Stored(next), [], events));
    assert published.handlers - {1} == Waiting(chain, signed, outbox).handlers;
  }

  lemma OneApproval(chain: Chain, signed: seq<Figures>, outbox: Outbox.State<Event>, actor: string, date: string)
    requires 0 <= chain.stage <= 2 && AdvanceChain(Payment, chain, actor, date).Moved?
    ensures var moved := AdvanceChain(Payment, chain, actor, date);
      && moved.signed == Some(chain.stage)
      && Run(Waiting(chain, signed, outbox), Approval(actor, date))
         == Waiting(moved.chain, signed + [GROSS],
                    EnqueueAll(outbox, Announcements("P", Stored(moved.chain), chain.stage)))
  {
    var next := AdvanceChain(Payment, chain, actor, date).chain;
    ApproverUpdates(chain, signed, outbox, actor, date);
    ApproverCommits(chain, signed, outbox, next, Announcements("P", Stored(next), chain.stage));
    RunFour(Waiting(chain, signed, outbox), Read(1, "P"), Update(1, actor, date), Publish(1), Commit(1));
  }

  lemma OpensForCorrection(now: int)
    ensures Run(Initial(now), [Create("P", "M", "C", 1000, 0), ReadForPatch(0, "P")])
         == Waiting(NewChain(Payment, "", ""), [], Outbox.Initial(now))
  {
    var s1 := Apply(Initial(now), Create("P", "M", "C", 1000, 0));
    assert s1.payments == map["P" := Stored(NewChain(Payment, "", ""))];
    RunPair(Initial(now), Create("P", "M", "C", 1000, 0), ReadForPatch(0, "P"));
  }

  lemma FirstSigns(actor: string, date: string)
    ensures var slots := BlankSlots(Payment)[0 := Signature(PAYMENT_STAGES[0], actor, date, "")];
      AdvanceChain(Payment, NewChain(Payment, "", ""), actor, date)
      == Moved(Chain(1, StatusAt(Payment, 1), slots), Some(0))
  {
  }

  /** The correction written over a payment that three approvers have signed. */
  function LateSteps(a: string, b: string, c: string, date: string): seq<Step> {
    [Create("P", "M", "C", 1000, 0), ReadForPatch(0, "P")]
    + Approval(a, date) + Approval(b, date) + Approval(c, date)
    + [WritePatch(0, Some(2000), None)]
  }

  lemma ThreeApprovals(now: int, a: string, b: string, c: string, date: string) returns (chain: Chain)
    requires !ApprovalChain.SameApprover(a, b) && !ApprovalChain.SameApprover(b, c)
    ensures chain.stage == 3
    ensures Run(Waiting(NewChain(Payment, "", ""), [], Outbox.Initial(now)),
                Approval(a, date) + Approval(b, date) + Approval(c, date))
         == Waiting(chain, [GROSS, GROSS, GROSS], EnqueueAll(Outbox.Initial(now), [Authorized("P", GROSS)]))
  {
    var fresh0, o := NewChain(Payment, "", ""), Outbox.Initial(now);
    FirstSigns(a, date);
    var first := AdvanceChain(Payment, fresh0, a, date).chain;
    RefusedExactly(Payment, first, b, date);
    var second := AdvanceChain(Payment, first, b, date).chain;
    RefusedExactly(Payment, second, c, date);
    chain := AdvanceChain(Payment, second, c, date).chain;
    OneApproval(fresh0, [], o, a, date);
    OneApproval(first, [GROSS], o, b, date);
    OneApproval(second, [GROSS, GROSS], o, c, date);
    assert [] + [GROSS] == [GROSS] && [GROSS] + [GROSS] == [GROSS, GROSS];
    assert [GROSS, GROSS] + [GROSS] == [GROSS, GROSS, GROSS];
    RunAppend(Waiting(fresh0, [], o), Approval(a, date) + Approval(b, date), Approval(c, date));
    RunAppend(Waiting(fresh0, [], o), Approval(a, date), Approval(b, date));
  }

  /**
   The row ends authorized at twice what was announced: no event in the outbox
   carries its payable.
   */
  lemma LateCorrectionBreaks(now: int, a: string, b: string, c: string, date: string)
    requires !ApprovalChain.SameApprover(a, b) && !ApprovalChain.SameApprover(b, c)
    ensures var s := Run(Initial(now), LateSteps(a, b, c, date));
      && "P" in s.payments && s.payments["P"].chain.stage == 3 && s.payments["P"].figures == FiguresOf(2000, 0)
      && |s.outbox.rows| == 1 && s.outbox.rows[0].event == Authorized("P", FiguresOf(1000, 0))
      && !Carried(s)
  {
    var start := [Create("P", "M", "C", 1000, 0), ReadForPatch(0, "P")];
    var approvals := Approval(a, date) + Approval(b, date) + Approval(c, date);
    var write := [WritePatch(0, Some(2000), None)];
    OpensForCorrection(now);
    var chain := ThreeApprovals(now, a, b, c, date);
    assert LateSteps(a, b, c, date) == start + approvals + write;
    RunAppend(Initial(now), start + approvals, write);
    RunAppend(Initial(now), start, approvals);
    LateWrite(now, chain);
  }

  lemma LateWrite(now: int, chain: Chain)
    requires chain.stage == 3
    ensures var outbox := EnqueueAll(Outbox.Initial(now), [Authorized("P", GROSS)]);
      var s := Run(Waiting(chain, [GROSS, GROSS, GROSS], outbox), [WritePatch(0, Some(2000), None)]);
      && "P" in s.payments && s.payments["P"].chain.stage == 3 && s.payments["P"].figures == FiguresOf(2000, 0)
      && |s.outbox.rows| == 1 && s.outbox.rows[0].event == Authorized("P", FiguresOf(1000, 0))
      && !Carried(s)
  {
    var authorized := [Authorized("P", GROSS)];
    assert authorized[..0] == [];
    var outbox := EnqueueAll(Outbox.Initial(now), authorized);
    var before := Waiting(chain, [GROSS, GROSS, GROSS], outbox);
    assert !Locked(before, "P");
    var s := Apply(before, WritePatch(0, Some(2000), None));
    assert Run(before, [WritePatch(0, Some(2000), None)]) == s;
    assert s.payments["P"].figures == FiguresOf(2000, 0) && FiguresOf(2000, 0).amount != FiguresOf(1000, 0).amount;
    assert |s.outbox.rows| == 1 && s.outbox.rows[0].event == Authorized("P", FiguresOf(1000, 0)) by {
      assert EnqueueAll(Outbox.Initial(now), []) == Outbox.Initial(now);
      assert outbox == Outbox.Apply(Outbox.Initial(now), Outbox.Enqueue(authorized[0]));
    }
    assert !AnnouncedAs(s, "P", s.payments["P"].figures);
  }
}
