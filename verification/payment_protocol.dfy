/**
 Payments under concurrency: handlers read a row, advance it in memory, and
 write it back inside a transaction that also inserts the events; publishers
 drain the outbox; anything may stop between two steps.
 */
module PaymentProtocol {
  import opened Wrappers
  import opened PaymentFigures
  import opened Workflow
  import Outbox

  type Id = string

  datatype PaymentRow = PaymentRow(milestone: Id, contract: Id, figures: Figures, chain: Chain)

  datatype Event =
    | Authorized(payment: Id, figures: Figures)
    | PaidOut(payment: Id, payable: int)

  datatype Handler =
    | Advancing(id: Id, row: PaymentRow)
    | InTx(id: Id, stored: PaymentRow, pending: seq<Event>, staged: seq<Event>)
    | Patching(id: Id, row: PaymentRow)

  /** `signed` is history: the row's figures at each committed signature. */
  datatype System = System(
    payments: map<Id, PaymentRow>,
    handlers: map<nat, Handler>,
    outbox: Outbox.State<Event>,
    signed: map<Id, seq<Figures>>)

  datatype Step =
    | Create(id: Id, milestone: Id, contract: Id, amount: int, retention: int)
    | Read(h: nat, id: Id)                                          // GetPayment
    | Update(h: nat, actor: string, date: string)                   // p.Advance, UpdatePaymentTx
    | Publish(h: nat)                                               // PublishCommercialTx
    | Commit(h: nat)
    | Abort(h: nat)                                                 // rollback, refusal or crash
    | ReadForPatch(h: nat, id: Id)
    | WritePatch(h: nat, newAmount: Option<int>, newRetention: Option<int>) // UpdatePaymentAmounts
    | Delete(id: Id)                                                // its milestone or contract goes
    | Relay(step: Outbox.Step<Event>)                               // a publisher, or the clock

  /** UPDATE takes the row's lock and keeps it until the transaction ends. */
  predicate Locked(s: System, id: Id) {
    exists h :: h in s.handlers && s.handlers[h].InTx? && s.handlers[h].id == id
  }

  function Announcements(id: Id, row: PaymentRow, completed: nat): seq<Event> {
    (if completed == AUTHORIZE_STAGE then [Authorized(id, row.figures)] else [])
    + (if row.chain.stage >= 4 then [PaidOut(id, row.figures.payable)] else [])
  }

  function EnqueueAll(o: Outbox.State<Event>, events: seq<Event>): Outbox.State<Event> {
    if events == [] then o
    else Outbox.Apply(EnqueueAll(o, events[..|events| - 1]), Outbox.Enqueue(events[|events| - 1]))
  }

  function Drop(s: System, h: nat): System {
    s.(handlers := s.handlers - {h})
  }

  function Apply(s: System, step: Step): System {
    match step
    case Create(id, milestone, contract, amount, retention) =>
      var f := Opened(amount, retention);
      if id in s.payments || id in s.signed || f.None? then s // ids are drawn once
      else if exists other :: other in s.payments && s.payments[other].milestone == milestone then s
      else s.(payments := s.payments[id := PaymentRow(milestone, contract, f.value, NewChain(Payment, "", ""))],
              signed := s.signed[id := []])
    case Read(h, id) =>
      if h in s.handlers || id !in s.payments then s
      else s.(handlers := s.handlers[h := Advancing(id, s.payments[id])])
    case Update(h, actor, date) => ApplyUpdate(s, h, actor, date)
    case Publish(h) =>
      if h !in s.handlers || !s.handlers[h].InTx? || s.handlers[h].pending == [] then s
      else
        var t := s.handlers[h];
        s.(handlers := s.handlers[h := t.(pending := t.pending[1..], staged := t.staged + [t.pending[0]])])
    case Commit(h) =>
      if h !in s.handlers || !s.handlers[h].InTx? || s.handlers[h].pending != [] then s
      else
        var t := s.handlers[h];
        Drop(s.(payments := s.payments[t.id := t.stored],
                outbox := EnqueueAll(s.outbox, t.staged),
                signed := s.signed[t.id := Signatures(s, t.id) + [t.stored.figures]]), h)
    case Abort(h) => Drop(s, h)
    case ReadForPatch(h, id) =>
      if h in s.handlers || id !in s.payments || s.payments[id].chain.stage > 0 then s
      else s.(handlers := s.handlers[h := Patching(id, s.payments[id])])
    case WritePatch(h, amount, retention) => ApplyPatch(s, h, amount, retention)
    case Delete(id) => if Locked(s, id) then s else s.(payments := s.payments - {id})
    case Relay(step) =>
      // Only a committed transaction inserts rows.
      if step.Enqueue? then s else s.(outbox := Outbox.Apply(s.outbox, step))
  }

  function Signatures(s: System, id: Id): seq<Figures> {
    if id in s.signed then s.signed[id] else []
  }

  /** The chain columns computed from the row as read, written over the row as it is now. */
  function ApplyUpdate(s: System, h: nat, actor: string, date: string): System {
    if h !in s.handlers || !s.handlers[h].Advancing? then s
    else
      var a := s.handlers[h];
      match AdvanceChain(Payment, a.row.chain, actor, date)
      case Moved(chain, Some(k)) =>
        if a.id !in s.payments then Drop(s, h)
        else if Locked(s, a.id) then s
        else
          var stored := s.payments[a.id].(chain := chain);
          s.(handlers := s.handlers[h := InTx(a.id, stored, Announcements(a.id, stored, k), [])])
      case _ => Drop(s, h)
  }

  /** The money columns computed from the row as read, written over the row as it is now. */
  function ApplyPatch(s: System, h: nat, amount: Option<int>, retention: Option<int>): System {
    if h !in s.handlers || !s.handlers[h].Patching? then s
    else
      var p := s.handlers[h];
      var f := Patched(p.row.figures, amount, retention);
      if f.None? || p.id !in s.payments then Drop(s, h)
      else if Locked(s, p.id) then s
      else Drop(s.(payments := s.payments[p.id := s.payments[p.id].(figures := f.value)]), h)
  }

  function Run(s: System, steps: seq<Step>): System
    decreases |steps|
  {
    if steps == [] then s else Run(Apply(s, steps[0]), steps[1..])
  }

  function Initial(now: int): System {
    System(map[], map[], Outbox.Initial(now), map[])
  }

  lemma {:induction false} RunAppend(s: System, a: seq<Step>, b: seq<Step>)
    ensures Run(s, a + b) == Run(Run(s, a), b)
    decreases |a|
  {
    if a == [] {
      assert a + b == b;
    } else {
      assert (a + b)[1..] == a[1..] + b;
      RunAppend(Apply(s, a[0]), a[1..], b);
    }
  }

  lemma RunPair(s: System, a: Step, b: Step)
    ensures Run(s, [a, b]) == Apply(Apply(s, a), b)
  {
    assert [a, b][1..] == [b];
    assert Run(Apply(s, a), [b]) == Apply(Apply(s, a), b);
  }

  lemma RunFour(s: System, a: Step, b: Step, c: Step, d: Step)
    ensures Run(s, [a, b, c, d]) == Apply(Apply(Apply(Apply(s, a), b), c), d)
  {
    assert [a, b, c, d][1..] == [b, c, d];
    assert [b, c, d][1..] == [c, d];
    assert Run(Apply(s, a), [b, c, d]) == Run(Apply(Apply(s, a), b), [c, d]);
    RunPair(Apply(Apply(s, a), b), c, d);
  }

  // ----- Outbox facts -----

  ghost predicate Announced(o: Outbox.State<Event>, id: Id) {
    exists k :: 0 <= k < |o.rows| && o.rows[k].event.Authorized? && o.rows[k].event.payment == id
  }

  lemma {:induction false} EnqueueAllAppends(o: Outbox.State<Event>, events: seq<Event>)
    requires Outbox.Sound(o)
    ensures var o' := EnqueueAll(o, events);
      && Outbox.Sound(o') && o'.now == o.now
      && |o'.rows| == |o.rows| + |events|
      && (forall k :: 0 <= k < |o.rows| ==> o'.rows[k] == o.rows[k])
      && (forall k :: |o.rows| <= k < |o'.rows| ==> o'.rows[k].event == events[k - |o.rows|])
  {
    if events != [] {
      var n := |events| - 1;
      EnqueueAllAppends(o, events[..n]);
      Outbox.ApplySound(EnqueueAll(o, events[..n]), Outbox.Enqueue(events[n]));
    }
  }

  lemma RelayKeeps(o: Outbox.State<Event>, step: Outbox.Step<Event>)
    requires Outbox.Sound(o) && !step.Enqueue?
    ensures var o' := Outbox.Apply(o, step);
      && Outbox.Sound(o')
      && |o'.rows| == |o.rows|
      && (forall k :: 0 <= k < |o.rows| ==> o'.rows[k].event == o.rows[k].event)
  {
    Outbox.ApplySound(o, step);
  }

  // ----- No authorization without its event -----

  ghost predicate WillAnnounce(o: Outbox.State<Event>, t: Handler)
    requires t.InTx?
  {
    || Announced(o, t.id)
    || (exists k :: 0 <= k < |t.pending| && t.pending[k].Authorized? && t.pending[k].payment == t.id)
    || (exists k :: 0 <= k < |t.staged| && t.staged[k].Authorized? && t.staged[k].payment == t.id)
  }

  ghost predicate HandlerSafe(s: System, t: Handler) {
    match t
    case Advancing(id, row) => row.chain.stage >= 0 && (row.chain.stage >= 3 ==> Announced(s.outbox, id))
    case InTx(id, stored, _, _) => stored.chain.stage >= 1 && (stored.chain.stage >= 3 ==> WillAnnounce(s.outbox, t))
    case Patching(_, row) => Consistent(row.figures)
  }

  ghost predicate RowSafe(s: System, id: Id)
    requires id in s.payments
  {
    && s.payments[id].chain.stage >= 0
    && Consistent(s.payments[id].figures)
    && (s.payments[id].chain.stage >= 3 ==> Announced(s.outbox, id))
  }

  ghost predicate Safe(s: System) {
    && Outbox.Sound(s.outbox)
    && (forall id :: id in s.payments ==> RowSafe(s, id))
    && (forall h :: h in s.handlers ==> HandlerSafe(s, s.handlers[h]))
    && (forall h :: h in s.handlers && s.handlers[h].InTx? ==> Consistent(s.handlers[h].stored.figures))
  }

  /** A longer outbox still announces what it announced. */
  lemma StillSafe(s: System, s': System)
    requires Safe(s) && Outbox.Sound(s'.outbox)
    requires |s.outbox.rows| <= |s'.outbox.rows|
    requires forall k :: 0 <= k < |s.outbox.rows| ==> s'.outbox.rows[k].event == s.outbox.rows[k].event
    ensures forall id :: Announced(s.outbox, id) ==> Announced(s'.outbox, id)
    ensures forall h :: h in s.handlers ==> HandlerSafe(s', s.handlers[h])
    ensures forall id :: id in s.payments && id in s'.payments && s'.payments[id] == s.payments[id] ==> RowSafe(s', id)
  {
    forall id | Announced(s.outbox, id)
      ensures Announced(s'.outbox, id)
    {
      var k :| 0 <= k < |s.outbox.rows| && s.outbox.rows[k].event.Authorized? && s.outbox.rows[k].event.payment == id;
      assert s'.outbox.rows[k].event == s.outbox.rows[k].event;
    }
    forall h | h in s.handlers
      ensures HandlerSafe(s', s.handlers[h])
    {
      assert HandlerSafe(s, s.handlers[h]);
    }
    forall id | id in s.payments && id in s'.payments && s'.payments[id] == s.payments[id]
      ensures RowSafe(s', id)
    {
      assert RowSafe(s, id);
    }
  }

  /** A transaction that moves a payment to stage 3 carries its announcement. */
  lemma UpdateAnnounces(s: System, h: nat, actor: string, date: string)
    requires Safe(s) && h in s.handlers && s.handlers[h].Advancing?
    ensures var s' := Apply(s, Update(h, actor, date));
      h in s'.handlers && s'.handlers[h].InTx? ==>
        HandlerSafe(s', s'.handlers[h]) && Consistent(s'.handlers[h].stored.figures)
  {
    var s' := Apply(s, Update(h, actor, date));
    var a := s.handlers[h];
    assert HandlerSafe(s, a);
    if h in s'.handlers && s'.handlers[h].InTx? {
      var t := s'.handlers[h];
      assert RowSafe(s, a.id);
      assert t.stored.chain.stage == a.row.chain.stage + 1;
      if t.stored.chain.stage == 3 {
        assert t.pending[0].Authorized?;
      }
    }
  }

  lemma UpdateSafe(s: System, h: nat, actor: string, date: string)
    requires Safe(s)
    ensures Safe(Apply(s, Update(h, actor, date)))
  {
    var s' := Apply(s, Update(h, actor, date));
    UpdateOpens(s, h, actor, date);
    StillSafe(s, s');
    if h in s.handlers && s.handlers[h].Advancing? {
      UpdateAnnounces(s, h, actor, date);
    }
  }

  lemma PublishSafe(s: System, h: nat)
    requires Safe(s)
    ensures Safe(Apply(s, Publish(h)))
  {
    var s' := Apply(s, Publish(h));
    StillSafe(s, s');
    if s' != s {
      var t, t' := s.handlers[h], s'.handlers[h];
      assert HandlerSafe(s, t);
      assert t'.staged[|t.staged|] == t.pending[0];
      assert forall k :: 0 <= k < |t.staged| ==> t'.staged[k] == t.staged[k];
      assert forall k :: 1 <= k < |t.pending| ==> t'.pending[k - 1] == t.pending[k];
    }
  }

  lemma CommitSafe(s: System, h: nat)
    requires Safe(s)
    ensures Safe(Apply(s, Commit(h)))
  {
    var s' := Apply(s, Commit(h));
    if s' != s {
      var t := s.handlers[h];
      assert HandlerSafe(s, t);
      EnqueueAllAppends(s.outbox, t.staged);
      StillSafe(s, s');
      if t.stored.chain.stage >= 3 && !Announced(s.outbox, t.id) {
        var k :| 0 <= k < |t.staged| && t.staged[k].Authorized? && t.staged[k].payment == t.id;
        assert s'.outbox.rows[|s.outbox.rows| + k].event == t.staged[k];
      }
    }
  }

  lemma PatchSafe(s: System, h: nat, amount: Option<int>, retention: Option<int>)
    requires Safe(s)
    ensures Safe(Apply(s, WritePatch(h, amount, retention)))
  {
    var s' := Apply(s, WritePatch(h, amount, retention));
    PatchWrites(s, h, amount, retention);
    StillSafe(s, s');
    forall id | id in s'.payments
      ensures RowSafe(s', id)
    {
      assert RowSafe(s, id);
      if s'.payments[id] != s.payments[id] {
        assert HandlerSafe(s, s.handlers[h]);
      }
    }
  }

  /** A patch write changes the money columns of one row at most, and ends its handler. */
  lemma PatchWrites(s: System, h: nat, amount: Option<int>, retention: Option<int>)
    ensures var s' := Apply(s, WritePatch(h, amount, retention));
      && s'.outbox == s.outbox && s'.signed == s.signed && s'.payments.Keys == s.payments.Keys
      && (forall g :: g in s'.handlers ==> g in s.handlers && s'.handlers[g] == s.handlers[g])
      && (forall id :: id in s.payments && s'.payments[id] != s.payments[id] ==>
        && h in s.handlers && s.handlers[h].Patching? && s.handlers[h].id == id && !Locked(s, id)
        && var f := Patched(s.handlers[h].row.figures, amount, retention);
        && f.Some? && s'.payments[id] == s.payments[id].(figures := f.value))
  {
  }

  lemma ApplySafe(s: System, step: Step)
    requires Safe(s)
    ensures Safe(Apply(s, step))
  {
    match step {
      case Update(h, actor, date) => UpdateSafe(s, h, actor, date);
      case Publish(h) => PublishSafe(s, h);
      case Commit(h) => CommitSafe(s, h);
      case WritePatch(h, amount, retention) => PatchSafe(s, h, amount, retention);
      case Relay(step) =>
        if !step.Enqueue? {
          RelayKeeps(s.outbox, step);
          StillSafe(s, Apply(s, Relay(step)));
        }
      case _ =>
        var s' := Apply(s, step);
        StillSafe(s, s');
    }
  }

  lemma {:induction false} RunSafe(s: System, steps: seq<Step>)
    requires Safe(s)
    ensures Safe(Run(s, steps))
    decreases |steps|
  {
    if steps != [] {
      ApplySafe(s, steps[0]);
      RunSafe(Apply(s, steps[0]), steps[1..]);
    }
  }

  /** Outbox rows keep their place and their event through anything that follows. */
  lemma {:induction false} EventsNeverLost(s: System, steps: seq<Step>)
    requires Safe(s)
    ensures var s' := Run(s, steps);
      && |s.outbox.rows| <= |s'.outbox.rows|
      && forall k :: 0 <= k < |s.outbox.rows| ==> s'.outbox.rows[k].event == s.outbox.rows[k].event
    decreases |steps|
  {
    if steps != [] {
      var step := steps[0];
      var s1 := Apply(s, step);
      if step.Relay? && !step.step.Enqueue? {
        RelayKeeps(s.outbox, step.step);
      } else if step.Commit? && s1 != s {
        EnqueueAllAppends(s.outbox, s.handlers[step.h].staged);
      }
      ApplySafe(s, step);
      EventsNeverLost(s1, steps[1..]);
    }
  }

  // ----- What an announcement carries -----

  /** The lines of a transaction in flight speak of the row it has locked. */
  ghost predicate TxTrue(s: System, t: Handler)
    requires t.InTx?
  {
    && t.id in s.payments
    && t.stored.figures == s.payments[t.id].figures
    && (forall k :: 0 <= k < |t.pending| ==> Speaks(t, t.pending[k]))
    && (forall k :: 0 <= k < |t.staged| ==> Speaks(t, t.staged[k]))
  }

  ghost predicate Speaks(t: Handler, e: Event)
    requires t.InTx?
  {
    e.payment == t.id && if e.Authorized? then e.figures == t.stored.figures else e.payable == t.stored.figures.payable
  }

  /** Open transactions speak of their rows, and announcements of payments there have been. */
  ghost predicate InFlightTrue(s: System) {
    && (forall h :: h in s.handlers && s.handlers[h].InTx? ==> TxTrue(s, s.handlers[h]))
    && (forall id :: id in s.payments ==> id in s.signed)
    && (forall k :: 0 <= k < |s.outbox.rows| ==> Known(s, s.outbox.rows[k].event))
  }

  predicate Known(s: System, e: Event) {
    e.payment in s.signed
  }

  lemma KnownKept(s: System, s': System)
    requires InFlightTrue(s) && |s'.outbox.rows| == |s.outbox.rows|
    requires forall k :: 0 <= k < |s.outbox.rows| ==> s'.outbox.rows[k].event == s.outbox.rows[k].event
    requires forall id :: id in s.signed ==> id in s'.signed
    ensures forall k :: 0 <= k < |s'.outbox.rows| ==> Known(s', s'.outbox.rows[k].event)
  {
    forall k | 0 <= k < |s'.outbox.rows| ensures Known(s', s'.outbox.rows[k].event) {
      assert Known(s, s.outbox.rows[k].event);
    }
  }

  /** An update touches no table; a transaction it opens speaks of the row it locks. */
  lemma UpdateOpens(s: System, h: nat, actor: string, date: string)
    ensures var s' := Apply(s, Update(h, actor, date));
      && s'.payments == s.payments && s'.signed == s.signed && s'.outbox == s.outbox
      && forall g :: g in s'.handlers && s'.handlers[g].InTx? ==>
        (g in s.handlers && s.handlers[g] == s'.handlers[g]) || TxTrue(s', s'.handlers[g])
  {
  }

  lemma PublishTrue(s: System, h: nat)
    requires InFlightTrue(s)
    ensures InFlightTrue(Apply(s, Publish(h)))
  {
    var s' := Apply(s, Publish(h));
    forall g | g in s'.handlers && s'.handlers[g].InTx?
      ensures TxTrue(s', s'.handlers[g])
    {
      var t, t' := s.handlers[g], s'.handlers[g];
      assert TxTrue(s, t);
      forall k | 0 <= k < |t'.staged| ensures Speaks(t', t'.staged[k]) {
        if k < |t.staged| { assert Speaks(t, t.staged[k]); } else { assert Speaks(t, t.pending[0]); }
      }
      forall k | 0 <= k < |t'.pending| ensures Speaks(t', t'.pending[k]) {
        assert t' != t ==> Speaks(t, t.pending[k + 1]);
      }
    }
  }

  /** A commit, as its effect on each component. */
  ghost predicate Commits(s: System, s': System, h: nat) {
    && h in s.handlers && s.handlers[h].InTx?
    && var t := s.handlers[h];
    && s'.payments == s.payments[t.id := t.stored]
    && s'.handlers == s.handlers - {h}
    && s'.signed == s.signed[t.id := Signatures(s, t.id) + [t.stored.figures]]
    && |s'.outbox.rows| == |s.outbox.rows| + |t.staged|
    && (forall k :: 0 <= k < |s.outbox.rows| ==> s'.outbox.rows[k].event == s.outbox.rows[k].event)
    && (forall k :: |s.outbox.rows| <= k < |s'.outbox.rows| ==>
      s'.outbox.rows[k].event == t.staged[k - |s.outbox.rows|])
  }

  lemma CommitEffect(s: System, h: nat)
    requires Outbox.Sound(s.outbox) && h in s.handlers && s.handlers[h].InTx? && s.handlers[h].pending == []
    ensures Commits(s, Apply(s, Commit(h)), h)
  {
    EnqueueAllAppends(s.outbox, s.handlers[h].staged);
  }

  lemma CommitTrue(s: System, s': System, h: nat)
    requires InFlightTrue(s) && Commits(s, s', h)
    ensures InFlightTrue(s')
  {
    var t := s.handlers[h];
    assert TxTrue(s, t);
    forall g | g in s'.handlers && s'.handlers[g].InTx? ensures TxTrue(s', s'.handlers[g]) {
      assert TxTrue(s, s.handlers[g]);
    }
    forall k | 0 <= k < |s'.outbox.rows| ensures Known(s', s'.outbox.rows[k].event) {
      if k < |s.outbox.rows| {
        assert Known(s, s.outbox.rows[k].event);
      } else {
        assert Speaks(t, t.staged[k - |s.outbox.rows|]);
      }
    }
  }

  /** Nothing an open transaction depends on changes under it: its row is locked. */
  lemma ApplyTrue(s: System, step: Step)
    requires Outbox.Sound(s.outbox) && InFlightTrue(s)
    ensures InFlightTrue(Apply(s, step))
  {
    var s' := Apply(s, step);
    match step {
      case Publish(h) => PublishTrue(s, h);
      case Commit(h) =>
        if s' != s {
          CommitEffect(s, h);
          CommitTrue(s, s', h);
        }
      case WritePatch(h, amount, retention) =>
        PatchWrites(s, h, amount, retention);
        StillTrue(s, s');
      case Create(_, _, _, _, _) => StillTrue(s, s');
      case Delete(_) => StillTrue(s, s');
      case Update(h, actor, date) => UpdateTrue(s, h, actor, date);
      case _ =>
        QuietStep(s, step);
        StillTrue(s, s');
    }
  }

  lemma UpdateTrue(s: System, h: nat, actor: string, date: string)
    requires InFlightTrue(s)
    ensures InFlightTrue(Apply(s, Update(h, actor, date)))
  {
    UpdateOpens(s, h, actor, date);
    KnownKept(s, Apply(s, Update(h, actor, date)));
  }

  /** What the rows open transactions hold, and the announcements, are not touched. */
  lemma StillTrue(s: System, s': System)
    requires InFlightTrue(s) && |s'.outbox.rows| == |s.outbox.rows|
    requires forall k :: 0 <= k < |s.outbox.rows| ==> s'.outbox.rows[k].event == s.outbox.rows[k].event
    requires forall id :: id in s.signed ==> id in s'.signed
    requires forall id :: id in s'.payments ==> id in s'.signed
    requires forall g :: g in s'.handlers && s'.handlers[g].InTx? ==>
      && g in s.handlers && s'.handlers[g] == s.handlers[g]
      && (s.handlers[g].id in s.payments ==>
            s.handlers[g].id in s'.payments
            && s'.payments[s.handlers[g].id].figures == s.payments[s.handlers[g].id].figures)
    ensures InFlightTrue(s')
  {
    KnownKept(s, s');
    forall g | g in s'.handlers && s'.handlers[g].InTx? ensures TxTrue(s', s'.handlers[g]) {
      assert TxTrue(s, s.handlers[g]);
    }
  }

  /** Steps that write neither a payment nor an event. */
  lemma QuietStep(s: System, step: Step)
    requires Outbox.Sound(s.outbox) && !step.Create? && !step.Commit? && !step.WritePatch? && !step.Delete?
    ensures var s' := Apply(s, step);
      && s'.payments == s.payments && s'.signed == s.signed
      && |s'.outbox.rows| == |s.outbox.rows|
      && forall k :: 0 <= k < |s.outbox.rows| ==> s'.outbox.rows[k].event == s.outbox.rows[k].event
  {
    match step {
      case Update(h, actor, date) => UpdateOpens(s, h, actor, date);
      case Relay(move) => if !move.Enqueue? { RelayKeeps(s.outbox, move); }
      case _ =>
    }
  }

  /** An event is for figures somebody signed for that payment, and that restate each other. */
  ghost predicate Vouched(s: System, e: Event) {
    && (e.Authorized? ==> e.figures in Signatures(s, e.payment) && Consistent(e.figures))
    && (e.PaidOut? ==> exists f <- Signatures(s, e.payment) :: Consistent(f) && e.payable == f.payable)
  }

  ghost predicate AllVouched(s: System) {
    && InFlightTrue(s)
    && (forall k :: 0 <= k < |s.outbox.rows| ==> Vouched(s, s.outbox.rows[k].event))
  }

  lemma VouchedKept(s: System, s': System)
    requires AllVouched(s) && |s'.outbox.rows| == |s.outbox.rows|
    requires forall k :: 0 <= k < |s.outbox.rows| ==> s'.outbox.rows[k].event == s.outbox.rows[k].event
    requires forall id :: Signatures(s', id) == Signatures(s, id)
    ensures forall k :: 0 <= k < |s'.outbox.rows| ==> Vouched(s', s'.outbox.rows[k].event)
  {
    forall k | 0 <= k < |s'.outbox.rows| ensures Vouched(s', s'.outbox.rows[k].event) {
      assert Vouched(s, s.outbox.rows[k].event);
    }
  }

  lemma CommitVouched(s: System, s': System, h: nat)
    requires AllVouched(s) && Commits(s, s', h) && Consistent(s.handlers[h].stored.figures)
    ensures forall k :: 0 <= k < |s'.outbox.rows| ==> Vouched(s', s'.outbox.rows[k].event)
  {
    var t := s.handlers[h];
    assert TxTrue(s, t);
    forall k | 0 <= k < |s'.outbox.rows| ensures Vouched(s', s'.outbox.rows[k].event) {
      if k < |s.outbox.rows| {
        assert Vouched(s, s.outbox.rows[k].event);
      } else {
        assert Speaks(t, t.staged[k - |s.outbox.rows|]);
        assert Signatures(s', t.id)[|Signatures(s, t.id)|] == t.stored.figures;
      }
    }
  }

  lemma ApplyVouched(s: System, step: Step)
    requires Safe(s) && AllVouched(s)
    ensures AllVouched(Apply(s, step))
  {
    var s' := Apply(s, step);
    ApplyTrue(s, step);
    match step {
      case Commit(h) =>
        if s' != s {
          CommitEffect(s, h);
          CommitVouched(s, s', h);
        }
      case WritePatch(h, amount, retention) =>
        PatchWrites(s, h, amount, retention);
        VouchedKept(s, s');
      case Create(_, _, _, _, _) => VouchedKept(s, s');
      case Delete(_) => VouchedKept(s, s');
      case _ =>
        QuietStep(s, step);
        VouchedKept(s, s');
    }
  }

  lemma {:induction false} RunVouched(s: System, steps: seq<Step>)
    requires Safe(s) && AllVouched(s)
    ensures AllVouched(Run(s, steps))
    decreases |steps|
  {
    if steps != [] {
      ApplyVouched(s, steps[0]);
      ApplySafe(s, steps[0]);
      RunVouched(Apply(s, steps[0]), steps[1..]);
    }
  }

  /**
   Under any interleaving of handlers, rollbacks, publishers and crashes: a
   payment past authorization has its authorized event in the outbox; any such
   event carries figures an approver of that payment signed, with the payable
   they give, and a paid event such a payable; and an event that is marked
   dispatched was taken by the broker. The
   stored money columns restate each other.
   */
  lemma AuthorizationReachesFinance(now: int, steps: seq<Step>)
    ensures var s := Run(Initial(now), steps);
      && (forall id :: id in s.payments && s.payments[id].chain.stage >= 3 ==> Announced(s.outbox, id))
      && (forall k :: 0 <= k < |s.outbox.rows| && s.outbox.rows[k].event.Authorized? ==>
        var e := s.outbox.rows[k].event;
        e.figures in Signatures(s, e.payment) && Consistent(e.figures))
      && (forall k :: 0 <= k < |s.outbox.rows| && s.outbox.rows[k].event.PaidOut? ==>
        var e := s.outbox.rows[k].event;
        exists f <- Signatures(s, e.payment) :: Consistent(f) && e.payable == f.payable)
      && (forall k :: 0 <= k < |s.outbox.rows| && s.outbox.rows[k].dispatched ==>
            s.outbox.rows[k].trace.deliveries >= 1)
      && (forall id :: id in s.payments ==> Consistent(s.payments[id].figures))
  {
    RunSafe(Initial(now), steps);
    RunVouched(Initial(now), steps);
    var s := Run(Initial(now), steps);
    forall id | id in s.payments
      ensures RowSafe(s, id)
    {
    }
    assert forall k :: 0 <= k < |s.outbox.rows| ==> Outbox.RowSound(s.outbox.rows[k], s.outbox.now);
    assert forall k :: 0 <= k < |s.outbox.rows| ==> Vouched(s, s.outbox.rows[k].event);
  }

  // ----- What was signed is what is authorized -----

  /** Every signature was given, and every authorization sent, for the figures the row carries. */
  ghost predicate Honoured(s: System) {
    && (forall id :: id in s.payments ==> SignedFor(s, id))
    && (forall k :: 0 <= k < |s.outbox.rows| ==> SentFor(s, s.outbox.rows[k].event))
  }

  ghost predicate SignedFor(s: System, id: Id)
    requires id in s.payments
  {
    forall k :: 0 <= k < |Signatures(s, id)| ==> Signatures(s, id)[k] == s.payments[id].figures
  }

  ghost predicate SentFor(s: System, e: Event) {
    e.payment in s.payments ==>
      var f := s.payments[e.payment].figures;
      if e.Authorized? then e.figures == f else e.payable == f.payable
  }

  ghost predicate Bound(s: System) {
    Honoured(s) && Begun(s) && InFlightTrue(s)
  }

  /** A row leaves stage 0 with its first signature, and nothing is authorized before. */
  ghost predicate Begun(s: System) {
    && (forall id :: id in s.payments ==> (s.payments[id].chain.stage == 0 <==> Signatures(s, id) == []))
    && (forall k :: 0 <= k < |s.outbox.rows| && s.outbox.rows[k].event.payment in s.payments ==>
      s.payments[s.outbox.rows[k].event.payment].chain.stage >= 1)
  }

  /** The stage check of PatchPayment still holds when its write lands. */
  predicate PatchInTime(s: System, step: Step) {
    step.WritePatch? && step.h in s.handlers && s.handlers[step.h].Patching? && s.handlers[step.h].id in s.payments
    ==> s.payments[s.handlers[step.h].id].chain.stage == 0
  }

  predicate PatchesInTime(s: System, steps: seq<Step>)
    decreases |steps|
  {
    steps == [] || (PatchInTime(s, steps[0]) && PatchesInTime(Apply(s, steps[0]), steps[1..]))
  }

  lemma StillHonoured(s: System, s': System)
    requires Bound(s) && s'.payments == s.payments && s'.signed == s.signed
    requires |s'.outbox.rows| == |s.outbox.rows|
    requires forall k :: 0 <= k < |s.outbox.rows| ==> s'.outbox.rows[k].event == s.outbox.rows[k].event
    ensures Honoured(s')
  {
    forall id | id in s'.payments ensures SignedFor(s', id) { assert SignedFor(s, id); }
    forall k | 0 <= k < |s'.outbox.rows| ensures SentFor(s', s'.outbox.rows[k].event) {
      assert SentFor(s, s.outbox.rows[k].event);
    }
  }

  lemma CommitHonoured(s: System, s': System, h: nat)
    requires Bound(s) && Commits(s, s', h)
    ensures Honoured(s')
  {
    var t := s.handlers[h];
    assert TxTrue(s, t);
    forall id | id in s'.payments ensures SignedFor(s', id) { if id in s.payments { assert SignedFor(s, id); } }
    forall k | 0 <= k < |s'.outbox.rows| ensures SentFor(s', s'.outbox.rows[k].event) {
      if k < |s.outbox.rows| {
        assert SentFor(s, s.outbox.rows[k].event);
      } else {
        assert Speaks(t, t.staged[k - |s.outbox.rows|]);
      }
    }
  }

  lemma CommitBegun(s: System, s': System, h: nat)
    requires Bound(s) && Commits(s, s', h) && s.handlers[h].stored.chain.stage >= 1
    ensures Begun(s')
  {
    var t := s.handlers[h];
    assert TxTrue(s, t);
    forall k | |s.outbox.rows| <= k < |s'.outbox.rows| && s'.outbox.rows[k].event.Authorized?
      ensures s'.outbox.rows[k].event.payment == t.id
    {
      assert Speaks(t, t.staged[k - |s.outbox.rows|]);
    }
  }

  /** A patch write keeps faith with the signatures exactly when it is in time or changes nothing. */
  lemma PatchHonouredExactly(s: System, h: nat, amount: Option<int>, retention: Option<int>)
    requires Bound(s)
    requires h in s.handlers && s.handlers[h].Patching? && s.handlers[h].id in s.payments
    requires !Locked(s, s.handlers[h].id)
    ensures var row := s.payments[s.handlers[h].id];
      var f := Patched(s.handlers[h].row.figures, amount, retention);
      Honoured(Apply(s, WritePatch(h, amount, retention)))
      <==> (f.None? || f.value == row.figures || row.chain.stage == 0)
  {
    var s' := Apply(s, WritePatch(h, amount, retention));
    var id := s.handlers[h].id;
    if s'.payments[id].figures == s.payments[id].figures {
      assert s'.payments == s.payments;
      StillHonoured(s, s');
    } else if s.payments[id].chain.stage == 0 {
      forall i | i in s'.payments ensures SignedFor(s', i) { assert SignedFor(s, i); }
      forall k | 0 <= k < |s'.outbox.rows| ensures SentFor(s', s'.outbox.rows[k].event) {
        assert SentFor(s, s.outbox.rows[k].event);
      }
    } else {
      assert SignedFor(s, id) && Signatures(s', id)[0] == s.payments[id].figures;
      assert !SignedFor(s', id);
    }
  }

  lemma PatchBound(s: System, h: nat, amount: Option<int>, retention: Option<int>)
    requires Bound(s) && PatchInTime(s, WritePatch(h, amount, retention))
    ensures var s' := Apply(s, WritePatch(h, amount, retention)); Honoured(s') && Begun(s')
  {
    var s' := Apply(s, WritePatch(h, amount, retention));
    PatchWrites(s, h, amount, retention);
    if h in s.handlers && s.handlers[h].Patching? && s'.payments != s.payments {
      PatchHonouredExactly(s, h, amount, retention);
    } else {
      StillHonoured(s, s');
    }
  }

  lemma CreateBound(s: System, step: Step)
    requires Bound(s) && step.Create?
    ensures Honoured(Apply(s, step)) && Begun(Apply(s, step))
  {
    var s' := Apply(s, step);
    forall id | id in s'.payments ensures SignedFor(s', id) {
      if id in s.payments { assert SignedFor(s, id); }
    }
    forall k | 0 <= k < |s'.outbox.rows| ensures SentFor(s', s'.outbox.rows[k].event) {
      assert SentFor(s, s.outbox.rows[k].event);
    }
  }

  lemma DeleteBound(s: System, id: Id)
    requires Bound(s)
    ensures Honoured(Apply(s, Delete(id))) && Begun(Apply(s, Delete(id)))
  {
    var s' := Apply(s, Delete(id));
    forall i | i in s'.payments ensures SignedFor(s', i) { assert SignedFor(s, i); }
    forall k | 0 <= k < |s'.outbox.rows| ensures SentFor(s', s'.outbox.rows[k].event) {
      assert SentFor(s, s.outbox.rows[k].event);
    }
  }

  lemma ApplyBound(s: System, step: Step)
    requires Safe(s) && Bound(s) && PatchInTime(s, step)
    ensures Bound(Apply(s, step))
  {
    var s' := Apply(s, step);
    ApplyTrue(s, step);
    match step {
      case Commit(h) =>
        if s' != s {
          CommitEffect(s, h);
          assert HandlerSafe(s, s.handlers[h]);
          CommitHonoured(s, s', h);
          CommitBegun(s, s', h);
        }
      case WritePatch(h, amount, retention) => PatchBound(s, h, amount, retention);
      case Create(_, _, _, _, _) => CreateBound(s, step);
      case Delete(id) => DeleteBound(s, id);
      case _ =>
        QuietStep(s, step);
        QuietBound(s, s');
    }
  }

  lemma QuietBound(s: System, s': System)
    requires Bound(s) && s'.payments == s.payments && s'.signed == s.signed
    requires |s'.outbox.rows| == |s.outbox.rows|
    requires forall k :: 0 <= k < |s.outbox.rows| ==> s'.outbox.rows[k].event == s.outbox.rows[k].event
    ensures Honoured(s') && Begun(s')
  {
    StillHonoured(s, s');
  }

  lemma {:induction false} RunBound(s: System, steps: seq<Step>)
    requires Safe(s) && Bound(s) && PatchesInTime(s, steps)
    ensures Bound(Run(s, steps))
    decreases |steps|
  {
    if steps != [] {
      ApplyBound(s, steps[0]);
      ApplySafe(s, steps[0]);
      RunBound(Apply(s, steps[0]), steps[1..]);
    }
  }

  /**
   When no patch lands late, every payment past authorization has an event in
   the outbox carrying the row's own figures, and those are the figures each
   approver signed, however the advancing handlers overlap.
   */
  lemma SignedIsAuthorized(now: int, steps: seq<Step>)
    requires PatchesInTime(Initial(now), steps)
    ensures var s := Run(Initial(now), steps);
      && Honoured(s)
      && forall id :: id in s.payments && s.payments[id].chain.stage >= 3 ==>
        exists k :: 0 <= k < |s.outbox.rows| && s.outbox.rows[k].event == Authorized(id, s.payments[id].figures)
  {
    RunBound(Initial(now), steps);
    RunSafe(Initial(now), steps);
    var s := Run(Initial(now), steps);
    forall id | id in s.payments && s.payments[id].chain.stage >= 3
      ensures exists k :: 0 <= k < |s.outbox.rows| && s.outbox.rows[k].event == Authorized(id, s.payments[id].figures)
    {
      assert RowSafe(s, id);
      var k :| 0 <= k < |s.outbox.rows| && s.outbox.rows[k].event.Authorized? && s.outbox.rows[k].event.payment == id;
      assert SentFor(s, s.outbox.rows[k].event);
    }
  }

  // ----- Corrections that are not interleaved -----

  /** A step of anything but a correction, or a correction from its read to its end. */
  datatype Move = Plain(step: Step) | Correct(h: nat, id: Id, newAmount: Option<int>, newRetention: Option<int>)

  predicate Whole(m: Move) {
    m.Plain? ==> !m.step.ReadForPatch? && !m.step.WritePatch?
  }

  function Steps(moves: seq<Move>): seq<Step> {
    if moves == [] then []
    else
      (match moves[0]
       case Plain(step) => [step]
       case Correct(h, id, amount, retention) => [ReadForPatch(h, id), WritePatch(h, amount, retention), Abort(h)])
      + Steps(moves[1..])
  }

  ghost predicate NoneCorrecting(s: System) {
    forall h :: h in s.handlers ==> !s.handlers[h].Patching?
  }

  lemma CorrectionInTime(s: System, h: nat, id: Id, amount: Option<int>, retention: Option<int>)
    requires Safe(s) && NoneCorrecting(s)
    ensures var read := Apply(s, ReadForPatch(h, id));
      PatchInTime(read, WritePatch(h, amount, retention))
      && NoneCorrecting(Apply(Apply(read, WritePatch(h, amount, retention)), Abort(h)))
  {
    var read := Apply(s, ReadForPatch(h, id));
    PatchWrites(read, h, amount, retention);
    assert id in s.payments ==> RowSafe(s, id);
  }

  /** Corrections run one at a time, each from read to write, always land in time. */
  lemma {:induction false} CorrectionsInTime(s: System, moves: seq<Move>)
    requires Safe(s) && NoneCorrecting(s) && forall m <- moves :: Whole(m)
    ensures PatchesInTime(s, Steps(moves))
    decreases |moves|
  {
    if moves != [] {
      var steps, rest := Steps(moves), Steps(moves[1..]);
      assert Whole(moves[0]);
      match moves[0] {
        case Plain(step) =>
          assert steps[0] == step && steps[1..] == rest;
          ApplySafe(s, step);
          PlainStartsNone(s, step);
          CorrectionsInTime(Apply(s, step), moves[1..]);
        case Correct(h, id, amount, retention) =>
          var a, b, c := ReadForPatch(h, id), WritePatch(h, amount, retention), Abort(h);
          var s1, s2 := Apply(s, a), Apply(Apply(s, a), b);
          CorrectionInTime(s, h, id, amount, retention);
          ApplySafe(s, a);
          ApplySafe(s1, b);
          ApplySafe(s2, c);
          CorrectionsInTime(Apply(s2, c), moves[1..]);
          assert steps == [a, b, c] + rest;
          ThreeInTime(s, a, b, c, rest);
      }
    }
  }

  lemma ThreeInTime(s: System, a: Step, b: Step, c: Step, rest: seq<Step>)
    requires PatchInTime(s, a) && PatchInTime(Apply(s, a), b) && PatchInTime(Apply(Apply(s, a), b), c)
    requires PatchesInTime(Apply(Apply(Apply(s, a), b), c), rest)
    ensures PatchesInTime(s, [a, b, c] + rest)
  {
    var s1, s2 := Apply(s, a), Apply(Apply(s, a), b);
    assert ([c] + rest)[1..] == rest && PatchesInTime(s2, [c] + rest);
    assert ([b, c] + rest)[1..] == [c] + rest && PatchesInTime(s1, [b, c] + rest);
    assert ([a, b, c] + rest)[1..] == [b, c] + rest;
  }

  lemma PlainStartsNone(s: System, step: Step)
    requires NoneCorrecting(s) && !step.ReadForPatch? && !step.WritePatch?
    ensures NoneCorrecting(Apply(s, step))
  {
  }

  /** So then what every approver signed is what is stored and what is announced, on every run. */
  lemma SignedIsAuthorizedAtomically(now: int, moves: seq<Move>)
    requires forall m <- moves :: Whole(m)
    ensures var s := Run(Initial(now), Steps(moves));
      && Honoured(s)
      && forall id :: id in s.payments && s.payments[id].chain.stage >= 3 ==>
        exists k :: 0 <= k < |s.outbox.rows| && s.outbox.rows[k].event == Authorized(id, s.payments[id].figures)
  {
    CorrectionsInTime(Initial(now), moves);
    SignedIsAuthorized(now, Steps(moves));
  }

  /** One payment, read by a correction (handler 0) and by an approver (handler 1). */
  function TwoReaders(now: int): System {
    var row := PaymentRow("M", "C", FiguresOf(1000, 0), NewChain(Payment, "", ""));
    System(map["P" := row], map[0 := Patching("P", row), 1 := Advancing("P", row)], Outbox.Initial(now), map["P" := []])
  }

  lemma TwoReadersReached(now: int)
    ensures Run(Initial(now), [Create("P", "M", "C", 1000, 0), ReadForPatch(0, "P"), Read(1, "P")]) == TwoReaders(now)
  {
    var steps := [Create("P", "M", "C", 1000, 0), ReadForPatch(0, "P"), Read(1, "P")];
    var s1 := Apply(Initial(now), steps[0]);
    assert s1.payments == TwoReaders(now).payments;
    var s2 := Apply(s1, steps[1]);
    var s3 := Apply(s2, steps[2]);
    assert s3 == TwoReaders(now);
    assert steps[1..] == [steps[1], steps[2]] && steps[1..][1..] == [steps[2]];
    assert Run(s2, [steps[2]]) == s3;
  }

  /** The approver has signed and committed; the correction still holds the row it read. */
  function SignedMeanwhile(now: int, chain: Chain): System {
    TwoReaders(now).(
      payments := map["P" := PaymentRow("M", "C", FiguresOf(1000, 0), chain)],
      handlers := map[0 := Patching("P", PaymentRow("M", "C", FiguresOf(1000, 0), NewChain(Payment, "", "")))],
      signed := map["P" := [FiguresOf(1000, 0)]])
  }

  lemma ApproverSigns(now: int, actor: string, date: string) returns (chain: Chain)
    ensures Run(TwoReaders(now), [Update(1, actor, date), Commit(1)]) == SignedMeanwhile(now, chain) && chain.stage == 1
  {
    var s := TwoReaders(now);
    var moved := AdvanceChain(Payment, NewChain(Payment, "", ""), actor, date);
    assert moved.Moved? && moved.signed == Some(0) && moved.chain.stage == 1;
    chain := moved.chain;
    var s1 := Apply(s, Update(1, actor, date));
    assert s1.handlers[1] == InTx("P", s.payments["P"].(chain := chain), [], []);
    assert Signatures(s1, "P") + [FiguresOf(1000, 0)] == [FiguresOf(1000, 0)];
    var s2 := Apply(s1, Commit(1));
    assert s2.handlers == map[0 := s.handlers[0]];
    assert s2.signed == map["P" := [FiguresOf(1000, 0)]];
    assert s2.payments == SignedMeanwhile(now, chain).payments;
    RunPair(s, Update(1, actor, date), Commit(1));
  }

  /** A correction read before the first signature and written after it: the signature no longer matches. */
  lemma StalePatchBreaks(now: int, actor: string, date: string)
    ensures var s := Run(Initial(now), [Create("P", "M", "C", 1000, 0), ReadForPatch(0, "P"), Read(1, "P"),
                                        Update(1, actor, date), Commit(1), WritePatch(0, Some(2000), None)]);
      && "P" in s.payments && s.payments["P"].chain.stage == 1
      && s.payments["P"].figures.amount == 2000
      && Signatures(s, "P") == [FiguresOf(1000, 0)]
      && !Honoured(s)
  {
    var start := [Create("P", "M", "C", 1000, 0), ReadForPatch(0, "P"), Read(1, "P")];
    var sign, write := [Update(1, actor, date), Commit(1)], [WritePatch(0, Some(2000), None)];
    assert [Create("P", "M", "C", 1000, 0), ReadForPatch(0, "P"), Read(1, "P"),
            Update(1, actor, date), Commit(1), WritePatch(0, Some(2000), None)] == start + sign + write;
    RunAppend(Initial(now), start + sign, write);
    RunAppend(Initial(now), start, sign);
    TwoReadersReached(now);
    var chain := ApproverSigns(now, actor, date);
    LateFirstWrite(now, chain);
  }

  lemma LateFirstWrite(now: int, chain: Chain)
    requires chain.stage == 1
    ensures var s := Run(SignedMeanwhile(now, chain), [WritePatch(0, Some(2000), None)]);
      && "P" in s.payments && s.payments["P"].chain.stage == 1
      && s.payments["P"].figures.amount == 2000
      && Signatures(s, "P") == [FiguresOf(1000, 0)]
      && !Honoured(s)
  {
    var signed := SignedMeanwhile(now, chain);
    assert !Locked(signed, "P");
    var s := Apply(signed, WritePatch(0, Some(2000), None));
    assert Run(signed, [WritePatch(0, Some(2000), None)]) == s;
    assert !SignedFor(s, "P") by {
      assert Signatures(s, "P")[0] == FiguresOf(1000, 0);
    }
  }
}
