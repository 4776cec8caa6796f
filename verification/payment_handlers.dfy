/**
 The payment handlers, run start to finish without interference. Each is the
 protocol's own sequence of steps, so what holds of every interleaving holds
 of them; a failed publish or commit leaves the tables as they were.
 */
module PaymentHandlers {
  import opened PaymentFigures
  import opened PaymentProtocol
  import opened Workflow
  import opened WorkflowEntities
  import opened Wrappers
  import Int64
  import Outbox

  datatype Status = Ok | Created | BadRequest | Forbidden | NotFound | Conflict | Unprocessable | ServerError

  /** A read and an update: the transaction holds the row it will write and the events it owes. */
  lemma UpdateAlone(s: System, id: Id, actor: string, date: string)
    requires s.handlers == map[] && id in s.payments && s.payments[id].chain.stage >= 0
    requires AdvanceChain(Payment, s.payments[id].chain, actor, date).Moved?
    ensures var moved := AdvanceChain(Payment, s.payments[id].chain, actor, date);
      var stored := s.payments[id].(chain := moved.chain);
      && moved.signed == Some(s.payments[id].chain.stage)
      && Apply(Apply(s, Read(0, id)), Update(0, actor, date))
         == s.(handlers := map[0 := InTx(id, stored, Announcements(id, stored, moved.signed.value), [])])
  {
    var s1 := Apply(s, Read(0, id));
    assert s1.handlers == map[0 := Advancing(id, s.payments[id])];
    assert !Locked(s1, id);
  }

  lemma PublishAlone(s: System, id: Id, stored: PaymentRow, events: seq<Event>)
    requires s.handlers == map[0 := InTx(id, stored, events, [])] && |events| <= 1
    ensures Apply(s, Publish(0)) == s.(handlers := map[0 := InTx(id, stored, [], events)])
  {
    if events != [] {
      assert events == [events[0]];
      assert events[1..] == [] && [] + [events[0]] == events;
    }
  }

  /** Publishing what is owed, then committing. */
  lemma CommitAlone(s: System, id: Id, stored: PaymentRow, events: seq<Event>)
    requires s.handlers == map[0 := InTx(id, stored, events, [])] && |events| <= 1
    ensures Apply(Apply(s, Publish(0)), Commit(0))
            == System(s.payments[id := stored], map[], EnqueueAll(s.outbox, events),
                      s.signed[id := Signatures(s, id) + [stored.figures]])
  {
    var s1 := Apply(s, Publish(0));
    PublishAlone(s, id, stored, events);
    var s2 := Apply(s1, Commit(0));
    assert s1.handlers - {0} == map[];
  }

  /** What the steps of an advance come to when nothing interferes. */
  lemma AdvanceAlone(s: System, id: Id, actor: string, date: string)
    requires s.handlers == map[] && id in s.payments && s.payments[id].chain.stage >= 0
    requires AdvanceChain(Payment, s.payments[id].chain, actor, date).Moved?
    ensures var moved := AdvanceChain(Payment, s.payments[id].chain, actor, date);
      var stored := s.payments[id].(chain := moved.chain);
      && moved.signed == Some(s.payments[id].chain.stage)
      && Run(s, [Read(0, id), Update(0, actor, date), Publish(0), Commit(0)])
         == System(s.payments[id := stored], map[],
                   EnqueueAll(s.outbox, Announcements(id, stored, moved.signed.value)),
                   s.signed[id := Signatures(s, id) + [stored.figures]])
  {
    var moved := AdvanceChain(Payment, s.payments[id].chain, actor, date);
    var stored := s.payments[id].(chain := moved.chain);
    var events := Announcements(id, stored, moved.signed.value);
    UpdateAlone(s, id, actor, date);
    CommitAlone(s.(handlers := map[0 := InTx(id, stored, events, [])]), id, stored, events);
    RunFour(s, Read(0, id), Update(0, actor, date), Publish(0), Commit(0));
  }

  lemma PatchAlone(s: System, id: Id, amount: Option<int>, retention: Option<int>)
    requires s.handlers == map[]
    ensures Run(s, [ReadForPatch(0, id), WritePatch(0, amount, retention)])
      == if id !in s.payments || s.payments[id].chain.stage > 0 then s
         else
           var f := Patched(s.payments[id].figures, amount, retention);
           if f.None? then s else s.(payments := s.payments[id := s.payments[id].(figures := f.value)])
  {
    RunPair(s, ReadForPatch(0, id), WritePatch(0, amount, retention));
    var s1 := Apply(s, ReadForPatch(0, id));
    if s1 != s {
      assert s1.handlers == map[0 := Patching(id, s.payments[id])];
      assert s1.handlers - {0} == map[] && !Locked(s1, id);
    }
  }

  class PaymentDesk {
    var payments: map<Id, PaymentRow>
    var outbox: Outbox.State<Event>
    ghost var signed: map<Id, seq<Figures>>

    ghost function View(): System
      reads this
    {
      System(payments, map[], outbox, signed)
    }

    constructor (now: int)
      ensures View() == Initial(now)
    {
      payments, outbox, signed := map[], Outbox.Initial(now), map[];
    }

    /** Amount and retention default to the milestone's value and the contract's retention. */
    method CreatePayment(id: Id, milestone: Id, contract: Id, value: int, contractRetention: int,
                         inAmount: Option<int>, inRetention: Option<int>) returns (code: Status)
      requires id !in payments && id !in signed
      requires Int64.Fits(value) && (inAmount.Some? ==> Int64.Fits(inAmount.value))
      modifies this
      ensures var gross := if inAmount.Some? then inAmount.value else value;
        var percent := if inRetention.Some? then inRetention.value else contractRetention;
        && View() == Apply(old(View()), Create(id, milestone, contract, gross, percent))
        && (code == Status.Ok <==>
              exists other :: other in old(payments) && old(payments)[other].milestone == milestone)
        && (code == Status.Created <==> View() != old(View()))
    {
      if exists other :: other in payments && payments[other].milestone == milestone {
        return Status.Ok;
      }
      var gross := value;
      if inAmount.Some? {
        gross := inAmount.value;
      }
      if gross < 0 {
        return BadRequest;
      }
      var percent := contractRetention;
      if inRetention.Some? {
        percent := inRetention.value;
      }
      if percent < 0 {
        percent := 0;
      }
      if percent > 100 {
        percent := 100;
      }
      var p := new GovPayment(milestone, contract, gross, percent);
      payments := payments[id := PaymentRow(p.milestone, p.contract, p.Money(), p.Columns())];
      signed := signed[id := []];
      return Status.Created;
    }

    /** Corrects the figures of a payment nobody has signed. */
    method PatchPayment(id: Id, newAmount: Option<int>, newRetention: Option<int>) returns (code: Status)
      requires newAmount.Some? ==> Int64.Fits(newAmount.value)
      modifies this
      ensures View() == Run(old(View()), [ReadForPatch(0, id), WritePatch(0, newAmount, newRetention)])
      ensures code == NotFound <==> id !in old(payments)
      ensures code == Conflict <==> id in old(payments) && old(payments)[id].chain.stage > 0
      ensures code != Status.Ok ==> View() == old(View())
    {
      ghost var s := View();
      PatchAlone(s, id, newAmount, newRetention);
      if id !in payments {
        return NotFound;
      }
      var row := payments[id];
      var p := new GovPayment.FromRow(row.milestone, row.contract, row.figures, row.chain);
      if p.stage > 0 {
        return Conflict;
      }
      if newAmount.Some? {
        if newAmount.value < 0 {
          return BadRequest;
        }
        p.amount := newAmount.value;
      }
      if newRetention.Some? {
        if newRetention.value < 0 || newRetention.value > 100 {
          return BadRequest;
        }
        p.retention := newRetention.value;
      }
      p.RecomputePayable();
      payments := payments[id := row.(figures := p.Money())];
      return Status.Ok;
    }

    /**
     Advances the chain and publishes in one transaction. When publishing or
     committing fails nothing is written, and the request may be retried.
     */
    method AdvancePayment(id: Id, actor: string, date: string, publishFails: bool, commitFails: bool)
      returns (code: Status)
      requires Safe(View())
      modifies this
      ensures code == Status.Ok ==>
        View() == Run(old(View()), [Read(0, id), Update(0, actor, date), Publish(0), Commit(0)])
      ensures code != Status.Ok ==> View() == old(View())
      ensures code == NotFound <==> id !in old(payments)
      ensures id in old(payments) ==>
        match AdvanceChain(Payment, old(payments)[id].chain, actor, date)
        case Succession => code == Forbidden
        case Complete => code == Unprocessable
        case Moved(chain, _) =>
          code == if commitFails || (publishFails && 3 <= chain.stage <= 4) then ServerError else Status.Ok
      ensures code == Status.Ok ==>
        var row := old(payments)[id];
        && id in payments && payments[id].figures == row.figures && payments[id].chain.stage == row.chain.stage + 1
        && outbox == (if row.chain.stage == 2 then
                        Outbox.Apply(old(outbox), Outbox.Enqueue(Authorized(id, row.figures)))
                      else if row.chain.stage == 3 then
                        Outbox.Apply(old(outbox), Outbox.Enqueue(PaidOut(id, row.figures.payable)))
                      else old(outbox))
    {
      if id !in payments {
        return NotFound;
      }
      ghost var s := View();
      assert RowSafe(s, id);
      var row := payments[id];
      var p := new GovPayment.FromRow(row.milestone, row.contract, row.figures, row.chain);
      var completed, authorized, paid, outcome := p.Advance(actor, date);
      if outcome == SameActor {
        return Forbidden;
      }
      if outcome != Done {
        return Unprocessable;
      }
      AdvanceAlone(s, id, actor, date);
      // The transaction works on copies; committing installs them.
      var updated := payments[id].(chain := p.Columns());
      var table := payments[id := updated];
      var events := outbox;
      if authorized || paid {
        if publishFails {
          return ServerError;
        }
        var e := if authorized then Authorized(id, updated.figures) else PaidOut(id, updated.figures.payable);
        events := Outbox.Apply(events, Outbox.Enqueue(e));
        assert EnqueueAll(outbox, [e]) == events by {
          assert [e][..0] == [];
        }
      }
      if commitFails {
        return ServerError;
      }
      payments, outbox := table, events;
      signed := signed[id := Signatures(s, id) + [updated.figures]];
      return Status.Ok;
    }
  }
}
