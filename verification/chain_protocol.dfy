/**
 The chain columns under concurrency. A handler reads a row, computes its next
 chain in memory, and writes the whole chain back by id: a later write
 overwrites an earlier one, whatever happened in between.
 */
module ChainProtocol {
  import opened ApprovalChain
  import opened GovernanceChains
  import opened Workflow

  type Id = string

  /** `read` holds, for each handler at work, the row it read and the columns it saw. */
  datatype Table = Table(kind: Kind, rows: map<Id, Chain>, read: map<nat, (Id, Chain)>)

  datatype Step =
    | Create(id: Id, raisedBy: string, date: string)
    | Read(h: nat, id: Id)
    | WriteAdvance(h: nat, actor: string, date: string)
    | WriteReject(h: nat, actor: string, date: string, reason: string)
    | WriteConvert(h: nat)
    | Delete(id: Id)
    | Abort(h: nat)

  /** `UPDATE ... WHERE id`: no effect when the row is gone. */
  function Write(s: Table, h: nat, id: Id, c: Chain): Table {
    var rows := if id in s.rows then s.rows[id := c] else s.rows;
    s.(rows := rows, read := s.read - {h})
  }

  function Apply(s: Table, step: Step): Table {
    match step
    case Create(id, raisedBy, date) =>
      if id in s.rows then s else s.(rows := s.rows[id := NewChain(s.kind, raisedBy, date)])
    case Read(h, id) =>
      if h in s.read || id !in s.rows then s else s.(read := s.read[h := (id, s.rows[id])])
    case WriteAdvance(h, actor, date) =>
      if h !in s.read then s
      else (match AdvanceChain(s.kind, s.read[h].1, actor, date)
            case Moved(c, _) => Write(s, h, s.read[h].0, c)
            case _ => s.(read := s.read - {h}))
    case WriteReject(h, actor, date, reason) =>
      if h !in s.read || s.kind == Payment then s
      else Write(s, h, s.read[h].0, RejectChain(s.kind, s.read[h].1, actor, date, reason))
    case WriteConvert(h) =>
      if h !in s.read || s.kind != Requisition || s.read[h].1.status != RowStatus.Approved then s
      else Write(s, h, s.read[h].0, s.read[h].1.(status := RowStatus.Converted))
    case Delete(id) => s.(rows := s.rows - {id})
    case Abort(h) => s.(read := s.read - {h})
  }

  function Run(s: Table, steps: seq<Step>): Table
    decreases |steps|
  {
    if steps == [] then s else Run(Apply(s, steps[0]), steps[1..])
  }

  /** Segregation of duties, for every row still standing. */
  ghost predicate Standing(kind: Kind, c: Chain) {
    (kind == Payment || c.status != RowStatus.Rejected) ==> Segregated(c)
  }

  ghost predicate Sound(s: Table) {
    && (forall id :: id in s.rows ==> Standing(s.kind, s.rows[id]))
    && (forall h :: h in s.read ==> Standing(s.kind, s.read[h].1))
  }

  lemma ApplySound(s: Table, step: Step)
    requires Sound(s)
    ensures Sound(Apply(s, step))
  {
    if step.WriteAdvance? && step.h in s.read {
      var c := s.read[step.h].1;
      if AdvanceChain(s.kind, c, step.actor, step.date).Moved? {
        AdvanceKeepsSegregated(s.kind, c, step.actor, step.date);
      }
    }
  }

  lemma {:induction false} RunSound(s: Table, steps: seq<Step>)
    requires Sound(s)
    ensures Sound(Run(s, steps))
    decreases |steps|
  {
    if steps != [] {
      ApplySound(s, steps[0]);
      RunSound(Apply(s, steps[0]), steps[1..]);
    }
  }

  /**
   However handlers overlap, lost updates included: every stored row that is
   not Rejected has no two neighbouring signatures, below its cursor, by one
   approver.
   */
  lemma SegregationSurvivesInterleaving(s: Table, steps: seq<Step>)
    requires s.read == map[] && forall id :: id in s.rows ==> Segregated(s.rows[id])
    ensures var s' := Run(s, steps);
      forall id :: id in s'.rows && s'.rows[id].status != RowStatus.Rejected ==> Segregated(s'.rows[id])
  {
    RunSound(s, steps);
    RunKind(s, steps);
    var s' := Run(s, steps);
    forall id | id in s'.rows && s'.rows[id].status != RowStatus.Rejected
      ensures Segregated(s'.rows[id])
    {
      assert Standing(s'.kind, s'.rows[id]);
    }
  }

  lemma {:induction false} RunKind(s: Table, steps: seq<Step>)
    ensures Run(s, steps).kind == s.kind
    decreases |steps|
  {
    if steps != [] {
      RunKind(Apply(s, steps[0]), steps[1..]);
    }
  }

  /**
   A lost update is real: of two approvers who read the same row, both are
   told they signed, and only the later signature is stored.
   */
  lemma LostUpdate(c: Chain, a: string, b: string, date: string)
    requires c == NewChain(Payment, "", "") && a != b
    ensures var s := Table(Payment, map["P" := c], map[]);
      var s' := Run(s, [Read(0, "P"), Read(1, "P"), WriteAdvance(0, a, date), WriteAdvance(1, b, date)]);
      && "P" in s'.rows && s'.rows["P"].stage == 1
      && s'.rows["P"].slots == BlankSlots(Payment)[0 := Signature(PAYMENT_STAGES[0], b, date, "")]
  {
    var s := Table(Payment, map["P" := c], map[]);
    var s1 := Apply(s, Read(0, "P"));
    var s2 := Apply(s1, Read(1, "P"));
    assert s2.read == map[0 := ("P", c), 1 := ("P", c)];
    var first, second := AdvanceChain(Payment, c, a, date), AdvanceChain(Payment, c, b, date);
    assert first.Moved? && second.Moved?;
    var s3 := Apply(s2, WriteAdvance(0, a, date));
    assert s3.read == map[1 := ("P", c)];
    var s4 := Apply(s3, WriteAdvance(1, b, date));
    assert s4.rows == map["P" := second.chain];
    RunFour(s, Read(0, "P"), Read(1, "P"), WriteAdvance(0, a, date), WriteAdvance(1, b, date));
  }

  lemma RunFour(s: Table, a: Step, b: Step, c: Step, d: Step)
    ensures Run(s, [a, b, c, d]) == Apply(Apply(Apply(Apply(s, a), b), c), d)
  {
    assert [a, b, c, d][1..] == [b, c, d] && [b, c, d][1..] == [c, d] && [c, d][1..] == [d];
    var s2 := Apply(Apply(s, a), b);
    assert Run(s2, [c, d]) == Run(Apply(s2, c), [d]) == Apply(Apply(s2, c), d);
    assert Run(Apply(s, a), [b, c, d]) == Run(s2, [c, d]);
  }
}
