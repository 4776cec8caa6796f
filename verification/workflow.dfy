/**
 The three governance workflows over their stored chain columns (stage, status
 and signatures), as values. The classes of `workflow_entities.dfy` update in
 place what these functions compute.
 */
module Workflow {
  import opened ApprovalChain
  import opened GovernanceChains
  import opened Text
  import opened Wrappers

  datatype Kind = Payment | Variation | Requisition

  const PAYMENT_STAGES := ["PM Approval", "Finance Review", "Payment Authorization", "Paid"]
  const VARIATION_STAGES := ["Project Manager", "Department Head", "Procurement", "Management"]
  const REQUISITION_STAGES := ["Project Manager", "Department Head", "Finance", "Management"]

  /** The stage whose completion tells finance to book the payable. */
  const AUTHORIZE_STAGE := 2

  function Stages(kind: Kind): (r: seq<string>)
    ensures |r| == 4
  {
    match kind
    case Payment => PAYMENT_STAGES
    case Variation => VARIATION_STAGES
    case Requisition => REQUISITION_STAGES
  }

  /** The status words; a payment in flight carries the label of its pending stage. */
  datatype RowStatus = AtStage(name: string) | Paid | Pending | PendingApproval | Approved | Rejected | Converted

  /** The columns the chain writers own. */
  datatype Chain = Chain(stage: int, status: RowStatus, slots: seq<Signature>)

  datatype Advance = Moved(chain: Chain, signed: Option<nat>) | Succession | Complete

  function BlankSlots(kind: Kind): (r: seq<Signature>)
    ensures |r| == 4
  {
    seq(4, i requires 0 <= i < 4 => Signature(Stages(kind)[i], "", "", ""))
  }

  function ResetShort(kind: Kind, slots: seq<Signature>): (r: seq<Signature>)
    ensures |r| >= 4
  {
    if |slots| < 4 then BlankSlots(kind) else slots
  }

  /** Payments carry the pending stage as their status; the others one pending word. */
  function StatusAt(kind: Kind, stage: int): RowStatus {
    match kind
    case Payment => if stage >= 4 then RowStatus.Paid else AtStage(if stage < 0 then "" else PAYMENT_STAGES[stage])
    case Variation => if stage >= 4 then RowStatus.Approved else RowStatus.Pending
    case Requisition => if stage >= 4 then RowStatus.Approved else RowStatus.PendingApproval
  }

  /** A new workflow; a variation or requisition is born signed by its raiser. */
  function NewChain(kind: Kind, raisedBy: string, date: string): Chain {
    if kind == Payment then Chain(0, StatusAt(kind, 0), BlankSlots(kind))
    else Chain(1, StatusAt(kind, 1), BlankSlots(kind)[0 := Signature(Stages(kind)[0], raisedBy, date, "")])
  }

  /** The body the three Advance methods share: ask the engine, sign the slot, move the cursor. */
  function Sign(kind: Kind, c: Chain, actor: string, date: string): Advance {
    var slots := ResetShort(kind, c.slots);
    match GovAdvance(Stages(kind), c.stage, Records(slots), actor)
    case ErrSelfSuccession => Succession
    case ErrWorkflowComplete => Complete
    case Completed(k, _) =>
      var stage := c.stage + 1;
      var status := if kind == Payment || stage >= 4 then StatusAt(kind, stage) else c.status;
      if k < 4 then
        Moved(Chain(stage, status, slots[k := Signature(Stages(kind)[k], actor, date, "")]), Some(k))
      else assert false; Complete
  }

  function AdvanceChain(kind: Kind, c: Chain, actor: string, date: string): Advance {
    match kind
    case Payment => if c.stage >= 4 then Complete else Sign(kind, c, actor, date)
    case Variation =>
      if c.status != RowStatus.Pending then Complete
      else if c.stage >= 4 then Moved(c.(status := RowStatus.Approved), None)
      else Sign(kind, c, actor, date)
    case Requisition =>
      if c.status != RowStatus.PendingApproval then Complete
      else if c.stage >= 4 then Moved(c.(status := RowStatus.Approved, slots := ResetShort(kind, c.slots)), None)
      else Sign(kind, c, actor, date)
  }

  /** Reject has no status guard: it ends any row, and signs the slot the row had reached. */
  function RejectChain(kind: Kind, c: Chain, actor: string, date: string, reason: string): Chain {
    var at := if c.stage >= |c.slots| then |c.slots| - 1 else c.stage;
    if at < 0 then c.(status := RowStatus.Rejected)
    else
      var written := c.slots[at].step;
      var step := if written == "" && at < 4 then Stages(kind)[at] else written;
      c.(status := RowStatus.Rejected, slots := c.slots[at := Signature(step, actor, date, reason)])
  }

  /** A rejection stands in the slot the row had reached, the last one of a finished row; nothing else is touched. */
  ghost predicate RejectionRecorded(before: Chain, after: Chain, actor: string, date: string, reason: string) {
    && after.status == RowStatus.Rejected && after.stage == before.stage && |after.slots| == |before.slots|
    && (before.stage < 0 ==> after.slots == before.slots)
    && forall i :: 0 <= i < |before.slots| ==>
      if i == before.stage || (i == |before.slots| - 1 && before.stage > i) then
        && after.slots[i].actor == actor && after.slots[i].date == date && after.slots[i].note == reason
        && (before.slots[i].step != "" ==> after.slots[i].step == before.slots[i].step)
      else after.slots[i] == before.slots[i]
  }

  lemma RejectRecords(kind: Kind, c: Chain, actor: string, date: string, reason: string)
    ensures RejectionRecorded(c, RejectChain(kind, c, actor, date, reason), actor, date, reason)
  {
  }

  /** A payment in flight is labelled with the stage it waits for. */
  lemma PaymentLabels(stage: int)
    ensures StatusAt(Payment, 0) == AtStage("PM Approval")
    ensures StatusAt(Payment, 1) == AtStage("Finance Review")
    ensures StatusAt(Payment, 2) == AtStage("Payment Authorization")
    ensures StatusAt(Payment, 3) == AtStage("Paid")
    ensures stage >= 4 ==> StatusAt(Payment, stage) == RowStatus.Paid
  {
  }

  // ----- Segregation of duties -----

  /** No two neighbouring signatures below the cursor are the same approver. */
  ghost predicate Segregated(c: Chain) {
    forall i :: 0 <= i < c.stage - 1 && i < |c.slots| - 1 ==>
      !SameApprover(c.slots[i].actor, c.slots[i + 1].actor)
  }

  lemma AdvanceKeepsSegregated(kind: Kind, c: Chain, actor: string, date: string)
    requires Segregated(c)
    requires AdvanceChain(kind, c, actor, date).Moved?
    ensures Segregated(AdvanceChain(kind, c, actor, date).chain)
  {
    var c' := AdvanceChain(kind, c, actor, date).chain;
    var slots := ResetShort(kind, c.slots);
    if c.stage > 0 && AdvanceChain(kind, c, actor, date).signed.Some? {
      var s := StateOf(Stages(kind), c.stage, Records(slots));
      assert s.history[|s.history| - 1].actor == slots[c.stage - 1].actor;
    }
    forall i | 0 <= i < c'.stage - 1 && i < |c'.slots| - 1
      ensures !SameApprover(c'.slots[i].actor, c'.slots[i + 1].actor)
    {
      assert |c.slots| >= 4 ==> slots == c.slots;
    }
  }

  /** What an advance can do to the cursor and the status of a variation or requisition. */
  lemma AdvanceShape(kind: Kind, c: Chain, actor: string, date: string)
    requires kind != Payment && AdvanceChain(kind, c, actor, date).Moved?
    ensures var c' := AdvanceChain(kind, c, actor, date).chain;
      && c.status == StatusAt(kind, 0)
      && c.stage <= c'.stage <= c.stage + 1
      && (c.stage < 4 ==> c'.stage == c.stage + 1)
      && c'.status == (if c'.stage >= 4 then RowStatus.Approved else c.status)
  {
  }

  /** An advance is refused for succession exactly when the previous slot holds the same approver. */
  lemma RefusedExactly(kind: Kind, c: Chain, actor: string, date: string)
    requires 0 < c.stage < 4 <= |c.slots|
    requires kind == Payment || c.status == StatusAt(kind, c.stage)
    ensures AdvanceChain(kind, c, actor, date)
            == if SameApprover(c.slots[c.stage - 1].actor, actor) then Succession
               else Moved(Chain(c.stage + 1,
                                StatusAt(kind, c.stage + 1),
                                c.slots[c.stage := Signature(Stages(kind)[c.stage], actor, date, "")]), Some(c.stage))
  {
    var s := StateOf(Stages(kind), c.stage, Records(c.slots));
    assert s.history[|s.history| - 1].actor == c.slots[c.stage - 1].actor;
  }

  /** When Reject breaks the rule: only by overwriting the last signature of a finished row. */
  lemma RejectSegregatedExactly(kind: Kind, c: Chain, actor: string, date: string, reason: string)
    requires Segregated(c)
    ensures Segregated(RejectChain(kind, c, actor, date, reason))
      <==> (c.stage < |c.slots| || |c.slots| < 2 || !SameApprover(c.slots[|c.slots| - 2].actor, actor))
  {
    var c' := RejectChain(kind, c, actor, date, reason);
    if c.stage >= |c.slots| >= 2 {
      var last := |c.slots| - 2;
      assert c'.slots[last].actor == c.slots[last].actor && c'.slots[last + 1].actor == actor;
    }
  }

  lemma DistinctInitials(a: string, b: string)
    requires a != "" && b != "" && LowerChar(a[0]) != LowerChar(b[0])
    ensures !SameApprover(a, b)
  {
    assert Lower(a)[0] != Lower(b)[0];
  }

  /** A finished variation rejected by its second-to-last signatory. */
  lemma RejectBreaksSegregation(c: Chain)
    requires c == Chain(4, RowStatus.Approved, [Signature("", "alice", "", ""), Signature("", "bob", "", ""),
                                        Signature("", "carol", "", ""), Signature("", "dave", "", "")])
    ensures Segregated(c)
    ensures !Segregated(RejectChain(Variation, c, "carol", "d", "late"))
  {
    DistinctInitials("alice", "bob");
    DistinctInitials("bob", "carol");
    DistinctInitials("carol", "dave");
    assert Lower("carol")[0] == 'c' && Lower("system")[0] == 's';
    RejectSegregatedExactly(Variation, c, "carol", "d", "late");
  }

  // ----- The stored projection refines the engine -----

  datatype Verdict = Accepted | RefusedSuccession | RefusedComplete

  function VerdictOf(kind: Kind, c: Chain, actor: string): Verdict {
    match AdvanceChain(kind, c, actor, "")
    case Moved(_, _) => Accepted
    case Succession => RefusedSuccession
    case Complete => RefusedComplete
  }

  function EngineVerdict(kind: Kind, s: State, actor: string): Verdict {
    match ApprovalChain.Advance(Stages(kind), s, actor)
    case Advanced(_) => Accepted
    case SelfSuccession => RefusedSuccession
    case NotInFlight => RefusedComplete
  }

  /** Store after one request: a refused advance writes nothing. */
  function Attempted(kind: Kind, c: Chain, actor: string, date: string): Chain {
    match AdvanceChain(kind, c, actor, date)
    case Moved(c', _) => c'
    case _ => c
  }

  datatype Request = Request(actor: string, date: string)

  function RunStored(kind: Kind, c: Chain, requests: seq<Request>): Chain
    decreases |requests|
  {
    if requests == [] then c
    else RunStored(kind, Attempted(kind, c, requests[0].actor, requests[0].date), requests[1..])
  }

  function Actors(requests: seq<Request>): (r: seq<string>)
    ensures |r| == |requests|
  {
    seq(|requests|, i requires 0 <= i < |requests| => requests[i].actor)
  }

  function Verdicts(kind: Kind, c: Chain, requests: seq<Request>): seq<Verdict>
    decreases |requests|
  {
    if requests == [] then []
    else [VerdictOf(kind, c, requests[0].actor)]
         + Verdicts(kind, Attempted(kind, c, requests[0].actor, requests[0].date), requests[1..])
  }

  function EngineVerdicts(kind: Kind, s: State, actors: seq<string>): seq<Verdict>
    decreases |actors|
  {
    if actors == [] then []
    else [EngineVerdict(kind, s, actors[0])]
         + EngineVerdicts(kind, Attempt(Stages(kind), s, actors[0]), actors[1..])
  }

  /** The engine state a stored row stands for. */
  function Projected(kind: Kind, c: Chain): State {
    StateOf(Stages(kind), c.stage, Records(c.slots))
  }

  /** A row only the chain's own writers have touched. */
  ghost predicate Orderly(kind: Kind, c: Chain) {
    && Aligned(Stages(kind), c.stage, Records(c.slots))
    && c.status == StatusAt(kind, c.stage)
  }

  lemma AttemptRefines(kind: Kind, c: Chain, actor: string, date: string)
    requires Orderly(kind, c)
    ensures Orderly(kind, Attempted(kind, c, actor, date))
    ensures Projected(kind, Attempted(kind, c, actor, date)) == Attempt(Stages(kind), Projected(kind, c), actor)
    ensures VerdictOf(kind, c, actor) == EngineVerdict(kind, Projected(kind, c), actor)
  {
    var desks, steps := Stages(kind), Records(c.slots);
    SigningProjectsAdvance(desks, c.stage, steps, actor);
    if c.stage < 4 && GovAdvance(desks, c.stage, steps, actor).Completed? {
      var slots' := c.slots[c.stage := Signature(desks[c.stage], actor, date, "")];
      assert Records(slots') == steps[c.stage := StepRecord(desks[c.stage], actor)];
    }
  }

  lemma {:induction false} RunRefines(kind: Kind, c: Chain, requests: seq<Request>)
    requires Orderly(kind, c)
    ensures Orderly(kind, RunStored(kind, c, requests))
    ensures Projected(kind, RunStored(kind, c, requests))
            == Run(Stages(kind), Projected(kind, c), Actors(requests))
    ensures Verdicts(kind, c, requests) == EngineVerdicts(kind, Projected(kind, c), Actors(requests))
    decreases |requests|
  {
    if requests != [] {
      AttemptRefines(kind, c, requests[0].actor, requests[0].date);
      RunRefines(kind, Attempted(kind, c, requests[0].actor, requests[0].date), requests[1..]);
      assert Actors(requests)[1..] == Actors(requests[1..]);
    }
  }

  /** The engine a new row starts from: a fresh chain, past its first desk when the raiser signed it. */
  function StartState(kind: Kind, raisedBy: string): State {
    if kind == Payment then New(Stages(kind)) else Attempt(Stages(kind), New(Stages(kind)), raisedBy)
  }

  /**
   Rebuilding state from the row on every request is the same as keeping an
   engine running: for every sequence of requests, blank actors included, the
   two accept and refuse alike and end in the same state.
   */
  lemma ProjectionRefinesEngine(kind: Kind, raisedBy: string, date: string, requests: seq<Request>)
    ensures var c := NewChain(kind, raisedBy, date);
      && Projected(kind, RunStored(kind, c, requests))
         == Run(Stages(kind), StartState(kind, raisedBy), Actors(requests))
      && Verdicts(kind, c, requests) == EngineVerdicts(kind, StartState(kind, raisedBy), Actors(requests))
      && Segregated(RunStored(kind, c, requests))
  {
    var c := NewChain(kind, raisedBy, date);
    assert Orderly(kind, c);
    assert Projected(kind, c).history == StartState(kind, raisedBy).history;
    RunRefines(kind, c, requests);
    RunSegregated(kind, c, requests);
  }

  lemma {:induction false} RunSegregated(kind: Kind, c: Chain, requests: seq<Request>)
    requires Segregated(c)
    ensures Segregated(RunStored(kind, c, requests))
    decreases |requests|
  {
    if requests != [] {
      var r := requests[0];
      if AdvanceChain(kind, c, r.actor, r.date).Moved? {
        AdvanceKeepsSegregated(kind, c, r.actor, r.date);
      }
      RunSegregated(kind, Attempted(kind, c, r.actor, r.date), requests[1..]);
    }
  }
}
