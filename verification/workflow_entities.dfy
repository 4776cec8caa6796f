/**
 The workflow entities as the service holds them: objects whose Advance and
 Reject update stage, status and signatures in place.
 */
module WorkflowEntities {
  import ApprovalChain
  import opened GovernanceChains
  import opened PaymentFigures
  import opened Workflow
  import opened Wrappers

  datatype Outcome = Done | SameActor | WorkflowComplete

  /** govAdvance over the engine state rebuilt by loops. */
  method RunGovAdvance(kind: Kind, stage: int, slots: seq<Signature>, actor: string) returns (r: GovResult)
    ensures r == GovAdvance(Stages(kind), stage, Records(slots), actor)
  {
    var steps := StepRecords(slots);
    var s := GovState(Stages(kind), stage, steps);
    if s.status != ApprovalChain.InFlight {
      return GovResult.ErrWorkflowComplete;
    }
    match ApprovalChain.Advance(Stages(kind), s, actor) {
      case Advanced(out) => return Completed(s.stageIndex, out.status == ApprovalChain.Approved);
      case SelfSuccession => return GovResult.ErrSelfSuccession;
      case NotInFlight => return GovResult.ErrWorkflowComplete;
    }
  }

  /** The slots a new workflow starts with, one per stage. */
  method MakeSlots(kind: Kind) returns (slots: seq<Signature>)
    ensures slots == BlankSlots(kind)
  {
    slots := [];
    for i := 0 to 4
      invariant |slots| == i
      invariant forall j :: 0 <= j < i ==> slots[j] == BlankSlots(kind)[j]
    {
      slots := slots + [Signature(Stages(kind)[i], "", "", "")];
    }
  }

  /** What an entity looks like after an attempt: refused attempts may still reset a short signature array. */
  ghost predicate After(kind: Kind, before: Chain, actor: string, date: string, after: Chain, outcome: Outcome) {
    match AdvanceChain(kind, before, actor, date)
    case Moved(chain, _) => outcome == Done && after == chain
    case Succession => outcome == SameActor && after == before.(slots := ResetShort(kind, before.slots))
    case Complete =>
      outcome == WorkflowComplete && (after == before || after == before.(slots := ResetShort(kind, before.slots)))
  }

  class GovPayment {
    var milestone: string
    var contract: string
    var amount: int
    var retention: int
    var payable: int
    var stage: int
    var status: RowStatus
    var history: seq<Signature>

    function Columns(): Chain
      reads this
    {
      Chain(stage, status, history)
    }

    function Money(): Figures
      reads this
    {
      Figures(amount, retention, payable)
    }

    constructor (milestone: string, contract: string, amount: int, retention: int)
      ensures Columns() == NewChain(Payment, "", "")
      ensures Money() == FiguresOf(amount, retention)
      ensures this.milestone == milestone && this.contract == contract
    {
      this.milestone, this.contract := milestone, contract;
      this.amount, this.retention := amount, retention;
      this.payable := PayableOf(amount, retention);
      this.stage, this.status := 0, AtStage(PAYMENT_STAGES[0]);
      new;
      history := MakeSlots(Payment);
    }

    constructor FromRow(milestone: string, contract: string, figures: Figures, chain: Chain)
      ensures Columns() == chain && Money() == figures
      ensures this.milestone == milestone && this.contract == contract
    {
      this.milestone, this.contract := milestone, contract;
      this.amount, this.retention, this.payable := figures.amount, figures.retention, figures.payable;
      this.stage, this.status, this.history := chain.stage, chain.status, chain.slots;
    }

    method RecomputePayable()
      modifies this`payable
      ensures Money() == FiguresOf(amount, retention)
    {
      payable := PayableOf(amount, retention);
    }

    /** Completes the pending stage; completing the third authorizes, completing the last marks paid. */
    method Advance(actor: string, date: string)
      returns (completed: int, authorized: bool, paid: bool, outcome: Outcome)
      requires stage >= 0
      modifies this`stage, this`status, this`history
      ensures After(Payment, old(Columns()), actor, date, Columns(), outcome)
      ensures completed == if outcome == Done then old(stage) else -1
      ensures authorized <==> outcome == Done && old(stage) == AUTHORIZE_STAGE
      ensures paid <==> outcome == Done && old(stage) == 3
    {
      if stage >= 4 {
        return -1, false, false, WorkflowComplete;
      }
      if |history| < 4 {
        history := MakeSlots(Payment);
      }
      var r := RunGovAdvance(Payment, stage, history, actor);
      match r {
        case ErrSelfSuccession => return -1, false, false, SameActor;
        case ErrWorkflowComplete => return -1, false, false, WorkflowComplete;
        case Completed(k, _) =>
          completed := k;
          history := history[k := Signature(PAYMENT_STAGES[k], actor, date, "")];
          stage := stage + 1;
          if stage >= 4 {
            status, paid := RowStatus.Paid, true;
          } else {
            status, paid := AtStage(PAYMENT_STAGES[stage]), false;
          }
          authorized := completed == AUTHORIZE_STAGE;
          outcome := Done;
      }
    }
  }

  class GovVariation {
    var contract: string
    var amount: int
    var extensionDays: int
    var stage: int
    var status: RowStatus
    var approvals: seq<Signature>

    function Columns(): Chain
      reads this
    {
      Chain(stage, status, approvals)
    }

    /** The raiser is recorded as having cleared the first desk. */
    constructor (contract: string, amount: int, extensionDays: int, raisedBy: string, date: string)
      ensures Columns() == NewChain(Variation, raisedBy, date)
      ensures this.contract == contract && this.amount == amount && this.extensionDays == extensionDays
    {
      this.contract, this.amount, this.extensionDays := contract, amount, extensionDays;
      this.stage, this.status := 1, RowStatus.Pending;
      new;
      approvals := MakeSlots(Variation);
      approvals := approvals[0 := Signature(VARIATION_STAGES[0], raisedBy, date, "")];
    }

    constructor FromRow(contract: string, amount: int, extensionDays: int, chain: Chain)
      ensures Columns() == chain
      ensures this.contract == contract && this.amount == amount && this.extensionDays == extensionDays
    {
      this.contract, this.amount, this.extensionDays := contract, amount, extensionDays;
      this.stage, this.status, this.approvals := chain.stage, chain.status, chain.slots;
    }

    method Advance(actor: string, date: string) returns (approved: bool, outcome: Outcome)
      modifies this`stage, this`status, this`approvals
      ensures After(Variation, old(Columns()), actor, date, Columns(), outcome)
      ensures approved <==> outcome == Done && status == RowStatus.Approved
    {
      if status != RowStatus.Pending {
        return false, WorkflowComplete;
      }
      if stage >= 4 {
        status := RowStatus.Approved;
        return true, Done;
      }
      if |approvals| < 4 {
        approvals := MakeSlots(Variation);
      }
      var r := RunGovAdvance(Variation, stage, approvals, actor);
      match r {
        case ErrSelfSuccession => return false, SameActor;
        case ErrWorkflowComplete => return false, WorkflowComplete;
        case Completed(k, _) =>
          approvals := approvals[k := Signature(VARIATION_STAGES[k], actor, date, "")];
          stage := stage + 1;
          if stage >= 4 {
            status := RowStatus.Approved;
            return true, Done;
          }
          return false, Done;
      }
    }

    /** Declines at the stage reached, whatever the status. */
    method Reject(actor: string, date: string, reason: string)
      modifies this`status, this`approvals
      ensures Columns() == RejectChain(Variation, old(Columns()), actor, date, reason)
      ensures 0 <= stage < |old(approvals)| ==>
        approvals == old(approvals)[stage := Signature(approvals[stage].step, actor, date, reason)]
      ensures stage >= |old(approvals)| > 0 ==>
        var last := |old(approvals)| - 1;
        approvals == old(approvals)[last := Signature(approvals[last].step, actor, date, reason)]
    {
      status := RowStatus.Rejected;
      var at := stage;
      if at >= |approvals| {
        at := |approvals| - 1;
      }
      if at < 0 {
        return;
      }
      var step := approvals[at].step;
      if step == "" && at < 4 {
        step := VARIATION_STAGES[at];
      }
      approvals := approvals[at := Signature(step, actor, date, reason)];
    }
  }

  class GovRequisition {
    var no: string
    var title: string
    var supplier: string
    var estimate: int
    var linkedContract: Option<string>
    var stage: int
    var status: RowStatus
    var approvals: seq<Signature>

    function Columns(): Chain
      reads this
    {
      Chain(stage, status, approvals)
    }

    constructor (no: string, title: string, estimate: int, raisedBy: string, date: string)
      ensures Columns() == NewChain(Requisition, raisedBy, date)
      ensures this.no == no && this.title == title && this.estimate == estimate
      ensures this.supplier == "" && this.linkedContract == None
    {
      this.no, this.title, this.supplier, this.estimate := no, title, "", estimate;
      this.linkedContract := None;
      this.stage, this.status := 1, RowStatus.PendingApproval;
      new;
      approvals := MakeSlots(Requisition);
      approvals := approvals[0 := Signature(REQUISITION_STAGES[0], raisedBy, date, "")];
    }

    constructor FromRow(no: string, title: string, supplier: string, estimate: int, linked: Option<string>,
                        chain: Chain)
      ensures Columns() == chain
      ensures this.no == no && this.title == title && this.supplier == supplier
      ensures this.estimate == estimate && this.linkedContract == linked
    {
      this.no, this.title, this.supplier, this.estimate := no, title, supplier, estimate;
      this.linkedContract := linked;
      this.stage, this.status, this.approvals := chain.stage, chain.status, chain.slots;
    }

    method Advance(actor: string, date: string) returns (approved: bool, outcome: Outcome)
      modifies this`stage, this`status, this`approvals
      ensures After(Requisition, old(Columns()), actor, date, Columns(), outcome)
      ensures approved <==> outcome == Done && status == RowStatus.Approved
    {
      if status != RowStatus.PendingApproval {
        return false, WorkflowComplete;
      }
      if |approvals| < 4 {
        approvals := MakeSlots(Requisition);
      }
      if stage >= 4 {
        status := RowStatus.Approved;
        return true, Done;
      }
      var r := RunGovAdvance(Requisition, stage, approvals, actor);
      match r {
        case ErrSelfSuccession => return false, SameActor;
        case ErrWorkflowComplete => return false, WorkflowComplete;
        case Completed(k, _) =>
          approvals := approvals[k := Signature(REQUISITION_STAGES[k], actor, date, "")];
          stage := stage + 1;
          if stage >= 4 {
            status := RowStatus.Approved;
            return true, Done;
          }
          return false, Done;
      }
    }

    method Reject(actor: string, date: string, reason: string)
      modifies this`status, this`approvals
      ensures Columns() == RejectChain(Requisition, old(Columns()), actor, date, reason)
      ensures 0 <= stage < |old(approvals)| ==>
        approvals == old(approvals)[stage := Signature(approvals[stage].step, actor, date, reason)]
      ensures stage >= |old(approvals)| > 0 ==>
        var last := |old(approvals)| - 1;
        approvals == old(approvals)[last := Signature(approvals[last].step, actor, date, reason)]
    {
      status := RowStatus.Rejected;
      var at := stage;
      if at >= |approvals| {
        at := |approvals| - 1;
      }
      if at < 0 {
        return;
      }
      var step := approvals[at].step;
      if step == "" && at < 4 {
        step := REQUISITION_STAGES[at];
      }
      approvals := approvals[at := Signature(step, actor, date, reason)];
    }
  }
}
