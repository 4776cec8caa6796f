/**
 Rebuilding engine state from a stored workflow. The tables keep a stage
 cursor and an array of signatures; the engine's state is derived on each call.
 */
module GovernanceChains {
  import opened ApprovalChain
  import opened Wrappers

  /** One slot of a stored signature array (PaymentStep and VariationApproval). */
  datatype Signature = Signature(step: string, actor: string, date: string, note: string)

  /** The part of a slot the engine is told about. */
  datatype StepRecord = StepRecord(step: string, actor: string)

  datatype GovResult = Completed(stage: nat, done: bool) | ErrSelfSuccession | ErrWorkflowComplete

  function Records(slots: seq<Signature>): (r: seq<StepRecord>)
    ensures |r| == |slots|
  {
    seq(|slots|, i requires 0 <= i < |slots| => StepRecord(slots[i].step, slots[i].actor))
  }

  method StepRecords(slots: seq<Signature>) returns (out: seq<StepRecord>)
    ensures out == Records(slots)
  {
    out := [];
    for i := 0 to |slots|
      invariant out == Records(slots)[..i]
    {
      out := out + [StepRecord(slots[i].step, slots[i].actor)];
    }
  }

  /** How many slots count as history: those below the cursor. */
  function Done(stage: int, steps: seq<StepRecord>): nat {
    if stage < 0 then 0 else if stage > |steps| then |steps| else stage
  }

  function StateOf(desks: seq<string>, stage: int, steps: seq<StepRecord>): State {
    var done := Done(stage, steps);
    var history := seq(done, i requires 0 <= i < done => Step(steps[i].step, steps[i].actor));
    if stage <= 0 then State(InFlight, 0, if desks == [] then None else Some(desks[0]), history)
    else if stage >= |desks| then State(Approved, |desks|, None, history)
    else State(InFlight, stage, Some(desks[stage]), history)
  }

  /** govState: set the cursor by cases, then append the completed steps, blanks kept. */
  method GovState(desks: seq<string>, stage: int, steps: seq<StepRecord>) returns (s: State)
    ensures s == StateOf(desks, stage, steps)
  {
    var status, index, desk := InFlight, 0, None;
    if stage <= 0 {
      if |desks| > 0 {
        desk := Some(desks[0]);
      }
    } else if stage >= |desks| {
      status, index := Approved, |desks|;
    } else {
      index, desk := stage, Some(desks[stage]);
    }
    var done := stage;
    if done > |steps| {
      done := |steps|;
    }
    if done < 0 {
      done := 0;
    }
    var history := [];
    for i := 0 to done
      invariant |history| == i
      invariant forall j :: 0 <= j < i ==> history[j] == Step(steps[j].step, steps[j].actor)
    {
      history := history + [Step(steps[i].step, steps[i].actor)];
    }
    assert history == StateOf(desks, stage, steps).history;
    s := State(status, index, desk, history);
  }

  /** govAdvance with translateGovErr: any engine error but self-succession reads as complete. */
  function GovAdvance(desks: seq<string>, stage: int, steps: seq<StepRecord>, actor: string): GovResult {
    var s := StateOf(desks, stage, steps);
    if s.status != InFlight then ErrWorkflowComplete
    else match Advance(desks, s, actor)
      case Advanced(s') => Completed(s.stageIndex, s'.status == Approved)
      case SelfSuccession => ErrSelfSuccession
      case NotInFlight => ErrWorkflowComplete
  }

  /** A stored workflow whose slots line up with the desks. */
  ghost predicate Aligned(desks: seq<string>, stage: int, steps: seq<StepRecord>) {
    && 0 <= stage <= |desks| == |steps|
    && desks != []
    && forall i :: 0 <= i < |steps| ==> steps[i].step == desks[i]
  }

  /**
   One advance, seen from both sides: writing the actor into the slot of the
   completed stage and moving the cursor is the projection of the engine's own
   step, and the same actors are refused.
   */
  lemma SigningProjectsAdvance(desks: seq<string>, stage: int, steps: seq<StepRecord>, actor: string)
    requires Aligned(desks, stage, steps)
    ensures match GovAdvance(desks, stage, steps, actor)
      case Completed(k, done) =>
        && k == stage < |desks|
        && done == (stage + 1 == |desks|)
        && Aligned(desks, stage + 1, steps[k := StepRecord(desks[k], actor)])
        && Advance(desks, StateOf(desks, stage, steps), actor)
           == Advanced(StateOf(desks, stage + 1, steps[k := StepRecord(desks[k], actor)]))
      case ErrSelfSuccession => Advance(desks, StateOf(desks, stage, steps), actor) == SelfSuccession
      case ErrWorkflowComplete =>
        stage == |desks| && Advance(desks, StateOf(desks, stage, steps), actor) == NotInFlight
  {
    var s := StateOf(desks, stage, steps);
    if stage < |desks| && Advance(desks, s, actor).Advanced? {
      var steps' := steps[stage := StepRecord(desks[stage], actor)];
      assert StateOf(desks, stage + 1, steps').history == s.history + [Step(desks[stage], actor)];
    }
  }
}
