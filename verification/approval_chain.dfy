/**
 The shared approval engine: it keeps the sequence of desks, refuses an
 approver who signed the desk before, and records who signed what.
 */
module ApprovalChain {
  import opened Text
  import opened Wrappers

  datatype Status = InFlight | Approved

  datatype Step = Step(desk: string, actor: string)

  datatype State = State(status: Status, stageIndex: nat, desk: Option<string>, history: seq<Step>)

  datatype Outcome = Advanced(state: State) | SelfSuccession | NotInFlight

  /** Unattributed and machine actors are outside the succession rule. */
  predicate Exempt(actor: string) {
    actor == "" || Lower(actor) == "system"
  }

  /** One person, in any spelling of case, signing twice in a row. */
  predicate SameApprover(previous: string, actor: string) {
    EqualFold(previous, actor) && !Exempt(actor)
  }

  function New(desks: seq<string>): State {
    if desks == [] then State(Approved, 0, None, []) else State(InFlight, 0, Some(desks[0]), [])
  }

  function Advance(desks: seq<string>, s: State, actor: string): Outcome {
    if s.status != InFlight || s.stageIndex >= |desks| then NotInFlight
    else if s.history != [] && SameApprover(s.history[|s.history| - 1].actor, actor) then SelfSuccession
    else
      var next := s.stageIndex + 1;
      var history := s.history + [Step(desks[s.stageIndex], actor)];
      Advanced(if next == |desks| then State(Approved, next, None, history)
               else State(InFlight, next, Some(desks[next]), history))
  }

  /** Refused attempts leave the state as it was. */
  function Attempt(desks: seq<string>, s: State, actor: string): State {
    match Advance(desks, s, actor)
    case Advanced(s') => s'
    case _ => s
  }

  function Run(desks: seq<string>, s: State, actors: seq<string>): State
    decreases |actors|
  {
    if actors == [] then s else Run(desks, Attempt(desks, s, actors[0]), actors[1..])
  }

  /** What every engine state satisfies: history is the signed prefix of the desks, one desk at a time. */
  ghost predicate Coherent(desks: seq<string>, s: State) {
    && s.stageIndex == |s.history| <= |desks|
    && (forall i :: 0 <= i < |s.history| ==> s.history[i].desk == desks[i])
    && (forall i :: 0 <= i < |s.history| - 1 ==> !SameApprover(s.history[i].actor, s.history[i + 1].actor))
    && (s.status == Approved <==> s.stageIndex == |desks|)
    && s.desk == (if s.stageIndex < |desks| then Some(desks[s.stageIndex]) else None)
  }

  lemma {:induction false} RunCoherent(desks: seq<string>, s: State, actors: seq<string>)
    requires Coherent(desks, s)
    ensures Coherent(desks, Run(desks, s, actors))
    decreases |actors|
  {
    if actors != [] {
      RunCoherent(desks, Attempt(desks, s, actors[0]), actors[1..]);
    }
  }

  /** From a fresh chain, every desk is signed in order and no two neighbouring signatures are one approver. */
  lemma EveryRunSegregated(desks: seq<string>, actors: seq<string>)
    ensures Coherent(desks, Run(desks, New(desks), actors))
  {
    RunCoherent(desks, New(desks), actors);
  }
}
