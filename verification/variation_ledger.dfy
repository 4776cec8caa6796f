/**
 Variations with atomic handlers, and the contract values they change. On its
 last approval a variation's amount is added to its contract.
 */
module VariationLedger {
  import opened GovernanceChains
  import opened Workflow
  import opened WorkflowEntities
  import opened Wrappers
  import opened Text

  type Id = string

  datatype Approval = Approval(variation: Id, amount: int)

  datatype Terms = Terms(amount: int, extensionDays: int)

  datatype Naming = Naming(number: string, title: string)

  datatype VariationRow = VariationRow(contract: Id, terms: Terms, text: Naming, chain: Chain)

  /**
   Three history components: `applied` lists, per contract, the approvals that
   changed its value; `edited` counts what explicit edits changed; `signed`
   holds a variation's terms at each signature past the raiser's.
   */
  datatype State = State(
    variations: map<Id, VariationRow>,
    values: map<Id, int>,
    applied: map<Id, seq<Approval>>,
    edited: map<Id, int>,
    signed: map<Id, seq<Terms>>)

  datatype Step =
    | AddContract(contract: Id, value: int)
    | EditValue(contract: Id, value: int)                       // PatchContract with a value
    | Create(id: Id, contract: Id, terms: Terms, text: Naming, raisedBy: string, date: string)
    | Advance(id: Id, actor: string, date: string)
    | Reject(id: Id, actor: string, date: string, reason: string)
    | Patch(id: Id, amount: Option<int>, extensionDays: Option<int>, number: Option<string>, title: Option<string>)

  function Apply(s: State, step: Step): State {
    match step
    case AddContract(c, value) =>
      if c in s.values then s
      else s.(values := s.values[c := value], applied := s.applied[c := []], edited := s.edited[c := value])
    case EditValue(c, value) =>
      if c !in s.values then s
      else s.(values := s.values[c := value], edited := s.edited[c := Edited(s, c) + value - s.values[c]])
    case Create(id, c, terms, text, raisedBy, date) =>
      if id in s.variations || c !in s.values || TrimSpace(text.title) == "" then s
      else Raised(s, id, VariationRow(c, terms, text, NewChain(Variation, raisedBy, date)))
    case Advance(id, actor, date) => ApplyAdvance(s, id, actor, date)
    case Reject(id, actor, date, reason) =>
      if id !in s.variations || TrimSpace(reason) == "" then s
      else
        var row := s.variations[id];
        Replaced(s, id, row.(chain := RejectChain(Variation, row.chain, actor, date, TrimSpace(reason))))
    case Patch(id, amount, days, number, title) =>
      if id !in s.variations then s
      else
        var patched := PatchRow(s.variations[id], amount, days, number, title);
        if patched.None? then s else Replaced(s, id, patched.value)
  }

  function Edited(s: State, c: Id): int {
    if c in s.edited then s.edited[c] else 0
  }

  function Applied(s: State, c: Id): seq<Approval> {
    if c in s.applied then s.applied[c] else []
  }

  function Signed(s: State, id: Id): seq<Terms> {
    if id in s.signed then s.signed[id] else []
  }

  function ApplyAdvance(s: State, id: Id, actor: string, date: string): State {
    if id !in s.variations then s
    else
      var moved := AdvanceChain(Variation, s.variations[id].chain, actor, date);
      if moved.Moved? then Signs(s, id, moved.chain) else s
  }

  /** UpdateVariation, then AddContractValue when the chain is complete. */
  function Signs(s: State, id: Id, chain: Chain): State
    requires id in s.variations
  {
    var row := s.variations[id];
    var s1 := s.(variations := s.variations[id := row.(chain := chain)],
                 signed := s.signed[id := Signed(s, id) + [row.terms]]);
    if chain.status.Approved? && row.contract in s.values then
      s1.(values := s.values[row.contract := s.values[row.contract] + row.terms.amount],
          applied := s.applied[row.contract := Applied(s, row.contract) + [Approval(id, row.terms.amount)]])
    else s1
  }

  function Raised(s: State, id: Id, row: VariationRow): State {
    s.(variations := s.variations[id := row], signed := s.signed[id := []])
  }

  function Replaced(s: State, id: Id, row: VariationRow): State {
    s.(variations := s.variations[id := row])
  }

  /** Editing ends with Pending; amount and extension are fixed past the raiser's own signature. */
  function PatchRow(row: VariationRow, amount: Option<int>, days: Option<int>,
                    number: Option<string>, title: Option<string>): Option<VariationRow>
  {
    if !row.chain.status.Pending? then None
    else if row.chain.stage > 1
         && ((amount.Some? && amount.value != row.terms.amount)
             || (days.Some? && days.value != row.terms.extensionDays))
    then None
    else if number.Some? && TrimSpace(number.value) == "" then None
    else if title.Some? && TrimSpace(title.value) == "" then None
    else Some(row.(
      terms := Terms(if amount.Some? then amount.value else row.terms.amount,
                     if days.Some? then days.value else row.terms.extensionDays),
      text := row.text.(number := if number.Some? then TrimSpace(number.value) else row.text.number,
                        title := if title.Some? then TrimSpace(title.value) else row.text.title)))
  }

  /**
   A correction that goes through sets what it carries, and only that; the
   terms are fixed past the raiser's signature.
   */
  lemma CorrectionSets(row: VariationRow, amount: Option<int>, days: Option<int>, number: Option<string>,
                       title: Option<string>)
    requires PatchRow(row, amount, days, number, title).Some?
    ensures var r := PatchRow(row, amount, days, number, title).value;
      && r.contract == row.contract && r.chain == row.chain && row.chain.status.Pending?
      && r.terms.amount == (if amount.Some? then amount.value else row.terms.amount)
      && r.terms.extensionDays == (if days.Some? then days.value else row.terms.extensionDays)
      && r.text.number == (if number.Some? then TrimSpace(number.value) else row.text.number)
      && r.text.title == (if title.Some? then TrimSpace(title.value) else row.text.title)
      && (row.chain.stage > 1 ==> r.terms == row.terms)
  {
  }

  /** A contract has the value it was added or last edited with. */
  lemma EditSets(s: State, c: Id, value: int)
    ensures c in s.values ==> Apply(s, EditValue(c, value)).values == s.values[c := value]
    ensures c !in s.values ==> Apply(s, AddContract(c, value)).values == s.values[c := value]
  {
  }

  function Run(s: State, steps: seq<Step>): State
    decreases |steps|
  {
    if steps == [] then s else Run(Apply(s, steps[0]), steps[1..])
  }

  const EMPTY := State(map[], map[], map[], map[], map[])

  // ----- What every run keeps -----

  function Sum(approvals: seq<Approval>): int {
    if approvals == [] then 0 else Sum(approvals[..|approvals| - 1]) + approvals[|approvals| - 1].amount
  }

  /** The part of a contract's approvals whose variation now has the given status. */
  function SumWhere(s: State, approvals: seq<Approval>, status: RowStatus): int {
    if approvals == [] then 0
    else
      var last := approvals[|approvals| - 1];
      SumWhere(s, approvals[..|approvals| - 1], status)
      + (if last.variation in s.variations && s.variations[last.variation].chain.status == status
         then last.amount else 0)
  }

  /** An approval stands for one variation of its contract, which has left Pending with that amount. */
  ghost predicate ApprovalSound(s: State, c: Id, a: Approval) {
    && a.variation in s.variations
    && var row := s.variations[a.variation];
    && row.contract == c && row.terms.amount == a.amount
    && (row.chain.status.Approved? || row.chain.status.Rejected?)
  }

  ghost predicate ContractSound(s: State, c: Id)
    requires c in s.values
  {
    && s.values[c] == Edited(s, c) + Sum(Applied(s, c))
    && (forall k :: 0 <= k < |Applied(s, c)| ==> ApprovalSound(s, c, Applied(s, c)[k]))
    && (forall j, k :: 0 <= j < k < |Applied(s, c)| ==> Applied(s, c)[j].variation != Applied(s, c)[k].variation)
  }

  ghost predicate VariationSound(s: State, id: Id)
    requires id in s.variations
  {
    var row := s.variations[id];
    && row.contract in s.values
    && row.chain.stage >= 1
    && (row.chain.status.Pending? || row.chain.status.Approved? || row.chain.status.Rejected?)
    && (row.chain.status.Approved? ==> Counted(s, id))
    && (row.chain.stage == 1 && row.chain.status.Pending? ==> Signed(s, id) == [])
    && (forall k :: 0 <= k < |Signed(s, id)| ==> Signed(s, id)[k] == row.terms)
  }

  ghost predicate Counted(s: State, id: Id)
    requires id in s.variations
  {
    var approvals := Applied(s, s.variations[id].contract);
    exists k :: 0 <= k < |approvals| && approvals[k].variation == id
  }

  ghost predicate Sound(s: State) {
    && (forall c {:trigger ContractSound(s, c)} :: c in s.values ==> ContractSound(s, c))
    && (forall c :: c in s.applied ==> c in s.values)
    && (forall c :: c in s.edited ==> c in s.values)
    && (forall id :: id in s.signed ==> id in s.variations)
    && (forall id {:trigger VariationSound(s, id)} :: id in s.variations ==> VariationSound(s, id))
  }

  /** A row that has left Pending keeps contract and terms, and stays out of Pending. */
  ghost predicate SettledAt(s: State, s': State, id: Id) {
    id in s.variations && !s.variations[id].chain.status.Pending? ==>
      && id in s'.variations
      && s'.variations[id].contract == s.variations[id].contract
      && s'.variations[id].terms == s.variations[id].terms
      && (s'.variations[id].chain.status.Approved? || s'.variations[id].chain.status.Rejected?)
  }

  ghost predicate Settled(s: State, s': State) {
    forall id :: SettledAt(s, s', id)
  }

  lemma ApprovalsKept(s: State, s': State, c: Id)
    requires c in s.values && ContractSound(s, c) && Settled(s, s')
    ensures forall k :: 0 <= k < |Applied(s, c)| ==> ApprovalSound(s', c, Applied(s, c)[k])
  {
    forall k | 0 <= k < |Applied(s, c)|
      ensures ApprovalSound(s', c, Applied(s, c)[k])
    {
      var a := Applied(s, c)[k];
      assert ApprovalSound(s, c, a);
      assert SettledAt(s, s', a.variation);
    }
  }

  lemma ContractKept(s: State, s': State, c: Id)
    requires c in s.values && ContractSound(s, c) && Settled(s, s')
    requires c in s'.values && Applied(s', c) == Applied(s, c)
    requires s'.values[c] - Edited(s', c) == s.values[c] - Edited(s, c)
    ensures ContractSound(s', c)
  {
    ApprovalsKept(s, s', c);
  }

  lemma VariationKept(s: State, s': State, i: Id)
    requires i in s.variations && VariationSound(s, i)
    requires i in s'.variations && s'.variations[i] == s.variations[i] && Signed(s', i) == Signed(s, i)
    requires s.variations[i].contract in s'.values
    requires Applied(s, s.variations[i].contract) <= Applied(s', s.variations[i].contract)
    ensures VariationSound(s', i)
  {
    var before, after := Applied(s, s.variations[i].contract), Applied(s', s.variations[i].contract);
    if s.variations[i].chain.status.Approved? {
      var k :| 0 <= k < |before| && before[k].variation == i;
      assert after[k].variation == i;
    }
  }

  /** A new chain or new terms for one row, none of which ends in a new approval. */
  lemma ReplacedSound(s: State, id: Id, row: VariationRow)
    requires Sound(s) && id in s.variations
    requires row.contract == s.variations[id].contract && row.chain.stage == s.variations[id].chain.stage
    requires !s.variations[id].chain.status.Pending? ==> row.terms == s.variations[id].terms
    requires row.terms == s.variations[id].terms || Signed(s, id) == []
    requires row.chain.status.Rejected?
             || (row.chain.status.Pending? && s.variations[id].chain.status.Pending?)
    ensures Sound(Replaced(s, id, row))
  {
    var s' := Replaced(s, id, row);
    assert VariationSound(s, id);
    assert Settled(s, s') by {
      forall i ensures SettledAt(s, s', i) {
        assert i in s.variations ==> VariationSound(s, i);
      }
    }
    forall c | c in s'.values ensures ContractSound(s', c) {
      assert ContractSound(s, c);
      ContractKept(s, s', c);
    }
    forall i | i in s'.variations ensures VariationSound(s', i) {
      if i != id {
        assert VariationSound(s, i);
        VariationKept(s, s', i);
      } else {
        assert Signed(s', id) == Signed(s, id);
      }
    }
  }

  lemma RaisedSound(s: State, id: Id, row: VariationRow)
    requires Sound(s) && id !in s.variations && row.contract in s.values
    requires row.chain.stage == 1 && row.chain.status.Pending?
    ensures Sound(Raised(s, id, row))
  {
    var s' := Raised(s, id, row);
    assert Settled(s, s') by {
      forall i ensures SettledAt(s, s', i) {
        assert i in s.variations ==> VariationSound(s, i);
      }
    }
    forall c | c in s'.values ensures ContractSound(s', c) {
      assert ContractSound(s, c);
      ContractKept(s, s', c);
    }
    forall i | i in s'.variations ensures VariationSound(s', i) {
      if i != id {
        assert VariationSound(s, i);
        VariationKept(s, s', i);
      }
    }
  }

  lemma SignsSettled(s: State, id: Id, chain: Chain)
    requires Sound(s) && id in s.variations && s.variations[id].chain.status.Pending?
    ensures Settled(s, Signs(s, id, chain))
  {
    forall i ensures SettledAt(s, Signs(s, id, chain), i) {
      assert i in s.variations ==> VariationSound(s, i);
    }
  }

  lemma ContractGains(s: State, s': State, c: Id, a: Approval)
    requires c in s.values && ContractSound(s, c) && Settled(s, s')
    requires c in s'.values && Applied(s', c) == Applied(s, c) + [a] && ApprovalSound(s', c, a)
    requires s'.values[c] - Edited(s', c) == s.values[c] - Edited(s, c) + a.amount
    requires forall k :: 0 <= k < |Applied(s, c)| ==> Applied(s, c)[k].variation != a.variation
    ensures ContractSound(s', c)
  {
    ApprovalsKept(s, s', c);
    assert (Applied(s, c) + [a])[..|Applied(s, c)|] == Applied(s, c);
  }

  /** The last approval puts the amount onto the contract, under the variation's name, once. */
  lemma ApprovedContract(s: State, id: Id, chain: Chain, c: Id)
    requires Sound(s) && id in s.variations && s.variations[id].chain.status.Pending?
    requires chain.status.Approved? && c in s.values
    ensures ContractSound(Signs(s, id, chain), c)
  {
    var s' := Signs(s, id, chain);
    assert ContractSound(s, c);
    SignsSettled(s, id, chain);
    if c == s.variations[id].contract {
      forall k | 0 <= k < |Applied(s, c)| ensures Applied(s, c)[k].variation != id {
        assert ApprovalSound(s, c, Applied(s, c)[k]);
      }
      ContractGains(s, s', c, Approval(id, s.variations[id].terms.amount));
    } else {
      ContractKept(s, s', c);
    }
  }

  lemma SignedVariation(s: State, id: Id, chain: Chain)
    requires Sound(s) && id in s.variations && s.variations[id].chain.status.Pending?
    requires chain.stage > 1 && (chain.status.Pending? || chain.status.Approved?)
    ensures VariationSound(Signs(s, id, chain), id)
  {
    var s' := Signs(s, id, chain);
    assert VariationSound(s, id);
    var c := s.variations[id].contract;
    if chain.status.Approved? {
      assert Applied(s', c)[|Applied(s, c)|].variation == id;
    }
  }

  lemma SignsContract(s: State, id: Id, chain: Chain, c: Id)
    requires Sound(s) && id in s.variations && s.variations[id].chain.status.Pending?
    requires (chain.status.Pending? || chain.status.Approved?) && c in s.values
    ensures ContractSound(Signs(s, id, chain), c)
  {
    if chain.status.Approved? {
      ApprovedContract(s, id, chain, c);
    } else {
      assert ContractSound(s, c);
      SignsSettled(s, id, chain);
      ContractKept(s, Signs(s, id, chain), c);
    }
  }

  lemma SignsOther(s: State, id: Id, chain: Chain, i: Id)
    requires Sound(s) && id in s.variations && i in s.variations && i != id
    ensures VariationSound(Signs(s, id, chain), i)
  {
    var s' := Signs(s, id, chain);
    assert VariationSound(s, i) && VariationSound(s, id) && Signed(s', i) == Signed(s, i);
    assert s'.variations[i] == s.variations[i];
    assert Applied(s, s.variations[i].contract) <= Applied(s', s.variations[i].contract);
    VariationKept(s, s', i);
  }

  lemma SignsSound(s: State, id: Id, chain: Chain)
    requires Sound(s) && id in s.variations && s.variations[id].chain.status.Pending?
    requires chain.stage > 1 && (chain.status.Pending? || chain.status.Approved?)
    ensures Sound(Signs(s, id, chain))
  {
    var s' := Signs(s, id, chain);
    assert VariationSound(s, id);
    forall c | c in s'.values ensures ContractSound(s', c) {
      assert c in s.values;
      SignsContract(s, id, chain, c);
    }
    forall i | i in s'.variations ensures VariationSound(s', i) {
      if i == id { SignedVariation(s, id, chain); } else { SignsOther(s, id, chain, i); }
    }
  }

  /** Contract rows come and are edited; the approvals are not touched. */
  lemma ValuesSound(s: State, s': State)
    requires Sound(s)
    requires s'.variations == s.variations && s'.signed == s.signed
    requires forall c :: c in s.values ==>
      && c in s'.values && Applied(s', c) == Applied(s, c)
      && s'.values[c] - Edited(s', c) == s.values[c] - Edited(s, c)
    requires forall c :: c in s'.values && c !in s.values ==> Applied(s', c) == [] && s'.values[c] == Edited(s', c)
    requires forall c :: c in s'.applied || c in s'.edited ==> c in s'.values
    ensures Sound(s')
  {
    assert Settled(s, s') by {
      forall i ensures SettledAt(s, s', i) {
        assert i in s.variations ==> VariationSound(s, i);
      }
    }
    forall c | c in s'.values ensures ContractSound(s', c) {
      if c in s.values {
        assert ContractSound(s, c);
        ContractKept(s, s', c);
      }
    }
    forall i | i in s'.variations ensures VariationSound(s', i) {
      assert VariationSound(s, i);
      VariationKept(s, s', i);
    }
  }

  lemma AdvanceSound(s: State, id: Id, actor: string, date: string)
    requires Sound(s)
    ensures Sound(ApplyAdvance(s, id, actor, date))
  {
    if id in s.variations && AdvanceChain(Variation, s.variations[id].chain, actor, date).Moved? {
      assert VariationSound(s, id);
      AdvanceShape(Variation, s.variations[id].chain, actor, date);
      SignsSound(s, id, AdvanceChain(Variation, s.variations[id].chain, actor, date).chain);
    }
  }

  lemma RejectSound(s: State, id: Id, actor: string, date: string, reason: string)
    requires Sound(s)
    ensures Sound(Apply(s, Reject(id, actor, date, reason)))
  {
    if id in s.variations && TrimSpace(reason) != "" {
      assert VariationSound(s, id);
      var row := s.variations[id];
      ReplacedSound(s, id, row.(chain := RejectChain(Variation, row.chain, actor, date, TrimSpace(reason))));
    }
  }

  lemma PatchSound(s: State, id: Id, amount: Option<int>, days: Option<int>, number: Option<string>,
                   title: Option<string>)
    requires Sound(s)
    ensures Sound(Apply(s, Patch(id, amount, days, number, title)))
  {
    if id in s.variations && PatchRow(s.variations[id], amount, days, number, title).Some? {
      assert VariationSound(s, id);
      ReplacedSound(s, id, PatchRow(s.variations[id], amount, days, number, title).value);
    }
  }

  lemma ContractStepSound(s: State, step: Step)
    requires Sound(s) && (step.AddContract? || step.EditValue?)
    ensures Sound(Apply(s, step))
  {
    ValuesSound(s, Apply(s, step));
  }

  lemma ApplySound(s: State, step: Step)
    requires Sound(s)
    ensures Sound(Apply(s, step))
  {
    match step {
      case Create(id, c, terms, text, raisedBy, date) =>
        if id !in s.variations && c in s.values && TrimSpace(text.title) != "" {
          RaisedSound(s, id, VariationRow(c, terms, text, NewChain(Variation, raisedBy, date)));
        }
      case Advance(id, actor, date) => AdvanceSound(s, id, actor, date);
      case Reject(id, actor, date, reason) => RejectSound(s, id, actor, date, reason);
      case Patch(id, amount, days, number, title) => PatchSound(s, id, amount, days, number, title);
      case _ => ContractStepSound(s, step);
    }
  }

  lemma {:induction false} RunSound(s: State, steps: seq<Step>)
    requires Sound(s)
    ensures Sound(Run(s, steps))
    decreases |steps|
  {
    if steps != [] {
      ApplySound(s, steps[0]);
      RunSound(Apply(s, steps[0]), steps[1..]);
    }
  }

  /**
   On every run: a contract's value is its edits plus the amounts of the
   variations given final approval, each counted once; and the terms each
   approver past the raiser signed are the terms the variation still carries.
   */
  lemma ValueIsEditsPlusApprovals(steps: seq<Step>)
    ensures var s := Run(EMPTY, steps);
      && (forall c :: c in s.values ==>
        && s.values[c] == Edited(s, c) + Sum(Applied(s, c))
        && forall j, k :: 0 <= j < k < |Applied(s, c)| ==> Applied(s, c)[j].variation != Applied(s, c)[k].variation)
      && (forall id :: id in s.variations ==>
        && (s.variations[id].chain.status.Approved? ==> Counted(s, id))
        && forall k :: 0 <= k < |Signed(s, id)| ==> Signed(s, id)[k] == s.variations[id].terms)
  {
    RunSound(EMPTY, steps);
    var s := Run(EMPTY, steps);
    assert forall c :: c in s.values ==> ContractSound(s, c);
    assert forall id :: id in s.variations ==> VariationSound(s, id);
  }

  lemma {:induction false} SumSplits(s: State, c: Id, approvals: seq<Approval>)
    requires forall k :: 0 <= k < |approvals| ==> ApprovalSound(s, c, approvals[k])
    ensures Sum(approvals) == SumWhere(s, approvals, RowStatus.Approved) + SumWhere(s, approvals, RowStatus.Rejected)
  {
    if approvals != [] {
      assert ApprovalSound(s, c, approvals[|approvals| - 1]);
      SumSplits(s, c, approvals[..|approvals| - 1]);
    }
  }

  /**
   Reject takes an approved variation back without taking its amount off the
   contract. So the value equals edits plus the variations that read Approved
   exactly when what was rejected after approval sums to nothing.
   */
  lemma ApprovedNowExactly(steps: seq<Step>, c: Id)
    requires c in Run(EMPTY, steps).values
    ensures var s := Run(EMPTY, steps);
      s.values[c] == Edited(s, c) + SumWhere(s, Applied(s, c), RowStatus.Approved)
      <==> SumWhere(s, Applied(s, c), RowStatus.Rejected) == 0
  {
    RunSound(EMPTY, steps);
    var s := Run(EMPTY, steps);
    assert ContractSound(s, c);
    SumSplits(s, c, Applied(s, c));
  }

  // ----- Runs that leave approved variations approved -----

  /** A rejection that lands on an approved variation. */
  predicate TakesBack(s: State, step: Step) {
    step.Reject? && step.id in s.variations && TrimSpace(step.reason) != ""
    && s.variations[step.id].chain.status.Approved?
  }

  predicate NoneTakenBack(s: State, steps: seq<Step>)
    decreases |steps|
  {
    steps == [] || (!TakesBack(s, steps[0]) && NoneTakenBack(Apply(s, steps[0]), steps[1..]))
  }

  /** Every amount counted into a contract belongs to a variation that reads Approved. */
  ghost predicate StillApproved(s: State) {
    forall c <- s.values :: ApprovedAt(s, c)
  }

  ghost predicate ApprovedAt(s: State, c: Id) {
    forall k :: 0 <= k < |Applied(s, c)| ==> ReadsApproved(s, Applied(s, c)[k].variation)
  }

  predicate ReadsApproved(s: State, id: Id) {
    id in s.variations && s.variations[id].chain.status.Approved?
  }

  /** What one step does to counted approvals: the list grows at its end, by a variation just approved. */
  lemma AppliedGrows(s: State, step: Step, c: Id)
    requires Sound(s) && c in s.values
    ensures var s' := Apply(s, step);
      && c in s'.values && Applied(s, c) <= Applied(s', c)
      && forall k :: |Applied(s, c)| <= k < |Applied(s', c)| ==> ReadsApproved(s', Applied(s', c)[k].variation)
  {
    if step.Advance? && step.id in s.variations {
      assert VariationSound(s, step.id);
    }
  }

  /** A row that reads Approved goes on doing so exactly when it is not rejected; one that does not never will again. */
  lemma ReadingKept(s: State, step: Step, id: Id)
    requires Sound(s) && id in s.variations && !s.variations[id].chain.status.Pending?
    ensures ReadsApproved(Apply(s, step), id) <==> ReadsApproved(s, id) && !(TakesBack(s, step) && step.id == id)
    ensures id in Apply(s, step).variations && !Apply(s, step).variations[id].chain.status.Pending?
  {
    assert VariationSound(s, id);
    if step.Advance? && step.id == id {
      assert !AdvanceChain(Variation, s.variations[id].chain, step.actor, step.date).Moved?;
    }
  }

  lemma StepStillApproved(s: State, step: Step)
    requires Sound(s)
    ensures StillApproved(Apply(s, step)) <==> StillApproved(s) && !TakesBack(s, step)
  {
    var s' := Apply(s, step);
    if TakesBack(s, step) {
      TakenBackBreaks(s, step);
    } else {
      forall c <- s'.values ensures ApprovedAt(s', c) <==> c !in s.values || ApprovedAt(s, c) {
        if c in s.values {
          StepApprovedAt(s, step, c);
        } else {
          assert c !in s.applied && Applied(s', c) == [];
        }
      }
      forall c <- s.values ensures c in s'.values {
        AppliedGrows(s, step, c);
      }
    }
  }

  lemma StepApprovedAt(s: State, step: Step, c: Id)
    requires Sound(s) && !TakesBack(s, step) && c in s.values
    ensures ApprovedAt(Apply(s, step), c) <==> ApprovedAt(s, c)
  {
    var s' := Apply(s, step);
    AppliedGrows(s, step, c);
    assert ContractSound(s, c);
    forall k | 0 <= k < |Applied(s, c)|
      ensures Applied(s', c)[k] == Applied(s, c)[k]
      ensures ReadsApproved(s', Applied(s, c)[k].variation) <==> ReadsApproved(s, Applied(s, c)[k].variation)
    {
      assert ApprovalSound(s, c, Applied(s, c)[k]);
      ReadingKept(s, step, Applied(s, c)[k].variation);
    }
  }

  lemma TakenBackBreaks(s: State, step: Step)
    requires Sound(s) && TakesBack(s, step)
    ensures !StillApproved(Apply(s, step))
  {
    var s' := Apply(s, step);
    var c := s.variations[step.id].contract;
    assert VariationSound(s, step.id) && Counted(s, step.id);
    AppliedGrows(s, step, c);
    ReadingKept(s, step, step.id);
    var k :| 0 <= k < |Applied(s, c)| && Applied(s, c)[k].variation == step.id;
    assert Applied(s', c)[k] == Applied(s, c)[k];
    assert !ApprovedAt(s', c);
  }

  lemma {:induction false} RunStillApproved(s: State, steps: seq<Step>)
    requires Sound(s)
    ensures StillApproved(Run(s, steps)) <==> StillApproved(s) && NoneTakenBack(s, steps)
    decreases |steps|
  {
    if steps != [] {
      StepStillApproved(s, steps[0]);
      ApplySound(s, steps[0]);
      RunStillApproved(Apply(s, steps[0]), steps[1..]);
    }
  }

  lemma {:induction false} NoneRejected(s: State, approvals: seq<Approval>)
    requires forall k :: 0 <= k < |approvals| ==> ReadsApproved(s, approvals[k].variation)
    ensures SumWhere(s, approvals, RowStatus.Rejected) == 0
  {
    if approvals != [] {
      assert ReadsApproved(s, approvals[|approvals| - 1].variation);
      NoneRejected(s, approvals[..|approvals| - 1]);
    }
  }

  /**
   The counted variations all read Approved exactly on the runs in which no
   approved variation was rejected; on those every contract's value is its edits
   plus the amounts of its variations that read Approved.
   */
  lemma ApprovedStandsExactly(steps: seq<Step>)
    ensures var s := Run(EMPTY, steps);
      && (StillApproved(s) <==> NoneTakenBack(EMPTY, steps))
      && (NoneTakenBack(EMPTY, steps) ==>
        forall c <- s.values :: s.values[c] == Edited(s, c) + SumWhere(s, Applied(s, c), RowStatus.Approved))
  {
    var s := Run(EMPTY, steps);
    RunSound(EMPTY, steps);
    RunStillApproved(EMPTY, steps);
    if NoneTakenBack(EMPTY, steps) {
      forall c <- s.values ensures s.values[c] == Edited(s, c) + SumWhere(s, Applied(s, c), RowStatus.Approved) {
        assert ApprovedAt(s, c);
        NoneRejected(s, Applied(s, c));
        ApprovedNowExactly(steps, c);
      }
    }
  }

  /** Rejecting an approved variation: the status turns, the contract keeps the amount, advance stays closed. */
  lemma RejectedStaysCounted(s: State, id: Id, actor: string, date: string, reason: string, later: string)
    requires Sound(s) && id in s.variations && s.variations[id].chain.status.Approved?
    requires TrimSpace(reason) != ""
    ensures var s' := Apply(s, Reject(id, actor, date, reason));
      && s'.variations[id].chain.status.Rejected? && Counted(s', id)
      && s'.values == s.values
      && ApplyAdvance(s', id, later, date) == s'
  {
    assert VariationSound(s, id);
    var s' := Apply(s, Reject(id, actor, date, reason));
    var approvals := Applied(s, s.variations[id].contract);
    assert Applied(s', s'.variations[id].contract) == approvals;
  }

  // ----- The handlers -----

  class VariationDesk {
    var variations: map<Id, VariationRow>
    var values: map<Id, int>
    ghost var applied: map<Id, seq<Approval>>
    ghost var edited: map<Id, int>
    ghost var signed: map<Id, seq<Terms>>

    ghost function View(): State
      reads this
    {
      State(variations, values, applied, edited, signed)
    }

    constructor ()
      ensures View() == EMPTY
    {
      variations, values, applied, edited, signed := map[], map[], map[], map[], map[];
    }

    /** Records the next approval; on the last one the contract's value is adjusted. */
    method AdvanceVariation(id: Id, actor: string, date: string) returns (outcome: Option<Outcome>)
      requires Sound(View())
      modifies this
      ensures View() == Apply(old(View()), Advance(id, actor, date))
      ensures outcome == None <==> id !in old(variations)
      ensures id in old(variations) ==>
        (outcome == Some(Done) <==> AdvanceChain(Variation, old(variations)[id].chain, actor, date).Moved?)
    {
      if id !in variations {
        return None;
      }
      ghost var s := View();
      assert VariationSound(s, id);
      var row := variations[id];
      var v := new GovVariation.FromRow(row.contract, row.terms.amount, row.terms.extensionDays, row.chain);
      var approved, result := v.Advance(actor, date);
      if result != Done {
        return Some(result);
      }
      variations := variations[id := row.(chain := v.Columns())];
      signed := signed[id := Signed(s, id) + [row.terms]];
      if approved {
        values := values[row.contract := values[row.contract] + row.terms.amount];
        applied := applied[row.contract := Applied(s, row.contract) + [Approval(id, row.terms.amount)]];
      }
      return Some(Done);
    }

    /** Declines with a reason, whatever the status. */
    method RejectVariation(id: Id, actor: string, date: string, reason: string) returns (ok: bool)
      modifies this
      ensures View() == Apply(old(View()), Reject(id, actor, date, reason))
      ensures ok <==> id in old(variations) && TrimSpace(reason) != ""
      ensures ok ==>
        var before := old(variations)[id];
        && id in variations && variations == old(variations)[id := before.(chain := variations[id].chain)]
        && RejectionRecorded(before.chain, variations[id].chain, actor, date, TrimSpace(reason))
    {
      if id !in variations {
        return false;
      }
      var row := variations[id];
      var trimmed := TrimSpace(reason);
      if trimmed == "" {
        return false;
      }
      var v := new GovVariation.FromRow(row.contract, row.terms.amount, row.terms.extensionDays, row.chain);
      v.Reject(actor, date, trimmed);
      variations := variations[id := row.(chain := v.Columns())];
      return true;
    }

    method PatchVariation(id: Id, amount: Option<int>, days: Option<int>, number: Option<string>, title: Option<string>)
      returns (ok: bool)
      modifies this
      ensures View() == Apply(old(View()), Patch(id, amount, days, number, title))
      ensures ok <==> id in old(variations) && PatchRow(old(variations)[id], amount, days, number, title).Some?
    {
      if id !in variations {
        return false;
      }
      var row := variations[id];
      if !row.chain.status.Pending? {
        return false;
      }
      var frozen := row.chain.stage > 1;
      if frozen {
        if (amount.Some? && amount.value != row.terms.amount) || (days.Some? && days.value != row.terms.extensionDays) {
          return false;
        }
      }
      var terms, text := row.terms, row.text;
      if number.Some? {
        if TrimSpace(number.value) == "" {
          return false;
        }
        text := text.(number := TrimSpace(number.value));
      }
      if title.Some? {
        if TrimSpace(title.value) == "" {
          return false;
        }
        text := text.(title := TrimSpace(title.value));
      }
      if amount.Some? {
        terms := terms.(amount := amount.value);
      }
      if days.Some? {
        terms := terms.(extensionDays := days.value);
      }
      variations := variations[id := row.(terms := terms, text := text)];
      return true;
    }
  }
}
