/**
 Requisitions with atomic handlers, and the draft contracts they convert into.
 */
module RequisitionLedger {
  import opened GovernanceChains
  import opened Text
  import opened Workflow
  import opened WorkflowEntities
  import opened Wrappers

  type Id = string

  /** Descriptive columns; several are carried onto the contract. */
  datatype Details = Details(
    department: string, requester: string, kind: string, procurement: string, supplier: string,
    budgetCode: string, urgency: string, justification: string, project: string)

  datatype RequisitionRow = RequisitionRow(
    no: string, title: string, estimate: int, details: Details, docs: seq<string>, linked: Option<Id>, chain: Chain)

  /** What a correction may carry; status, stage, approvals, documents and link are out of its reach. */
  datatype Edits = Edits(
    no: Option<string>, title: Option<string>, estimate: Option<int>,
    department: Option<string>, requester: Option<string>, kind: Option<string>, procurement: Option<string>,
    supplier: Option<string>, budgetCode: Option<string>, urgency: Option<string>, justification: Option<string>,
    project: Option<string>)

  datatype ContractRow = ContractRow(
    number: string, name: string, contractor: string, kind: string, department: string, value: int, project: string,
    docs: seq<string>)

  datatype Conversion = Conversion(requisition: Id, contract: Id, draft: ContractRow)

  /**
   Two history components: `converted` lists the conversions made, `signed`
   holds a requisition's estimate at each signature past the raiser's.
   */
  datatype State = State(
    requisitions: map<Id, RequisitionRow>,
    contracts: map<Id, ContractRow>,
    converted: seq<Conversion>,
    signed: map<Id, seq<int>>)

  datatype Step =
    | Create(id: Id, no: string, minted: string, title: string, estimate: int, details: Details, docs: seq<string>,
             raisedBy: string, date: string)          // minted: the number given when none is
    | Advance(id: Id, actor: string, date: string)
    | Reject(id: Id, actor: string, date: string, reason: string)
    | Patch(id: Id, edits: Edits)
    | Convert(id: Id, contract: Id)
    | PutContract(contract: Id, row: ContractRow)     // any other write to the contract register
    | DropContract(contract: Id)

  predicate NumberTaken(s: State, number: string) {
    exists c :: c in s.contracts && s.contracts[c].number == number
  }

  predicate NoTaken(s: State, no: string, id: Id) {
    exists r :: r in s.requisitions && r != id && s.requisitions[r].no == no
  }

  function Signed(s: State, id: Id): seq<int> {
    if id in s.signed then s.signed[id] else []
  }

  function Raised(s: State, id: Id, row: RequisitionRow): State {
    s.(requisitions := s.requisitions[id := row], signed := s.signed[id := []])
  }

  function Replaced(s: State, id: Id, row: RequisitionRow): State {
    s.(requisitions := s.requisitions[id := row])
  }

  function Signs(s: State, id: Id, chain: Chain): State
    requires id in s.requisitions
  {
    var row := s.requisitions[id];
    Replaced(s, id, row.(chain := chain)).(signed := s.signed[id := Signed(s, id) + [row.estimate]])
  }

  /** The draft contract a requisition opens. */
  function ContractOf(row: RequisitionRow): ContractRow {
    ContractRow(row.no, row.title, row.details.supplier, row.details.kind, row.details.department, row.estimate,
                row.details.project, row.docs)
  }

  /** CreateContract, then the requisition is linked and marked converted. */
  function Converts(s: State, id: Id, contract: Id): State
    requires id in s.requisitions
  {
    var row := s.requisitions[id];
    var chain := row.chain.(status := RowStatus.Converted);
    Replaced(s, id, row.(linked := Some(contract), chain := chain)).(
      contracts := s.contracts[contract := ContractOf(row)],
      converted := s.converted + [Conversion(id, contract, ContractOf(row))])
  }

  predicate Convertible(s: State, id: Id, contract: Id) {
    && id in s.requisitions
    && s.requisitions[id].chain.status.Approved?
    && !(s.requisitions[id].linked.Some? && s.requisitions[id].linked.value != "")
    && contract !in s.contracts
    && !NumberTaken(s, s.requisitions[id].no)
  }

  function Described(d: Details, e: Edits): Details {
    Details(OrElse(e.department, d.department), OrElse(e.requester, d.requester), OrElse(e.kind, d.kind),
            OrElse(e.procurement, d.procurement), OrElse(e.supplier, d.supplier), OrElse(e.budgetCode, d.budgetCode),
            OrElse(e.urgency, d.urgency), OrElse(e.justification, d.justification), OrElse(e.project, d.project))
  }

  /** Editing ends with Pending Approval; the estimate is fixed past the raiser's own signature. */
  function PatchRow(row: RequisitionRow, e: Edits): Option<RequisitionRow> {
    if !row.chain.status.PendingApproval? then None
    else if row.chain.stage > 1 && e.estimate.Some? && e.estimate.value != row.estimate then None
    else if e.no.Some? && TrimSpace(e.no.value) == "" then None
    else if e.title.Some? && TrimSpace(e.title.value) == "" then None
    else Some(row.(no := TrimSpaceOr(e.no, row.no), title := TrimSpaceOr(e.title, row.title),
                   estimate := OrElse(e.estimate, row.estimate), details := Described(row.details, e)))
  }

  /** A correction that goes through sets each column it carries, and only those. */
  lemma CorrectionSets(row: RequisitionRow, e: Edits)
    requires PatchRow(row, e).Some?
    ensures var r, d, d' := PatchRow(row, e).value, row.details, PatchRow(row, e).value.details;
      && r.chain == row.chain && r.linked == row.linked && r.docs == row.docs
      && r.no == (if e.no.Some? then TrimSpace(e.no.value) else row.no) && (e.no.Some? ==> r.no != "")
      && r.title == (if e.title.Some? then TrimSpace(e.title.value) else row.title) && (e.title.Some? ==> r.title != "")
      && r.estimate == (if e.estimate.Some? then e.estimate.value else row.estimate)
      && (row.chain.stage > 1 ==> r.estimate == row.estimate)
      && d'.department == (if e.department.Some? then e.department.value else d.department)
      && d'.requester == (if e.requester.Some? then e.requester.value else d.requester)
      && d'.kind == (if e.kind.Some? then e.kind.value else d.kind)
      && d'.procurement == (if e.procurement.Some? then e.procurement.value else d.procurement)
      && d'.supplier == (if e.supplier.Some? then e.supplier.value else d.supplier)
      && d'.budgetCode == (if e.budgetCode.Some? then e.budgetCode.value else d.budgetCode)
      && d'.urgency == (if e.urgency.Some? then e.urgency.value else d.urgency)
      && d'.justification == (if e.justification.Some? then e.justification.value else d.justification)
      && d'.project == (if e.project.Some? then e.project.value else d.project)
  {
  }

  /** The contract takes over what the requisition asked for. */
  lemma ContractCarries(row: RequisitionRow)
    ensures var c := ContractOf(row);
      && c.number == row.no && c.name == row.title && c.value == row.estimate && c.docs == row.docs
      && c.contractor == row.details.supplier && c.kind == row.details.kind
      && c.department == row.details.department && c.project == row.details.project
  {
  }

  function TrimSpaceOr(text: Option<string>, d: string): string {
    if text.Some? then TrimSpace(text.value) else d
  }

  /** A new requisition: trimmed, numbered, of medium urgency unless said otherwise. */
  function NewRow(no: string, minted: string, title: string, estimate: int, details: Details, docs: seq<string>,
                  raisedBy: string, date: string): RequisitionRow
  {
    RequisitionRow(
      if TrimSpace(no) == "" then minted else TrimSpace(no), TrimSpace(title), estimate,
      details.(project := TrimSpace(details.project),
               urgency := if details.urgency == "" then "Medium" else details.urgency),
      docs, None, NewChain(Requisition, raisedBy, date))
  }

  function Apply(s: State, step: Step): State {
    match step
    case Create(id, no, minted, title, estimate, details, docs, raisedBy, date) =>
      var row := NewRow(no, minted, title, estimate, details, docs, raisedBy, date);
      if id in s.requisitions || row.title == "" || NoTaken(s, row.no, id) then s else Raised(s, id, row)
    case Advance(id, actor, date) => ApplyAdvance(s, id, actor, date)
    case Reject(id, actor, date, reason) =>
      if id !in s.requisitions || TrimSpace(reason) == "" then s
      else
        var row := s.requisitions[id];
        Replaced(s, id, row.(chain := RejectChain(Requisition, row.chain, actor, date, TrimSpace(reason))))
    case Patch(id, edits) =>
      if id !in s.requisitions then s
      else
        var patched := PatchRow(s.requisitions[id], edits);
        if patched.None? || NoTaken(s, patched.value.no, id) then s else Replaced(s, id, patched.value)
    case Convert(id, contract) => if Convertible(s, id, contract) then Converts(s, id, contract) else s
    case PutContract(contract, row) => s.(contracts := s.contracts[contract := row])
    case DropContract(contract) => s.(contracts := s.contracts - {contract})
  }

  function ApplyAdvance(s: State, id: Id, actor: string, date: string): State {
    if id !in s.requisitions then s
    else
      var moved := AdvanceChain(Requisition, s.requisitions[id].chain, actor, date);
      if moved.Moved? then Signs(s, id, moved.chain) else s
  }

  function Run(s: State, steps: seq<Step>): State
    decreases |steps|
  {
    if steps == [] then s else Run(Apply(s, steps[0]), steps[1..])
  }

  const EMPTY := State(map[], map[], [], map[])

  // ----- What every run keeps -----

  ghost predicate RowSound(s: State, id: Id)
    requires id in s.requisitions
  {
    var row := s.requisitions[id];
    && row.chain.stage >= 1
    && (row.chain.status.PendingApproval? || row.chain.status.Approved?
        || row.chain.status.Rejected? || row.chain.status.Converted?)
    && (row.chain.stage == 1 && row.chain.status.PendingApproval? ==> Signed(s, id) == [])
    && (forall k :: 0 <= k < |Signed(s, id)| ==> Signed(s, id)[k] == row.estimate)
  }

  /** A conversion opened the contract the requisition still describes, and the requisition has moved on for good. */
  ghost predicate ConversionSound(s: State, v: Conversion) {
    && v.requisition in s.requisitions
    && ContractOf(s.requisitions[v.requisition]) == v.draft
    && s.requisitions[v.requisition].linked == Some(v.contract)
    && (s.requisitions[v.requisition].chain.status.Converted? || s.requisitions[v.requisition].chain.status.Rejected?)
  }

  ghost predicate Sound(s: State) {
    && (forall id {:trigger RowSound(s, id)} :: id in s.requisitions ==> RowSound(s, id))
    && (forall id :: id in s.signed ==> id in s.requisitions)
    && (forall k :: 0 <= k < |s.converted| ==> ConversionSound(s, s.converted[k]))
    && (forall j, k :: 0 <= j < k < |s.converted| ==> s.converted[j].requisition != s.converted[k].requisition)
  }

  /** One row changes: the others and the conversions stand if that row fits. */
  lemma RowChanged(s: State, s': State, id: Id)
    requires Sound(s)
    requires id in s'.requisitions && s'.requisitions == s.requisitions[id := s'.requisitions[id]]
    requires s'.signed == s.signed || s'.signed == s.signed[id := Signed(s', id)]
    requires s'.converted == s.converted
    requires RowSound(s', id)
    requires id in s.requisitions && !s.requisitions[id].chain.status.PendingApproval?
             && !s.requisitions[id].chain.status.Approved? ==>
      && ContractOf(s'.requisitions[id]) == ContractOf(s.requisitions[id])
      && s'.requisitions[id].linked == s.requisitions[id].linked
      && (s'.requisitions[id].chain.status.Converted? || s'.requisitions[id].chain.status.Rejected?)
    ensures Sound(s')
  {
    forall i | i in s'.requisitions ensures RowSound(s', i) {
      if i != id {
        assert RowSound(s, i) && Signed(s', i) == Signed(s, i);
      }
    }
    forall k | 0 <= k < |s'.converted| ensures ConversionSound(s', s'.converted[k]) {
      assert ConversionSound(s, s.converted[k]);
    }
  }

  lemma ConvertSound(s: State, id: Id, contract: Id)
    requires Sound(s) && Convertible(s, id, contract)
    ensures Sound(Converts(s, id, contract))
  {
    var s' := Converts(s, id, contract);
    assert RowSound(s, id);
    forall i | i in s'.requisitions ensures RowSound(s', i) {
      assert RowSound(s, i) && Signed(s', i) == Signed(s, i);
    }
    forall k | 0 <= k < |s.converted| ensures s.converted[k].requisition != id {
      assert ConversionSound(s, s.converted[k]);
    }
    forall k | 0 <= k < |s'.converted| ensures ConversionSound(s', s'.converted[k]) {
      if k < |s.converted| { assert ConversionSound(s, s.converted[k]); }
    }
  }

  lemma AdvanceSound(s: State, id: Id, actor: string, date: string)
    requires Sound(s)
    ensures Sound(ApplyAdvance(s, id, actor, date))
  {
    if id in s.requisitions && AdvanceChain(Requisition, s.requisitions[id].chain, actor, date).Moved? {
      assert RowSound(s, id);
      AdvanceShape(Requisition, s.requisitions[id].chain, actor, date);
      SignsSound(s, id, AdvanceChain(Requisition, s.requisitions[id].chain, actor, date).chain);
    }
  }

  lemma SignsSound(s: State, id: Id, chain: Chain)
    requires Sound(s) && id in s.requisitions && s.requisitions[id].chain.status.PendingApproval?
    requires chain.stage > 1 && (chain.status.PendingApproval? || chain.status.Approved?)
    ensures Sound(Signs(s, id, chain))
  {
    assert RowSound(s, id);
    RowChanged(s, Signs(s, id, chain), id);
  }

  lemma ReplacedSound(s: State, id: Id, row: RequisitionRow)
    requires Sound(s) && id in s.requisitions
    requires row.linked == s.requisitions[id].linked && row.chain.stage == s.requisitions[id].chain.stage
    requires row.estimate == s.requisitions[id].estimate || Signed(s, id) == []
    requires || (row.chain.status.Rejected? && ContractOf(row) == ContractOf(s.requisitions[id]))
             || (row.chain.status.PendingApproval? && s.requisitions[id].chain.status.PendingApproval?)
    ensures Sound(Replaced(s, id, row))
  {
    var s' := Replaced(s, id, row);
    assert RowSound(s, id) && Signed(s', id) == Signed(s, id);
    RowChanged(s, s', id);
  }

  lemma ApplySound(s: State, step: Step)
    requires Sound(s)
    ensures Sound(Apply(s, step))
  {
    match step {
      case Create(id, no, minted, title, estimate, details, docs, raisedBy, date) =>
        if id !in s.requisitions {
          var s' := Raised(s, id, NewRow(no, minted, title, estimate, details, docs, raisedBy, date));
          RowChanged(s, s', id);
        }
      case Advance(id, actor, date) => AdvanceSound(s, id, actor, date);
      case Reject(id, actor, date, reason) =>
        if id in s.requisitions {
          var row := s.requisitions[id];
          ReplacedSound(s, id, row.(chain := RejectChain(Requisition, row.chain, actor, date, TrimSpace(reason))));
        }
      case Patch(id, edits) =>
        if id in s.requisitions && PatchRow(s.requisitions[id], edits).Some? {
          assert RowSound(s, id);
          ReplacedSound(s, id, PatchRow(s.requisitions[id], edits).value);
        }
      case Convert(id, contract) => if Convertible(s, id, contract) { ConvertSound(s, id, contract); }
      case _ => ContractsOnly(s, Apply(s, step));
    }
  }

  lemma ContractsOnly(s: State, s': State)
    requires Sound(s) && s' == s.(contracts := s'.contracts)
    ensures Sound(s')
  {
    forall i | i in s'.requisitions ensures RowSound(s', i) {
      assert RowSound(s, i) && Signed(s', i) == Signed(s, i);
    }
    forall k | 0 <= k < |s'.converted| ensures ConversionSound(s', s'.converted[k]) {
      assert ConversionSound(s, s.converted[k]);
    }
  }

  lemma {:induction false} RunSound(s: State, steps: seq<Step>)
    requires Sound(s)
    ensures Sound(Run(s, steps))
    decreases |steps|
  {
    if steps != [] {
      ApplySound(s, steps[0]);
      RunSound(Apply(s, steps[0]), steps[1..]);
    }
  }

  lemma {:induction false} RunAppend(s: State, a: seq<Step>, b: seq<Step>)
    ensures Run(s, a + b) == Run(Run(s, a), b)
    decreases |a|
  {
    if a == [] {
      assert a + b == b;
    } else {
      assert (a + b)[1..] == a[1..] + b;
      RunAppend(Apply(s, a[0]), a[1..], b);
    }
  }

  // ----- The contract a conversion opens -----

  /** No other request writes or deletes this contract. */
  predicate Spares(steps: seq<Step>, contract: Id) {
    forall step <- steps :: !(step.PutContract? && step.contract == contract)
                            && !(step.DropContract? && step.contract == contract)
  }

  /** A contract nobody writes stays as it was: conversions only open new ones. */
  lemma {:induction false} SparedKept(s: State, steps: seq<Step>, contract: Id)
    requires contract in s.contracts && Spares(steps, contract)
    ensures var s' := Run(s, steps); contract in s'.contracts && s'.contracts[contract] == s.contracts[contract]
    decreases |steps|
  {
    if steps != [] {
      assert steps[0] in steps;
      SparedKept(Apply(s, steps[0]), steps[1..], contract);
    }
  }

  lemma {:induction false} ConvertedGrows(s: State, steps: seq<Step>)
    ensures s.converted <= Run(s, steps).converted
    decreases |steps|
  {
    if steps != [] {
      assert s.converted <= Apply(s, steps[0]).converted;
      ConvertedGrows(Apply(s, steps[0]), steps[1..]);
    }
  }

  /** A contract opened along the way and written by nobody since is as it was opened. */
  lemma {:induction false} OpenedStands(s: State, steps: seq<Step>, k: nat)
    requires |s.converted| <= k < |Run(s, steps).converted|
    requires Spares(steps, Run(s, steps).converted[k].contract)
    ensures var s' := Run(s, steps);
      s'.converted[k].contract in s'.contracts && s'.contracts[s'.converted[k].contract] == s'.converted[k].draft
    decreases |steps|
  {
    var s1 := Apply(s, steps[0]);
    if k < |s1.converted| {
      ConvertedGrows(s1, steps[1..]);
      assert Run(s, steps).converted[k] == s1.converted[k];
      SparedKept(s1, steps[1..], s1.converted[k].contract);
    } else {
      OpenedStands(s1, steps[1..], k);
    }
  }

  /**
   On every run: each requisition converts at most once; its contract is opened
   as the requisition still describes it, at the estimate every approver past
   the raiser signed; and that is the contract stored, until some other request
   writes it. The run is split where the conversion may be watched from.
   */
  lemma ConvertsOnceAtTheSignedEstimate(before: seq<Step>, after: seq<Step>)
    ensures var watched, s := |Run(EMPTY, before).converted|, Run(EMPTY, before + after);
      && (forall j, k :: 0 <= j < k < |s.converted| ==> s.converted[j].requisition != s.converted[k].requisition)
      && (forall k :: 0 <= k < |s.converted| ==>
        var v := s.converted[k];
        && v.requisition in s.requisitions
        && v.draft == ContractOf(s.requisitions[v.requisition])
        && forall i :: 0 <= i < |Signed(s, v.requisition)| ==> Signed(s, v.requisition)[i] == v.draft.value)
      && (forall k :: watched <= k < |s.converted| && Spares(after, s.converted[k].contract) ==>
        var v := s.converted[k];
        && v.contract in s.contracts
        && s.contracts[v.contract] == v.draft
        && s.contracts[v.contract].value == s.requisitions[v.requisition].estimate)
      && (forall id :: id in s.requisitions ==>
        forall i :: 0 <= i < |Signed(s, id)| ==> Signed(s, id)[i] == s.requisitions[id].estimate)
  {
    RunSound(EMPTY, before + after);
    RunAppend(EMPTY, before, after);
    var s := Run(EMPTY, before + after);
    assert forall id :: id in s.requisitions ==> RowSound(s, id);
    assert forall k :: 0 <= k < |s.converted| ==> ConversionSound(s, s.converted[k]);
    forall k | |Run(EMPTY, before).converted| <= k < |s.converted| && Spares(after, s.converted[k].contract)
      ensures s.converted[k].contract in s.contracts && s.contracts[s.converted[k].contract] == s.converted[k].draft
    {
      OpenedStands(Run(EMPTY, before), after, k);
    }
  }

  // ----- A conversion cut in half -----

  /** The service died after opening the contract and before linking it. */
  function HalfConverted(s: State, id: Id, contract: Id): State
    requires id in s.requisitions
  {
    s.(contracts := Converts(s, id, contract).contracts)
  }

  /** The contract exists under a number, whatever else is written to it. */
  predicate KeepsNumber(steps: seq<Step>, contract: Id, number: string) {
    forall step <- steps :: (step.PutContract? && step.contract == contract ==> step.row.number == number)
                            && !(step.DropContract? && step.contract == contract)
  }

  /** The requisition is past editing, and a contract holds its number. */
  ghost predicate Blocked(s: State, id: Id, contract: Id, number: string) {
    && id in s.requisitions && s.requisitions[id].no == number
    && !s.requisitions[id].chain.status.PendingApproval?
    && contract in s.contracts && s.contracts[contract].number == number
  }

  lemma {:induction false} RunBlocked(s: State, steps: seq<Step>, id: Id, contract: Id, number: string)
    requires Blocked(s, id, contract, number) && KeepsNumber(steps, contract, number)
    ensures Blocked(Run(s, steps), id, contract, number)
    decreases |steps|
  {
    if steps != [] {
      var step := steps[0];
      assert step in steps;
      BlockedStep(s, step, id, contract, number);
      RunBlocked(Apply(s, step), steps[1..], id, contract, number);
    }
  }

  lemma BlockedStep(s: State, step: Step, id: Id, contract: Id, number: string)
    requires Blocked(s, id, contract, number) && KeepsNumber([step], contract, number)
    ensures Blocked(Apply(s, step), id, contract, number)
  {
    assert step in [step];
  }

  /**
   A convert request does nothing exactly when the row cannot be converted, its number is
   taken or the id is in use.
   */
  lemma ConvertRefusedExactly(s: State, id: Id, retry: Id)
    ensures Apply(s, Convert(id, retry)) == s <==>
      || id !in s.requisitions
      || !s.requisitions[id].chain.status.Approved?
      || (s.requisitions[id].linked.Some? && s.requisitions[id].linked.value != "")
      || NumberTaken(s, s.requisitions[id].no)
      || retry in s.contracts
  {
    if Convertible(s, id, retry) {
      assert |Apply(s, Convert(id, retry)).converted| == |s.converted| + 1;
    }
  }

  /** After half a conversion, no retry opens a second contract while the first keeps its number. */
  lemma HalfConvertedCannotRepeat(s: State, id: Id, contract: Id, steps: seq<Step>, retry: Id)
    requires Convertible(s, id, contract) && KeepsNumber(steps, contract, s.requisitions[id].no)
    ensures var later := Run(HalfConverted(s, id, contract), steps);
      Apply(later, Convert(id, retry)) == later
  {
    var number := s.requisitions[id].no;
    RunBlocked(HalfConverted(s, id, contract), steps, id, contract, number);
    var later := Run(HalfConverted(s, id, contract), steps);
    assert NumberTaken(later, number);
  }

  /** Renumber the first contract, and the retry opens a second at the same estimate. */
  lemma RenumberedThenRepeated(s: State, id: Id, contract: Id, number: string, retry: Id)
    requires Convertible(s, id, contract) && number != s.requisitions[id].no
    requires retry != contract && retry !in s.contracts
    ensures var half := HalfConverted(s, id, contract);
      var moved := half.contracts[contract].(number := number);
      var later := Apply(Apply(half, PutContract(contract, moved)), Convert(id, retry));
      && contract in later.contracts && later.contracts[contract] == moved
      && moved.value == s.requisitions[id].estimate
      && retry in later.contracts && later.contracts[retry] == ContractOf(s.requisitions[id])
  {
    var half := HalfConverted(s, id, contract);
    var renumbered := Apply(half, PutContract(contract, half.contracts[contract].(number := number)));
    assert Convertible(renumbered, id, retry) by {
      forall c | c in renumbered.contracts ensures renumbered.contracts[c].number != s.requisitions[id].no {
        assert c != contract ==> c in s.contracts && s.contracts[c].number == renumbered.contracts[c].number;
      }
    }
  }

  // ----- The handlers -----

  /** The descriptive columns a correction carries, one after the other. */
  method EditDetails(d: Details, e: Edits) returns (r: Details)
    ensures r == Described(d, e)
  {
    r := d;
    if e.department.Some? {
      r := r.(department := e.department.value);
    }
    if e.requester.Some? {
      r := r.(requester := e.requester.value);
    }
    if e.kind.Some? {
      r := r.(kind := e.kind.value);
    }
    if e.procurement.Some? {
      r := r.(procurement := e.procurement.value);
    }
    if e.supplier.Some? {
      r := r.(supplier := e.supplier.value);
    }
    if e.budgetCode.Some? {
      r := r.(budgetCode := e.budgetCode.value);
    }
    if e.urgency.Some? {
      r := r.(urgency := e.urgency.value);
    }
    if e.justification.Some? {
      r := r.(justification := e.justification.value);
    }
    if e.project.Some? {
      r := r.(project := e.project.value);
    }
  }

  class RequisitionDesk {
    var requisitions: map<Id, RequisitionRow>
    var contracts: map<Id, ContractRow>
    ghost var converted: seq<Conversion>
    ghost var signed: map<Id, seq<int>>

    ghost function View(): State
      reads this
    {
      State(requisitions, contracts, converted, signed)
    }

    constructor ()
      ensures View() == EMPTY
    {
      requisitions, contracts, converted, signed := map[], map[], [], map[];
    }

    /** Raises a requisition; its number is minted when none is given. */
    method CreateRequisition(id: Id, no: string, minted: string, title: string, estimate: int, details: Details,
                             docs: seq<string>, raisedBy: string, date: string) returns (ok: bool)
      requires id !in requisitions
      modifies this
      ensures View() == Apply(old(View()), Create(id, no, minted, title, estimate, details, docs, raisedBy, date))
      ensures ok <==> id in requisitions
    {
      if TrimSpace(title) == "" {
        return false;
      }
      var number := TrimSpace(no);
      if number == "" {
        number := minted;
      }
      var rq := new GovRequisition(number, TrimSpace(title), estimate, raisedBy, date);
      var d := details.(project := TrimSpace(details.project));
      if d.urgency == "" {
        d := d.(urgency := "Medium");
      }
      // The register's unique index on the number.
      if exists r :: r in requisitions && requisitions[r].no == number {
        return false;
      }
      var row := RequisitionRow(rq.no, rq.title, rq.estimate, d, docs, rq.linkedContract, rq.Columns());
      requisitions := requisitions[id := row];
      signed := signed[id := []];
      return true;
    }

    method AdvanceRequisition(id: Id, actor: string, date: string) returns (outcome: Option<Outcome>)
      modifies this
      ensures View() == ApplyAdvance(old(View()), id, actor, date)
      ensures outcome == None <==> id !in old(requisitions)
      ensures id in old(requisitions) ==>
        (outcome == Some(Done) <==> AdvanceChain(Requisition, old(requisitions)[id].chain, actor, date).Moved?)
    {
      if id !in requisitions {
        return None;
      }
      ghost var s := View();
      var row := requisitions[id];
      var rq := new GovRequisition.FromRow(row.no, row.title, row.details.supplier, row.estimate, row.linked,
                                           row.chain);
      var approved, result := rq.Advance(actor, date);
      if result != Done {
        return Some(result);
      }
      requisitions := requisitions[id := row.(chain := rq.Columns())];
      signed := signed[id := Signed(s, id) + [row.estimate]];
      return Some(Done);
    }

    method RejectRequisition(id: Id, actor: string, date: string, reason: string) returns (ok: bool)
      modifies this
      ensures View() == Apply(old(View()), Reject(id, actor, date, reason))
      ensures ok <==> id in old(requisitions) && TrimSpace(reason) != ""
      ensures ok ==>
        var before := old(requisitions)[id];
        && id in requisitions && requisitions == old(requisitions)[id := before.(chain := requisitions[id].chain)]
        && RejectionRecorded(before.chain, requisitions[id].chain, actor, date, TrimSpace(reason))
    {
      var trimmed := TrimSpace(reason);
      if id !in requisitions || trimmed == "" {
        return false;
      }
      var row := requisitions[id];
      var rq := new GovRequisition.FromRow(row.no, row.title, row.details.supplier, row.estimate, row.linked,
                                           row.chain);
      rq.Reject(actor, date, trimmed);
      requisitions := requisitions[id := row.(chain := rq.Columns())];
      return true;
    }

    /** Corrects what the request carries, column by column. */
    method PatchRequisition(id: Id, e: Edits) returns (ok: bool)
      modifies this
      ensures View() == Apply(old(View()), Patch(id, e))
      ensures !ok ==> View() == old(View())
    {
      if id !in requisitions {
        return false;
      }
      var req := requisitions[id];
      if !req.chain.status.PendingApproval? {
        return false;
      }
      if req.chain.stage > 1 && e.estimate.Some? && e.estimate.value != req.estimate {
        return false;
      }
      if e.no.Some? {
        if TrimSpace(e.no.value) == "" {
          return false;
        }
        req := req.(no := TrimSpace(e.no.value));
      }
      if e.title.Some? {
        if TrimSpace(e.title.value) == "" {
          return false;
        }
        req := req.(title := TrimSpace(e.title.value));
      }
      if e.estimate.Some? {
        req := req.(estimate := e.estimate.value);
      }
      var details := EditDetails(req.details, e);
      req := req.(details := details);
      // The register's unique index on the number.
      if exists r :: r in requisitions && r != id && requisitions[r].no == req.no {
        return false;
      }
      requisitions := requisitions[id := req];
      return true;
    }

    /** Opens a draft contract from an approved requisition and links the two. */
    method ConvertRequisition(id: Id, minted: Id) returns (ok: bool)
      modifies this
      ensures View() == Apply(old(View()), Convert(id, minted))
      ensures ok <==> Convertible(old(View()), id, minted)
    {
      if id !in requisitions {
        return false;
      }
      var row := requisitions[id];
      if !row.chain.status.Approved? {
        return false;
      }
      if row.linked.Some? && row.linked.value != "" {
        return false;
      }
      if minted in contracts || exists c :: c in contracts && contracts[c].number == row.no {
        return false;
      }
      var draft := ContractRow(row.no, row.title, row.details.supplier, row.details.kind, row.details.department,
                                row.estimate, row.details.project, row.docs);
      contracts := contracts[minted := draft];
      var chain := row.chain.(status := RowStatus.Converted);
      requisitions := requisitions[id := row.(linked := Some(minted), chain := chain)];
      converted := converted + [Conversion(id, minted, draft)];
      return true;
    }
  }
}
