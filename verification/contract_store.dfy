/**
 The write-through contract cache: each mutation is persisted first and cached
 only on success, and the derived zone counts are rewritten for the zones it
 touched.
 */
module ContractStore {
  import opened Int64
  import opened Text
  import opened Wrappers

  datatype Contract = Contract(
    no: string, name: string, zone: string, cs: int, paid: int, bal: int, prog: int, status: string)

  datatype Zone = Zone(code: string, contracts: nat)

  /** `rows` and `counts` are the database; `stale` is history: zones whose last count write failed. */
  datatype State = State(
    contracts: seq<Contract>, zones: seq<Zone>,
    rows: map<string, Contract>, counts: map<string, nat>, stale: set<string>)

  datatype Input = Input(
    no: string, name: string, zone: string, cs: Option<int>, paid: Option<int>, prog: int, status: string)

  datatype ContractPatch = ContractPatch(
    name: Option<string>, zone: Option<string>, cs: Option<int>, paid: Option<int>, prog: Option<int>,
    status: Option<string>)

  /** What the database does: whether the row statement fails, and for which zones the count statement does. */
  datatype Faults = Faults(row: bool, zones: set<string>)

  datatype Result = Ok | Validation | Conflict | NotFound | PersistFailed

  datatype Step =
    | Create(input: Input, auto: string, faults: Faults)   // auto: the number minted when none is given
    | Patch(no: string, patch: ContractPatch, faults: Faults)
    | Delete(no: string, faults: Faults)

  function Clamp(v: int, min: int, max: int): int {
    if v < min then min else if v > max then max else v
  }

  function Built(input: Input, auto: string): Contract {
    var no := TrimSpace(input.no);
    var cs, paid := OrElse(input.cs, 45_000_000), OrElse(input.paid, 0);
    Contract(if no == "" then auto else no, input.name, input.zone, cs, paid, Wrap(cs - paid),
             Clamp(input.prog, 0, 100), if input.status == "" then "Planning" else input.status)
  }

  function Patched(c: Contract, p: ContractPatch): Contract {
    var cs, paid := OrElse(p.cs, c.cs), OrElse(p.paid, c.paid);
    Contract(c.no, OrElse(p.name, c.name), OrElse(p.zone, c.zone), cs, paid, Wrap(cs - paid),
             if p.prog.Some? then Clamp(p.prog.value, 0, 100) else c.prog, OrElse(p.status, c.status))
  }

  /** A patch sets the columns it carries and no other; the balance follows, the number never changes. */
  lemma PatchSets(c: Contract, p: ContractPatch)
    ensures var r := Patched(c, p);
      && r.no == c.no
      && r.name == (if p.name.Some? then p.name.value else c.name)
      && r.zone == (if p.zone.Some? then p.zone.value else c.zone)
      && r.cs == (if p.cs.Some? then p.cs.value else c.cs)
      && r.paid == (if p.paid.Some? then p.paid.value else c.paid)
      && r.status == (if p.status.Some? then p.status.value else c.status)
      && (p.prog.None? ==> r.prog == c.prog)
      && (p.prog.Some? ==> 0 <= r.prog <= 100 && (0 <= p.prog.value <= 100 ==> r.prog == p.prog.value))
      && (Fits(r.cs - r.paid) ==> r.bal + r.paid == r.cs)
  {
  }

  /** A new contract: what was given, else the defaults; planned, unpaid and worth 45 million. */
  lemma CreateSets(input: Input, auto: string)
    ensures var r := Built(input, auto);
      && r.name == input.name && r.zone == input.zone
      && r.no == (if TrimSpace(input.no) == "" then auto else TrimSpace(input.no))
      && r.cs == (if input.cs.Some? then input.cs.value else 45_000_000)
      && r.paid == (if input.paid.Some? then input.paid.value else 0)
      && r.status == (if input.status == "" then "Planning" else input.status)
      && 0 <= r.prog <= 100 && (0 <= input.prog <= 100 ==> r.prog == input.prog)
      && (Fits(r.cs - r.paid) ==> r.bal + r.paid == r.cs)
  {
  }

  /** The contracts of one zone, counted. */
  function CountIn(contracts: seq<Contract>, code: string): nat {
    if contracts == [] then 0
    else CountIn(contracts[..|contracts| - 1], code) + (if contracts[|contracts| - 1].zone == code then 1 else 0)
  }

  function Recounted(zones: seq<Zone>, contracts: seq<Contract>): (r: seq<Zone>)
    ensures |r| == |zones|
  {
    seq(|zones|, i requires 0 <= i < |zones| => zones[i].(contracts := CountIn(contracts, zones[i].code)))
  }

  /** The count statements for the touched zones: those that fail leave their row, a blank code has none. */
  function Rewritten(counts: map<string, nat>, contracts: seq<Contract>, touched: set<string>, failing: set<string>)
    : map<string, nat>
  {
    map z | z in counts :: if z in touched && z != "" && z !in failing then CountIn(contracts, z) else counts[z]
  }

  /** The mutation took: new cache, new row, recounted zones. */
  function Took(s: State, contracts: seq<Contract>, rows: map<string, Contract>, touched: set<string>,
                failing: set<string>): State
  {
    State(contracts, Recounted(s.zones, contracts), rows, Rewritten(s.counts, contracts, touched, failing),
          (s.stale - touched) + touched * failing)
  }

  function ToSet(zones: seq<string>): set<string> {
    set z | z in zones
  }

  predicate Holds(contracts: seq<Contract>, no: string) {
    exists i :: 0 <= i < |contracts| && contracts[i].no == no
  }

  /** The first contract with this number, or the length when there is none. */
  function Find(contracts: seq<Contract>, no: string): (i: nat)
    ensures i <= |contracts|
    ensures i < |contracts| ==> contracts[i].no == no
    ensures forall j :: 0 <= j < i ==> contracts[j].no != no
  {
    if contracts == [] || contracts[0].no == no then 0 else 1 + Find(contracts[1..], no)
  }

  function Apply(s: State, step: Step): State {
    match step
    case Create(input, auto, faults) =>
      var c := Built(input, auto);
      if TrimSpace(input.name) == "" || TrimSpace(input.zone) == "" || Holds(s.contracts, c.no) || faults.row then s
      else Took(s, s.contracts + [c], s.rows[c.no := c], {c.zone}, faults.zones)
    case Patch(no, patch, faults) =>
      var i := Find(s.contracts, TrimSpace(no));
      if TrimSpace(no) == "" || i == |s.contracts| || faults.row then s
      else
        var c := Patched(s.contracts[i], patch);
        Took(s, s.contracts[i := c], s.rows[c.no := c], {s.contracts[i].zone, c.zone}, faults.zones)
    case Delete(no, faults) =>
      var i := Find(s.contracts, TrimSpace(no));
      if TrimSpace(no) == "" || i == |s.contracts| || faults.row then s
      else Took(s, s.contracts[..i] + s.contracts[i + 1..], s.rows - {s.contracts[i].no}, {s.contracts[i].zone},
                faults.zones)
  }

  function Run(s: State, steps: seq<Step>): State
    decreases |steps|
  {
    if steps == [] then s else Run(Apply(s, steps[0]), steps[1..])
  }

  // ----- What every run keeps -----

  ghost predicate Unique(contracts: seq<Contract>) {
    forall i, j :: 0 <= i < j < |contracts| ==> contracts[i].no != contracts[j].no
  }

  /** Cache and table hold the same contracts. */
  ghost predicate Mirrors(contracts: seq<Contract>, rows: map<string, Contract>) {
    && (forall i :: 0 <= i < |contracts| ==> contracts[i].no in rows && rows[contracts[i].no] == contracts[i])
    && (forall no :: no in rows ==> Holds(contracts, no))
  }

  ghost predicate Balanced(contracts: seq<Contract>) {
    forall i :: 0 <= i < |contracts| ==> contracts[i].bal == Wrap(contracts[i].cs - contracts[i].paid)
  }

  /** Every cached zone counter is the number of its contracts. */
  ghost predicate ZonesRight(s: State) {
    forall i :: 0 <= i < |s.zones| ==> s.zones[i].contracts == CountIn(s.contracts, s.zones[i].code)
  }

  lemma {:induction false} CountAppend(a: seq<Contract>, b: seq<Contract>, code: string)
    ensures CountIn(a + b, code) == CountIn(a, code) + CountIn(b, code)
  {
    if b == [] {
      assert a + b == a;
    } else {
      var n := |b| - 1;
      assert (a + b)[..|a + b| - 1] == a + b[..n];
      CountAppend(a, b[..n], code);
    }
  }

  lemma CountOne(c: Contract, code: string)
    ensures CountIn([c], code) == if c.zone == code then 1 else 0
  {
    assert [c][..0] == [];
  }

  lemma CountAround(a: seq<Contract>, c: Contract, b: seq<Contract>, code: string)
    ensures CountIn(a + [c] + b, code) == CountIn(a + b, code) + (if c.zone == code then 1 else 0)
  {
    CountAppend(a + [c], b, code);
    CountAppend(a, [c], code);
    CountAppend(a, b, code);
    CountOne(c, code);
  }

  /** A zone the mutation does not touch keeps its count, so rewriting the touched ones is enough. */
  lemma MirrorsAdded(contracts: seq<Contract>, rows: map<string, Contract>, c: Contract)
    requires Unique(contracts) && Mirrors(contracts, rows) && !Holds(contracts, c.no)
    ensures Unique(contracts + [c]) && Mirrors(contracts + [c], rows[c.no := c])
  {
    var longer := contracts + [c];
    assert longer[|contracts|] == c;
    forall no | no in rows[c.no := c] ensures Holds(longer, no) {
      if no != c.no {
        var i :| 0 <= i < |contracts| && contracts[i].no == no;
        assert longer[i].no == no;
      }
    }
  }

  lemma CountReplaced(contracts: seq<Contract>, i: nat, c: Contract, z: string)
    requires i < |contracts|
    ensures CountIn(contracts[i := c], z) + (if contracts[i].zone == z then 1 else 0)
            == CountIn(contracts, z) + (if c.zone == z then 1 else 0)
  {
    var a, b := contracts[..i], contracts[i + 1..];
    assert contracts[i := c] == a + [c] + b && contracts == a + [contracts[i]] + b;
    CountAround(a, c, b, z);
    CountAround(a, contracts[i], b, z);
  }

  lemma CountRemoved(contracts: seq<Contract>, i: nat, z: string)
    requires i < |contracts|
    ensures CountIn(contracts[..i] + contracts[i + 1..], z) + (if contracts[i].zone == z then 1 else 0)
            == CountIn(contracts, z)
  {
    var a, b := contracts[..i], contracts[i + 1..];
    assert contracts == a + [contracts[i]] + b;
    CountAround(a, contracts[i], b, z);
  }

  lemma MirrorsReplaced(contracts: seq<Contract>, rows: map<string, Contract>, i: nat, c: Contract)
    requires Unique(contracts) && Mirrors(contracts, rows) && i < |contracts| && c.no == contracts[i].no
    ensures Unique(contracts[i := c]) && Mirrors(contracts[i := c], rows[c.no := c])
  {
    var replaced := contracts[i := c];
    forall no | no in rows[c.no := c] ensures Holds(replaced, no) {
      assert Holds(contracts, no);
      var j :| 0 <= j < |contracts| && contracts[j].no == no;
      assert replaced[j].no == no;
    }
  }

  lemma UniqueRemoved(contracts: seq<Contract>, i: nat)
    requires Unique(contracts) && i < |contracts|
    ensures var rest := contracts[..i] + contracts[i + 1..];
      Unique(rest) && forall j :: 0 <= j < |rest| ==> rest[j] in contracts && rest[j].no != contracts[i].no
  {
    var rest := contracts[..i] + contracts[i + 1..];
    assert forall j :: 0 <= j < |rest| ==> rest[j] == contracts[if j < i then j else j + 1];
  }

  lemma MirrorsRemoved(contracts: seq<Contract>, rows: map<string, Contract>, i: nat)
    requires Unique(contracts) && Mirrors(contracts, rows) && i < |contracts|
    ensures Mirrors(contracts[..i] + contracts[i + 1..], rows - {contracts[i].no})
  {
    var rest := contracts[..i] + contracts[i + 1..];
    UniqueRemoved(contracts, i);
    forall no | no in rows - {contracts[i].no} ensures Holds(rest, no) {
      var j :| 0 <= j < |contracts| && contracts[j].no == no;
      assert contracts[j] == rest[if j < i then j else j - 1];
    }
  }

  lemma BalancedRemoved(contracts: seq<Contract>, i: nat)
    requires Balanced(contracts) && i < |contracts|
    ensures Balanced(contracts[..i] + contracts[i + 1..])
  {
  }

  /** An empty store over some zones. */
  function Initial(codes: seq<string>): State {
    State([], seq(|codes|, i requires 0 <= i < |codes| => Zone(codes[i], 0)), map[], map z | z in codes :: 0, {})
  }

  // ----- From any store -----

  /** Cache and rows hold the same contracts, each number once. */
  ghost predicate Linked(s: State) {
    Unique(s.contracts) && Mirrors(s.contracts, s.rows)
  }

  lemma ApplyLinked(s: State, step: Step)
    requires Linked(s)
    ensures Linked(Apply(s, step))
  {
    match step {
      case Create(input, auto, _) =>
        if !Holds(s.contracts, Built(input, auto).no) {
          MirrorsAdded(s.contracts, s.rows, Built(input, auto));
        }
      case Patch(no, patch, _) =>
        var i := Find(s.contracts, TrimSpace(no));
        if i < |s.contracts| {
          MirrorsReplaced(s.contracts, s.rows, i, Patched(s.contracts[i], patch));
        }
      case Delete(no, _) =>
        var i := Find(s.contracts, TrimSpace(no));
        if i < |s.contracts| {
          UniqueRemoved(s.contracts, i);
          MirrorsRemoved(s.contracts, s.rows, i);
        }
    }
  }

  lemma ApplyBalanced(s: State, step: Step)
    requires Balanced(s.contracts)
    ensures Balanced(Apply(s, step).contracts)
  {
    if step.Delete? {
      var i := Find(s.contracts, TrimSpace(step.no));
      if i < |s.contracts| {
        BalancedRemoved(s.contracts, i);
      }
    }
  }

  /** The stored count of a zone is right, unless its last write failed. */
  ghost predicate CountRight(s: State, z: string) {
    z in s.counts && z != "" && z !in s.stale ==> s.counts[z] == CountIn(s.contracts, z)
  }

  lemma ApplyCountRight(s: State, step: Step, z: string)
    requires CountRight(s, z)
    ensures CountRight(Apply(s, step), z)
  {
    if z !in Touched(s, step) {
      StaleUntilTouched(s, step, z);
    }
  }

  lemma ApplyZonesRight(s: State, step: Step)
    requires ZonesRight(s)
    ensures ZonesRight(Apply(s, step))
  {
  }

  lemma {:induction false} RunLinked(s: State, steps: seq<Step>)
    requires Linked(s)
    ensures Linked(Run(s, steps))
    ensures Balanced(s.contracts) ==> Balanced(Run(s, steps).contracts)
    ensures ZonesRight(s) ==> ZonesRight(Run(s, steps))
    decreases |steps|
  {
    if steps != [] {
      ApplyLinked(s, steps[0]);
      if Balanced(s.contracts) {
        ApplyBalanced(s, steps[0]);
      }
      if ZonesRight(s) {
        ApplyZonesRight(s, steps[0]);
      }
      RunLinked(Apply(s, steps[0]), steps[1..]);
    }
  }

  lemma {:induction false} RunCountRight(s: State, steps: seq<Step>, z: string)
    requires CountRight(s, z)
    ensures CountRight(Run(s, steps), z)
    decreases |steps|
  {
    if steps != [] {
      ApplyCountRight(s, steps[0], z);
      RunCountRight(Apply(s, steps[0]), steps[1..], z);
    }
  }

  /**
   From any store that mirrors its database, over any creates, patches and
   deletes, whatever statements fail: the cached contracts are the database's
   and numbers stay unique. If balances started right, each is sum less paid
   exactly when an int64 holds that; cached zone counters that started right
   are right; and a stored zone count that started right, or as one whose write
   had failed, is right except where its last write failed.
   */
  lemma CacheMirrorsDatabase(start: State, steps: seq<Step>)
    requires Linked(start)
    ensures var s := Run(start, steps);
      && (forall c <- s.contracts :: c.no in s.rows && s.rows[c.no] == c)
      && (forall no <- s.rows :: s.rows[no] in s.contracts && s.rows[no].no == no)
      && (forall i, j :: 0 <= i < j < |s.contracts| ==> s.contracts[i].no != s.contracts[j].no)
      && (Balanced(start.contracts) ==> forall c <- s.contracts :: c.bal == c.cs - c.paid <==> Fits(c.cs - c.paid))
      && (ZonesRight(start) ==> ZonesRight(s))
      && (forall z :: CountRight(start, z) ==> CountRight(s, z))
  {
    RunLinked(start, steps);
    var s := Run(start, steps);
    LinkedMeans(s);
    if Balanced(start.contracts) {
      BalancedMeans(s.contracts);
    }
    forall z | CountRight(start, z) ensures CountRight(s, z) {
      RunCountRight(start, steps, z);
    }
  }

  lemma LinkedMeans(s: State)
    requires Linked(s)
    ensures forall c <- s.contracts :: c.no in s.rows && s.rows[c.no] == c
    ensures forall no <- s.rows :: s.rows[no] in s.contracts && s.rows[no].no == no
  {
    forall no <- s.rows ensures s.rows[no] in s.contracts && s.rows[no].no == no {
      var i :| 0 <= i < |s.contracts| && s.contracts[i].no == no;
      assert s.contracts[i] in s.contracts;
    }
  }

  lemma BalancedMeans(contracts: seq<Contract>)
    requires Balanced(contracts)
    ensures forall c <- contracts :: c.bal == c.cs - c.paid <==> Fits(c.cs - c.paid)
  {
    forall c <- contracts ensures c.bal == Wrap(c.cs - c.paid) {
      var i :| 0 <= i < |contracts| && contracts[i] == c;
    }
  }

  lemma {:induction false} NothingStale(s: State, steps: seq<Step>)
    requires s.stale == {} && forall k :: 0 <= k < |steps| ==> steps[k].faults.zones == {}
    ensures Run(s, steps).stale == {}
    decreases |steps|
  {
    if steps != [] {
      assert steps[0].faults.zones == {};
      assert Apply(s, steps[0]).stale == {};
      NothingStale(Apply(s, steps[0]), steps[1..]);
    }
  }

  /** When no count statement fails, no stored count is ever wrong. */
  lemma CountsExactWithoutFaults(s: State, steps: seq<Step>)
    requires (forall z :: CountRight(s, z)) && s.stale == {}
    requires forall k :: 0 <= k < |steps| ==> steps[k].faults.zones == {}
    ensures var s' := Run(s, steps);
      forall z :: z in s'.counts && z != "" ==> s'.counts[z] == CountIn(s'.contracts, z)
  {
    NothingStale(s, steps);
    var s' := Run(s, steps);
    forall z | z in s'.counts && z != "" ensures s'.counts[z] == CountIn(s'.contracts, z) {
      RunCountRight(s, steps, z);
    }
  }

  /** The zones a step recounts in the database. */
  function Touched(s: State, step: Step): set<string> {
    match step
    case Create(input, auto, _) => {Built(input, auto).zone}
    case Patch(no, patch, _) =>
      var i := Find(s.contracts, TrimSpace(no));
      if i == |s.contracts| then {} else {s.contracts[i].zone, Patched(s.contracts[i], patch).zone}
    case Delete(no, _) =>
      var i := Find(s.contracts, TrimSpace(no));
      if i == |s.contracts| then {} else {s.contracts[i].zone}
  }

  ghost predicate Untouched(s: State, s': State, z: string) {
    && (z in s'.counts <==> z in s.counts)
    && (z in s.counts ==> s'.counts[z] == s.counts[z])
    && CountIn(s'.contracts, z) == CountIn(s.contracts, z)
    && (z in s'.stale <==> z in s.stale)
  }

  lemma TookUntouched(s: State, contracts: seq<Contract>, rows: map<string, Contract>, touched: set<string>,
                      failing: set<string>, z: string)
    requires z !in touched && CountIn(contracts, z) == CountIn(s.contracts, z)
    ensures Untouched(s, Took(s, contracts, rows, touched, failing), z)
  {
  }

  /** A count whose write failed is not repaired by the next mutation, only by the next one in its zone. */
  lemma StaleUntilTouched(s: State, step: Step, z: string)
    requires z !in Touched(s, step)
    ensures Untouched(s, Apply(s, step), z)
  {
    match step {
      case Create(input, auto, faults) =>
        var c := Built(input, auto);
        CountAppend(s.contracts, [c], z);
        CountOne(c, z);
        TookUntouched(s, s.contracts + [c], s.rows[c.no := c], {c.zone}, faults.zones, z);
      case Patch(no, patch, faults) =>
        var i := Find(s.contracts, TrimSpace(no));
        if i < |s.contracts| {
          var was, c := s.contracts[i], Patched(s.contracts[i], patch);
          CountReplaced(s.contracts, i, c, z);
          TookUntouched(s, s.contracts[i := c], s.rows[c.no := c], {was.zone, c.zone}, faults.zones, z);
        }
      case Delete(no, faults) =>
        var i := Find(s.contracts, TrimSpace(no));
        if i < |s.contracts| {
          CountRemoved(s.contracts, i, z);
          TookUntouched(s, s.contracts[..i] + s.contracts[i + 1..], s.rows - {s.contracts[i].no},
                        {s.contracts[i].zone}, faults.zones, z);
        }
    }
  }

  lemma RewrittenOneMore(counts: map<string, nat>, contracts: seq<Contract>, seen: set<string>, code: string,
                         failing: set<string>)
    requires code != "" && code !in seen
    ensures var before, after := Rewritten(counts, contracts, seen, failing),
                                 Rewritten(counts, contracts, seen + {code}, failing);
      after == if code in before && code !in failing then before[code := CountIn(contracts, code)] else before
  {
  }

  lemma ToSetGrows(touched: seq<string>, i: nat)
    requires i < |touched|
    ensures ToSet(touched[..i + 1]) == ToSet(touched[..i]) + {touched[i]}
  {
    assert touched[..i + 1] == touched[..i] + [touched[i]];
  }

  lemma BlankIgnored(counts: map<string, nat>, contracts: seq<Contract>, touched: set<string>, failing: set<string>)
    ensures Rewritten(counts, contracts, touched - {""}, failing) == Rewritten(counts, contracts, touched, failing)
  {
  }

  /** Recounting keeps every code in its place, and recounts the same again. */
  lemma CodesKept(zones: seq<Zone>, contracts: seq<Contract>)
    ensures var r := Recounted(zones, contracts);
      && (forall i :: 0 <= i < |zones| ==> r[i].code == zones[i].code)
      && Recounted(r, contracts) == r
  {
  }

  // ----- The store -----

  class Store {
    var contracts: seq<Contract>
    var zones: seq<Zone>
    var rows: map<string, Contract>
    var counts: map<string, nat>
    ghost var stale: set<string>

    ghost function View(): State
      reads this
    {
      State(contracts, zones, rows, counts, stale)
    }

    /** The cached zones are the stored ones, each once. */
    ghost predicate ZonesCached()
      reads this
    {
      && (forall i, j :: 0 <= i < j < |zones| ==> zones[i].code != zones[j].code)
      && (forall z :: z in counts <==> exists i :: 0 <= i < |zones| && zones[i].code == z)
    }

    constructor (codes: seq<string>)
      requires forall i, j :: 0 <= i < j < |codes| ==> codes[i] != codes[j]
      ensures View() == Initial(codes) && ZonesCached()
      ensures Linked(View()) && Balanced(contracts) && ZonesRight(View()) && forall z :: CountRight(View(), z)
    {
      contracts, rows, stale := [], map[], {};
      zones := seq(|codes|, i requires 0 <= i < |codes| => Zone(codes[i], 0));
      counts := map z | z in codes :: 0;
      new;
      assert forall i :: 0 <= i < |codes| ==> zones[i].code == codes[i];
    }

    /** recalcZoneCounts: tally every contract by zone, then read each zone's tally. */
    method RecalcZoneCounts()
      modifies this`zones
      ensures zones == Recounted(old(zones), contracts)
    {
      var tally: map<string, nat> := map[];
      for i := 0 to |contracts|
        invariant forall z :: z in tally ==> tally[z] == CountIn(contracts[..i], z)
        invariant forall z :: z !in tally ==> CountIn(contracts[..i], z) == 0
      {
        var z := contracts[i].zone;
        tally := tally[z := (if z in tally then tally[z] else 0) + 1];
        assert contracts[..i + 1][..i] == contracts[..i];
      }
      assert contracts[..|contracts|] == contracts;
      for i := 0 to |zones|
        invariant |zones| == |old(zones)|
        invariant forall j :: 0 <= j < i ==> zones[j] == Recounted(old(zones), contracts)[j]
        invariant forall j :: i <= j < |zones| ==> zones[j] == old(zones)[j]
      {
        var z := zones[i].code;
        zones := zones[i := zones[i].(contracts := if z in tally then tally[z] else 0)];
      }
    }

    /** UpdateZoneCount for one zone, found in the cache. */
    method WriteCount(code: string, failing: set<string>)
      requires ZonesCached() && zones == Recounted(zones, contracts)
      modifies this`counts
      ensures counts == if code in old(counts) && code !in failing
                        then old(counts)[code := CountIn(contracts, code)] else old(counts)
    {
      for j := 0 to |zones|
        invariant forall k :: 0 <= k < j ==> zones[k].code != code
        invariant counts == old(counts)
      {
        if zones[j].code == code {
          assert zones[j] == Recounted(zones, contracts)[j];
          if code !in failing {
            counts := counts[code := zones[j].contracts];
          }
          return;
        }
      }
    }

    /** The count statements, each touched zone once. */
    method WriteCounts(touched: seq<string>, failing: set<string>)
      requires ZonesCached() && zones == Recounted(zones, contracts)
      modifies this`counts
      ensures counts == Rewritten(old(counts), contracts, ToSet(touched), failing)
      ensures ZonesCached()
    {
      ghost var c0 := counts;
      var seen: set<string> := {};
      for i := 0 to |touched|
        invariant ZonesCached()
        invariant seen == ToSet(touched[..i]) - {""}
        invariant counts == Rewritten(c0, contracts, seen, failing)
      {
        var code := touched[i];
        ToSetGrows(touched, i);
        if code != "" && code !in seen {
          RewrittenOneMore(c0, contracts, seen, code, failing);
          WriteCount(code, failing);
          seen := seen + {code};
        }
      }
      assert touched[..|touched|] == touched;
      BlankIgnored(c0, contracts, ToSet(touched), failing);
    }

    /** Recounts in memory, then rewrites the stored count of each touched zone; failures are not undone. */
    method PersistZoneCounts(touched: seq<string>, failing: set<string>)
      requires ZonesCached()
      modifies this`zones, this`counts, this`stale
      ensures zones == Recounted(old(zones), contracts)
      ensures counts == Rewritten(old(counts), contracts, ToSet(touched), failing)
      ensures stale == (old(stale) - ToSet(touched)) + ToSet(touched) * failing
      ensures ZonesCached()
    {
      CodesKept(zones, contracts);
      RecalcZoneCounts();
      WriteCounts(touched, failing);
      stale := (stale - ToSet(touched)) + ToSet(touched) * failing;
    }

    /** insertContract: refuse a taken number, persist, then cache and recount the zone. */
    method InsertContract(c: Contract, faults: Faults) returns (r: Result)
      requires ZonesCached()
      modifies this
      ensures ZonesCached()
      ensures r == if Holds(old(contracts), c.no) then Conflict else if faults.row then PersistFailed else Ok
      ensures View() == if r == Ok
                        then Took(old(View()), old(contracts) + [c], old(rows)[c.no := c], {c.zone}, faults.zones)
                        else old(View())
    {
      for i := 0 to |contracts|
        invariant forall j :: 0 <= j < i ==> contracts[j].no != c.no
      {
        if contracts[i].no == c.no {
          return Conflict;
        }
      }
      if faults.row {
        return PersistFailed;
      }
      rows := rows[c.no := c];
      contracts := contracts + [c];
      assert ToSet([c.zone]) == {c.zone};
      PersistZoneCounts([c.zone], faults.zones);
      return Ok;
    }

    method CreateContract(input: Input, auto: string, faults: Faults) returns (r: Result)
      requires ZonesCached()
      modifies this
      ensures View() == Apply(old(View()), Create(input, auto, faults)) && ZonesCached()
      ensures r != Ok ==> View() == old(View())
      ensures r == Conflict <==> TrimSpace(input.name) != "" && TrimSpace(input.zone) != ""
                                 && Holds(old(contracts), Built(input, auto).no)
    {
      var no := TrimSpace(input.no);
      if no == "" {
        no := auto;
      }
      if TrimSpace(input.name) == "" || TrimSpace(input.zone) == "" {
        return Validation;
      }
      var cs, paid := 45_000_000, 0;
      if input.cs.Some? {
        cs := input.cs.value;
      }
      if input.paid.Some? {
        paid := input.paid.value;
      }
      var c := Contract(no, input.name, input.zone, cs, paid, Wrap(cs - paid), Clamp(input.prog, 0, 100),
                        if input.status == "" then "Planning" else input.status);
      assert c == Built(input, auto);
      r := InsertContract(c, faults);
    }

    /** The patch closure: column by column, the balance last. */
    method ApplyColumns(c: Contract, p: ContractPatch) returns (r: Contract)
      ensures r == Patched(c, p)
    {
      r := c;
      if p.name.Some? {
        r := r.(name := p.name.value);
      }
      if p.zone.Some? {
        r := r.(zone := p.zone.value);
      }
      if p.cs.Some? {
        r := r.(cs := p.cs.value);
      }
      if p.paid.Some? {
        r := r.(paid := p.paid.value);
      }
      if p.prog.Some? {
        r := r.(prog := Clamp(p.prog.value, 0, 100));
      }
      if p.status.Some? {
        r := r.(status := p.status.value);
      }
      r := r.(bal := Wrap(r.cs - r.paid));
    }

    method PatchContract(no: string, patch: ContractPatch, faults: Faults) returns (r: Result)
      requires ZonesCached()
      modifies this
      ensures View() == Apply(old(View()), Patch(no, patch, faults)) && ZonesCached()
      ensures r != Ok ==> View() == old(View())
      ensures r == NotFound <==> TrimSpace(no) != "" && !Holds(old(contracts), TrimSpace(no))
    {
      var key := TrimSpace(no);
      if key == "" {
        return Validation;
      }
      for i := 0 to |contracts|
        invariant View() == old(View())
        invariant forall j :: 0 <= j < i ==> contracts[j].no != key
      {
        if contracts[i].no == key {
          assert i == Find(contracts, key);
          var updated := ApplyColumns(contracts[i], patch);
          var oldZone := contracts[i].zone;
          if faults.row {
            return PersistFailed;
          }
          rows := rows[updated.no := updated];
          contracts := contracts[i := updated];
          if updated.zone != oldZone {
            assert ToSet([oldZone, updated.zone]) == {oldZone, updated.zone};
            PersistZoneCounts([oldZone, updated.zone], faults.zones);
          } else {
            assert ToSet([updated.zone]) == {oldZone, updated.zone};
            PersistZoneCounts([updated.zone], faults.zones);
          }
          return Ok;
        }
      }
      return NotFound;
    }

    method DeleteContract(no: string, faults: Faults) returns (r: Result)
      requires ZonesCached()
      modifies this
      ensures View() == Apply(old(View()), Delete(no, faults)) && ZonesCached()
      ensures r != Ok ==> View() == old(View())
      ensures r == NotFound <==> TrimSpace(no) != "" && !Holds(old(contracts), TrimSpace(no))
    {
      var key := TrimSpace(no);
      if key == "" {
        return Validation;
      }
      for i := 0 to |contracts|
        invariant View() == old(View())
        invariant forall j :: 0 <= j < i ==> contracts[j].no != key
      {
        if contracts[i].no == key {
          assert i == Find(contracts, key);
          var c := contracts[i];
          if faults.row {
            return PersistFailed;
          }
          rows := rows - {c.no};
          contracts := contracts[..i] + contracts[i + 1..];
          assert ToSet([c.zone]) == {c.zone};
          PersistZoneCounts([c.zone], faults.zones);
          return Ok;
        }
      }
      return NotFound;
    }
  }
}
