/** BuildMonthlySummary: one pass over contracts into maps, then a sorted list, as a declarative group-by. */
module MonthlySummary {
  import opened Execution
  import opened Int64
  import opened Text
  import opened Upserts
  import opened Wrappers

  datatype Contract = Contract(
    id: string,
    contractor: string,
    execution: string,
    progress: int,
    value: int,
    received: int)

  datatype ProgressReport = ProgressReport(contractId: string, execution: string, progress: int)

  datatype Bucket = Completed | Ongoing | Halted | Paused | NotStarted

  datatype ContractorSummary = ContractorSummary(
    contractor: string,
    total: nat,
    completed: nat,
    ongoing: nat,
    halted: nat,
    paused: nat,
    notStarted: nat,
    avgProgress: int)

  datatype Summary = Summary(
    period: string,
    totalContracts: nat,
    completed: nat,
    ongoing: nat,
    halted: nat,
    paused: nat,
    notStarted: nat,
    totalValue: int,
    totalReceived: int,
    byContractor: seq<ContractorSummary>)

  // ----- The group-by -----

  /** What one contract contributes. */
  datatype Line = Line(name: string, bucket: Bucket, progress: int, value: int, received: int)

  function BucketOf(status: string): Bucket {
    if status == COMPLETED then Completed
    else if status == ONGOING then Ongoing
    else if status == HALTED then Halted
    else if status == PAUSED then Paused
    else NotStarted
  }

  /** Each of the five statuses has its own tally; any other text counts as not started. */
  lemma BucketsByStatus(status: string)
    ensures BucketOf("Completed") == Completed && BucketOf("Ongoing") == Ongoing && BucketOf("Halted") == Halted
    ensures BucketOf("Paused") == Paused && BucketOf("Not Started") == NotStarted && BucketOf("") == NotStarted
    ensures !Known(status) ==> BucketOf(status) == NotStarted
  {
    assert |"Completed"| == 9 && |"Ongoing"| == 7 && |"Halted"| == 6 && |"Paused"| == 6 && "Halted"[0] != "Paused"[0];
    assert |"Not Started"| == 11;
  }

  function ReportsById(reports: seq<ProgressReport>): seq<(string, ProgressReport)> {
    seq(|reports|, i requires 0 <= i < |reports| => (reports[i].contractId, reports[i]))
  }

  /** The last report of a contract stands before the contract's own fields. */
  function LineOf(c: Contract, reports: seq<ProgressReport>): Line {
    var log := ReportsById(reports);
    var status := if Written(log, c.id) && LastWrite(log, c.id).execution != ""
                  then Normalize(LastWrite(log, c.id).execution) else c.execution;
    var progress := if Written(log, c.id) then LastWrite(log, c.id).progress else c.progress;
    Line(if c.contractor == "" then "Unassigned" else c.contractor, BucketOf(status), progress, c.value, c.received)
  }

  function Lines(contracts: seq<Contract>, reports: seq<ProgressReport>): seq<Line> {
    seq(|contracts|, i requires 0 <= i < |contracts| => LineOf(contracts[i], reports))
  }

  /** A contract counts under its contractor with its own money; a report of the period decides status and progress. */
  lemma LineReads(c: Contract, reports: seq<ProgressReport>)
    ensures var l, log := LineOf(c, reports), ReportsById(reports);
      && l.value == c.value && l.received == c.received
      && l.name == (if c.contractor == "" then "Unassigned" else c.contractor)
      && (!Written(log, c.id) ==> l.progress == c.progress && l.bucket == BucketOf(c.execution))
      && (Written(log, c.id) ==>
            var r := LastWrite(log, c.id);
            && l.progress == r.progress
            && l.bucket == BucketOf(if r.execution == "" then c.execution else Normalize(r.execution)))
  {
  }

  predicate Matches(l: Line, name: Option<string>, bucket: Option<Bucket>) {
    (name.None? || l.name == name.value) && (bucket.None? || l.bucket == bucket.value)
  }

  /** Lines of a name (of any, without one) in a bucket (in any, without one). */
  function Count(lines: seq<Line>, name: Option<string>, bucket: Option<Bucket>): nat {
    if lines == [] then 0
    else
      Count(lines[..|lines| - 1], name, bucket) + if Matches(lines[|lines| - 1], name, bucket) then 1 else 0
  }

  function Progress(lines: seq<Line>, name: string): int {
    if lines == [] then 0
    else
      Progress(lines[..|lines| - 1], name)
      + if lines[|lines| - 1].name == name then lines[|lines| - 1].progress else 0
  }

  function Value(lines: seq<Line>): int {
    if lines == [] then 0 else Value(lines[..|lines| - 1]) + lines[|lines| - 1].value
  }

  function Received(lines: seq<Line>): int {
    if lines == [] then 0 else Received(lines[..|lines| - 1]) + lines[|lines| - 1].received
  }

  function Tally(lines: seq<Line>, name: string): ContractorSummary {
    ContractorSummary(
      name, Count(lines, Some(name), None),
      Count(lines, Some(name), Some(Completed)), Count(lines, Some(name), Some(Ongoing)),
      Count(lines, Some(name), Some(Halted)), Count(lines, Some(name), Some(Paused)),
      Count(lines, Some(name), Some(NotStarted)), 0)
  }

  function GroupOf(lines: seq<Line>, name: string): ContractorSummary {
    var tally := Tally(lines, name);
    if tally.total > 0 then tally.(avgProgress := TruncDiv(Progress(lines, name), tally.total)) else tally
  }

  ghost predicate Sorted(groups: seq<ContractorSummary>) {
    forall i, j :: 0 <= i < j < |groups| ==> Less(groups[i].contractor, groups[j].contractor)
  }

  /** The names that occur. */
  function Names(lines: seq<Line>): set<string> {
    set l <- lines :: l.name
  }

  ghost predicate IsSummary(sum: Summary, period: string, lines: seq<Line>) {
    && sum.period == period
    && sum.totalContracts == |lines|
    && sum.completed == Count(lines, None, Some(Completed))
    && sum.ongoing == Count(lines, None, Some(Ongoing))
    && sum.halted == Count(lines, None, Some(Halted))
    && sum.paused == Count(lines, None, Some(Paused))
    && sum.notStarted == Count(lines, None, Some(NotStarted))
    && sum.totalValue == Value(lines)
    && sum.totalReceived == Received(lines)
    && Sorted(sum.byContractor)
    && (forall g <- sum.byContractor :: g.contractor in Names(lines) && g == GroupOf(lines, g.contractor))
    && (forall name <- Names(lines) :: GroupOf(lines, name) in sum.byContractor)
  }

  // ----- Sorting -----

  /** sort.Slice by contractor, for pairwise different contractors. */
  method SortByContractor(groups: seq<ContractorSummary>) returns (sorted: seq<ContractorSummary>)
    requires forall i, j :: 0 <= i < j < |groups| ==> groups[i].contractor != groups[j].contractor
    ensures Sorted(sorted)
    ensures forall g :: g in sorted <==> g in groups
  {
    sorted := [];
    for i := 0 to |groups|
      invariant Sorted(sorted)
      invariant forall g :: g in sorted <==> g in groups[..i]
    {
      var at := 0;
      while at < |sorted| && Less(sorted[at].contractor, groups[i].contractor)
        invariant 0 <= at <= |sorted|
        invariant forall j :: 0 <= j < at ==> Less(sorted[j].contractor, groups[i].contractor)
      {
        at := at + 1;
      }
      InsertSorted(sorted, groups[i], at);
      sorted := sorted[..at] + [groups[i]] + sorted[at..];
    }
    assert groups[..|groups|] == groups;
  }

  lemma InsertSorted(sorted: seq<ContractorSummary>, g: ContractorSummary, at: nat)
    requires Sorted(sorted) && at <= |sorted|
    requires forall h <- sorted :: h.contractor != g.contractor
    requires forall j :: 0 <= j < at ==> Less(sorted[j].contractor, g.contractor)
    requires at < |sorted| ==> !Less(sorted[at].contractor, g.contractor)
    ensures Sorted(sorted[..at] + [g] + sorted[at..])
    ensures forall h :: h in sorted[..at] + [g] + sorted[at..] <==> h in sorted || h == g
  {
    forall j | at <= j < |sorted| ensures Less(g.contractor, sorted[j].contractor) {
      LessTotal(g.contractor, sorted[at].contractor);
      if at < j {
        LessTransitive(g.contractor, sorted[at].contractor, sorted[j].contractor);
      }
    }
    assert sorted == sorted[..at] + sorted[at..];
  }

  // ----- The pass -----

  function BumpTotals(sum: Summary, b: Bucket): Summary {
    match b
    case Completed => sum.(completed := sum.completed + 1)
    case Ongoing => sum.(ongoing := sum.ongoing + 1)
    case Halted => sum.(halted := sum.halted + 1)
    case Paused => sum.(paused := sum.paused + 1)
    case NotStarted => sum.(notStarted := sum.notStarted + 1)
  }

  function Bump(g: ContractorSummary, b: Bucket): ContractorSummary {
    match b
    case Completed => g.(completed := g.completed + 1)
    case Ongoing => g.(ongoing := g.ongoing + 1)
    case Halted => g.(halted := g.halted + 1)
    case Paused => g.(paused := g.paused + 1)
    case NotStarted => g.(notStarted := g.notStarted + 1)
  }

  /** The overall tallies of the lines so far, no list yet. */
  ghost predicate Totals(sum: Summary, period: string, lines: seq<Line>) {
    && sum.period == period && sum.byContractor == []
    && sum.totalContracts == |lines|
    && sum.completed == Count(lines, None, Some(Completed))
    && sum.ongoing == Count(lines, None, Some(Ongoing))
    && sum.halted == Count(lines, None, Some(Halted))
    && sum.paused == Count(lines, None, Some(Paused))
    && sum.notStarted == Count(lines, None, Some(NotStarted))
    && sum.totalValue == Value(lines)
    && sum.totalReceived == Received(lines)
  }

  ghost predicate Grouped(groups: map<string, ContractorSummary>, progressTotals: map<string, int>, lines: seq<Line>) {
    && groups.Keys == Names(lines) && progressTotals.Keys == Names(lines)
    && (forall name <- groups :: groups[name] == Tally(lines, name))
    && (forall name <- progressTotals :: progressTotals[name] == Progress(lines, name))
  }

  lemma CountGrows(lines: seq<Line>, l: Line, name: Option<string>, bucket: Option<Bucket>)
    ensures Count(lines + [l], name, bucket) == Count(lines, name, bucket) + if Matches(l, name, bucket) then 1 else 0
  {
    assert (lines + [l])[..|lines|] == lines;
  }

  lemma {:induction false} CountOfAbsent(lines: seq<Line>, name: string, bucket: Option<Bucket>)
    requires name !in Names(lines)
    ensures Count(lines, Some(name), bucket) == 0 && Progress(lines, name) == 0
  {
    if lines != [] {
      assert lines[|lines| - 1] in lines;
      CountOfAbsent(lines[..|lines| - 1], name, bucket);
    }
  }

  const NO_LINES := ContractorSummary("", 0, 0, 0, 0, 0, 0, 0)

  lemma TallyOfAbsent(lines: seq<Line>, name: string)
    requires name !in Names(lines)
    ensures Tally(lines, name) == NO_LINES.(contractor := name) && Progress(lines, name) == 0
  {
    CountOfAbsent(lines, name, None);
    CountOfAbsent(lines, name, Some(Completed));
    CountOfAbsent(lines, name, Some(Ongoing));
    CountOfAbsent(lines, name, Some(Halted));
    CountOfAbsent(lines, name, Some(Paused));
    CountOfAbsent(lines, name, Some(NotStarted));
  }

  lemma TotalsGrow(sum: Summary, period: string, lines: seq<Line>, l: Line)
    requires Totals(sum, period, lines)
    ensures Totals(BumpTotals(sum.(totalContracts := sum.totalContracts + 1,
                                   totalValue := sum.totalValue + l.value,
                                   totalReceived := sum.totalReceived + l.received), l.bucket),
                   period, lines + [l])
  {
    CountGrows(lines, l, None, Some(Completed));
    CountGrows(lines, l, None, Some(Ongoing));
    CountGrows(lines, l, None, Some(Halted));
    CountGrows(lines, l, None, Some(Paused));
    CountGrows(lines, l, None, Some(NotStarted));
    assert (lines + [l])[..|lines|] == lines;
  }

  lemma TallyGrows(lines: seq<Line>, l: Line, name: string)
    ensures var tally := Tally(lines, name);
      Tally(lines + [l], name) == if name == l.name then Bump(tally.(total := tally.total + 1), l.bucket) else tally
    ensures Progress(lines + [l], name) == Progress(lines, name) + if name == l.name then l.progress else 0
  {
    CountGrows(lines, l, Some(name), None);
    CountGrows(lines, l, Some(name), Some(Completed));
    CountGrows(lines, l, Some(name), Some(Ongoing));
    CountGrows(lines, l, Some(name), Some(Halted));
    CountGrows(lines, l, Some(name), Some(Paused));
    CountGrows(lines, l, Some(name), Some(NotStarted));
    assert (lines + [l])[..|lines|] == lines;
  }

  /** A group after one more line; the empty group before its first. */
  function Grown(groups: map<string, ContractorSummary>, l: Line): ContractorSummary {
    var g := if l.name in groups then groups[l.name] else NO_LINES.(contractor := l.name);
    Bump(g.(total := g.total + 1), l.bucket)
  }

  function Progressed(progressTotals: map<string, int>, l: Line): int {
    (if l.name in progressTotals then progressTotals[l.name] else 0) + l.progress
  }

  lemma GroupedGrows(groups: map<string, ContractorSummary>, progressTotals: map<string, int>, lines: seq<Line>,
                     l: Line)
    requires Grouped(groups, progressTotals, lines)
    ensures Grouped(groups[l.name := Grown(groups, l)], progressTotals[l.name := Progressed(progressTotals, l)],
                    lines + [l])
  {
    assert Names(lines + [l]) == Names(lines) + {l.name};
    GrownRight(groups, progressTotals, lines, l);
    forall name | name in groups && name != l.name
      ensures groups[name] == Tally(lines + [l], name) && progressTotals[name] == Progress(lines + [l], name)
    {
      TallyGrows(lines, l, name);
    }
  }

  lemma GrownRight(groups: map<string, ContractorSummary>, progressTotals: map<string, int>, lines: seq<Line>, l: Line)
    requires Grouped(groups, progressTotals, lines)
    ensures Grown(groups, l) == Tally(lines + [l], l.name)
    ensures Progressed(progressTotals, l) == Progress(lines + [l], l.name)
  {
    if l.name !in Names(lines) {
      TallyOfAbsent(lines, l.name);
    }
    TallyGrows(lines, l, l.name);
  }

  /** The switch over statuses, for the totals and for the contractor's group. */
  method CountStatus(sum: Summary, g: ContractorSummary, status: string) returns (sum': Summary, g': ContractorSummary)
    ensures sum' == BumpTotals(sum, BucketOf(status)) && g' == Bump(g, BucketOf(status))
  {
    if status == COMPLETED {
      sum', g' := sum.(completed := sum.completed + 1), g.(completed := g.completed + 1);
    } else if status == ONGOING {
      sum', g' := sum.(ongoing := sum.ongoing + 1), g.(ongoing := g.ongoing + 1);
    } else if status == HALTED {
      sum', g' := sum.(halted := sum.halted + 1), g.(halted := g.halted + 1);
    } else if status == PAUSED {
      sum', g' := sum.(paused := sum.paused + 1), g.(paused := g.paused + 1);
    } else {
      sum', g' := sum.(notStarted := sum.notStarted + 1), g.(notStarted := g.notStarted + 1);
    }
  }

  /** The groups of all names, and nothing else. */
  ghost predicate ListsGroups(list: seq<ContractorSummary>, lines: seq<Line>) {
    forall g :: g in list <==> g.contractor in Names(lines) && g == GroupOf(lines, g.contractor)
  }

  lemma Assembled(sum: Summary, period: string, lines: seq<Line>, list: seq<ContractorSummary>)
    requires Totals(sum, period, lines) && ListsGroups(list, lines) && Sorted(list)
    ensures IsSummary(sum.(byContractor := list), period, lines)
  {
    forall name <- Names(lines) ensures GroupOf(lines, name) in list {
      assert GroupOf(lines, name).contractor == name;
    }
  }

  /** The group list: averages filled in while ranging over the map, in whatever order it comes. */
  method ListGroups(groups: map<string, ContractorSummary>, progressTotals: map<string, int>, ghost lines: seq<Line>)
    returns (list: seq<ContractorSummary>)
    requires Grouped(groups, progressTotals, lines)
    ensures forall i, j :: 0 <= i < j < |list| ==> list[i].contractor != list[j].contractor
    ensures ListsGroups(list, lines)
  {
    list := [];
    var rest := groups.Keys;
    while rest != {}
      invariant rest <= groups.Keys
      invariant forall i, j :: 0 <= i < j < |list| ==> list[i].contractor != list[j].contractor
      invariant forall g :: g in list
                  <==> g.contractor in groups && g.contractor !in rest && g == GroupOf(lines, g.contractor)
      decreases rest
    {
      var name :| name in rest;
      rest := rest - {name};
      var g := groups[name];
      if g.total > 0 {
        g := g.(avgProgress := TruncDiv(progressTotals[name], g.total));
      }
      list := list + [g];
    }
  }

  /** The status and progress a contract is counted with. */
  method Reported(c: Contract, byContract: map<string, ProgressReport>, ghost reports: seq<ProgressReport>)
    returns (status: string, progress: int)
    requires byContract == Collect(ReportsById(reports))
    ensures LineOf(c, reports) == Line(if c.contractor == "" then "Unassigned" else c.contractor, BucketOf(status),
                                       progress, c.value, c.received)
  {
    CollectHoldsLast(ReportsById(reports), c.id);
    status, progress := c.execution, c.progress;
    if c.id in byContract {
      var r := byContract[c.id];
      if r.execution != "" {
        status := Normalize(r.execution);
      }
      progress := r.progress;
    }
    if status == "" {
      status := NOT_STARTED;
    }
  }

  method IndexReports(reports: seq<ProgressReport>) returns (byContract: map<string, ProgressReport>)
    ensures byContract == Collect(ReportsById(reports))
  {
    byContract := map[];
    for i := 0 to |reports|
      invariant byContract == Collect(ReportsById(reports[..i]))
    {
      assert ReportsById(reports[..i + 1]) == ReportsById(reports[..i]) + [(reports[i].contractId, reports[i])];
      CollectAppend(ReportsById(reports[..i]), reports[i].contractId, reports[i]);
      byContract := byContract[reports[i].contractId := reports[i]];
    }
    assert reports[..|reports|] == reports;
  }

  /** One contract into the totals, its group and its group's progress. */
  method AddLine(sum: Summary, groups: map<string, ContractorSummary>, progressTotals: map<string, int>,
                 c: Contract, status: string, progress: int, ghost lines: seq<Line>, ghost l: Line)
    returns (sum': Summary, groups': map<string, ContractorSummary>, progressTotals': map<string, int>)
    requires Totals(sum, sum.period, lines) && Grouped(groups, progressTotals, lines)
    requires l == Line(if c.contractor == "" then "Unassigned" else c.contractor, BucketOf(status), progress,
                       c.value, c.received)
    ensures Totals(sum', sum.period, lines + [l])
    ensures Grouped(groups', progressTotals', lines + [l])
  {
    TotalsGrow(sum, sum.period, lines, l);
    GroupedGrows(groups, progressTotals, lines, l);
    sum' := sum.(totalContracts := sum.totalContracts + 1,
                 totalValue := sum.totalValue + c.value,
                 totalReceived := sum.totalReceived + c.received);
    var name := if c.contractor == "" then "Unassigned" else c.contractor;
    var g := if name in groups then groups[name] else NO_LINES.(contractor := name);
    g := g.(total := g.total + 1);
    progressTotals' := progressTotals[name := (if name in progressTotals then progressTotals[name] else 0) + progress];
    sum', g := CountStatus(sum', g, status);
    groups' := groups[name := g];
  }

  lemma LinesGrow(contracts: seq<Contract>, reports: seq<ProgressReport>, i: nat)
    requires i < |contracts|
    ensures Lines(contracts[..i + 1], reports) == Lines(contracts[..i], reports) + [LineOf(contracts[i], reports)]
  {
  }

  method BuildMonthlySummary(period: string, contracts: seq<Contract>, reports: seq<ProgressReport>)
    returns (sum: Summary)
    ensures IsSummary(sum, period, Lines(contracts, reports))
  {
    var byContract := IndexReports(reports);
    sum := Summary(period, 0, 0, 0, 0, 0, 0, 0, 0, []);
    var groups: map<string, ContractorSummary> := map[];
    var progressTotals: map<string, int> := map[];
    for i := 0 to |contracts|
      invariant Totals(sum, period, Lines(contracts[..i], reports))
      invariant Grouped(groups, progressTotals, Lines(contracts[..i], reports))
    {
      LinesGrow(contracts, reports, i);
      var status, progress := Reported(contracts[i], byContract, reports);
      sum, groups, progressTotals :=
        AddLine(sum, groups, progressTotals, contracts[i], status, progress,
                Lines(contracts[..i], reports), LineOf(contracts[i], reports));
    }
    assert contracts[..|contracts|] == contracts;
    var list := ListGroups(groups, progressTotals, Lines(contracts, reports));
    list := SortByContractor(list);
    Assembled(sum, period, Lines(contracts, reports), list);
    sum := sum.(byContractor := list);
  }

  // ----- What the summary means -----

  lemma {:induction false} SortedUnique(a: seq<ContractorSummary>, b: seq<ContractorSummary>)
    requires Sorted(a) && Sorted(b) && forall g :: g in a <==> g in b
    ensures a == b
  {
    assert a != [] ==> a[0] in a;
    assert b != [] ==> b[0] in b;
    if a != [] {
      var i :| 0 <= i < |b| && b[i] == a[0];
      var j :| 0 <= j < |a| && a[j] == b[0];
      LessTotal(a[0].contractor, b[0].contractor);
      assert a[0] == b[0];
      forall g ensures g in a[1..] <==> g in b[1..] {
        SortedHeadOnce(a, g);
        SortedHeadOnce(b, g);
      }
      SortedUnique(a[1..], b[1..]);
      assert a == [a[0]] + a[1..] && b == [b[0]] + b[1..];
    }
  }

  lemma SortedHeadOnce(a: seq<ContractorSummary>, g: ContractorSummary)
    requires Sorted(a) && a != []
    ensures g in a[1..] <==> g in a && g != a[0]
  {
    assert a == [a[0]] + a[1..];
    if g in a[1..] {
      var i :| 0 <= i < |a[1..]| && a[1..][i] == g;
      LessTotal(a[0].contractor, a[i + 1].contractor);
    }
  }

  /** The summary does not depend on the order in which the groups are ranged over. */
  lemma SummaryUnique(a: Summary, b: Summary, period: string, lines: seq<Line>)
    requires IsSummary(a, period, lines) && IsSummary(b, period, lines)
    ensures a == b
  {
    SortedUnique(a.byContractor, b.byContractor);
  }

  /** The five tallies account for every line, overall and in each group. */
  lemma {:induction false} TalliesAddUp(lines: seq<Line>, name: Option<string>)
    ensures Count(lines, name, None)
         == Count(lines, name, Some(Completed)) + Count(lines, name, Some(Ongoing)) + Count(lines, name, Some(Halted))
            + Count(lines, name, Some(Paused)) + Count(lines, name, Some(NotStarted))
    ensures Count(lines, None, None) == |lines|
  {
    if lines != [] {
      var n := |lines| - 1;
      TalliesAddUp(lines[..n], name);
    }
  }

  function Of(g: ContractorSummary, bucket: Option<Bucket>): nat {
    match bucket
    case None => g.total
    case Some(Completed) => g.completed
    case Some(Ongoing) => g.ongoing
    case Some(Halted) => g.halted
    case Some(Paused) => g.paused
    case Some(NotStarted) => g.notStarted
  }

  /** The money totals are sums over the lines. */
  lemma {:induction false} MoneyAddsUp(a: seq<Line>, b: seq<Line>, l: Line)
    ensures Value([]) == 0 && Received([]) == 0 && Value([l]) == l.value && Received([l]) == l.received
    ensures Value(a + b) == Value(a) + Value(b) && Received(a + b) == Received(a) + Received(b)
    decreases |b|
  {
    assert [l][..0] == [];
    if b == [] {
      assert a + b == a;
    } else {
      MoneyAddsUp(a, b[..|b| - 1], l);
      assert (a + b)[..|a + b| - 1] == a + b[..|b| - 1];
    }
  }

  /** What the listed groups hold of a bucket, of any without one. */
  function Listed(groups: seq<ContractorSummary>, bucket: Option<Bucket>): nat {
    if groups == [] then 0 else Of(groups[0], bucket) + Listed(groups[1..], bucket)
  }

  /** Lines in a bucket whose name is among some. */
  function CountAmong(lines: seq<Line>, names: set<string>, bucket: Option<Bucket>): nat {
    if lines == [] then 0
    else
      var last := lines[|lines| - 1];
      CountAmong(lines[..|lines| - 1], names, bucket)
      + if last.name in names && Matches(last, None, bucket) then 1 else 0
  }

  lemma {:induction false} CountAmongSplits(lines: seq<Line>, name: string, rest: set<string>, bucket: Option<Bucket>)
    requires name !in rest
    ensures CountAmong(lines, {name} + rest, bucket)
         == Count(lines, Some(name), bucket) + CountAmong(lines, rest, bucket)
  {
    if lines != [] {
      CountAmongSplits(lines[..|lines| - 1], name, rest, bucket);
    }
  }

  lemma {:induction false} CountAmongAll(lines: seq<Line>, names: set<string>, bucket: Option<Bucket>)
    requires Names(lines) <= names
    ensures CountAmong(lines, names, bucket) == Count(lines, None, bucket)
  {
    if lines != [] {
      assert lines[|lines| - 1].name in Names(lines);
      CountAmongAll(lines[..|lines| - 1], names, bucket);
    }
  }

  lemma {:induction false} CountAmongNone(lines: seq<Line>, bucket: Option<Bucket>)
    ensures CountAmong(lines, {}, bucket) == 0
  {
    if lines != [] {
      CountAmongNone(lines[..|lines| - 1], bucket);
    }
  }

  lemma OfGroup(lines: seq<Line>, name: string, bucket: Option<Bucket>)
    ensures Of(GroupOf(lines, name), bucket) == Count(lines, Some(name), bucket)
  {
  }

  lemma NamesApart(groups: seq<ContractorSummary>)
    requires Sorted(groups) && groups != []
    ensures groups[0].contractor !in set g <- groups[1..] :: g.contractor
    ensures (set g <- groups :: g.contractor) == {groups[0].contractor} + set g <- groups[1..] :: g.contractor
  {
    forall g <- groups[1..] ensures g.contractor != groups[0].contractor {
      var i :| 0 <= i < |groups[1..]| && groups[1..][i] == g;
      LessTotal(groups[0].contractor, groups[i + 1].contractor);
    }
    assert groups == [groups[0]] + groups[1..];
  }

  lemma {:induction false} ListedCounts(lines: seq<Line>, groups: seq<ContractorSummary>, bucket: Option<Bucket>)
    requires Sorted(groups) && forall g <- groups :: g == GroupOf(lines, g.contractor)
    ensures Listed(groups, bucket) == CountAmong(lines, set g <- groups :: g.contractor, bucket)
  {
    if groups == [] {
      CountAmongNone(lines, bucket);
      assert (set g <- groups :: g.contractor) == {};
    } else {
      var name := groups[0].contractor;
      var rest := set g <- groups[1..] :: g.contractor;
      ListedCounts(lines, groups[1..], bucket);
      NamesApart(groups);
      CountAmongSplits(lines, name, rest, bucket);
      assert groups[0] in groups;
      OfGroup(lines, name, bucket);
    }
  }

  /** Every overall figure is the sum of the listed groups' figures. */
  lemma GroupsAddUp(sum: Summary, period: string, lines: seq<Line>)
    requires IsSummary(sum, period, lines)
    ensures Listed(sum.byContractor, None) == sum.totalContracts
    ensures Listed(sum.byContractor, Some(Completed)) == sum.completed
    ensures Listed(sum.byContractor, Some(Ongoing)) == sum.ongoing
    ensures Listed(sum.byContractor, Some(Halted)) == sum.halted
    ensures Listed(sum.byContractor, Some(Paused)) == sum.paused
    ensures Listed(sum.byContractor, Some(NotStarted)) == sum.notStarted
    ensures sum.completed + sum.ongoing + sum.halted + sum.paused + sum.notStarted == sum.totalContracts
  {
    TalliesAddUp(lines, None);
    forall name <- Names(lines) ensures name in set g <- sum.byContractor :: g.contractor {
      assert GroupOf(lines, name) in sum.byContractor;
    }
    forall bucket: Option<Bucket> ensures Listed(sum.byContractor, bucket) == Count(lines, None, bucket) {
      ListedCounts(lines, sum.byContractor, bucket);
      CountAmongAll(lines, set g <- sum.byContractor :: g.contractor, bucket);
    }
  }

  // ----- Averages -----

  lemma {:induction false} ProgressBetween(lines: seq<Line>, name: string, low: int, high: int)
    requires forall l <- lines :: l.name == name ==> low <= l.progress <= high
    ensures low * Count(lines, Some(name), None) <= Progress(lines, name) <= high * Count(lines, Some(name), None)
  {
    if lines != [] {
      var n := |lines| - 1;
      ProgressBetween(lines[..n], name, low, high);
      assert lines[n] in lines;
      var before := Count(lines[..n], Some(name), None);
      assert low * (before + 1) == low * before + low && high * (before + 1) == high * before + high;
    }
  }

  lemma DivBetween(x: int, n: int, low: int, high: int)
    requires n > 0 && low * n <= x <= high * n
    ensures low <= x / n <= high
  {
    var q := x / n;
    assert q * n <= x < (q + 1) * n;
    MulMonotone(high + 1, q, n);
    MulMonotone(q + 1, low, n);
  }

  lemma MulMonotone(a: int, b: int, n: int)
    requires n > 0
    ensures a <= b ==> a * n <= b * n
  {
  }

  lemma TruncDivBetween(sum: int, n: int, low: int, high: int)
    requires n > 0 && low * n <= sum <= high * n
    ensures low <= TruncDiv(sum, n) <= high
  {
    if sum >= 0 {
      DivBetween(sum, n, low, high);
    } else {
      assert -high * n == -(high * n) && -low * n == -(low * n);
      DivBetween(-sum, n, -high, -low);
    }
  }

  /** A group's average lies between the least and the greatest progress of its contracts. */
  lemma AverageBetween(sum: Summary, period: string, lines: seq<Line>, g: ContractorSummary, low: int, high: int)
    requires IsSummary(sum, period, lines) && g in sum.byContractor
    requires forall l <- lines :: l.name == g.contractor ==> low <= l.progress <= high
    ensures g.total > 0 && low <= g.avgProgress <= high
  {
    var l :| l in lines && l.name == g.contractor;
    CountOfPresent(lines, l);
    ProgressBetween(lines, g.contractor, low, high);
    TruncDivBetween(Progress(lines, g.contractor), g.total, low, high);
  }

  lemma {:induction false} CountOfPresent(lines: seq<Line>, l: Line)
    requires l in lines
    ensures Count(lines, Some(l.name), None) > 0
  {
    var n := |lines| - 1;
    if lines[n] != l {
      CountOfPresent(lines[..n], l);
    }
  }
}
