/**
 * What a workbook import writes, table by table, and that importing the workbook again writes nothing
 * new. Ids of each table are drawn from that table's own supply.
 */
module Importer {
  import opened ContractorDirectory
  import opened Execution
  import opened MonthlyWorkbook
  import opened Text
  import opened Upserts
  import V = Valuations
  import opened Wrappers

  /** How money and progress cells are read. */
  datatype Parsers = Parsers(money: string -> int, progress: string -> int)

  // ----- Stored rows -----

  /** Columns the import fills from the workbook. */
  datatype Content = Content(
    name: string,
    contractor: string,
    contractorId: Option<nat>,
    kind: string,
    value: int,
    variationTotal: int,
    received: int,
    progress: int,
    execution: string,
    status: string,
    plannedCompletion: string,
    office: Office)

  /** Columns the workbook does not have; an import writes them blank. */
  datatype Office = Office(
    contact: string,
    startDate: string,
    endDate: string,
    location: string,
    manager: string,
    department: string,
    retention: int,
    currency: string,
    project: string,
    conversation: string)

  const BLANK_OFFICE := Office("", "", "", "", "", "", 0, "UGX", "", "")

  /** Columns of a contract that an import only sets when it creates the row. */
  datatype Origin = Origin(id: nat, documents: seq<string>, activity: seq<string>)

  function NewOrigin(id: nat): Origin {
    Origin(id, [], ["Imported from monthly report"])
  }

  datatype Report = Report(
    progress: int,
    plannedProgress: int,
    execution: string,
    activity: string,
    accomplishments: string,
    challenges: string,
    interventions: string,
    plannedNext: string,
    plan: Plan)

  function NewId(id: nat): nat {
    id
  }

  type Contracts = Table<string, Origin, Content>
  type Reports = Table<(nat, string), nat, Report>

  datatype Db = Db(
    contractors: map<string, nat>,
    nextContractor: nat,
    contracts: Contracts,
    reports: Reports,
    valuations: V.Ledger)

  // ----- One row -----

  function OrderContent(row: Cells, memo: map<string, nat>, parse: Parsers): Content {
    var execution := Normalize(Cell(row, 7));
    Content(Trimmed(row, 2), Trimmed(row, 1), IdOf(memo, Trimmed(row, 1)), "Works",
            parse.money(Cell(row, 3)), parse.money(Cell(row, 4)), parse.money(Cell(row, 5)),
            parse.progress(Cell(row, 6)), execution, LifecycleFor(execution), Trimmed(row, 12), BLANK_OFFICE)
  }

  function OrderReport(row: Cells, programme: map<string, Plan>, parse: Parsers): Report {
    Report(parse.progress(Cell(row, 6)), 0, Normalize(Cell(row, 7)),
           Trimmed(row, 8), Trimmed(row, 9), Trimmed(row, 10), Trimmed(row, 11), Trimmed(row, 13),
           if RowKey(row) in programme then programme[RowKey(row)] else NO_PLAN)
  }

  function ConsultancyContent(row: Cells, memo: map<string, nat>, parse: Parsers): Content {
    var actual := parse.progress(Cell(row, 3));
    var execution := ForProgress(actual);
    Content(Trimmed(row, 0), Trimmed(row, 1), IdOf(memo, Trimmed(row, 1)), "Consultancy",
            parse.money(Cell(row, 4)), 0, parse.money(Cell(row, 5)),
            actual, execution, LifecycleFor(execution), "", BLANK_OFFICE)
  }

  function ConsultancyReport(row: Cells, parse: Parsers): Report {
    var actual := parse.progress(Cell(row, 3));
    Report(actual, parse.progress(Cell(row, 2)), ForProgress(actual), "", "", "", "", "", NO_PLAN)
  }

  function ClaimOf(row: Cells, memo: map<string, nat>, period: string, parse: Parsers): V.Claim {
    V.Claim(IdOf(memo, Trimmed(row, 1)), Trimmed(row, 1), period,
            parse.money(Cell(row, 2)), parse.money(Cell(row, 3)), parse.money(Cell(row, 4)),
            parse.money(Cell(row, 5)), parse.money(Cell(row, 6)), Trimmed(row, 7))
  }

  // ----- Where the sheets keep what -----

  /** A row of the Tracker sheet, column by column. */
  datatype TrackerLine = TrackerLine(
    no: string, contractor: string, details: string, contractSum: string, variation: string, received: string,
    progress: string, status: string, activity: string, accomplishments: string, challenges: string,
    interventions: string, completion: string, plannedNext: string)

  function TrackerCells(l: TrackerLine): Cells {
    [l.no, l.contractor, l.details, l.contractSum, l.variation, l.received, l.progress, l.status, l.activity,
     l.accomplishments, l.challenges, l.interventions, l.completion, l.plannedNext]
  }

  /** An order names a contractor and details, and is not the divider of the new contracts. */
  lemma TrackerKeeps(l: TrackerLine)
    ensures IsOrder(TrackerCells(l)) <==>
      TrimSpace(l.contractor) != "" && TrimSpace(l.details) != "" && Lower(TrimSpace(l.details)) != "new contracts"
  {
    assert Lower("NEW CONTRACTS") == "new contracts";
  }

  lemma TrackerContract(l: TrackerLine, memo: map<string, nat>, parse: Parsers)
    ensures var c := OrderContent(TrackerCells(l), memo, parse);
      && c.name == TrimSpace(l.details) && c.contractor == TrimSpace(l.contractor) && c.kind == "Works"
      && c.contractorId == IdOf(memo, TrimSpace(l.contractor))
      && c.value == parse.money(l.contractSum) && c.variationTotal == parse.money(l.variation)
      && c.received == parse.money(l.received) && c.progress == parse.progress(l.progress)
      && c.execution == Normalize(l.status) && c.plannedCompletion == TrimSpace(l.completion)
      && c.status == if c.execution == "Completed" then "Completed" else "Active"
  {
  }

  lemma TrackerReport(l: TrackerLine, programme: map<string, Plan>, parse: Parsers)
    ensures var r := OrderReport(TrackerCells(l), programme, parse);
      && r.progress == parse.progress(l.progress) && r.plannedProgress == 0 && r.execution == Normalize(l.status)
      && r.activity == TrimSpace(l.activity) && r.accomplishments == TrimSpace(l.accomplishments)
      && r.challenges == TrimSpace(l.challenges) && r.interventions == TrimSpace(l.interventions)
      && r.plannedNext == TrimSpace(l.plannedNext)
      && var key := MatchKey(l.contractor, l.details);
      r.plan == if key in programme then programme[key] else NO_PLAN
  {
  }

  /** A row of the Consultancy Works sheet. */
  datatype ConsultancyLine = ConsultancyLine(
    project: string, consultant: string, planned: string, actual: string, contractSum: string, received: string)

  function ConsultancyCells(l: ConsultancyLine): Cells {
    [l.project, l.consultant, l.planned, l.actual, l.contractSum, l.received]
  }

  lemma ConsultancyKeeps(l: ConsultancyLine)
    ensures IsConsultancy(ConsultancyCells(l)) <==> TrimSpace(l.project) != ""
  {
  }

  lemma ConsultancyReads(l: ConsultancyLine, memo: map<string, nat>, parse: Parsers)
    ensures var c := ConsultancyContent(ConsultancyCells(l), memo, parse);
      && c.name == TrimSpace(l.project) && c.contractor == TrimSpace(l.consultant) && c.kind == "Consultancy"
      && c.contractorId == IdOf(memo, TrimSpace(l.consultant))
      && c.value == parse.money(l.contractSum) && c.received == parse.money(l.received) && c.variationTotal == 0
      && c.progress == parse.progress(l.actual) && c.execution == ForProgress(c.progress)
      && c.status == if c.progress >= 100 then "Completed" else "Active"
    ensures var r := ConsultancyReport(ConsultancyCells(l), parse);
      && r.progress == parse.progress(l.actual) && r.plannedProgress == parse.progress(l.planned)
      && r.execution == ForProgress(r.progress)
  {
  }

  /** A row of the Contractors verified sheet. */
  datatype VerifiedLine = VerifiedLine(
    no: string, name: string, contractSum: string, paid: string, owed: string, recommended: string, approved: string,
    remarks: string)

  function VerifiedCells(l: VerifiedLine): Cells {
    [l.no, l.name, l.contractSum, l.paid, l.owed, l.recommended, l.approved, l.remarks]
  }

  /** A claim names a contractor; the total line is none. */
  lemma VerifiedKeeps(l: VerifiedLine)
    ensures IsClaim(VerifiedCells(l)) <==> TrimSpace(l.name) != "" && Lower(TrimSpace(l.name)) != "total"
  {
    assert Lower("TOTAL") == "total";
  }

  lemma VerifiedReads(l: VerifiedLine, memo: map<string, nat>, period: string, parse: Parsers)
    ensures var c := ClaimOf(VerifiedCells(l), memo, period, parse);
      && c.name == TrimSpace(l.name) && c.period == period && c.contractorId == IdOf(memo, TrimSpace(l.name))
      && c.contractSum == parse.money(l.contractSum) && c.amountPaid == parse.money(l.paid)
      && c.verifiedValueOwed == parse.money(l.owed) && c.recommendation == parse.money(l.recommended)
      && c.approval == parse.money(l.approved) && c.remarks == TrimSpace(l.remarks)
  {
  }

  // ----- Whole sheets -----

  function NamesIn(rows: seq<Cells>): seq<string> {
    seq(|rows|, i requires 0 <= i < |rows| => Trimmed(rows[i], 1))
  }

  /** The two sheets that hold contracts. */
  datatype Sheet = Tracker(programme: map<string, Plan>) | Consultancy

  function NumberOf(sheet: Sheet, period: string, n: nat): string {
    if sheet.Tracker? then OrderNumber(period, n) else ConsultancyNumber(period, n)
  }

  function ContentOf(sheet: Sheet, row: Cells, memo: map<string, nat>, parse: Parsers): Content {
    if sheet.Tracker? then OrderContent(row, memo, parse) else ConsultancyContent(row, memo, parse)
  }

  function ReportOf(sheet: Sheet, row: Cells, parse: Parsers): Report {
    if sheet.Tracker? then OrderReport(row, sheet.programme, parse) else ConsultancyReport(row, parse)
  }

  /** One entry per row, which may depend on the row's position. */
  function Mapped<T>(rows: seq<Cells>, entry: (nat, Cells) -> T): seq<T> {
    seq(|rows|, i requires 0 <= i < |rows| => entry(i, rows[i]))
  }

  /** The contract write of the row at position i, numbered from 1. */
  function ContractEntry(sheet: Sheet, memo: map<string, nat>, period: string, parse: Parsers)
    : (nat, Cells) -> (string, Content)
  {
    (i: nat, row: Cells) => (NumberOf(sheet, period, i + 1), ContentOf(sheet, row, memo, parse))
  }

  function ContractLog(sheet: Sheet, rows: seq<Cells>, memo: map<string, nat>, period: string, parse: Parsers)
    : seq<(string, Content)>
  {
    Mapped(rows, ContractEntry(sheet, memo, period, parse))
  }

  function ContractId(contracts: Contracts, number: string): nat {
    if number in contracts.rows then contracts.rows[number].kept.id else 0
  }

  /** The report write of the row at position i, under the id of the row's contract. */
  function ReportEntry(sheet: Sheet, contracts: Contracts, period: string, parse: Parsers)
    : (nat, Cells) -> ((nat, string), Report)
  {
    (i: nat, row: Cells) => ((ContractId(contracts, NumberOf(sheet, period, i + 1)), period),
                             ReportOf(sheet, row, parse))
  }

  function ReportLog(sheet: Sheet, rows: seq<Cells>, contracts: Contracts, period: string, parse: Parsers)
    : seq<((nat, string), Report)>
  {
    Mapped(rows, ReportEntry(sheet, contracts, period, parse))
  }

  function ClaimEntry(memo: map<string, nat>, period: string, parse: Parsers): (nat, Cells) -> V.Claim {
    (i: nat, row: Cells) => ClaimOf(row, memo, period, parse)
  }

  function ClaimsIn(rows: seq<Cells>, memo: map<string, nat>, period: string, parse: Parsers): seq<V.Claim> {
    Mapped(rows, ClaimEntry(memo, period, parse))
  }

  // ----- The import -----

  /** The contractor names an import resolves, in the order it resolves them. */
  function Names(book: Workbook): seq<string> {
    NamesIn(Orders(book)) + NamesIn(Claims(book)) + NamesIn(Consultancies(book))
  }

  function Resolved(db: Db, book: Workbook): Directory {
    EnsureAll(Directory(db.contractors, db.nextContractor, map[]), Names(book))
  }

  function TrackerOf(book: Workbook): Sheet {
    Tracker(Programme(book.programme))
  }

  function BookContracts(book: Workbook, memo: map<string, nat>, period: string, parse: Parsers)
    : seq<(string, Content)>
  {
    ContractLog(TrackerOf(book), Orders(book), memo, period, parse)
    + ContractLog(Consultancy, Consultancies(book), memo, period, parse)
  }

  function BookReports(book: Workbook, contracts: Contracts, period: string, parse: Parsers)
    : seq<((nat, string), Report)>
  {
    ReportLog(TrackerOf(book), Orders(book), contracts, period, parse)
    + ReportLog(Consultancy, Consultancies(book), contracts, period, parse)
  }

  function SheetClaims(db: Db, book: Workbook, period: string, parse: Parsers): seq<V.Claim> {
    ClaimsIn(Claims(book), Resolved(db, book).memo, period, parse)
  }

  /** The database after an import; listed is the period's valuations in the order the database lists them. */
  function Import(db: Db, book: Workbook, period: string, parse: Parsers, listed: seq<nat>): Db
    requires forall id <- listed :: id in db.valuations.rows
  {
    var d := Resolved(db, book);
    var contracts := UpsertAll(db.contracts, NewOrigin, BookContracts(book, d.memo, period, parse));
    var reports := UpsertAll(db.reports, NewId, BookReports(book, contracts, period, parse));
    Db(d.ids, d.next, contracts, reports, V.Import(db.valuations, listed, SheetClaims(db, book, period, parse)))
  }

  // ----- Importing twice -----

  lemma ResolvedTwice(db: Db, book: Workbook, period: string, parse: Parsers, listed: seq<nat>)
    requires V.Listing(db.valuations, period, listed)
    ensures Resolved(Import(db, book, period, parse, listed), book) == Resolved(db, book)
  {
    var d := Directory(db.contractors, db.nextContractor, map[]);
    EnsureTwice(d, Names(book), |Names(book)|);
    assert Names(book)[..|Names(book)|] == Names(book);
  }

  /** A second import agrees with the first on contractors, contracts and reports, whatever the workbook. */
  lemma SecondImport(db: Db, book: Workbook, period: string, parse: Parsers, listed: seq<nat>, again: seq<nat>)
    requires V.Listing(db.valuations, period, listed)
    requires V.Listing(Import(db, book, period, parse, listed).valuations, period, again)
    ensures var once := Import(db, book, period, parse, listed);
      var claims := SheetClaims(db, book, period, parse);
      Import(once, book, period, parse, again) == once.(valuations := V.Import(once.valuations, again, claims))
  {
    var once := Import(db, book, period, parse, listed);
    ResolvedTwice(db, book, period, parse, listed);
    UpsertTwice(db.contracts, NewOrigin, BookContracts(book, Resolved(db, book).memo, period, parse));
    UpsertTwice(db.reports, NewId, BookReports(book, once.contracts, period, parse));
  }

  /**
   * Importing a workbook twice leaves the database as importing it once, for every order in which the
   * database lists valuations, exactly when the verified sheet does not disagree with itself about a
   * contractor that has no stored valuation.
   */
  lemma ImportTwiceExactly(db: Db, book: Workbook, period: string, parse: Parsers, listed: seq<nat>)
    requires V.IdsUsed(db.valuations) && V.NamesDistinct(db.valuations, period)
    requires V.Listing(db.valuations, period, listed)
    ensures var once := Import(db, book, period, parse, listed);
      (forall again | V.Listing(once.valuations, period, again) :: Import(once, book, period, parse, again) == once)
      <==> V.Agreeing(db.valuations, period, SheetClaims(db, book, period, parse))
  {
    var once := Import(db, book, period, parse, listed);
    var claims := SheetClaims(db, book, period, parse);
    V.ImportTwiceExactly(db.valuations, period, listed, claims);
    forall again | V.Listing(once.valuations, period, again)
      ensures Import(once, book, period, parse, again) == once
         <==> V.Import(once.valuations, again, claims) == once.valuations
    {
      SecondImport(db, book, period, parse, listed, again);
    }
  }

  lemma ClaimName(rows: seq<Cells>, memo: map<string, nat>, period: string, parse: Parsers, i: nat)
    requires i < |rows|
    ensures ClaimsIn(rows, memo, period, parse)[i].name == Trimmed(rows[i], 1)
  {
  }

  /** In particular when the verified names are distinct ignoring case. */
  lemma DistinctNamesImportOnce(db: Db, book: Workbook, period: string, parse: Parsers, listed: seq<nat>,
                                again: seq<nat>)
    requires V.IdsUsed(db.valuations) && V.NamesDistinct(db.valuations, period)
    requires V.Listing(db.valuations, period, listed)
    requires forall i, j :: 0 <= i < j < |Claims(book)| ==>
      !EqualFold(Trimmed(Claims(book)[i], 1), Trimmed(Claims(book)[j], 1))
    requires V.Listing(Import(db, book, period, parse, listed).valuations, period, again)
    ensures var once := Import(db, book, period, parse, listed);
      Import(once, book, period, parse, again) == once
  {
    var claims := SheetClaims(db, book, period, parse);
    forall i, j | 0 <= i < j < |claims| ensures !EqualFold(claims[i].name, claims[j].name) {
      ClaimName(Claims(book), Resolved(db, book).memo, period, parse, i);
      ClaimName(Claims(book), Resolved(db, book).memo, period, parse, j);
    }
    V.DistinctAgree(db.valuations, period, claims);
    ImportTwiceExactly(db, book, period, parse, listed);
  }

  // ----- Every row lands -----

  ghost predicate ContractIdsApart(t: Contracts) {
    && (forall number <- t.rows :: t.rows[number].kept.id < t.next)
    && (forall a, b :: a in t.rows && b in t.rows && t.rows[a].kept.id == t.rows[b].kept.id ==> a == b)
  }

  lemma {:induction false} UpsertAllIdsApart(t: Contracts, log: seq<(string, Content)>)
    requires ContractIdsApart(t)
    ensures ContractIdsApart(UpsertAll(t, NewOrigin, log))
  {
    if log != [] {
      UpsertAllIdsApart(t, log[..|log| - 1]);
    }
  }

  /** The contract number of entry k when the tracker has n orders. */
  function NumberAt(n: nat, period: string, k: nat): string {
    if k < n then OrderNumber(period, k + 1) else ConsultancyNumber(period, k - n + 1)
  }

  lemma NumberAtDistinct(n: nat, period: string, i: nat, j: nat)
    ensures NumberAt(n, period, i) == NumberAt(n, period, j) ==> i == j
  {
    NumbersDistinct(period, if i < n then i + 1 else i - n + 1, if j < n then j + 1 else j - n + 1);
    NumbersDistinct(period, if j < n then j + 1 else j - n + 1, if i < n then i + 1 else i - n + 1);
  }

  lemma ContractKeyAt(sheet: Sheet, rows: seq<Cells>, memo: map<string, nat>, period: string, parse: Parsers, k: nat)
    requires k < |rows|
    ensures ContractLog(sheet, rows, memo, period, parse)[k].0 == NumberOf(sheet, period, k + 1)
  {
  }

  lemma ReportKeyAt(sheet: Sheet, rows: seq<Cells>, contracts: Contracts, period: string, parse: Parsers, k: nat)
    requires k < |rows|
    ensures ReportLog(sheet, rows, contracts, period, parse)[k].0
         == (ContractId(contracts, NumberOf(sheet, period, k + 1)), period)
  {
  }

  lemma BothContractsAt(sheet: Sheet, orders: seq<Cells>, others: seq<Cells>, memo: map<string, nat>, period: string,
                        parse: Parsers, k: nat)
    requires sheet.Tracker? && k < |orders| + |others|
    ensures (ContractLog(sheet, orders, memo, period, parse)
             + ContractLog(Consultancy, others, memo, period, parse))[k].0
         == NumberAt(|orders|, period, k)
  {
    if k < |orders| {
      ContractKeyAt(sheet, orders, memo, period, parse, k);
    } else {
      ContractKeyAt(Consultancy, others, memo, period, parse, k - |orders|);
    }
  }

  lemma BothReportsAt(sheet: Sheet, orders: seq<Cells>, others: seq<Cells>, contracts: Contracts, period: string,
                      parse: Parsers, k: nat)
    requires sheet.Tracker? && k < |orders| + |others|
    ensures (ReportLog(sheet, orders, contracts, period, parse)
             + ReportLog(Consultancy, others, contracts, period, parse))[k].0
         == (ContractId(contracts, NumberAt(|orders|, period, k)), period)
  {
    if k < |orders| {
      ReportKeyAt(sheet, orders, contracts, period, parse, k);
    } else {
      ReportKeyAt(Consultancy, others, contracts, period, parse, k - |orders|);
    }
  }

  lemma BookContractsAt(book: Workbook, memo: map<string, nat>, period: string, parse: Parsers, k: nat)
    requires k < |Orders(book)| + |Consultancies(book)|
    ensures BookContracts(book, memo, period, parse)[k].0 == NumberAt(|Orders(book)|, period, k)
  {
    BothContractsAt(TrackerOf(book), Orders(book), Consultancies(book), memo, period, parse, k);
  }

  lemma BookReportsAt(book: Workbook, contracts: Contracts, period: string, parse: Parsers, k: nat)
    requires k < |Orders(book)| + |Consultancies(book)|
    ensures BookReports(book, contracts, period, parse)[k].0
         == (ContractId(contracts, NumberAt(|Orders(book)|, period, k)), period)
  {
    BothReportsAt(TrackerOf(book), Orders(book), Consultancies(book), contracts, period, parse, k);
  }

  /** Contract numbers of the log are pairwise different, so each is written once. */
  lemma WrittenOnce(t: Contracts, book: Workbook, memo: map<string, nat>, period: string, parse: Parsers, k: nat)
    requires k < |BookContracts(book, memo, period, parse)|
    ensures var log := BookContracts(book, memo, period, parse);
      var after := UpsertAll(t, NewOrigin, log);
      && log[k].0 in after.rows && after.rows[log[k].0].value == log[k].1
      && (log[k].0 in t.rows ==> after.rows[log[k].0].kept == t.rows[log[k].0].kept)
  {
    var log := BookContracts(book, memo, period, parse);
    var n := |Orders(book)|;
    BookContractsAt(book, memo, period, parse, k);
    forall j | 0 <= j < |log| && j != k ensures log[j].0 != log[k].0 {
      BookContractsAt(book, memo, period, parse, j);
      NumberAtDistinct(n, period, j, k);
    }
    OnlyWrite(log, k);
    UpsertAllResult(t, NewOrigin, log, log[k].0);
  }

  lemma ReportedOnce(t: Contracts, r: Reports, book: Workbook, memo: map<string, nat>, period: string,
                     parse: Parsers, k: nat)
    requires ContractIdsApart(t) && k < |BookReports(book, t, period, parse)|
    requires forall j :: 0 <= j < |BookContracts(book, memo, period, parse)| ==>
      BookContracts(book, memo, period, parse)[j].0 in t.rows
    ensures var reports := BookReports(book, t, period, parse);
      var after := UpsertAll(r, NewId, reports);
      reports[k].0 in after.rows && after.rows[reports[k].0].value == reports[k].1
  {
    var reports := BookReports(book, t, period, parse);
    BookContractsAt(book, memo, period, parse, k);
    BookReportsAt(book, t, period, parse, k);
    forall j | 0 <= j < |reports| && j != k ensures reports[j].0 != reports[k].0 {
      BookContractsAt(book, memo, period, parse, j);
      BookReportsAt(book, t, period, parse, j);
      NumberAtDistinct(|Orders(book)|, period, j, k);
      assert BookContracts(book, memo, period, parse)[j].0 in t.rows;
      assert BookContracts(book, memo, period, parse)[k].0 in t.rows;
    }
    OnlyWrite(reports, k);
    UpsertAllResult(r, NewId, reports, reports[k].0);
  }

  /**
   * Every kept row of the contract sheets ends up as the content of its own contract and as that
   * contract's report for the period; a contract already stored keeps its id, documents and activity.
   */
  lemma EveryRowLands(db: Db, book: Workbook, period: string, parse: Parsers, listed: seq<nat>, k: nat)
    requires V.Listing(db.valuations, period, listed) && ContractIdsApart(db.contracts)
    requires k < |Orders(book)| + |Consultancies(book)|
    ensures var once := Import(db, book, period, parse, listed);
      var number := NumberAt(|Orders(book)|, period, k);
      && number in once.contracts.rows
      && once.contracts.rows[number].value == BookContracts(book, Resolved(db, book).memo, period, parse)[k].1
      && (number in db.contracts.rows ==> once.contracts.rows[number].kept == db.contracts.rows[number].kept)
      && var key := (once.contracts.rows[number].kept.id, period);
      && key in once.reports.rows
      && once.reports.rows[key].value == BookReports(book, once.contracts, period, parse)[k].1
  {
    var memo := Resolved(db, book).memo;
    var once := Import(db, book, period, parse, listed);
    UpsertAllIdsApart(db.contracts, BookContracts(book, memo, period, parse));
    forall j | 0 <= j < |BookContracts(book, memo, period, parse)|
      ensures BookContracts(book, memo, period, parse)[j].0 in once.contracts.rows
    {
      WrittenOnce(db.contracts, book, memo, period, parse, j);
    }
    WrittenOnce(db.contracts, book, memo, period, parse, k);
    BookContractsAt(book, memo, period, parse, k);
    BookReportsAt(book, once.contracts, period, parse, k);
    ReportedOnce(once.contracts, db.reports, book, memo, period, parse, k);
  }

  /** Contracts the workbook has no number for are left as they were. */
  lemma OtherContractsUntouched(db: Db, book: Workbook, period: string, parse: Parsers, listed: seq<nat>,
                                number: string)
    requires V.Listing(db.valuations, period, listed)
    requires !Written(BookContracts(book, Resolved(db, book).memo, period, parse), number)
    ensures var once := Import(db, book, period, parse, listed);
      (number in once.contracts.rows <==> number in db.contracts.rows)
      && (number in db.contracts.rows ==> once.contracts.rows[number] == db.contracts.rows[number])
  {
    UpsertAllResult(db.contracts, NewOrigin, BookContracts(book, Resolved(db, book).memo, period, parse), number);
  }
}
