/**
 * The importer as it runs: one row at a time over four tables, remembering contractors as it goes, and
 * its refinement of the table-at-a-time import.
 */
module ImportWorkbook {
  import opened ContractorDirectory
  import opened Execution
  import opened Importer
  import opened MonthlyWorkbook
  import opened Text
  import opened Upserts
  import V = Valuations
  import opened Wrappers

  class GovStore {
    var contractors: map<string, nat>
    var nextContractor: nat
    var contracts: Contracts
    var reports: Reports
    var valuations: V.Ledger

    ghost function State(): Db
      reads this
    {
      Db(contractors, nextContractor, contracts, reports, valuations)
    }

    method UpsertContractorByName(name: string) returns (id: nat)
      modifies this`contractors, this`nextContractor
      ensures name in old(contractors) ==>
                id == old(contractors)[name] && contractors == old(contractors) && nextContractor == old(nextContractor)
      ensures name !in old(contractors) ==>
                && id == old(nextContractor) && nextContractor == id + 1
                && contractors == old(contractors)[name := id]
    {
      if name in contractors {
        return contractors[name];
      }
      id := nextContractor;
      contractors := contractors[name := id];
      nextContractor := nextContractor + 1;
    }

    /** upsertContract: an existing row keeps its id, documents and activity. */
    method UpsertContract(number: string, c: Content) returns (id: nat)
      modifies this`contracts
      ensures contracts == Upsert(old(contracts), NewOrigin, number, c)
      ensures number in contracts.rows && id == contracts.rows[number].kept.id
    {
      if number in contracts.rows {
        var existing := contracts.rows[number];
        id := existing.kept.id;
        contracts := contracts.(rows := contracts.rows[number := Row(existing.kept, c)]);
      } else {
        id := contracts.next;
        contracts := Table(contracts.rows[number := Row(NewOrigin(id), c)], id + 1);
      }
    }

    method UpsertProgressReport(contractId: nat, period: string, r: Report)
      modifies this`reports
      ensures reports == Upsert(old(reports), NewId, (contractId, period), r)
    {
      var key := (contractId, period);
      if key in reports.rows {
        reports := reports.(rows := reports.rows[key := Row(reports.rows[key].kept, r)]);
      } else {
        reports := Table(reports.rows[key := Row(NewId(reports.next), r)], reports.next + 1);
      }
    }

    /** Rows of the period in whatever order they come. */
    method ListValuations(period: string) returns (list: seq<nat>)
      ensures V.Listing(valuations, period, list)
    {
      list := [];
      var rest := valuations.rows.Keys;
      while rest != {}
        invariant rest <= valuations.rows.Keys
        invariant forall i, j :: 0 <= i < j < |list| ==> list[i] != list[j]
        invariant forall id :: id in list
                    <==> id in valuations.rows && id !in rest && V.InPeriod(valuations.rows[id], period)
        decreases rest
      {
        var id :| id in rest;
        rest := rest - {id};
        if V.InPeriod(valuations.rows[id], period) {
          list := list + [id];
        }
      }
    }

    method UpdateValuation(id: nat, c: V.Claim, terms: V.Terms)
      modifies this`valuations
      ensures valuations
           == old(valuations).(rows := old(valuations).rows[id := V.Valuation(c, "", V.Settled(terms))])
    {
      var settled := if terms.status == "" then terms.(status := "Draft") else terms;
      valuations := valuations.(rows := valuations.rows[id := V.Valuation(c, "", settled)]);
    }

    method CreateValuation(c: V.Claim)
      modifies this`valuations
      ensures valuations == V.Ledger(
        old(valuations).rows[old(valuations).next := V.Valuation(c, "", V.Settled(V.NO_TERMS))],
        old(valuations).next + 1)
    {
      valuations := V.Ledger(
        valuations.rows[valuations.next := V.Valuation(c, "", V.NO_TERMS.(status := "Draft"))],
        valuations.next + 1);
    }
  }

  // ----- Growing a sheet's log row by row -----

  ghost predicate Covers(memo: map<string, nat>, names: seq<string>) {
    forall name <- names :: name == "" || Lower(name) in memo
  }

  ghost predicate Extends(memo: map<string, nat>, later: map<string, nat>) {
    forall key <- memo :: key in later && later[key] == memo[key]
  }

  lemma KeptGrows(rows: seq<Cells>, keep: Cells -> bool, i: nat)
    requires i < |rows|
    ensures i < 2 || !keep(rows[i]) ==> Kept(rows[..i + 1], keep) == Kept(rows[..i], keep)
    ensures i >= 2 && keep(rows[i]) ==> Kept(rows[..i + 1], keep) == Kept(rows[..i], keep) + [rows[i]]
  {
    assert rows[..i + 1][..i] == rows[..i];
    assert rows[..i + 1][i] == rows[i];
  }

  lemma NamesGrow(d: Directory, rows: seq<Cells>, row: Cells)
    ensures NamesIn(rows + [row]) == NamesIn(rows) + [Trimmed(row, 1)]
    ensures EnsureAll(d, NamesIn(rows + [row])) == Ensure(EnsureAll(d, NamesIn(rows)), Trimmed(row, 1))
  {
    assert NamesIn(rows + [row]) == NamesIn(rows) + [Trimmed(row, 1)];
    EnsureAllAppend(d, NamesIn(rows), [Trimmed(row, 1)]);
    assert EnsureAll(EnsureAll(d, NamesIn(rows)), [Trimmed(row, 1)])
        == Ensure(EnsureAll(EnsureAll(d, NamesIn(rows)), []), Trimmed(row, 1)) by {
      assert [Trimmed(row, 1)][..0] == [];
    }
  }

  /** A row's contractor stays resolved as the memory grows. */
  lemma IdSettled(rows: seq<Cells>, i: nat, memo: map<string, nat>, later: map<string, nat>)
    requires i < |rows| && Covers(memo, NamesIn(rows)) && Extends(memo, later)
    ensures IdOf(memo, Trimmed(rows[i], 1)) == IdOf(later, Trimmed(rows[i], 1))
  {
    assert NamesIn(rows)[i] == Trimmed(rows[i], 1);
    assert Trimmed(rows[i], 1) in NamesIn(rows);
  }

  lemma MappedSnoc<T>(rows: seq<Cells>, row: Cells, entry: (nat, Cells) -> T)
    ensures Mapped(rows + [row], entry) == Mapped(rows, entry) + [entry(|rows|, row)]
  {
  }

  lemma MappedSame<T>(rows: seq<Cells>, a: (nat, Cells) -> T, b: (nat, Cells) -> T)
    requires forall i :: 0 <= i < |rows| ==> a(i, rows[i]) == b(i, rows[i])
    ensures Mapped(rows, a) == Mapped(rows, b)
  {
  }

  lemma ContractLogGrows(sheet: Sheet, rows: seq<Cells>, row: Cells, memo: map<string, nat>, later: map<string, nat>,
                         period: string, parse: Parsers)
    requires Covers(memo, NamesIn(rows)) && Extends(memo, later)
    ensures ContractLog(sheet, rows + [row], later, period, parse)
         == ContractLog(sheet, rows, memo, period, parse)
            + [(NumberOf(sheet, period, |rows| + 1), ContentOf(sheet, row, later, parse))]
  {
    LogSettled(sheet, rows, memo, later, period, parse);
    MappedSnoc(rows, row, ContractEntry(sheet, later, period, parse));
  }

  ghost predicate Numbered(sheet: Sheet, contracts: Contracts, period: string, n: nat) {
    forall k: nat :: 1 <= k <= n ==> NumberOf(sheet, period, k) in contracts.rows
  }

  ghost predicate IdsKept(contracts: Contracts, later: Contracts) {
    forall number <- contracts.rows :: number in later.rows && later.rows[number].kept == contracts.rows[number].kept
  }

  lemma ReportLogGrows(sheet: Sheet, rows: seq<Cells>, row: Cells, contracts: Contracts, later: Contracts,
                       period: string, parse: Parsers)
    requires Numbered(sheet, contracts, period, |rows|) && IdsKept(contracts, later)
    ensures ReportLog(sheet, rows + [row], later, period, parse)
         == ReportLog(sheet, rows, contracts, period, parse)
            + [((ContractId(later, NumberOf(sheet, period, |rows| + 1)), period), ReportOf(sheet, row, parse))]
  {
    ReportsSettled(sheet, rows, contracts, later, period, parse);
    MappedSnoc(rows, row, ReportEntry(sheet, later, period, parse));
  }

  lemma UpsertAllSnoc<K, P, V>(t: Table<K, P, V>, origin: nat -> P, log: seq<(K, V)>, key: K, value: V)
    ensures UpsertAll(t, origin, log + [(key, value)]) == Upsert(UpsertAll(t, origin, log), origin, key, value)
  {
    assert (log + [(key, value)])[..|log|] == log;
  }

  /** What the kept rows of a contract sheet have made of contractors d, contracts c and reports r. */
  ghost predicate SheetDone(sheet: Sheet, period: string, parse: Parsers, d: Directory, c: Contracts, r: Reports,
                            rows: seq<Cells>, d': Directory, c': Contracts, r': Reports)
  {
    && d' == EnsureAll(d, NamesIn(rows)) && Covers(d'.memo, NamesIn(rows))
    && c' == UpsertAll(c, NewOrigin, ContractLog(sheet, rows, d'.memo, period, parse))
    && Numbered(sheet, c', period, |rows|)
    && r' == UpsertAll(r, NewId, ReportLog(sheet, rows, c', period, parse))
  }

  lemma SheetStart(sheet: Sheet, period: string, parse: Parsers, d: Directory, c: Contracts, r: Reports)
    ensures SheetDone(sheet, period, parse, d, c, r, [], d, c, r)
  {
  }

  lemma CoversGrows(rows: seq<Cells>, row: Cells, d: Directory)
    requires Covers(d.memo, NamesIn(rows))
    ensures var later := Ensure(d, Trimmed(row, 1)).memo;
      Extends(d.memo, later) && Covers(later, NamesIn(rows + [row]))
  {
    assert NamesIn(rows + [row]) == NamesIn(rows) + [Trimmed(row, 1)];
  }

  lemma ContractsGrow(sheet: Sheet, period: string, parse: Parsers, c: Contracts, rows: seq<Cells>, row: Cells,
                      memo: map<string, nat>, later: map<string, nat>)
    requires Covers(memo, NamesIn(rows)) && Extends(memo, later)
    requires Numbered(sheet, UpsertAll(c, NewOrigin, ContractLog(sheet, rows, memo, period, parse)), period, |rows|)
    ensures var before := UpsertAll(c, NewOrigin, ContractLog(sheet, rows, memo, period, parse));
      var after := UpsertAll(c, NewOrigin, ContractLog(sheet, rows + [row], later, period, parse));
      && after == Upsert(before, NewOrigin, NumberOf(sheet, period, |rows| + 1), ContentOf(sheet, row, later, parse))
      && IdsKept(before, after) && Numbered(sheet, after, period, |rows| + 1)
  {
    ContractLogGrows(sheet, rows, row, memo, later, period, parse);
    UpsertAllSnoc(c, NewOrigin, ContractLog(sheet, rows, memo, period, parse),
                  NumberOf(sheet, period, |rows| + 1), ContentOf(sheet, row, later, parse));
    UpsertNumbers(sheet, period, UpsertAll(c, NewOrigin, ContractLog(sheet, rows, memo, period, parse)), |rows|,
                  ContentOf(sheet, row, later, parse));
  }

  lemma UpsertNumbers(sheet: Sheet, period: string, before: Contracts, n: nat, content: Content)
    requires Numbered(sheet, before, period, n)
    ensures var after := Upsert(before, NewOrigin, NumberOf(sheet, period, n + 1), content);
      IdsKept(before, after) && Numbered(sheet, after, period, n + 1)
  {
  }

  lemma ReportsGrow(sheet: Sheet, period: string, parse: Parsers, r: Reports, rows: seq<Cells>, row: Cells,
                    contracts: Contracts, later: Contracts)
    requires Numbered(sheet, contracts, period, |rows|) && IdsKept(contracts, later)
    ensures UpsertAll(r, NewId, ReportLog(sheet, rows + [row], later, period, parse))
         == Upsert(UpsertAll(r, NewId, ReportLog(sheet, rows, contracts, period, parse)), NewId,
                   (ContractId(later, NumberOf(sheet, period, |rows| + 1)), period), ReportOf(sheet, row, parse))
  {
    ReportLogGrows(sheet, rows, row, contracts, later, period, parse);
    UpsertAllSnoc(r, NewId, ReportLog(sheet, rows, contracts, period, parse),
                  (ContractId(later, NumberOf(sheet, period, |rows| + 1)), period), ReportOf(sheet, row, parse));
  }

  lemma SheetStep(sheet: Sheet, period: string, parse: Parsers, d: Directory, c: Contracts, r: Reports,
                  rows: seq<Cells>, d': Directory, c': Contracts, r': Reports,
                  row: Cells, d'': Directory, c'': Contracts, r'': Reports)
    requires SheetDone(sheet, period, parse, d, c, r, rows, d', c', r')
    requires d'' == Ensure(d', Trimmed(row, 1))
    requires var number := NumberOf(sheet, period, |rows| + 1);
      && c'' == Upsert(c', NewOrigin, number, ContentOf(sheet, row, d''.memo, parse))
      && r'' == Upsert(r', NewId, (ContractId(c'', number), period), ReportOf(sheet, row, parse))
    ensures SheetDone(sheet, period, parse, d, c, r, rows + [row], d'', c'', r'')
  {
    NamesGrow(d, rows, row);
    CoversGrows(rows, row, d');
    ContractsGrow(sheet, period, parse, c, rows, row, d'.memo, d''.memo);
    ReportsGrow(sheet, period, parse, r, rows, row, c', c'');
  }

  lemma ClaimsGrow(rows: seq<Cells>, row: Cells, memo: map<string, nat>, later: map<string, nat>,
                   period: string, parse: Parsers)
    requires Covers(memo, NamesIn(rows)) && Extends(memo, later)
    ensures ClaimsIn(rows + [row], later, period, parse)
         == ClaimsIn(rows, memo, period, parse) + [ClaimOf(row, later, period, parse)]
  {
    ClaimsSettled(rows, memo, later, period, parse);
    MappedSnoc(rows, row, ClaimEntry(later, period, parse));
  }

  ghost predicate ClaimsDone(period: string, parse: Parsers, d: Directory, l: V.Ledger, existing: map<string, V.Prior>,
                             rows: seq<Cells>, d': Directory, l': V.Ledger)
  {
    && d' == EnsureAll(d, NamesIn(rows)) && Covers(d'.memo, NamesIn(rows))
    && l' == V.RecordAll(l, existing, ClaimsIn(rows, d'.memo, period, parse))
  }

  lemma ClaimsStep(period: string, parse: Parsers, d: Directory, l: V.Ledger, existing: map<string, V.Prior>,
                   rows: seq<Cells>, d': Directory, l': V.Ledger, row: Cells, d'': Directory, l'': V.Ledger)
    requires ClaimsDone(period, parse, d, l, existing, rows, d', l')
    requires d'' == Ensure(d', Trimmed(row, 1))
    requires l'' == V.Record(l', existing, ClaimOf(row, d''.memo, period, parse))
    ensures ClaimsDone(period, parse, d, l, existing, rows + [row], d'', l'')
  {
    NamesGrow(d, rows, row);
    CoversGrows(rows, row, d');
    ClaimsGrow(rows, row, d'.memo, d''.memo, period, parse);
    var claims := ClaimsIn(rows, d'.memo, period, parse);
    assert (claims + [ClaimOf(row, d''.memo, period, parse)])[..|claims|] == claims;
  }

  // ----- Putting the sheets together -----

  lemma LogSettled(sheet: Sheet, rows: seq<Cells>, memo: map<string, nat>, later: map<string, nat>,
                   period: string, parse: Parsers)
    requires Covers(memo, NamesIn(rows)) && Extends(memo, later)
    ensures ContractLog(sheet, rows, later, period, parse) == ContractLog(sheet, rows, memo, period, parse)
  {
    forall i | 0 <= i < |rows|
      ensures ContentOf(sheet, rows[i], later, parse) == ContentOf(sheet, rows[i], memo, parse)
    {
      IdSettled(rows, i, memo, later);
    }
    MappedSame(rows, ContractEntry(sheet, later, period, parse), ContractEntry(sheet, memo, period, parse));
  }

  lemma ClaimsSettled(rows: seq<Cells>, memo: map<string, nat>, later: map<string, nat>, period: string, parse: Parsers)
    requires Covers(memo, NamesIn(rows)) && Extends(memo, later)
    ensures ClaimsIn(rows, later, period, parse) == ClaimsIn(rows, memo, period, parse)
  {
    forall i | 0 <= i < |rows| ensures ClaimOf(rows[i], later, period, parse) == ClaimOf(rows[i], memo, period, parse) {
      IdSettled(rows, i, memo, later);
    }
    MappedSame(rows, ClaimEntry(later, period, parse), ClaimEntry(memo, period, parse));
  }

  lemma ReportsSettled(sheet: Sheet, rows: seq<Cells>, contracts: Contracts, later: Contracts, period: string,
                       parse: Parsers)
    requires Numbered(sheet, contracts, period, |rows|) && IdsKept(contracts, later)
    ensures ReportLog(sheet, rows, later, period, parse) == ReportLog(sheet, rows, contracts, period, parse)
  {
    var now, before := ReportEntry(sheet, later, period, parse), ReportEntry(sheet, contracts, period, parse);
    forall i | 0 <= i < |rows| ensures now(i, rows[i]) == before(i, rows[i]) {
      ReportEntrySettled(sheet, i, rows[i], contracts, later, period, parse);
    }
    MappedSame(rows, now, before);
  }

  lemma ReportEntrySettled(sheet: Sheet, i: nat, row: Cells, contracts: Contracts, later: Contracts, period: string,
                           parse: Parsers)
    requires NumberOf(sheet, period, i + 1) in contracts.rows && IdsKept(contracts, later)
    ensures ReportEntry(sheet, later, period, parse)(i, row) == ReportEntry(sheet, contracts, period, parse)(i, row)
  {
    var number := NumberOf(sheet, period, i + 1);
    assert ContractId(later, number) == ContractId(contracts, number);
  }

  lemma UpsertAllKeepsIds(t: Contracts, log: seq<(string, Content)>)
    ensures IdsKept(t, UpsertAll(t, NewOrigin, log))
  {
    forall number <- t.rows
      ensures number in UpsertAll(t, NewOrigin, log).rows
      ensures UpsertAll(t, NewOrigin, log).rows[number].kept == t.rows[number].kept
    {
      UpsertAllResult(t, NewOrigin, log, number);
    }
  }

  /** Tracker, verified and consultancy sheets in turn make the import. */
  lemma SheetsMakeImport(db: Db, book: Workbook, period: string, parse: Parsers, listed: seq<nat>,
                         d1: Directory, c1: Contracts, r1: Reports, d2: Directory, l2: V.Ledger,
                         d3: Directory, c3: Contracts, r3: Reports)
    requires V.Listing(db.valuations, period, listed)
    requires SheetDone(TrackerOf(book), period, parse, Directory(db.contractors, db.nextContractor, map[]),
                       db.contracts, db.reports, Orders(book), d1, c1, r1)
    requires ClaimsDone(period, parse, d1, db.valuations, V.Existing(db.valuations, listed), Claims(book), d2, l2)
    requires SheetDone(Consultancy, period, parse, d2, c1, r1, Consultancies(book), d3, c3, r3)
    ensures Db(d3.ids, d3.next, c3, r3, l2) == Import(db, book, period, parse, listed)
    ensures d3 == Resolved(db, book)
  {
    var d := Directory(db.contractors, db.nextContractor, map[]);
    EnsureAllAppend(d, NamesIn(Orders(book)), NamesIn(Claims(book)));
    EnsureAllAppend(d, NamesIn(Orders(book)) + NamesIn(Claims(book)), NamesIn(Consultancies(book)));
    EnsureAllKeeps(d1, NamesIn(Claims(book)));
    EnsureAllKeeps(d2, NamesIn(Consultancies(book)));
    LogSettled(TrackerOf(book), Orders(book), d1.memo, d3.memo, period, parse);
    ClaimsSettled(Claims(book), d2.memo, d3.memo, period, parse);
    UpsertAllAppend(db.contracts, NewOrigin, ContractLog(TrackerOf(book), Orders(book), d3.memo, period, parse),
                    ContractLog(Consultancy, Consultancies(book), d3.memo, period, parse));
    UpsertAllKeepsIds(c1, ContractLog(Consultancy, Consultancies(book), d3.memo, period, parse));
    ReportsSettled(TrackerOf(book), Orders(book), c1, c3, period, parse);
    UpsertAllAppend(db.reports, NewId, ReportLog(TrackerOf(book), Orders(book), c3, period, parse),
                    ReportLog(Consultancy, Consultancies(book), c3, period, parse));
  }

  // ----- The import -----

  /** What the import reports having touched. */
  datatype Result = Result(contractors: nat, contracts: nat, reports: nat, valuations: nat, consultancy: nat)

  class WorkbookImport {
    const store: GovStore
    var contractorIds: map<string, nat>

    constructor (store: GovStore)
      ensures this.store == store && contractorIds == map[]
    {
      this.store := store;
      contractorIds := map[];
    }

    ghost function Contractors(): Directory
      reads this, store
    {
      Directory(store.contractors, store.nextContractor, contractorIds)
    }

    method EnsureContractor(name: string) returns (id: Option<nat>)
      modifies this`contractorIds, store`contractors, store`nextContractor
      ensures Contractors() == Ensure(old(Contractors()), TrimSpace(name))
      ensures id == IdOf(contractorIds, TrimSpace(name))
      ensures Extends(old(contractorIds), contractorIds) && Covers(contractorIds, [TrimSpace(name)])
    {
      var trimmed := TrimSpace(name);
      if trimmed == "" {
        return None;
      }
      var key := Lower(trimmed);
      if key in contractorIds {
        return Some(contractorIds[key]);
      }
      var stored := store.UpsertContractorByName(trimmed);
      contractorIds := contractorIds[key := stored];
      id := Some(stored);
    }

    /** One contract row: its contractor, its contract, its report. */
    method ImportRow(sheet: Sheet, row: Cells, n: nat, period: string, parse: Parsers)
      modifies this`contractorIds, store`contractors, store`nextContractor, store`contracts, store`reports
      ensures Contractors() == Ensure(old(Contractors()), Trimmed(row, 1))
      ensures Extends(old(contractorIds), contractorIds) && Covers(contractorIds, [Trimmed(row, 1)])
      ensures store.contracts
           == Upsert(old(store.contracts), NewOrigin, NumberOf(sheet, period, n),
                     ContentOf(sheet, row, contractorIds, parse))
      ensures store.reports
           == Upsert(old(store.reports), NewId, (ContractId(store.contracts, NumberOf(sheet, period, n)), period),
                     ReportOf(sheet, row, parse))
    {
      var contractorId := EnsureContractor(Cell(row, 1));
      var number, content, report;
      match sheet {
        case Tracker(programme) =>
          var execution := Normalize(Cell(row, 7));
          number := OrderNumber(period, n);
          content := Content(
            Trimmed(row, 2), Trimmed(row, 1), contractorId, "Works",
            parse.money(Cell(row, 3)), parse.money(Cell(row, 4)), parse.money(Cell(row, 5)),
            parse.progress(Cell(row, 6)), execution, LifecycleFor(execution), Trimmed(row, 12), BLANK_OFFICE);
          var key := RowKey(row);
          report := Report(
            content.progress, 0, execution,
            Trimmed(row, 8), Trimmed(row, 9), Trimmed(row, 10), Trimmed(row, 11), Trimmed(row, 13),
            if key in programme then programme[key] else NO_PLAN);
        case Consultancy =>
          var actual := parse.progress(Cell(row, 3));
          var execution := ForProgress(actual);
          number := ConsultancyNumber(period, n);
          content := Content(
            Trimmed(row, 0), Trimmed(row, 1), contractorId, "Consultancy",
            parse.money(Cell(row, 4)), 0, parse.money(Cell(row, 5)),
            actual, execution, LifecycleFor(execution), "", BLANK_OFFICE);
          report := Report(actual, parse.progress(Cell(row, 2)), execution, "", "", "", "", "", NO_PLAN);
      }
      var saved := store.UpsertContract(number, content);
      store.UpsertProgressReport(saved, period, report);
    }

    /** One more kept row of a contract sheet. */
    method ImportNext(sheet: Sheet, ghost kept: seq<Cells>, row: Cells, n: nat, period: string, parse: Parsers,
                      ghost d: Directory, ghost c: Contracts, ghost r: Reports)
      requires n == |kept| + 1
      requires SheetDone(sheet, period, parse, d, c, r, kept, Contractors(), store.contracts, store.reports)
      modifies this`contractorIds, store`contractors, store`nextContractor, store`contracts, store`reports
      ensures SheetDone(sheet, period, parse, d, c, r, kept + [row], Contractors(), store.contracts, store.reports)
    {
      ghost var d', c', r' := Contractors(), store.contracts, store.reports;
      ImportRow(sheet, row, n, period, parse);
      SheetStep(sheet, period, parse, d, c, r, kept, d', c', r', row, Contractors(), store.contracts, store.reports);
    }

    /** A contract sheet: the rows kept are numbered from 1 in order. */
    method ImportSheet(sheet: Sheet, rows: seq<Cells>, keep: Cells -> bool, period: string, parse: Parsers)
      returns (n: nat)
      modifies this`contractorIds, store`contractors, store`nextContractor, store`contracts, store`reports
      ensures n == |Kept(rows, keep)|
      ensures SheetDone(sheet, period, parse, old(Contractors()), old(store.contracts), old(store.reports),
                        Kept(rows, keep), Contractors(), store.contracts, store.reports)
    {
      n := 0;
      SheetStart(sheet, period, parse, Contractors(), store.contracts, store.reports);
      for i := 0 to |rows|
        invariant n == |Kept(rows[..i], keep)|
        invariant SheetDone(sheet, period, parse, old(Contractors()), old(store.contracts), old(store.reports),
                            Kept(rows[..i], keep), Contractors(), store.contracts, store.reports)
      {
        KeptGrows(rows, keep, i);
        if i < 2 || !keep(rows[i]) {
          continue;
        }
        n := n + 1;
        ImportNext(sheet, Kept(rows[..i], keep), rows[i], n, period, parse,
                   old(Contractors()), old(store.contracts), old(store.reports));
      }
      assert rows[..|rows|] == rows;
    }

    method ImportClaim(existing: map<string, V.Prior>, row: Cells, period: string, parse: Parsers)
      modifies this`contractorIds, store`contractors, store`nextContractor, store`valuations
      ensures Contractors() == Ensure(old(Contractors()), Trimmed(row, 1))
      ensures store.valuations
           == V.Record(old(store.valuations), existing, ClaimOf(row, contractorIds, period, parse))
    {
      var name := Trimmed(row, 1);
      var contractorId := EnsureContractor(Cell(row, 1));
      var claim := V.Claim(
        contractorId, name, period,
        parse.money(Cell(row, 2)), parse.money(Cell(row, 3)), parse.money(Cell(row, 4)),
        parse.money(Cell(row, 5)), parse.money(Cell(row, 6)), Trimmed(row, 7));
      if Lower(name) in existing {
        var prior := existing[Lower(name)];
        store.UpdateValuation(prior.id, claim, prior.terms);
      } else {
        store.CreateValuation(claim);
      }
    }

    /** The verified sheet, over a listing of the period taken before its first row. */
    method ImportVerified(rows: seq<Cells>, period: string, parse: Parsers) returns (listed: seq<nat>, n: nat)
      modifies this`contractorIds, store`contractors, store`nextContractor, store`valuations
      ensures V.Listing(old(store.valuations), period, listed)
      ensures n == |Kept(rows, IsClaim)|
      ensures ClaimsDone(period, parse, old(Contractors()), old(store.valuations),
                         V.Existing(old(store.valuations), listed), Kept(rows, IsClaim),
                         Contractors(), store.valuations)
    {
      listed := store.ListValuations(period);
      var existing := map[];
      for j := 0 to |listed|
        invariant existing == V.Existing(store.valuations, listed[..j])
      {
        var id := listed[j];
        assert listed[..j + 1][..j] == listed[..j];
        existing := existing[V.NameKey(store.valuations.rows[id]) := V.Prior(id, store.valuations.rows[id].terms)];
      }
      assert listed[..|listed|] == listed;
      n := 0;
      for i := 0 to |rows|
        invariant n == |Kept(rows[..i], IsClaim)|
        invariant ClaimsDone(period, parse, old(Contractors()), old(store.valuations), existing,
                             Kept(rows[..i], IsClaim), Contractors(), store.valuations)
      {
        KeptGrows(rows, IsClaim, i);
        if i < 2 || !IsClaim(rows[i]) {
          continue;
        }
        ghost var d, l := Contractors(), store.valuations;
        ImportClaim(existing, rows[i], period, parse);
        n := n + 1;
        ClaimsStep(period, parse, old(Contractors()), old(store.valuations), existing, Kept(rows[..i], IsClaim), d, l,
                   rows[i], Contractors(), store.valuations);
      }
      assert rows[..|rows|] == rows;
    }

    /** importWorkbook: the row-at-a-time run makes exactly the table-at-a-time import. */
    method ImportBook(book: Workbook, period: string, parse: Parsers) returns (listed: seq<nat>, res: Result)
      modifies this, store
      ensures V.Listing(old(store.valuations), period, listed)
      ensures store.State() == Import(old(store.State()), book, period, parse, listed)
      ensures contractorIds == Resolved(old(store.State()), book).memo
      ensures res == Result(|contractorIds|, |Orders(book)|, |Orders(book)|, |Claims(book)|, |Consultancies(book)|)
    {
      contractorIds := map[];
      var programme := ReadWorkProgramme(book.programme);
      var contracts := ImportSheet(Tracker(programme), book.tracker, IsOrder, period, parse);
      ghost var d1, c1, r1 := Contractors(), store.contracts, store.reports;
      var valuations;
      listed, valuations := ImportVerified(book.verified, period, parse);
      ghost var d2, l2 := Contractors(), store.valuations;
      var consultancy := ImportSheet(Consultancy, book.consultancy, IsConsultancy, period, parse);
      SheetsMakeImport(old(store.State()), book, period, parse, listed, d1, c1, r1, d2, l2,
                       Contractors(), store.contracts, store.reports);
      res := Result(|contractorIds|, contracts, contracts, valuations, consultancy);
    }
  }
}
