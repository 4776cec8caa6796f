/** The monthly-report workbook: the rows each sheet contributes, the work programme, contract numbers. */
module MonthlyWorkbook {
  import opened Text
  import opened Upserts

  // ----- The workbook -----

  type Cells = seq<string>

  /** Sheets as rows of cell text; a sheet that cannot be read is empty. */
  datatype Workbook = Workbook(
    tracker: seq<Cells>,
    verified: seq<Cells>,
    consultancy: seq<Cells>,
    programme: seq<Cells>)

  function Cell(row: Cells, i: nat): string {
    if i < |row| then row[i] else ""
  }

  function Trimmed(row: Cells, i: nat): string {
    TrimSpace(Cell(row, i))
  }

  predicate IsOrder(row: Cells) {
    Trimmed(row, 1) != "" && Trimmed(row, 2) != "" && !EqualFold(Trimmed(row, 2), "NEW CONTRACTS")
  }

  predicate IsClaim(row: Cells) {
    Trimmed(row, 1) != "" && !EqualFold(Trimmed(row, 1), "TOTAL")
  }

  predicate IsConsultancy(row: Cells) {
    Trimmed(row, 0) != ""
  }

  /** The rows below two header rows that a sheet's loop does not skip. */
  function Kept(rows: seq<Cells>, keep: Cells -> bool): seq<Cells> {
    if |rows| <= 2 then []
    else
      var last := rows[|rows| - 1];
      Kept(rows[..|rows| - 1], keep) + if keep(last) then [last] else []
  }

  /** Nothing below the headers that the sheet's loop keeps is lost, and nothing else comes in. */
  lemma {:induction false} KeptExactly(rows: seq<Cells>, keep: Cells -> bool, row: Cells)
    ensures row in Kept(rows, keep) <==> keep(row) && exists i :: 2 <= i < |rows| && rows[i] == row
  {
    if |rows| > 2 {
      var n := |rows| - 1;
      KeptExactly(rows[..n], keep, row);
      assert forall i :: 0 <= i < n ==> rows[..n][i] == rows[i];
    }
  }

  function Orders(book: Workbook): seq<Cells> {
    Kept(book.tracker, IsOrder)
  }

  function Claims(book: Workbook): seq<Cells> {
    Kept(book.verified, IsClaim)
  }

  function Consultancies(book: Workbook): seq<Cells> {
    Kept(book.consultancy, IsConsultancy)
  }

  // ----- Work programme -----

  datatype Plan = Plan(start: string, completion: string, duration: string, responsible: string, target: string)

  const NO_PLAN := Plan("", "", "", "", "")

  /** The words of s, lower case, joined by single spaces. */
  function Squeeze(s: string): string {
    Join(Words(Lower(s), ""))
  }

  function Words(s: string, word: string): seq<string> {
    var done := if word == "" then [] else [word];
    if s == "" then done
    else if IsSpace(s[0]) then done + Words(s[1..], "")
    else Words(s[1..], word + [s[0]])
  }

  function Join(words: seq<string>): string {
    if words == [] then "" else if |words| == 1 then words[0] else words[0] + " " + Join(words[1..])
  }

  function MatchKey(contractor: string, details: string): string {
    Squeeze(contractor) + "|" + Squeeze(details)
  }

  function PlanOf(row: Cells): Plan {
    Plan(Trimmed(row, 4), Trimmed(row, 5), Trimmed(row, 6), Trimmed(row, 9), Trimmed(row, 10))
  }

  function RowKey(row: Cells): string {
    MatchKey(Cell(row, 1), Cell(row, 2))
  }

  /** A row of the Work Programme sheet, its unread columns left out of account. */
  datatype ProgrammeLine = ProgrammeLine(
    no: string, contractor: string, details: string, unit: string, start: string, completion: string,
    duration: string, resources: string, budget: string, responsible: string, target: string)

  function ProgrammeCells(l: ProgrammeLine): Cells {
    [l.no, l.contractor, l.details, l.unit, l.start, l.completion, l.duration, l.resources, l.budget, l.responsible,
     l.target]
  }

  lemma ProgrammeReads(l: ProgrammeLine)
    ensures var plan := PlanOf(ProgrammeCells(l));
      && plan.start == TrimSpace(l.start) && plan.completion == TrimSpace(l.completion)
      && plan.duration == TrimSpace(l.duration) && plan.responsible == TrimSpace(l.responsible)
      && plan.target == TrimSpace(l.target)
      && RowKey(ProgrammeCells(l)) == MatchKey(l.contractor, l.details)
  {
  }

  predicate IsPlan(row: Cells) {
    Trimmed(row, 1) != "" && Trimmed(row, 2) != ""
  }

  /** The rows below four header rows that are kept, as keyed entries in order. */
  function Entries<V>(rows: seq<Cells>, keep: Cells -> bool, key: Cells -> string, value: Cells -> V)
    : seq<(string, V)>
  {
    if |rows| <= 4 then []
    else
      var last := rows[|rows| - 1];
      Entries(rows[..|rows| - 1], keep, key, value) + if keep(last) then [(key(last), value(last))] else []
  }

  /** The work programme by key; a later row of a key replaces an earlier one. */
  function Programme(rows: seq<Cells>): map<string, Plan> {
    Collect(Entries(rows, IsPlan, RowKey, PlanOf))
  }

  lemma EntriesGrow<V>(rows: seq<Cells>, keep: Cells -> bool, key: Cells -> string, value: Cells -> V, i: nat)
    requires i < |rows|
    ensures i < 4 || !keep(rows[i]) ==>
      Entries(rows[..i + 1], keep, key, value) == Entries(rows[..i], keep, key, value)
    ensures i >= 4 && keep(rows[i]) ==>
      Entries(rows[..i + 1], keep, key, value)
      == Entries(rows[..i], keep, key, value) + [(key(rows[i]), value(rows[i]))]
  {
    assert rows[..i + 1][..i] == rows[..i];
    assert rows[..i + 1][i] == rows[i];
  }

  method ReadWorkProgramme(rows: seq<Cells>) returns (out: map<string, Plan>)
    ensures out == Programme(rows)
  {
    out := map[];
    for i := 0 to |rows|
      invariant out == Collect(Entries(rows[..i], IsPlan, RowKey, PlanOf))
    {
      EntriesGrow(rows, IsPlan, RowKey, PlanOf, i);
      if i < 4 || !IsPlan(rows[i]) {
        continue;
      }
      var key, plan := RowKey(rows[i]), PlanOf(rows[i]);
      CollectAppend(Entries(rows[..i], IsPlan, RowKey, PlanOf), key, plan);
      out := out[key := plan];
    }
    assert rows[..|rows|] == rows;
  }

  /** Position k is the last kept row of a key. */
  ghost predicate LastOf(rows: seq<Cells>, keep: Cells -> bool, key: Cells -> string, name: string, k: int) {
    && 4 <= k < |rows| && keep(rows[k]) && key(rows[k]) == name
    && forall j :: k < j < |rows| && keep(rows[j]) ==> key(rows[j]) != name
  }

  /** Some kept row has this key. */
  ghost predicate Keyed(rows: seq<Cells>, keep: Cells -> bool, key: Cells -> string, name: string) {
    exists k :: 4 <= k < |rows| && keep(rows[k]) && key(rows[k]) == name
  }

  lemma KeyedGrows(rows: seq<Cells>, keep: Cells -> bool, key: Cells -> string, name: string)
    requires |rows| > 4
    ensures var n := |rows| - 1;
      && (Keyed(rows, keep, key, name) <==>
            Keyed(rows[..n], keep, key, name) || (keep(rows[n]) && key(rows[n]) == name))
      && (keep(rows[n]) && key(rows[n]) == name ==> LastOf(rows, keep, key, name, n))
      && (!(keep(rows[n]) && key(rows[n]) == name) ==>
            forall k :: LastOf(rows[..n], keep, key, name, k) ==> LastOf(rows, keep, key, name, k))
  {
    assert forall j :: 0 <= j < |rows| - 1 ==> rows[..|rows| - 1][j] == rows[j];
  }

  lemma {:induction false} EntriesHoldLast<V>(rows: seq<Cells>, keep: Cells -> bool, key: Cells -> string,
                                              value: Cells -> V, name: string)
    ensures var log := Entries(rows, keep, key, value);
      && (Written(log, name) <==> Keyed(rows, keep, key, name))
      && (Written(log, name) ==> exists k :: LastOf(rows, keep, key, name, k) && LastWrite(log, name) == value(rows[k]))
  {
    if |rows| > 4 {
      var n := |rows| - 1;
      var log := Entries(rows[..n], keep, key, value);
      EntriesHoldLast(rows[..n], keep, key, value, name);
      KeyedGrows(rows, keep, key, name);
      if keep(rows[n]) {
        WrittenAppend(log, key(rows[n]), value(rows[n]), name);
      } else {
        assert Entries(rows, keep, key, value) == log;
      }
      if !(keep(rows[n]) && key(rows[n]) == name) && Written(log, name) {
        var k :| LastOf(rows[..n], keep, key, name, k) && LastWrite(log, name) == value(rows[..n][k]);
        assert LastOf(rows, keep, key, name, k);
      }
    }
  }

  /** A key is planned exactly when some row plans it, and then as the last such row says. */
  lemma ProgrammeHoldsLast(rows: seq<Cells>, name: string)
    ensures name in Programme(rows) <==> Keyed(rows, IsPlan, RowKey, name)
    ensures name in Programme(rows) ==>
      exists k :: LastOf(rows, IsPlan, RowKey, name, k) && Programme(rows)[name] == PlanOf(rows[k])
  {
    EntriesHoldLast(rows, IsPlan, RowKey, PlanOf, name);
    CollectHoldsLast(Entries(rows, IsPlan, RowKey, PlanOf), name);
  }

  // ----- Contract numbers -----

  function Digit(n: nat): char
    requires n < 10
  {
    ('0' as int + n) as char
  }

  function Decimal(n: nat): string {
    if n < 10 then [Digit(n)] else Decimal(n / 10) + [Digit(n % 10)]
  }

  /** %03d on a positive number. */
  function Pad3(n: nat): string {
    if n < 10 then "00" + Decimal(n) else if n < 100 then "0" + Decimal(n) else Decimal(n)
  }

  function Compact(period: string): string {
    if period == "" then "" else (if period[0] == '-' then "" else [period[0]]) + Compact(period[1..])
  }

  function OrderNumber(period: string, n: nat): string {
    "MR-" + Compact(period) + "-" + Pad3(n)
  }

  function ConsultancyNumber(period: string, n: nat): string {
    "MR-" + Compact(period) + "-CON-" + Pad3(n)
  }

  function ReadDigits(s: string): int {
    if s == "" then 0 else 10 * ReadDigits(s[..|s| - 1]) + (s[|s| - 1] as int - '0' as int)
  }

  lemma {:induction false} DecimalReads(n: nat)
    ensures ReadDigits(Decimal(n)) == n && Decimal(n) != "" && '0' <= Decimal(n)[0] <= '9'
  {
    if n < 10 {
      assert Decimal(n)[..0] == "";
    } else {
      DecimalReads(n / 10);
      assert Decimal(n)[..|Decimal(n)| - 1] == Decimal(n / 10);
    }
  }

  lemma {:induction false} LeadingZero(s: string)
    ensures ReadDigits("0" + s) == ReadDigits(s)
  {
    if s == "" {
      assert ("0" + s)[..0] == "";
    } else {
      LeadingZero(s[..|s| - 1]);
      assert ("0" + s)[..|s|] == "0" + s[..|s| - 1];
    }
  }

  lemma Pad3Reads(n: nat)
    ensures ReadDigits(Pad3(n)) == n && Pad3(n) != "" && '0' <= Pad3(n)[0] <= '9'
  {
    DecimalReads(n);
    LeadingZero(Decimal(n));
    LeadingZero("0" + Decimal(n));
    assert "0" + ("0" + Decimal(n)) == "00" + Decimal(n);
  }

  /** No two rows of an import share a contract number. */
  lemma NumbersDistinct(period: string, a: nat, b: nat)
    ensures OrderNumber(period, a) == OrderNumber(period, b) ==> a == b
    ensures ConsultancyNumber(period, a) == ConsultancyNumber(period, b) ==> a == b
    ensures OrderNumber(period, a) != ConsultancyNumber(period, b)
  {
    Pad3Reads(a);
    Pad3Reads(b);
    SuffixesDecide("MR-" + Compact(period) + "-", Pad3(a), Pad3(b));
    SuffixesDecide("MR-" + Compact(period) + "-CON-", Pad3(a), Pad3(b));
    SuffixesDecide("MR-" + Compact(period) + "-", Pad3(a), "CON-" + Pad3(b));
    assert "MR-" + Compact(period) + "-CON-" + Pad3(b) == "MR-" + Compact(period) + "-" + ("CON-" + Pad3(b)) by {
      assert "-CON-" == "-" + "CON-";
    }
  }

  lemma SuffixesDecide(stem: string, a: string, b: string)
    ensures stem + a == stem + b ==> a == b
  {
    assert (stem + a)[|stem|..] == a && (stem + b)[|stem|..] == b;
  }
}
