/** Contractor valuations: one sheet of claims recorded over the rows already stored for the period. */
module Valuations {
  import opened Text
  import opened Upserts
  import opened Wrappers

  /** The columns the workbook fills. */
  datatype Claim = Claim(
    contractorId: Option<nat>,
    name: string,
    period: string,
    contractSum: int,
    amountPaid: int,
    verifiedValueOwed: int,
    recommendation: int,
    approval: int,
    remarks: string)

  /** The columns only the application captures. */
  datatype Terms = Terms(
    reference: string,
    dueDate: string,
    currency: string,
    division: string,
    tax: int,
    status: string,
    attachments: string)

  datatype Valuation = Valuation(claim: Claim, verifiedDate: string, terms: Terms)

  datatype Ledger = Ledger(rows: map<nat, Valuation>, next: nat)

  /** What the importer remembers of a stored row. */
  datatype Prior = Prior(id: nat, terms: Terms)

  const NO_TERMS := Terms("", "", "", "", 0, "", "")

  /** Both writers turn a blank status into Draft. */
  function Settled(t: Terms): Terms {
    if t.status == "" then t.(status := "Draft") else t
  }

  // ----- Listing a period -----

  predicate InPeriod(v: Valuation, period: string) {
    period == "" || v.claim.period == period
  }

  /** Every row of the period exactly once, in an order the database chooses. */
  ghost predicate Listing(l: Ledger, period: string, list: seq<nat>) {
    && (forall i, j :: 0 <= i < j < |list| ==> list[i] != list[j])
    && (forall id :: id in list <==> id in l.rows && InPeriod(l.rows[id], period))
  }

  function NameKey(v: Valuation): string {
    Lower(v.claim.name)
  }

  /** Stored rows by folded name; a later row of the listing hides an earlier one. */
  function Existing(l: Ledger, list: seq<nat>): map<string, Prior>
    requires forall id <- list :: id in l.rows
  {
    if list == [] then map[]
    else
      var id := list[|list| - 1];
      Existing(l, list[..|list| - 1])[NameKey(l.rows[id]) := Prior(id, l.rows[id].terms)]
  }

  // ----- Recording claims -----

  /** Replaces the remembered row of the same folded name, or inserts a new row. */
  function Record(l: Ledger, existing: map<string, Prior>, c: Claim): Ledger {
    var key := Lower(c.name);
    if key in existing then
      l.(rows := l.rows[existing[key].id := Valuation(c, "", Settled(existing[key].terms))])
    else
      Ledger(l.rows[l.next := Valuation(c, "", Settled(NO_TERMS))], l.next + 1)
  }

  function RecordAll(l: Ledger, existing: map<string, Prior>, claims: seq<Claim>): Ledger {
    if claims == [] then l
    else Record(RecordAll(l, existing, claims[..|claims| - 1]), existing, claims[|claims| - 1])
  }

  function Import(l: Ledger, list: seq<nat>, claims: seq<Claim>): Ledger
    requires forall id <- list :: id in l.rows
  {
    RecordAll(l, Existing(l, list), claims)
  }

  function ByName(claims: seq<Claim>): seq<(string, Claim)> {
    seq(|claims|, i requires 0 <= i < |claims| => (Lower(claims[i].name), claims[i]))
  }

  // ----- Conditions -----

  ghost predicate IdsUsed(l: Ledger) {
    forall id <- l.rows :: id < l.next
  }

  ghost predicate Stored(l: Ledger, period: string, key: string) {
    exists id :: id in l.rows && InPeriod(l.rows[id], period) && NameKey(l.rows[id]) == key
  }

  ghost predicate NamesDistinct(l: Ledger, period: string) {
    forall a <- l.rows, b <- l.rows | InPeriod(l.rows[a], period) && InPeriod(l.rows[b], period) ::
      NameKey(l.rows[a]) == NameKey(l.rows[b]) ==> a == b
  }

  /** Claims that share a folded name no stored row has are copies of one another. */
  ghost predicate Agreeing(l: Ledger, period: string, claims: seq<Claim>) {
    forall i, j | 0 <= i < |claims| && 0 <= j < |claims| ::
      (Lower(claims[i].name) == Lower(claims[j].name) && !Stored(l, period, Lower(claims[i].name)))
      ==> claims[i] == claims[j]
  }

  lemma DistinctAgree(l: Ledger, period: string, claims: seq<Claim>)
    requires forall i, j :: 0 <= i < j < |claims| ==> !EqualFold(claims[i].name, claims[j].name)
    ensures Agreeing(l, period, claims)
  {
    forall i, j | 0 <= i < |claims| && 0 <= j < |claims|
      ensures Lower(claims[i].name) == Lower(claims[j].name) ==> i == j
    {
      assert i < j ==> !EqualFold(claims[i].name, claims[j].name);
      assert j < i ==> !EqualFold(claims[j].name, claims[i].name);
    }
  }

  // ----- What the fold over the listing holds -----

  lemma {:induction false} ExistingHolds(l: Ledger, list: seq<nat>, key: string)
    requires forall id <- list :: id in l.rows
    ensures key in Existing(l, list) <==> exists i :: 0 <= i < |list| && NameKey(l.rows[list[i]]) == key
    ensures key in Existing(l, list) ==>
      var p := Existing(l, list)[key];
      p.id in list && NameKey(l.rows[p.id]) == key && p.terms == l.rows[p.id].terms
  {
    if list != [] {
      var n := |list| - 1;
      ExistingHolds(l, list[..n], key);
      assert forall i :: 0 <= i < n ==> list[..n][i] == list[i];
      if key in Existing(l, list[..n]) {
        var i :| 0 <= i < n && NameKey(l.rows[list[..n][i]]) == key;
        assert NameKey(l.rows[list[i]]) == key;
      }
    }
  }

  /** Over a listing of the period, the remembered names are the stored ones. */
  lemma ListingHolds(l: Ledger, period: string, list: seq<nat>, key: string)
    requires Listing(l, period, list)
    ensures key in Existing(l, list) <==> Stored(l, period, key)
    ensures key in Existing(l, list) ==>
      var p := Existing(l, list)[key];
      && p.id in l.rows && InPeriod(l.rows[p.id], period)
      && NameKey(l.rows[p.id]) == key && p.terms == l.rows[p.id].terms
  {
    ExistingHolds(l, list, key);
    if Stored(l, period, key) {
      var id :| id in l.rows && InPeriod(l.rows[id], period) && NameKey(l.rows[id]) == key;
      var i :| 0 <= i < |list| && list[i] == id;
    }
  }

  // ----- What recording leaves -----

  /** The remembered rows exist and stand for different names. */
  ghost predicate Remembers(l: Ledger, existing: map<string, Prior>) {
    && (forall key <- existing :: existing[key].id in l.rows)
    && (forall a, b :: a in existing && b in existing && existing[a].id == existing[b].id ==> a == b)
  }

  /** Row id of the outcome: replaced by the last claim of its name, inserted for a claim, or as it was. */
  ghost predicate Outcome(l: Ledger, existing: map<string, Prior>, claims: seq<Claim>, u: Ledger, id: nat) {
    && (id in u.rows <==> id in l.rows || l.next <= id < u.next)
    && (id in l.rows ==>
          && (forall key <- existing :: existing[key].id == id && Written(ByName(claims), key)
                ==> u.rows[id] == Valuation(LastWrite(ByName(claims), key), "", Settled(existing[key].terms)))
          && ((forall key <- existing :: existing[key].id == id ==> !Written(ByName(claims), key))
                ==> u.rows[id] == l.rows[id]))
    && (l.next <= id < u.next ==>
          exists i :: 0 <= i < |claims| && Lower(claims[i].name) !in existing
                      && u.rows[id] == Valuation(claims[i], "", Settled(NO_TERMS)))
  }

  lemma ByNamePrefix(claims: seq<Claim>)
    requires claims != []
    ensures var n := |claims| - 1;
      ByName(claims[..n]) == ByName(claims)[..n] && ByName(claims)[n] == (Lower(claims[n].name), claims[n])
    ensures forall key :: Written(ByName(claims), key)
                     <==> Written(ByName(claims[..|claims| - 1]), key) || key == Lower(claims[|claims| - 1].name)
  {
    var n := |claims| - 1;
    var log := ByName(claims);
    assert ByName(claims[..n]) == log[..n];
    assert forall i :: 0 <= i < n ==> log[..n][i] == log[i];
    forall key | Written(log, key) ensures Written(log[..n], key) || key == Lower(claims[n].name) {
      var i :| 0 <= i < |log| && log[i].0 == key;
      assert i < n ==> log[..n][i].0 == key;
    }
    forall key | Written(log[..n], key) || key == Lower(claims[n].name) ensures Written(log, key) {
      if Written(log[..n], key) {
        var i :| 0 <= i < n && log[..n][i].0 == key;
        assert log[i].0 == key;
      } else {
        assert log[n].0 == key;
      }
    }
  }

  lemma {:induction false} RecordAllOutcome(l: Ledger, existing: map<string, Prior>, claims: seq<Claim>)
    requires IdsUsed(l) && Remembers(l, existing)
    ensures var u := RecordAll(l, existing, claims);
      l.next <= u.next && forall id: nat :: Outcome(l, existing, claims, u, id)
  {
    var u := RecordAll(l, existing, claims);
    if claims == [] {
      assert ByName(claims) == [];
    } else {
      var n := |claims| - 1;
      var before := RecordAll(l, existing, claims[..n]);
      RecordAllOutcome(l, existing, claims[..n]);
      ByNamePrefix(claims);
      forall k <- existing ensures existing[k].id in before.rows {
        assert Outcome(l, existing, claims[..n], before, existing[k].id);
      }
      forall id: nat ensures Outcome(l, existing, claims, u, id) {
        assert Outcome(l, existing, claims[..n], before, id);
        RecordStep(l, existing, claims, before, id);
      }
    }
  }

  lemma RecordStep(l: Ledger, existing: map<string, Prior>, claims: seq<Claim>, before: Ledger, id: nat)
    requires IdsUsed(l) && Remembers(l, existing) && claims != [] && l.next <= before.next
    requires Outcome(l, existing, claims[..|claims| - 1], before, id)
    requires forall k <- existing :: existing[k].id in before.rows
    ensures Outcome(l, existing, claims, Record(before, existing, claims[|claims| - 1]), id)
  {
    var n := |claims| - 1;
    var u := Record(before, existing, claims[n]);
    var key := Lower(claims[n].name);
    ByNamePrefix(claims);
    if l.next <= id < u.next {
      if id < before.next {
        var i :| 0 <= i < n && Lower(claims[..n][i].name) !in existing
                 && before.rows[id] == Valuation(claims[..n][i], "", Settled(NO_TERMS));
        assert claims[i] == claims[..n][i];
        assert u.rows[id] == before.rows[id];
      } else {
        assert key !in existing && u.rows[id] == Valuation(claims[n], "", Settled(NO_TERMS));
      }
    }
  }

  // ----- Recording a sheet twice -----

  /** A sheet of one period. */
  predicate OfPeriod(claims: seq<Claim>, period: string) {
    forall c <- claims :: c.period == period
  }

  lemma RemembersListing(l: Ledger, period: string, list: seq<nat>)
    requires Listing(l, period, list)
    ensures Remembers(l, Existing(l, list))
  {
    forall key <- Existing(l, list)
      ensures Existing(l, list)[key].id in l.rows && NameKey(l.rows[Existing(l, list)[key].id]) == key
    {
      ListingHolds(l, period, list, key);
    }
  }

  /** After the first import, a claim's name is stored under rows that were stored before or inserted for it. */
  lemma RowsAfter(l: Ledger, period: string, list: seq<nat>, claims: seq<Claim>, id: nat)
    requires IdsUsed(l) && Listing(l, period, list) && OfPeriod(claims, period)
    requires var once := Import(l, list, claims); id in once.rows
    ensures var once := Import(l, list, claims); var v := once.rows[id];
      && id < once.next
      && (id in l.rows ==>
            && InPeriod(v, period) == InPeriod(l.rows[id], period)
            && NameKey(v) == NameKey(l.rows[id]))
      && (id !in l.rows ==>
            exists i :: 0 <= i < |claims| && !Stored(l, period, Lower(claims[i].name))
                        && v == Valuation(claims[i], "", Settled(NO_TERMS)))
  {
    var e := Existing(l, list);
    var once := Import(l, list, claims);
    RemembersListing(l, period, list);
    RecordAllOutcome(l, e, claims);
    assert Outcome(l, e, claims, once, id);
    if id in l.rows {
      if key :| key in e && e[key].id == id && Written(ByName(claims), key) {
        ListingHolds(l, period, list, key);
        var c := LastWrite(ByName(claims), key);
        var i :| 0 <= i < |claims| && ByName(claims)[i] == (key, c);
        assert c == claims[i] && Lower(c.name) == key;
      } else {
        assert once.rows[id] == l.rows[id];
      }
    } else {
      var i :| 0 <= i < |claims| && Lower(claims[i].name) !in e
               && once.rows[id] == Valuation(claims[i], "", Settled(NO_TERMS));
      ListingHolds(l, period, list, Lower(claims[i].name));
    }
  }

  /**
   * A stored row keeps what the application captured, a blank status excepted; a row the sheet names
   * loses its verification date, and rows of other periods are left alone.
   */
  lemma ImportKeepsTerms(l: Ledger, period: string, list: seq<nat>, claims: seq<Claim>, id: nat)
    requires IdsUsed(l) && Listing(l, period, list) && id in l.rows
    ensures var once := Import(l, list, claims);
      && id in once.rows
      && (once.rows[id].terms == l.rows[id].terms || once.rows[id].terms == Settled(l.rows[id].terms))
      && (once.rows[id] != l.rows[id] ==> InPeriod(l.rows[id], period) && once.rows[id].verifiedDate == "")
  {
    var e := Existing(l, list);
    RemembersListing(l, period, list);
    RecordAllOutcome(l, e, claims);
    assert Outcome(l, e, claims, Import(l, list, claims), id);
    if key :| key in e && e[key].id == id && Written(ByName(claims), key) {
      ListingHolds(l, period, list, key);
    }
  }

  lemma {:induction false} EachInserted(l: Ledger, existing: map<string, Prior>, claims: seq<Claim>, i: nat)
    returns (id: nat)
    requires IdsUsed(l) && Remembers(l, existing)
    requires i < |claims| && Lower(claims[i].name) !in existing
    ensures var u := RecordAll(l, existing, claims);
      l.next <= id < u.next && id in u.rows && u.rows[id] == Valuation(claims[i], "", Settled(NO_TERMS))
  {
    var n := |claims| - 1;
    var before := RecordAll(l, existing, claims[..n]);
    RecordAllOutcome(l, existing, claims[..n]);
    if i == n {
      id := before.next;
    } else {
      id := EachInserted(l, existing, claims[..n], i);
      assert forall k <- existing :: existing[k].id in l.rows && existing[k].id < l.next;
    }
  }

  /** Every claim finds its name stored when the sheet is imported again. */
  lemma ClaimsFindTheirRow(l: Ledger, period: string, list: seq<nat>, claims: seq<Claim>, i: nat)
    requires IdsUsed(l) && Listing(l, period, list) && OfPeriod(claims, period) && i < |claims|
    ensures Stored(Import(l, list, claims), period, Lower(claims[i].name))
  {
    var e := Existing(l, list);
    var key := Lower(claims[i].name);
    RemembersListing(l, period, list);
    ListingHolds(l, period, list, key);
    if key in e {
      RecordAllOutcome(l, e, claims);
      assert Outcome(l, e, claims, Import(l, list, claims), e[key].id);
      RowsAfter(l, period, list, claims, e[key].id);
    } else {
      var id := EachInserted(l, e, claims, i);
      assert claims[i] in claims;
    }
  }

  /** A stored row of a claimed name already holds the last claim of that name. */
  lemma RowHoldsLastClaim(l: Ledger, period: string, list: seq<nat>, claims: seq<Claim>, id: nat, key: string)
    requires IdsUsed(l) && Listing(l, period, list) && OfPeriod(claims, period)
    requires NamesDistinct(l, period) && Agreeing(l, period, claims)
    requires var once := Import(l, list, claims);
      id in once.rows && InPeriod(once.rows[id], period) && NameKey(once.rows[id]) == key
    requires Written(ByName(claims), key)
    ensures var v := Import(l, list, claims).rows[id];
      v == Valuation(LastWrite(ByName(claims), key), "", Settled(v.terms))
  {
    var e := Existing(l, list);
    var once := Import(l, list, claims);
    RowsAfter(l, period, list, claims, id);
    RemembersListing(l, period, list);
    RecordAllOutcome(l, e, claims);
    assert Outcome(l, e, claims, once, id);
    ListingHolds(l, period, list, key);
    if id in l.rows {
      assert Stored(l, period, key);
      assert e[key].id == id;
    } else {
      var i :| 0 <= i < |claims| && !Stored(l, period, Lower(claims[i].name))
               && once.rows[id] == Valuation(claims[i], "", Settled(NO_TERMS));
      var last := LastWrite(ByName(claims), key);
      var j :| 0 <= j < |claims| && ByName(claims)[j] == (key, last);
      assert claims[i] == claims[j];
    }
  }

  lemma AgreeingSheetSettles(l: Ledger, period: string, list: seq<nat>, claims: seq<Claim>, again: seq<nat>)
    requires IdsUsed(l) && Listing(l, period, list) && OfPeriod(claims, period)
    requires NamesDistinct(l, period) && Agreeing(l, period, claims)
    requires var once := Import(l, list, claims); Listing(once, period, again)
    ensures var once := Import(l, list, claims); Import(once, again, claims) == once
  {
    var once := Import(l, list, claims);
    var e := Existing(once, again);
    var twice := Import(once, again, claims);
    assert IdsUsed(once) by {
      forall id <- once.rows ensures id < once.next { RowsAfter(l, period, list, claims, id); }
    }
    RemembersListing(once, period, again);
    RecordAllOutcome(once, e, claims);
    if twice.next > once.next {
      assert Outcome(once, e, claims, twice, once.next);
      var i :| 0 <= i < |claims| && Lower(claims[i].name) !in e;
      ClaimsFindTheirRow(l, period, list, claims, i);
      ListingHolds(once, period, again, Lower(claims[i].name));
      assert false;
    }
    forall id: nat ensures id in twice.rows <==> id in once.rows
    {
      assert Outcome(once, e, claims, twice, id);
    }
    forall id <- once.rows ensures twice.rows[id] == once.rows[id] {
      assert Outcome(once, e, claims, twice, id);
      if key :| key in e && e[key].id == id && Written(ByName(claims), key) {
        ListingHolds(once, period, again, key);
        RowHoldsLastClaim(l, period, list, claims, id, key);
      }
    }
    assert twice.rows == once.rows;
  }

  // ----- A sheet that disagrees with itself -----

  lemma {:induction false} ListingEndingIn(ids: set<nat>, last: nat) returns (list: seq<nat>)
    requires last in ids
    ensures (forall i, j :: 0 <= i < j < |list| ==> list[i] != list[j]) && (forall id :: id in list <==> id in ids)
    ensures list != [] && list[|list| - 1] == last
  {
    var rest := ids - {last};
    if rest == {} {
      list := [last];
    } else {
      var other :| other in rest;
      var head := ListingEndingIn(rest, other);
      list := head + [last];
    }
  }

  lemma DisagreeingSheetUnsettles(l: Ledger, period: string, list: seq<nat>, claims: seq<Claim>, i: nat, j: nat)
    returns (again: seq<nat>)
    requires IdsUsed(l) && Listing(l, period, list) && OfPeriod(claims, period)
    requires i < |claims| && j < |claims| && claims[i] != claims[j]
    requires Lower(claims[i].name) == Lower(claims[j].name) && !Stored(l, period, Lower(claims[i].name))
    ensures var once := Import(l, list, claims);
      Listing(once, period, again) && Import(once, again, claims) != once
  {
    var e := Existing(l, list);
    var once := Import(l, list, claims);
    var key := Lower(claims[i].name);
    RemembersListing(l, period, list);
    ListingHolds(l, period, list, key);
    assert ByName(claims)[i].0 == key;
    var k := if claims[i] == LastWrite(ByName(claims), key) then j else i;
    var id := EachInserted(l, e, claims, k);
    assert claims[k] in claims;
    var ids := set x | x in once.rows && InPeriod(once.rows[x], period);
    again := ListingEndingIn(ids, id);
    var remembered := Existing(once, again);
    assert remembered[key].id == id;
    assert IdsUsed(once) by {
      forall x <- once.rows ensures x < once.next { RowsAfter(l, period, list, claims, x); }
    }
    RemembersListing(once, period, again);
    RecordAllOutcome(once, remembered, claims);
    assert Outcome(once, remembered, claims, Import(once, again, claims), id);
  }

  /**
   * Over a period whose stored names are distinct, importing the sheet again leaves the ledger as the
   * first import did, whatever order the database lists rows in, exactly when no two claims share a
   * folded name that no stored row had and differ.
   */
  lemma ImportTwiceExactly(l: Ledger, period: string, list: seq<nat>, claims: seq<Claim>)
    requires IdsUsed(l) && Listing(l, period, list) && OfPeriod(claims, period) && NamesDistinct(l, period)
    ensures var once := Import(l, list, claims);
      (forall again | Listing(once, period, again) :: Import(once, again, claims) == once)
      <==> Agreeing(l, period, claims)
  {
    var once := Import(l, list, claims);
    if Agreeing(l, period, claims) {
      forall again | Listing(once, period, again) ensures Import(once, again, claims) == once {
        AgreeingSheetSettles(l, period, list, claims, again);
      }
    } else {
      var i, j :| 0 <= i < |claims| && 0 <= j < |claims| && Lower(claims[i].name) == Lower(claims[j].name)
                  && !Stored(l, period, Lower(claims[i].name)) && claims[i] != claims[j];
      var again := DisagreeingSheetUnsettles(l, period, list, claims, i, j);
    }
  }

  /** One contractor under two spellings, nothing stored: the second import rewrites the first one's row. */
  lemma TwoSpellingsUnsettle()
    ensures var acme := Claim(None, "Acme", "2026-05", 100, 0, 0, 0, 0, "");
      var shout := Claim(None, "ACME", "2026-05", 250, 0, 0, 0, 0, "");
      var once := Import(Ledger(map[], 0), [], [acme, shout]);
      && once.rows.Keys == {0, 1} && once.rows[0].claim == acme && once.rows[1].claim == shout
      && Listing(once, "2026-05", [1, 0])
      && Import(once, [1, 0], [acme, shout]).rows[0].claim == shout
  {
    var acme := Claim(None, "Acme", "2026-05", 100, 0, 0, 0, 0, "");
    var shout := Claim(None, "ACME", "2026-05", 250, 0, 0, 0, 0, "");
    var claims := [acme, shout];
    assert claims[..1] == [acme] && [acme][..0] == [];
    assert Lower("Acme") == "acme" == Lower("ACME");
    var empty := Ledger(map[], 0);
    var once := Import(empty, [], claims);
    assert RecordAll(empty, map[], [acme]) == Record(empty, map[], acme);
    assert once == Record(Record(empty, map[], acme), map[], shout);
    var list := [1, 0];
    assert list[..1] == [1] && [1][..0] == [];
    assert NameKey(once.rows[0]) == "acme" && NameKey(once.rows[1]) == "acme";
    var e := Existing(once, list);
    assert Existing(once, [1]) == map["acme" := Prior(1, once.rows[1].terms)];
    assert e["acme"].id == 0;
    assert RecordAll(once, e, [acme]) == Record(once, e, acme);
  }
}
