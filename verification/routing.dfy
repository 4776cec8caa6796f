/** Approval routing: the active rule with the narrowest value band that contains a value. */
module Routing {
  import opened Int64
  import opened Text
  import opened Wrappers

  datatype Rule = Rule(id: string, min: int, max: Option<int>, route: seq<string>, status: string)

  const OPEN_WIDTH := 0x4000_0000_0000_0000

  predicate Applies(r: Rule, value: int) {
    EqualFold(r.status, "Active") && r.min <= value && (r.max.Some? ==> value < r.max.value)
  }

  /**
   An active band holds its lower bound and what follows, up to but not its
   upper bound; a rule of any other status holds nothing.
   */
  lemma BandEdges(r: Rule, value: int)
    ensures EqualFold(r.status, "Active") && r.max == None ==> (Applies(r, value) <==> value >= r.min)
    ensures forall top :: EqualFold(r.status, "Active") && r.max == Some(top) ==>
      (Applies(r, value) <==> value >= r.min && value <= top - 1)
    ensures !EqualFold(r.status, "Active") ==> !Applies(r, value)
    ensures EqualFold("ACTIVE", "Active") && !EqualFold("Inactive", "Active")
  {
    assert |Lower("Inactive")| != |Lower("Active")|;
  }

  /** bandWidth: an int64 difference, open-ended bands standing for 2^62. */
  function BandWidth(r: Rule): int {
    if r.max.None? then OPEN_WIDTH else Wrap(r.max.value - r.min)
  }

  /** Position k holds the earliest of the rules with the least width among those that apply. */
  ghost predicate Best(rules: seq<Rule>, value: int, k: nat) {
    && k < |rules| && Applies(rules[k], value)
    && (forall j :: 0 <= j < |rules| && Applies(rules[j], value) ==> BandWidth(rules[k]) <= BandWidth(rules[j]))
    && (forall j :: 0 <= j < k && Applies(rules[j], value) ==> BandWidth(rules[k]) < BandWidth(rules[j]))
  }

  method ResolveApprovalRoute(rules: seq<Rule>, value: int) returns (best: Option<nat>)
    ensures best == None <==> forall j :: 0 <= j < |rules| ==> !Applies(rules[j], value)
    ensures best.Some? ==> Best(rules, value, best.value)
  {
    best := None;
    for i := 0 to |rules|
      invariant best == None <==> forall j :: 0 <= j < i ==> !Applies(rules[j], value)
      invariant best.Some? ==> best.value < i && Best(rules[..i], value, best.value)
    {
      var r := rules[i];
      assert forall j :: 0 <= j < i ==> rules[..i][j] == rules[..i + 1][j] == rules[j];
      if !EqualFold(r.status, "Active") {
        continue;
      }
      if value < r.min {
        continue;
      }
      if r.max.Some? && value >= r.max.value {
        continue;
      }
      if best == None || BandWidth(r) < BandWidth(rules[best.value]) {
        best := Some(i);
      }
    }
    assert rules[..|rules|] == rules;
  }

  // ----- What narrowest means -----

  /** The widths as numbers, open-ended bands wider than any other. */
  ghost predicate NoWider(a: Rule, b: Rule) {
    b.max.None? || (a.max.Some? && a.max.value - a.min <= b.max.value - b.min)
  }

  /** Bounds are int64 columns. */
  predicate Columns(rules: seq<Rule>) {
    forall r <- rules :: Fits(r.min) && (r.max.Some? ==> Fits(r.max.value))
  }

  /** A band whose width an int64 cannot hold. */
  predicate Wraps(r: Rule) {
    r.max.Some? && r.max.value - r.min > MAX
  }

  /** A wrapped width is negative, 2^64 less than the true one. */
  lemma WrappedWidth(r: Rule, value: int)
    requires Applies(r, value) && r.max.Some? && Fits(r.min) && Fits(r.max.value)
    ensures var w := r.max.value - r.min;
      w > 0 && BandWidth(r) == (if Wraps(r) then w - TWO_64 else w) && (Wraps(r) <==> BandWidth(r) < 0)
  {
    var w := r.max.value - r.min;
    if Wraps(r) {
      WrapPeriodic(w, -1);
      assert Wrap(w) == Wrap(w - TWO_64) == w - TWO_64;
    }
  }

  /** Bounded bands that apply wrap all or none. */
  predicate Alike(rules: seq<Rule>, value: int) {
    forall a <- rules, b <- rules | a.max.Some? && b.max.Some? && Applies(a, value) && Applies(b, value) ::
      Wraps(a) <==> Wraps(b)
  }

  predicate OpenApplies(r: Rule, value: int) {
    Applies(r, value) && r.max.None?
  }

  /** A bounded band goes before every open-ended one: by a lesser width, or at width 2^62 by its place. */
  predicate Preferred(rules: seq<Rule>, value: int, j: nat)
    requires j < |rules|
  {
    && Applies(rules[j], value) && rules[j].max.Some?
    && forall i :: 0 <= i < |rules| && OpenApplies(rules[i], value) ==>
      BandWidth(rules[j]) < OPEN_WIDTH || (BandWidth(rules[j]) == OPEN_WIDTH && j < i)
  }

  /** When some bounded band applies, one of them goes before the open-ended ones. */
  predicate BoundedFirst(rules: seq<Rule>, value: int) {
    (exists j :: 0 <= j < |rules| && Applies(rules[j], value) && rules[j].max.Some?)
    ==> exists j :: 0 <= j < |rules| && Preferred(rules, value, j)
  }

  /** The rule found is bounded exactly when some bounded one goes first. */
  lemma BestBoundedExactly(rules: seq<Rule>, value: int, k: nat)
    requires Best(rules, value, k)
    ensures rules[k].max.Some? <==> exists j :: 0 <= j < |rules| && Preferred(rules, value, j)
  {
    if rules[k].max.Some? {
      assert Preferred(rules, value, k);
    } else {
      assert OpenApplies(rules[k], value);
    }
  }

  /**
   The rule found has no wider band than any other that applies, as numbers,
   exactly when the bounded bands that apply wrap all or none and some bounded
   one, if any applies, goes before the open-ended ones.
   */
  lemma BestIsNarrowest(rules: seq<Rule>, value: int, k: nat)
    requires Best(rules, value, k) && Columns(rules)
    ensures (forall j :: 0 <= j < |rules| && Applies(rules[j], value) ==> NoWider(rules[k], rules[j]))
      <==> Alike(rules, value) && BoundedFirst(rules, value)
  {
    BestBoundedExactly(rules, value, k);
    forall j | 0 <= j < |rules| && Applies(rules[j], value) && rules[j].max.Some?
      ensures var w := rules[j].max.value - rules[j].min;
        && BandWidth(rules[j]) == (if Wraps(rules[j]) then w - TWO_64 else w)
        && (Wraps(rules[j]) <==> BandWidth(rules[j]) < 0)
    {
      WrappedWidth(rules[j], value);
    }
    if forall j :: 0 <= j < |rules| && Applies(rules[j], value) ==> NoWider(rules[k], rules[j]) {
      forall a <- rules, b <- rules | a.max.Some? && b.max.Some? && Applies(a, value) && Applies(b, value)
        ensures Wraps(a) <==> Wraps(b)
      {
        var i :| 0 <= i < |rules| && rules[i] == a;
        var j :| 0 <= j < |rules| && rules[j] == b;
        assert NoWider(rules[k], rules[i]) && NoWider(rules[k], rules[j]);
        assert BandWidth(rules[k]) <= BandWidth(rules[i]) && BandWidth(rules[k]) <= BandWidth(rules[j]);
      }
    }
  }

  /**
   Between an open-ended rule and a bounded one after it, the bounded is taken below width
   2^62, and again once its width wraps.
   */
  lemma OpenEndedLosesExactly(bounded: Rule, unbounded: Rule, value: int)
    requires Applies(bounded, value) && Applies(unbounded, value)
    requires bounded.max.Some? && unbounded.max.None? && Columns([bounded])
    ensures Best([unbounded, bounded], value, 1)
      <==> bounded.max.value - bounded.min < OPEN_WIDTH || bounded.max.value - bounded.min > MAX
  {
    var rules := [unbounded, bounded];
    assert rules[0] == unbounded && rules[1] == bounded;
    assert bounded in [bounded];
    WrappedWidth(bounded, value);
  }

  /** A band so wide that its int64 width wraps is taken for the narrowest of all. */
  lemma WidestTakenForNarrowest()
    ensures var tiny := Rule("t", 0, Some(10), [], "Active");
      var vast := Rule("v", -1, Some(MAX), [], "Active");
      Best([tiny, vast], 5, 1) && !NoWider(vast, tiny)
  {
    var tiny := Rule("t", 0, Some(10), [], "Active");
    var vast := Rule("v", -1, Some(MAX), [], "Active");
    var rules := [tiny, vast];
    assert BandWidth(rules[1]) < 0 && BandWidth(rules[0]) == 10;
  }

  // ----- The order of the list -----

  ghost predicate WidthsDiffer(rules: seq<Rule>, value: int) {
    forall a <- rules, b <- rules | Applies(a, value) && Applies(b, value) :: BandWidth(a) == BandWidth(b) ==> a == b
  }

  /** When widths differ, every ordering of the list resolves to the same rule. */
  lemma OrderDoesNotMatter(rules: seq<Rule>, other: seq<Rule>, value: int, k: nat, m: nat)
    requires multiset(rules) == multiset(other) && WidthsDiffer(rules, value)
    requires Best(rules, value, k) && Best(other, value, m)
    ensures rules[k] == other[m]
  {
    assert rules[k] in multiset(rules) && other[m] in multiset(other);
    assert rules[k] in other && other[m] in rules;
    var i :| 0 <= i < |other| && other[i] == rules[k];
    var j :| 0 <= j < |rules| && rules[j] == other[m];
    assert BandWidth(other[m]) <= BandWidth(other[i]) && BandWidth(rules[k]) <= BandWidth(rules[j]);
  }

  lemma OrderDoesNotHide(rules: seq<Rule>, other: seq<Rule>, value: int)
    requires multiset(rules) == multiset(other)
    requires forall j :: 0 <= j < |rules| ==> !Applies(rules[j], value)
    ensures forall j :: 0 <= j < |other| ==> !Applies(other[j], value)
  {
    forall j | 0 <= j < |other| ensures !Applies(other[j], value) {
      assert other[j] in multiset(other);
      assert other[j] in rules;
    }
  }
}
