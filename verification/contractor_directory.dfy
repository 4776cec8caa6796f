/** Contractors resolved by name: the table is keyed by exact name, the importer's memory by folded name. */
module ContractorDirectory {
  import opened Text
  import opened Wrappers

  datatype Directory = Directory(ids: map<string, nat>, next: nat, memo: map<string, nat>)

  /** ensureContractor on a trimmed name. */
  function Ensure(d: Directory, name: string): Directory {
    var key := Lower(name);
    if name == "" || key in d.memo then d
    else if name in d.ids then d.(memo := d.memo[key := d.ids[name]])
    else Directory(d.ids[name := d.next], d.next + 1, d.memo[key := d.next])
  }

  function EnsureAll(d: Directory, names: seq<string>): Directory {
    if names == [] then d
    else Ensure(EnsureAll(d, names[..|names| - 1]), names[|names| - 1])
  }

  function IdOf(memo: map<string, nat>, name: string): Option<nat> {
    if name != "" && Lower(name) in memo then Some(memo[Lower(name)]) else None
  }

  lemma {:induction false} EnsureAllAppend(d: Directory, a: seq<string>, b: seq<string>)
    ensures EnsureAll(d, a + b) == EnsureAll(EnsureAll(d, a), b)
  {
    if b == [] {
      assert a + b == a;
    } else {
      EnsureAllAppend(d, a, b[..|b| - 1]);
      assert (a + b)[..|a + b| - 1] == a + b[..|b| - 1];
    }
  }

  /** Ids once given are never changed, and every name passed in is remembered. */
  lemma {:induction false} EnsureAllKeeps(d: Directory, names: seq<string>)
    ensures var u := EnsureAll(d, names);
      && d.next <= u.next
      && (forall name <- d.ids :: name in u.ids && u.ids[name] == d.ids[name])
      && (forall key <- d.memo :: key in u.memo && u.memo[key] == d.memo[key])
      && (forall name <- names :: name != "" ==> Lower(name) in u.memo)
  {
    if names != [] {
      EnsureAllKeeps(d, names[..|names| - 1]);
    }
  }

  /** Resolving the same names again resolves each to the same contractor and stores nothing. */
  lemma {:induction false} EnsureTwice(d: Directory, names: seq<string>, n: nat)
    requires d.memo == map[] && n <= |names|
    ensures var once := EnsureAll(d, names);
      EnsureAll(once.(memo := map[]), names[..n]) == once.(memo := EnsureAll(d, names[..n]).memo)
  {
    var once := EnsureAll(d, names);
    if n == 0 {
      assert names[..n] == [];
    } else {
      EnsureTwice(d, names, n - 1);
      assert names[..n][..n - 1] == names[..n - 1];
      EnsureAllAppend(d, names[..n], names[n..]);
      assert names[..n] + names[n..] == names;
      EnsureAllKeeps(EnsureAll(d, names[..n]), names[n..]);
    }
  }

  /** The remembered contractor of a folded name bears that name. */
  ghost predicate Bears(d: Directory, key: string) {
    key in d.memo && exists name :: name in d.ids && Lower(name) == key && d.ids[name] == d.memo[key]
  }

  ghost predicate IdsApart(ids: map<string, nat>, next: nat) {
    && (forall name <- ids :: ids[name] < next)
    && (forall a, b :: a in ids && b in ids && ids[a] == ids[b] ==> a == b)
  }

  lemma {:induction false} EnsureAllApart(d: Directory, names: seq<string>)
    requires IdsApart(d.ids, d.next)
    ensures IdsApart(EnsureAll(d, names).ids, EnsureAll(d, names).next)
  {
    if names != [] {
      EnsureAllApart(d, names[..|names| - 1]);
    }
  }

  lemma {:induction false} EnsureAllBears(d: Directory, names: seq<string>, key: string)
    requires d.memo == map[]
    ensures key in EnsureAll(d, names).memo ==> Bears(EnsureAll(d, names), key)
  {
    if names != [] {
      var before := EnsureAll(d, names[..|names| - 1]);
      var name := names[|names| - 1];
      var after := Ensure(before, name);
      EnsureAllBears(d, names[..|names| - 1], key);
      if key in before.memo {
        var n :| n in before.ids && Lower(n) == key && before.ids[n] == before.memo[key];
        assert n in after.ids && after.ids[n] == before.ids[n];
      } else if key in after.memo {
        assert name in after.ids;
      }
    }
  }

  /** Two names resolve to one contractor exactly when they differ in case only. */
  lemma SameContractorExactly(d: Directory, names: seq<string>, a: string, b: string)
    requires d.memo == map[] && IdsApart(d.ids, d.next) && a in names && b in names && a != "" && b != ""
    ensures var memo := EnsureAll(d, names).memo;
      IdOf(memo, a).Some? && (IdOf(memo, a) == IdOf(memo, b) <==> EqualFold(a, b))
  {
    EnsureAllKeeps(d, names);
    EnsureAllApart(d, names);
    EnsureAllBears(d, names, Lower(a));
    EnsureAllBears(d, names, Lower(b));
  }
}
