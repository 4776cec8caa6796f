/**
 * INSERT ... ON CONFLICT DO UPDATE over a table with a natural key: an update overwrites the value
 * columns and keeps the columns fixed at insertion.
 */
module Upserts {

  datatype Row<P, V> = Row(kept: P, value: V)

  datatype Table<K, P, V> = Table(rows: map<K, Row<P, V>>, next: nat)

  /** Insertion draws the next fresh id and fixes the kept columns from it. */
  function Upsert<K, P, V>(t: Table<K, P, V>, origin: nat -> P, key: K, value: V): Table<K, P, V> {
    if key in t.rows
    then t.(rows := t.rows[key := Row(t.rows[key].kept, value)])
    else Table(t.rows[key := Row(origin(t.next), value)], t.next + 1)
  }

  function UpsertAll<K, P, V>(t: Table<K, P, V>, origin: nat -> P, log: seq<(K, V)>): Table<K, P, V> {
    if log == [] then t
    else
      var last := log[|log| - 1];
      Upsert(UpsertAll(t, origin, log[..|log| - 1]), origin, last.0, last.1)
  }

  predicate Written<K(==), V>(log: seq<(K, V)>, key: K) {
    exists i :: 0 <= i < |log| && log[i].0 == key
  }

  /** The value of the last write to a key. */
  function LastWrite<K(==), V>(log: seq<(K, V)>, key: K): (v: V)
    requires Written(log, key)
    ensures exists i :: 0 <= i < |log| && log[i] == (key, v) && forall j :: i < j < |log| ==> log[j].0 != key
  {
    var n := |log| - 1;
    if log[n].0 == key then log[n].1
    else
      assert forall i :: 0 <= i < n ==> log[..n][i] == log[i];
      LastWrite(log[..n], key)
  }

  lemma WrittenAppend<K, V>(log: seq<(K, V)>, key: K, value: V, k: K)
    ensures var longer := log + [(key, value)];
      && (Written(longer, k) <==> Written(log, k) || k == key)
      && (Written(longer, k) ==> LastWrite(longer, k) == if k == key then value else LastWrite(log, k))
  {
    var longer := log + [(key, value)];
    assert longer[..|log|] == log && longer[|log|] == (key, value);
    assert forall i :: 0 <= i < |log| ==> longer[i] == log[i];
  }

  lemma OnlyWrite<K, V>(log: seq<(K, V)>, i: nat)
    requires i < |log| && forall j :: 0 <= j < |log| && j != i ==> log[j].0 != log[i].0
    ensures Written(log, log[i].0) && LastWrite(log, log[i].0) == log[i].1
  {
    assert Written(log, log[i].0);
    var k :| 0 <= k < |log| && log[k] == (log[i].0, LastWrite(log, log[i].0));
  }

  lemma {:induction false} UpsertAllAppend<K, P, V>(t: Table<K, P, V>, origin: nat -> P, a: seq<(K, V)>, b: seq<(K, V)>)
    ensures UpsertAll(t, origin, a + b) == UpsertAll(UpsertAll(t, origin, a), origin, b)
  {
    if b == [] {
      assert a + b == a;
    } else {
      var n := |b| - 1;
      UpsertAllAppend(t, origin, a, b[..n]);
      assert (a + b)[..|a + b| - 1] == a + b[..n];
    }
  }

  /** What a run of upserts leaves: stored rows keep their kept columns, written keys hold their last write. */
  lemma {:induction false} UpsertAllResult<K, P, V>(t: Table<K, P, V>, origin: nat -> P, log: seq<(K, V)>, key: K)
    ensures var u := UpsertAll(t, origin, log);
      && t.next <= u.next
      && (key in u.rows <==> key in t.rows || Written(log, key))
      && (key in t.rows ==> u.rows[key].kept == t.rows[key].kept)
      && (Written(log, key) ==> u.rows[key].value == LastWrite(log, key))
      && (key in t.rows && !Written(log, key) ==> u.rows[key] == t.rows[key])
  {
    if log != [] {
      var n := |log| - 1;
      UpsertAllResult(t, origin, log[..n], key);
      assert forall i :: 0 <= i < n ==> log[..n][i] == log[i];
      assert Written(log, key) <==> Written(log[..n], key) || log[n].0 == key;
    }
  }

  lemma {:induction false} UpsertAllIntoFull<K, P, V>(t: Table<K, P, V>, origin: nat -> P, log: seq<(K, V)>)
    requires forall i :: 0 <= i < |log| ==> log[i].0 in t.rows
    ensures UpsertAll(t, origin, log).next == t.next
  {
    if log != [] {
      var n := |log| - 1;
      assert forall i :: 0 <= i < n ==> log[..n][i] == log[i];
      UpsertAllIntoFull(t, origin, log[..n]);
      UpsertAllResult(t, origin, log[..n], log[n].0);
    }
  }

  /** Replaying a log of upserts changes nothing, repeated keys included. */
  lemma {:induction false} UpsertTwice<K, P, V>(t: Table<K, P, V>, origin: nat -> P, log: seq<(K, V)>)
    ensures var once := UpsertAll(t, origin, log); UpsertAll(once, origin, log) == once
  {
    var once := UpsertAll(t, origin, log);
    var twice := UpsertAll(once, origin, log);
    forall i | 0 <= i < |log| ensures log[i].0 in once.rows {
      UpsertAllResult(t, origin, log, log[i].0);
      assert Written(log, log[i].0);
    }
    UpsertAllIntoFull(once, origin, log);
    forall key | key in twice.rows.Keys ensures key in once.rows.Keys {
      UpsertAllResult(once, origin, log, key);
      UpsertAllResult(t, origin, log, key);
    }
    forall key | key in once.rows.Keys ensures key in twice.rows.Keys {
      UpsertAllResult(once, origin, log, key);
    }
    forall key | key in once.rows ensures twice.rows[key] == once.rows[key] {
      UpsertAllResult(t, origin, log, key);
      UpsertAllResult(once, origin, log, key);
    }
    assert twice.rows.Keys == once.rows.Keys;
    assert twice.rows == once.rows;
  }

  // ----- A map filled in a loop -----

  /** Assigning each entry in turn: a later entry of a key replaces an earlier one. */
  function Collect<K, V>(log: seq<(K, V)>): map<K, V> {
    if log == [] then map[] else Collect(log[..|log| - 1])[log[|log| - 1].0 := log[|log| - 1].1]
  }

  lemma CollectAppend<K, V>(log: seq<(K, V)>, key: K, value: V)
    ensures Collect(log + [(key, value)]) == Collect(log)[key := value]
  {
    assert (log + [(key, value)])[..|log|] == log;
  }

  lemma {:induction false} CollectHoldsLast<K, V>(log: seq<(K, V)>, key: K)
    ensures key in Collect(log) <==> Written(log, key)
    ensures Written(log, key) ==> Collect(log)[key] == LastWrite(log, key)
  {
    if log != [] {
      var n := |log| - 1;
      CollectHoldsLast(log[..n], key);
      assert forall i :: 0 <= i < n ==> log[..n][i] == log[i];
      assert Written(log, key) <==> Written(log[..n], key) || log[n].0 == key;
    }
  }
}
