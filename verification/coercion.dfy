/** String-encoded scalars of a decoded JSON body, rewritten to the kinds the destination type expects. */
module Coercion {
  import opened Wrappers

  datatype Json =
    | Null
    | Bool(b: bool)
    | Float(f: real)
    | Int(i: int)
    | Uint(n: nat)
    | Str(s: string)
    | Arr(items: seq<Json>)
    | Obj(fields: map<string, Json>)

  /** The kind of a destination, pointers stripped; struct types are named, so they may be recursive. */
  datatype Kind = FloatKind | IntKind | UintKind | BoolKind | Struct(name: string) | Structs(name: string) | Other {
    predicate Scalar() {
      FloatKind? || IntKind? || UintKind? || BoolKind?
    }
  }

  datatype Field = Field(name: string, kind: Kind)

  /** Struct types by name. */
  type Types = map<string, seq<Field>>

  datatype Parsers = Parsers(
    float: string -> Option<real>,
    signed: string -> Option<int>,
    unsigned: string -> Option<nat>,
    boolean: string -> Option<bool>)

  /** Fields of a type have different JSON names, fields without one aside. */
  predicate Distinct(fields: seq<Field>) {
    forall i, j :: 0 <= i < j < |fields| && fields[i].name == fields[j].name ==> fields[i].name in {"", "-"}
  }

  /** The kind a type gives a key, Other for a key it has no field for. */
  function KindOf(fields: seq<Field>, key: string): Kind {
    if fields == [] || key in {"", "-"} then Other
    else if fields[|fields| - 1].name == key then fields[|fields| - 1].kind
    else KindOf(fields[..|fields| - 1], key)
  }

  /** What a scalar field makes of a string: blank clears it, text that does not parse stays. */
  function Scalar(parse: Parsers, kind: Kind, s: string): Json
    requires kind.Scalar()
  {
    if s == "" then Null
    else match kind
      case FloatKind => (match parse.float(s) case Some(v) => Float(v) case None => Str(s))
      case IntKind => (match parse.signed(s) case Some(v) => Int(v) case None => Str(s))
      case UintKind => (match parse.unsigned(s) case Some(v) => Uint(v) case None => Str(s))
      case BoolKind => (match parse.boolean(s) case Some(v) => Bool(v) case None => Str(s))
  }

  /**
   Blank text clears a field of any scalar kind; text that parses becomes a
   value of the field's own kind; other text stays.
   */
  lemma ScalarReads(parse: Parsers, kind: Kind, s: string)
    requires kind.Scalar()
    ensures var v := Scalar(parse, kind, s);
      && (v == Null <==> s == "")
      && (s != "" && kind.FloatKind? ==> v == if parse.float(s).Some? then Float(parse.float(s).value) else Str(s))
      && (s != "" && kind.IntKind? ==> v == if parse.signed(s).Some? then Int(parse.signed(s).value) else Str(s))
      && (s != "" && kind.UintKind? ==> v == if parse.unsigned(s).Some? then Uint(parse.unsigned(s).value) else Str(s))
      && (s != "" && kind.BoolKind? ==> v == if parse.boolean(s).Some? then Bool(parse.boolean(s).value) else Str(s))
  {
  }

  /** Recursion is on the JSON value: types may refer to themselves. */
  function Coerced(types: Types, parse: Parsers, kind: Kind, v: Json): Json
    decreases v
  {
    if kind.Scalar() then
      if v.Str? then Scalar(parse, kind, v.s) else v
    else if kind.Struct? && v.Obj? && kind.name in types then
      Obj(map key | key in v.fields :: Coerced(types, parse, KindOf(types[kind.name], key), v.fields[key]))
    else if kind.Structs? && v.Arr? then
      Arr(seq(|v.items|, i requires 0 <= i < |v.items| => Coerced(types, parse, Struct(kind.name), v.items[i])))
    else v
  }

  // ----- The rewriting -----

  lemma {:induction false} KindOfIndex(fields: seq<Field>, i: nat)
    requires Distinct(fields) && i < |fields| && fields[i].name !in {"", "-"}
    ensures KindOf(fields, fields[i].name) == fields[i].kind
  {
    if i < |fields| - 1 {
      KindOfIndex(fields[..|fields| - 1], i);
    }
  }

  lemma {:induction false} KindOfAbsent(fields: seq<Field>, key: string)
    requires key in {"", "-"} || forall i :: 0 <= i < |fields| ==> fields[i].name != key
    ensures KindOf(fields, key) == Other
  {
    if fields != [] {
      KindOfAbsent(fields[..|fields| - 1], key);
    }
  }

  /** The keys of the first n fields, whose values a loop has rewritten. */
  predicate Visited(fields: seq<Field>, n: nat, key: string)
    requires n <= |fields|
  {
    key !in {"", "-"} && exists i :: 0 <= i < n && fields[i].name == key
  }

  /** coerceScalarStrings: every field of the type in turn, nested objects and arrays of objects in place. */
  method CoerceScalarStrings(types: Types, parse: Parsers, name: string, v: Json) returns (r: Json)
    requires v.Obj? && forall n <- types :: Distinct(types[n])
    ensures r == Coerced(types, parse, Struct(name), v)
    decreases v, 1
  {
    if name !in types {
      return v;
    }
    var fields, m := types[name], v.fields;
    for i := 0 to |fields|
      invariant m.Keys == v.fields.Keys
      invariant forall key <- m :: Visited(fields, i, key)
                  ==> m[key] == Coerced(types, parse, KindOf(fields, key), v.fields[key])
      invariant forall key <- m :: !Visited(fields, i, key) ==> m[key] == v.fields[key]
    {
      var f := fields[i];
      if f.name == "" || f.name == "-" || f.name !in m {
        continue;
      }
      assert !Visited(fields, i, f.name);
      KindOfIndex(fields, i);
      var w := CoerceField(types, parse, f.kind, m[f.name]);
      m := m[f.name := w];
    }
    forall key <- m ensures m[key] == Coerced(types, parse, KindOf(fields, key), v.fields[key]) {
      if !Visited(fields, |fields|, key) {
        KindOfAbsent(fields, key);
      }
    }
    r := Obj(m);
  }

  method CoerceField(types: Types, parse: Parsers, kind: Kind, v: Json) returns (r: Json)
    requires forall n <- types :: Distinct(types[n])
    ensures r == Coerced(types, parse, kind, v)
    decreases v, 2
  {
    if v.Str? && v.s == "" && kind.Scalar() {
      return Null;
    }
    match kind {
      case Struct(name) =>
        if v.Obj? {
          r := CoerceScalarStrings(types, parse, name, v);
        } else {
          r := v;
        }
      case Structs(name) =>
        if v.Arr? {
          var items := v.items;
          for i := 0 to |items|
            invariant |items| == |v.items|
            invariant forall j :: 0 <= j < i ==> items[j] == Coerced(types, parse, Struct(name), v.items[j])
            invariant forall j :: i <= j < |items| ==> items[j] == v.items[j]
          {
            if items[i].Obj? {
              var w := CoerceScalarStrings(types, parse, name, v.items[i]);
              items := items[i := w];
            }
          }
          r := Arr(items);
        } else {
          r := v;
        }
      case Other =>
        r := v;
      case _ =>
        r := if v.Str? then Scalar(parse, kind, v.s) else v;
    }
  }

  // ----- At every depth -----

  datatype Step = Key(key: string) | Index(i: nat)

  /** The value a path leads to. */
  function At(v: Json, path: seq<Step>): Option<Json> {
    if path == [] then Some(v)
    else match path[0]
      case Key(k) => if v.Obj? && k in v.fields then At(v.fields[k], path[1..]) else None
      case Index(i) => if v.Arr? && i < |v.items| then At(v.items[i], path[1..]) else None
  }

  /** The kind the destination type gives a path. */
  function KindAt(types: Types, kind: Kind, path: seq<Step>): Kind
    decreases |path|
  {
    if path == [] then kind
    else match path[0]
      case Key(k) =>
        KindAt(types, if kind.Struct? && kind.name in types then KindOf(types[kind.name], k) else Other, path[1..])
      case Index(_) => KindAt(types, if kind.Structs? then Struct(kind.name) else Other, path[1..])
  }

  /** Neither the keys of an object nor the length of an array differ. */
  predicate SameNode(a: Json, b: Json) {
    match a
    case Obj(fields) => b.Obj? && b.fields.Keys == fields.Keys
    case Arr(items) => b.Arr? && |b.items| == |items|
    case _ => a == b
  }

  lemma {:induction false} OtherUntouched(types: Types, path: seq<Step>)
    ensures KindAt(types, Other, path) == Other
  {
    if path != [] {
      OtherUntouched(types, path[1..]);
    }
  }

  /**
   * At every path: nothing appears or disappears, a string where the type wants a scalar becomes that
   * scalar, and every other node is as it was.
   */
  lemma {:induction false} EveryNode(types: Types, parse: Parsers, kind: Kind, v: Json, path: seq<Step>)
    ensures var before, after := At(v, path), At(Coerced(types, parse, kind, v), path);
      && (before.Some? <==> after.Some?)
      && (before.Some? ==>
            var k := KindAt(types, kind, path);
            if k.Scalar() && before.value.Str? then after.value == Scalar(parse, k, before.value.s)
            else SameNode(before.value, after.value))
    decreases |path|
  {
    if path == [] {
      var r := Coerced(types, parse, kind, v);
      if v.Obj? && r.Obj? {
        assert r.fields.Keys == v.fields.Keys;
      }
    } else {
      match path[0]
      case Key(k) =>
        if v.Obj? && k in v.fields {
          var inner := if kind.Struct? && kind.name in types then KindOf(types[kind.name], k) else Other;
          EveryNode(types, parse, inner, v.fields[k], path[1..]);
        }
      case Index(i) =>
        if v.Arr? && i < |v.items| {
          EveryNode(types, parse, if kind.Structs? then Struct(kind.name) else Other, v.items[i], path[1..]);
        }
    }
  }

  /** Coercing a coerced body changes nothing. */
  lemma {:induction false} CoercedTwice(types: Types, parse: Parsers, kind: Kind, v: Json)
    ensures var once := Coerced(types, parse, kind, v); Coerced(types, parse, kind, once) == once
    decreases v
  {
    var once := Coerced(types, parse, kind, v);
    var twice := Coerced(types, parse, kind, once);
    if kind.Struct? && v.Obj? && kind.name in types {
      forall key <- v.fields ensures twice.fields[key] == once.fields[key] {
        CoercedTwice(types, parse, KindOf(types[kind.name], key), v.fields[key]);
      }
      assert twice.fields == once.fields;
    } else if kind.Structs? && v.Arr? {
      forall i | 0 <= i < |v.items| ensures twice.items[i] == once.items[i] {
        CoercedTwice(types, parse, Struct(kind.name), v.items[i]);
      }
      assert twice.items == once.items;
    }
  }
}
