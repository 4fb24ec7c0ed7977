/** The removal of empty JSON objects from a marshalled ignition config. */
module EmptyObjects {
  import opened Text

  datatype Json =
    | Scalar(text: string)
    | Arr(items: seq<Json>)
    | Obj(fields: map<string, Json>)

  const EMPTY: Json := Obj(map[])

  /** The value as the program leaves it in the tree.  Items of an array that are themselves arrays
      are not visited. */
  function Strip(v: Json): Json {
    match v
    case Scalar(_) => v
    case Arr(items) => Arr(seq(|items|, i requires 0 <= i < |items| => if items[i].Obj? then Strip(items[i]) else items[i]))
    case Obj(fields) => Obj(map k | k in fields && Strip(fields[k]) != EMPTY :: Strip(fields[k]))
  }

  // ----- What is removed -----

  /** An object in which there is nothing but objects. */
  predicate Hollow(v: Json) {
    v.Obj? && forall k :: k in v.fields ==> Hollow(v.fields[k])
  }

  /** No visited position holds an empty object under a key. */
  predicate Clean(v: Json) {
    match v
    case Scalar(_) => true
    case Arr(items) => forall i :: 0 <= i < |items| && items[i].Obj? ==> Clean(items[i])
    case Obj(fields) => forall k :: k in fields ==> fields[k] != EMPTY && Clean(fields[k])
  }

  lemma {:induction false} EmptiedIffHollow(v: Json)
    ensures Strip(v) == EMPTY <==> Hollow(v)
  {
    if v.Obj? {
      forall k | k in v.fields ensures Strip(v.fields[k]) == EMPTY <==> Hollow(v.fields[k]) {
        EmptiedIffHollow(v.fields[k]);
      }
      if !Hollow(v) {
        var k :| k in v.fields && !Hollow(v.fields[k]);
        assert k in Strip(v).fields;
      }
    }
  }

  /** Exactly the keys of hollow objects go. */
  lemma {:induction false} RemovedIffHollow(fields: map<string, Json>, k: string)
    requires k in fields
    ensures k !in Strip(Obj(fields)).fields <==> Hollow(fields[k])
  {
    EmptiedIffHollow(fields[k]);
  }

  lemma {:induction false} StripCleans(v: Json)
    ensures Clean(Strip(v))
  {
    match v
    case Scalar(_) =>
    case Arr(items) =>
      forall i | 0 <= i < |items| && items[i].Obj? ensures Clean(Strip(items[i])) {
        StripCleans(items[i]);
      }
    case Obj(fields) =>
      forall k | k in fields ensures Clean(Strip(fields[k])) {
        StripCleans(fields[k]);
      }
  }

  /** Only a tree that is clean already is left alone. */
  lemma {:induction false} FixedIffClean(v: Json)
    ensures Strip(v) == v <==> Clean(v)
  {
    if Clean(v) {
      CleanIsFixed(v);
    }
    StripCleans(v);
  }

  lemma {:induction false} CleanIsFixed(v: Json)
    requires Clean(v)
    ensures Strip(v) == v
  {
    match v
    case Scalar(_) =>
    case Arr(items) =>
      forall i | 0 <= i < |items| && items[i].Obj? ensures Strip(items[i]) == items[i] {
        CleanIsFixed(items[i]);
      }
      assert Strip(v).items == items;
    case Obj(fields) =>
      forall k | k in fields ensures Strip(fields[k]) == fields[k] {
        CleanIsFixed(fields[k]);
      }
      assert Strip(v).fields == fields;
  }

  lemma {:induction false} StripIdempotent(v: Json)
    ensures Strip(Strip(v)) == Strip(v)
  {
    StripCleans(v);
    CleanIsFixed(Strip(v));
  }

  // ----- What is kept -----

  datatype Step = Key(name: string) | Item(index: nat)

  function At(v: Json, path: seq<Step>): Option<Json>
    decreases |path|
  {
    if path == [] then Some(v)
    else
      match path[0]
      case Key(name) => if v.Obj? && name in v.fields then At(v.fields[name], path[1..]) else None
      case Item(i) => if v.Arr? && i < |v.items| then At(v.items[i], path[1..]) else None
  }

  /** What must not change at a path: a scalar, or an array of some length. */
  datatype Datum = Value(text: string) | Length(n: nat) | NoData

  function DatumAt(v: Json, path: seq<Step>): Datum {
    match At(v, path)
    case None => NoData
    case Some(Scalar(text)) => Value(text)
    case Some(Arr(items)) => Length(|items|)
    case Some(Obj(_)) => NoData
  }

  lemma {:induction false} HollowHasNoData(v: Json, path: seq<Step>)
    requires Hollow(v)
    ensures DatumAt(v, path) == NoData
    decreases |path|
  {
    if path != [] && path[0].Key? && path[0].name in v.fields {
      HollowHasNoData(v.fields[path[0].name], path[1..]);
      assert DatumAt(v, path) == DatumAt(v.fields[path[0].name], path[1..]);
    }
  }

  /** Every scalar stays at its path and every array keeps its length, and nothing is added. */
  lemma {:induction false} StripKeepsData(v: Json, path: seq<Step>)
    ensures DatumAt(Strip(v), path) == DatumAt(v, path)
    decreases |path|
  {
    if path != [] {
      var rest := path[1..];
      match path[0]
      case Key(name) =>
        if v.Obj? && name in v.fields {
          var w := v.fields[name];
          assert DatumAt(v, path) == DatumAt(w, rest);
          EmptiedIffHollow(w);
          if Hollow(w) {
            HollowHasNoData(w, rest);
          } else {
            StripKeepsData(w, rest);
            assert DatumAt(Strip(v), path) == DatumAt(Strip(w), rest);
          }
        }
      case Item(i) =>
        if v.Arr? && i < |v.items| {
          var w := v.items[i];
          assert DatumAt(v, path) == DatumAt(w, rest);
          if w.Obj? {
            StripKeepsData(w, rest);
            assert DatumAt(Strip(v), path) == DatumAt(Strip(w), rest);
          } else {
            assert DatumAt(Strip(v), path) == DatumAt(w, rest);
          }
        }
    }
  }

  // ----- The program -----

  /** The keys are visited in any order. */
  method StripEmpty(m: map<string, Json>) returns (r: map<string, Json>)
    ensures Obj(r) == Strip(Obj(m))
    decreases Obj(m)
  {
    r := m;
    var todo := m.Keys;
    while todo != {}
      invariant todo <= m.Keys && r.Keys <= m.Keys
      invariant forall k :: k in todo ==> k in r && r[k] == m[k]
      invariant forall k :: k in m && k !in todo ==> (k in r <==> Strip(m[k]) != EMPTY)
      invariant forall k :: k in r && k !in todo ==> r[k] == Strip(m[k])
      decreases todo
    {
      var k :| k in todo;
      todo := todo - {k};
      match m[k]
      case Scalar(_) =>
      case Arr(items) =>
        var stripped := StripItems(items);
        r := r[k := Arr(stripped)];
      case Obj(fields) =>
        var nested := StripEmpty(fields);
        if |nested| == 0 {
          r := r - {k};
        } else {
          r := r[k := Obj(nested)];
        }
    }
    assert r == Strip(Obj(m)).fields;
  }

  method StripItems(items: seq<Json>) returns (r: seq<Json>)
    ensures Arr(r) == Strip(Arr(items))
    decreases Arr(items)
  {
    r := items;
    for i := 0 to |items|
      invariant |r| == |items|
      invariant forall j :: 0 <= j < i ==> r[j] == if items[j].Obj? then Strip(items[j]) else items[j]
      invariant forall j :: i <= j < |items| ==> r[j] == items[j]
    {
      if items[i].Obj? {
        var nested := StripEmpty(items[i].fields);
        r := r[i := Obj(nested)];
      }
    }
    assert r == Strip(Arr(items)).items;
  }
}
