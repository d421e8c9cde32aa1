/**
 * The proxy's options and the parsed configuration secrets: JSON-like values,
 * JavaScript truthiness, path lookup, and the part of lodash's `_.merge` the
 * proxy relies on.
 */
module Json {
  import opened Wrappers

  datatype Value =
    | Null
    | Bool(b: bool)
    | Num(n: int)
    | Str(s: string)
    | Arr(items: seq<Value>)
    | Obj(fields: map<string, Value>)

  /** JavaScript truthiness: `null`, `false`, `0` and `""` are falsy, every other value is truthy. */
  predicate Truthy(v: Value) {
    match v
    case Null => false
    case Bool(b) => b
    case Num(n) => n != 0
    case Str(s) => s != ""
    case _ => true
  }

  /** `v || {}` */
  function OrEmpty(v: Value): Value {
    if Truthy(v) then v else Obj(map[])
  }

  /** `v[k]`; a missing key, or a key read from a primitive, gives `undefined`, written Null. */
  function Get(v: Value, k: string): Value {
    if v.Obj? && k in v.fields then v.fields[k] else Null
  }

  /** The own keys of an object; a primitive has none. */
  function KeysOf(v: Value): set<string> {
    if v.Obj? then v.fields.Keys else {}
  }

  /** The value reached by following `path` through nested objects, if every key on it is present. */
  function At(v: Value, path: seq<string>): Option<Value>
    decreases |path|
  {
    if path == [] then Some(v)
    else if v.Obj? && path[0] in v.fields then At(v.fields[path[0]], path[1..])
    else None
  }

  /**
   * `_.merge` applied below the top level: an object source is merged key by key into an
   * object base; any other source value (null included) replaces what the base holds.
   */
  function Overlay(base: Value, src: Value): (r: Value)
    decreases src
    ensures base.Obj? && src.Obj? ==> r.Obj? && r.fields.Keys == base.fields.Keys + src.fields.Keys
    ensures base.Obj? && src.Obj? ==>
      forall k :: k in base.fields && k !in src.fields ==> r.fields[k] == base.fields[k]
    ensures !src.Obj? ==> r == src
  {
    if base.Obj? && src.Obj? then
      Obj(map k | k in base.fields.Keys + src.fields.Keys ::
        if k !in src.fields then base.fields[k]
        else if k in base.fields then Overlay(base.fields[k], src.fields[k])
        else src.fields[k])
    else src
  }

  /**
   * `_.merge(dest, src)`: `Object(dest)` turns a null destination into a fresh `{}`; a source
   * that is not an object has no keys to copy (null is skipped outright).
   */
  function Merge(dest: Value, src: Value): (r: Value)
    requires dest.Null? || dest.Obj?
    ensures r.Obj?
    ensures dest.Obj? ==> KeysOf(dest) <= KeysOf(r)
    ensures !src.Obj? ==> r == OrEmpty(dest)
  {
    var d := if dest.Obj? then dest else Obj(map[]);
    if src.Obj? then Overlay(d, src) else d
  }

  /**
   * `path` reaches into `src` only through objects and ends at a key `src` lacks: merging
   * `src` leaves whatever the base holds at `path` alone.
   */
  predicate Silent(src: Value, path: seq<string>)
    decreases |path|
  {
    && |path| > 0
    && src.Obj?
    && (path[0] !in src.fields || Silent(src.fields[path[0]], path[1..]))
  }

  /** A non-object value the source holds at a path is what the merge holds there. */
  lemma {:induction false} OverlaySourceWins(base: Value, src: Value, path: seq<string>, x: Value)
    requires At(src, path) == Some(x) && !x.Obj?
    ensures At(Overlay(base, src), path) == Some(x)
    decreases |path|
  {
    if path != [] && base.Obj? {
      var k := path[0];
      var r := Overlay(base, src);
      assert k in src.fields && At(src.fields[k], path[1..]) == Some(x);
      if k in base.fields {
        assert r.fields[k] == Overlay(base.fields[k], src.fields[k]);
        OverlaySourceWins(base.fields[k], src.fields[k], path[1..], x);
      } else {
        assert r.fields[k] == src.fields[k];
      }
    }
  }

  /** Where the source is silent, the merge keeps the base's value. */
  lemma {:induction false} OverlayKeepsBase(base: Value, src: Value, path: seq<string>, x: Value)
    requires Silent(src, path) && At(base, path) == Some(x)
    ensures At(Overlay(base, src), path) == Some(x)
    decreases |path|
  {
    var k := path[0];
    var r := Overlay(base, src);
    assert base.Obj? && k in base.fields;
    if k in src.fields {
      assert r.fields[k] == Overlay(base.fields[k], src.fields[k]);
      OverlayKeepsBase(base.fields[k], src.fields[k], path[1..], x);
    } else {
      assert r.fields[k] == base.fields[k];
    }
  }

  /** Top-level form of OverlaySourceWins, for `_.merge` into an object. */
  lemma MergeSourceWins(dest: Value, src: Value, path: seq<string>, x: Value)
    requires dest.Null? || dest.Obj?
    requires |path| > 0 && At(src, path) == Some(x) && !x.Obj?
    ensures At(Merge(dest, src), path) == Some(x)
  {
    var d := if dest.Obj? then dest else Obj(map[]);
    OverlaySourceWins(d, src, path, x);
  }

  /** Top-level form of OverlayKeepsBase, for `_.merge` into an object. */
  lemma MergeKeepsBase(dest: Value, src: Value, path: seq<string>, x: Value)
    requires dest.Obj?
    requires !src.Obj? || Silent(src, path)
    requires At(dest, path) == Some(x)
    ensures At(Merge(dest, src), path) == Some(x)
  {
    if src.Obj? {
      OverlayKeepsBase(dest, src, path, x);
    }
  }
}
