/**
 * JavaScript values as the configuration code sees them: plain objects with
 * ordered keys, arrays, primitives and a few opaque host values, together
 * with the object operations the configuration code relies on (property
 * lookup, `in`, `Object.keys`, `Object.assign`, `delete`, truthiness and the
 * `typeOf` type classifier).
 */
module Js {

  /** A JavaScript value. Numbers are integers; objects keep insertion order. */
  datatype Value =
    | Undef
    | Null
    | Bool(b: bool)
    | Num(n: int)
    | Str(s: string)
      /** A filesystem path computed by the host (`require.resolve`, `path.resolve`);
          a string at run time, never equal to a short literal such as 'react-prod'. */
    | Path(p: string)
    | Arr(elems: seq<Value>)
    | Obj(props: seq<Prop>)
      /** A function value, named so that a caller-supplied interpreter can apply it. */
    | Fn(name: string)
    | RegExp(source: string)
      /** An object constructed by a library (a plugin instance and the like). */
    | Instance(kind: string, options: Value)

  datatype Prop = Prop(key: string, val: Value)

  datatype Option<T> = None | Some(value: T)

  /** The error the tool raises for mistakes the user has to fix (`UserError`). */
  datatype UserError = UserError(message: string)

  datatype Result<T> = Success(value: T) | Failure(error: UserError)

  // ---------------------------------------------------------------------------
  // Classification

  /** The tool's `typeOf`: the tag of `Object.prototype.toString`, lower-cased. */
  function TypeOf(v: Value): string
  {
    match v
    case Undef => "undefined"
    case Null => "null"
    case Bool(_) => "boolean"
    case Num(_) => "number"
    case Str(_) => "string"
    case Path(_) => "string"
    case Arr(_) => "array"
    case Obj(_) => "object"
    case Fn(_) => "function"
    case RegExp(_) => "regexp"
    case Instance(_, _) => "object"
  }

  /** `typeOf(v) === 'object'`: plain objects and instances (see TypeTests). */
  predicate IsObject(v: Value)
  {
    v.Obj? || v.Instance?
  }

  /** `typeOf(v) === 'string'` (see TypeTests). */
  predicate IsString(v: Value)
  {
    v.Str? || v.Path?
  }

  /** The type tests used in place of comparing `TypeOf` with a name. */
  lemma TypeTests(v: Value)
    ensures IsObject(v) <==> TypeOf(v) == "object"
    ensures IsString(v) <==> TypeOf(v) == "string"
    ensures v.Arr? <==> TypeOf(v) == "array"
    ensures v.Bool? <==> TypeOf(v) == "boolean"
    ensures v.Fn? <==> TypeOf(v) == "function"
  {
  }

  /** The language's own `typeof` operator (null, arrays and regular expressions are 'object'). */
  function JsTypeof(v: Value): string
  {
    match v
    case Undef => "undefined"
    case Null => "object"
    case Bool(_) => "boolean"
    case Num(_) => "number"
    case Str(_) => "string"
    case Path(_) => "string"
    case Arr(_) => "object"
    case Obj(_) => "object"
    case Fn(_) => "function"
    case RegExp(_) => "object"
    case Instance(_, _) => "object"
  }

  predicate Truthy(v: Value)
  {
    match v
    case Undef => false
    case Null => false
    case Bool(b) => b
    case Num(n) => n != 0
    case Str(s) => s != ""
    case _ => true
  }

  /** `a || b` */
  function Or(a: Value, b: Value): Value
  {
    if Truthy(a) then a else b
  }

  /** `v == null`, which holds for both null and undefined. */
  predicate IsNullish(v: Value)
  {
    v.Undef? || v.Null?
  }

  /** `Object.keys(v).length === 0`: non-empty objects, arrays and strings (host paths
      included) have own keys, and so does a constructed instance. */
  predicate HasNoOwnKeys(v: Value)
  {
    match v
    case Obj(ps) => ps == []
    case Arr(xs) => xs == []
    case Str(s) => s == ""
    case Path(p) => p == ""
    case Instance(_, _) => false
    case _ => true
  }

  // ---------------------------------------------------------------------------
  // Property access

  function PropKeys(ps: seq<Prop>): (ks: seq<string>)
    ensures |ks| == |ps|
    ensures forall i :: 0 <= i < |ps| ==> ks[i] == ps[i].key
  {
    if ps == [] then [] else PropKeys(ps[..|ps| - 1]) + [ps[|ps| - 1].key]
  }

  /** `Object.keys(v)` for an object; nothing else of interest has own keys here. */
  function Keys(v: Value): seq<string>
  {
    if v.Obj? then PropKeys(v.props) else []
  }

  /** `k in v` */
  predicate Has(v: Value, k: string)
  {
    v.Obj? && k in Keys(v)
  }

  /** The value of the last property with key `k`: what a sequence of assignments leaves. */
  function Lookup(ps: seq<Prop>, k: string): (r: Value)
    ensures k !in PropKeys(ps) ==> r == Undef
  {
    if ps == [] then Undef
    else if ps[|ps| - 1].key == k then ps[|ps| - 1].val
    else Lookup(ps[..|ps| - 1], k)
  }

  /** `v[k]`: undefined when the property is missing or `v` is not an object. */
  function Get(v: Value, k: string): Value
  {
    if v.Obj? then Lookup(v.props, k) else Undef
  }

  function ReplaceAll(ps: seq<Prop>, k: string, x: Value): (r: seq<Prop>)
    ensures PropKeys(r) == PropKeys(ps)
    ensures k in PropKeys(ps) ==> Lookup(r, k) == x
    ensures forall j :: j != k ==> Lookup(r, j) == Lookup(ps, j)
  {
    if ps == [] then []
    else
      var init := ps[..|ps| - 1];
      var last := ps[|ps| - 1];
      var r := ReplaceAll(init, k, x) + [if last.key == k then Prop(k, x) else last];
      assert r[..|r| - 1] == ReplaceAll(init, k, x);
      r
  }

  function SetProp(ps: seq<Prop>, k: string, x: Value): (r: seq<Prop>)
    ensures PropKeys(r) == if k in PropKeys(ps) then PropKeys(ps) else PropKeys(ps) + [k]
    ensures Lookup(r, k) == x
    ensures forall j :: j != k ==> Lookup(r, j) == Lookup(ps, j)
  {
    if k in PropKeys(ps) then ReplaceAll(ps, k, x)
    else
      var r := ps + [Prop(k, x)];
      assert r[..|r| - 1] == ps;
      assert PropKeys(r) == PropKeys(ps) + [k];
      r
  }

  /** `o[k] = x` on an object: an existing key keeps its place, a new one goes last. */
  function Set(o: Value, k: string, x: Value): (r: Value)
    requires o.Obj?
    ensures r.Obj?
    ensures Keys(r) == if Has(o, k) then Keys(o) else Keys(o) + [k]
    ensures Get(r, k) == x
    ensures forall j :: j != k ==> Get(r, j) == Get(o, j)
  {
    Obj(SetProp(o.props, k, x))
  }

  function FilterOut(ps: seq<Prop>, ks: seq<string>): (r: seq<Prop>)
    ensures forall j :: j in ks ==> Lookup(r, j) == Undef && j !in PropKeys(r)
    ensures forall j :: j !in ks ==> Lookup(r, j) == Lookup(ps, j) && (j in PropKeys(r) <==> j in PropKeys(ps))
  {
    if ps == [] then []
    else
      var init := ps[..|ps| - 1];
      var last := ps[|ps| - 1];
      if last.key in ks then FilterOut(init, ks)
      else
        var r := FilterOut(init, ks) + [last];
        assert r[..|r| - 1] == FilterOut(init, ks);
        r
  }

  /** `_objectWithoutProperties(v, ks)`: a fresh object with the other own properties of `v`. */
  function Without(v: Value, ks: seq<string>): (r: Value)
    ensures r.Obj?
    ensures forall j :: j in ks ==> !Has(r, j) && Get(r, j) == Undef
    ensures forall j :: j !in ks ==> Get(r, j) == Get(v, j) && (Has(r, j) <==> Has(v, j))
  {
    if v.Obj? then Obj(FilterOut(v.props, ks)) else Obj([])
  }

  /** `delete o[k]` */
  function Remove(o: Value, k: string): (r: Value)
    ensures r.Obj?
    ensures !Has(r, k) && Get(r, k) == Undef
    ensures forall j :: j != k ==> Get(r, j) == Get(o, j) && (Has(r, j) <==> Has(o, j))
  {
    Without(o, [k])
  }

  function AssignProps(o: Value, ps: seq<Prop>): (r: Value)
    requires o.Obj?
    ensures r.Obj?
    ensures forall j :: j in PropKeys(ps) ==> Has(r, j) && Get(r, j) == Lookup(ps, j)
    ensures forall j :: j !in PropKeys(ps) ==> Get(r, j) == Get(o, j) && (Has(r, j) <==> Has(o, j))
    decreases |ps|
  {
    if ps == [] then o
    else
      var init := ps[..|ps| - 1];
      var last := ps[|ps| - 1];
      Set(AssignProps(o, init), last.key, last.val)
  }

  /** `Object.assign(o, src)`: copies the own properties of an object source, in order.
      Other sources contribute nothing. */
  function Assign(o: Value, src: Value): (r: Value)
    requires o.Obj?
    ensures r.Obj?
    ensures forall j :: Has(src, j) ==> Has(r, j) && Get(r, j) == Get(src, j)
    ensures forall j :: !Has(src, j) ==> Get(r, j) == Get(o, j) && (Has(r, j) <==> Has(o, j))
  {
    if src.Obj? then AssignProps(o, src.props) else o
  }

  function Obj1(k: string, v: Value): Value
  {
    Obj([Prop(k, v)])
  }

  /** The property name a value stands for when it is used as a key (`o[v]`). */
  function PropertyKey(v: Value): string
  {
    match v
    case Str(s) => s
    case Path(p) => p
    case Num(n) => IntToString(n)
    case Bool(b) => if b then "true" else "false"
    case Undef => "undefined"
    case Null => "null"
    case _ => "[object Object]"
  }

  // Looking keys up in object literals of one to four properties.

  lemma GetLiteral1(a: Prop, k: string)
    ensures Has(Obj([a]), k) <==> a.key == k
    ensures Get(Obj([a]), k) == if a.key == k then a.val else Undef
  {
    assert [a][..0] == [];
  }

  lemma GetLiteral2(a: Prop, b: Prop, k: string)
    ensures Has(Obj([a, b]), k) <==> a.key == k || b.key == k
    ensures Get(Obj([a, b]), k) == if b.key == k then b.val else if a.key == k then a.val else Undef
  {
    assert [a, b][..1] == [a];
    GetLiteral1(a, k);
  }

  lemma GetLiteral3(a: Prop, b: Prop, c: Prop, k: string)
    ensures Has(Obj([a, b, c]), k) <==> a.key == k || b.key == k || c.key == k
    ensures Get(Obj([a, b, c]), k)
         == if c.key == k then c.val else if b.key == k then b.val else if a.key == k then a.val else Undef
  {
    assert [a, b, c][..2] == [a, b];
    GetLiteral2(a, b, k);
  }

  lemma GetLiteral4(a: Prop, b: Prop, c: Prop, d: Prop, k: string)
    ensures Has(Obj([a, b, c, d]), k) <==> a.key == k || b.key == k || c.key == k || d.key == k
    ensures Get(Obj([a, b, c, d]), k)
         == if d.key == k then d.val else if c.key == k then c.val else if b.key == k then b.val
            else if a.key == k then a.val else Undef
  {
    assert [a, b, c, d][..3] == [a, b, c];
    GetLiteral3(a, b, c, k);
  }

  /** A property no later property shadows is the one lookup finds. */
  lemma {:induction false} LookupUnshadowed(ps: seq<Prop>, i: nat)
    requires i < |ps|
    requires forall j :: i < j < |ps| ==> ps[j].key != ps[i].key
    ensures Lookup(ps, ps[i].key) == ps[i].val
    decreases |ps|
  {
    if i < |ps| - 1 {
      var init := ps[..|ps| - 1];
      assert init[i] == ps[i];
      forall j | i < j < |init| ensures init[j].key != init[i].key {
        assert init[j] == ps[j];
      }
      LookupUnshadowed(init, i);
    }
  }

  /** Keys and lookups of an object whose properties are given in two parts. */
  lemma {:induction false} PropKeysAppend(xs: seq<Prop>, ys: seq<Prop>)
    ensures PropKeys(xs + ys) == PropKeys(xs) + PropKeys(ys)
    decreases |ys|
  {
    if ys != [] {
      var init := ys[..|ys| - 1];
      assert (xs + ys)[..|xs + ys| - 1] == xs + init;
      PropKeysAppend(xs, init);
    } else {
      assert xs + ys == xs;
    }
  }

  lemma {:induction false} LookupAppend(xs: seq<Prop>, ys: seq<Prop>, k: string)
    ensures Lookup(xs + ys, k) == if k in PropKeys(ys) then Lookup(ys, k) else Lookup(xs, k)
    decreases |ys|
  {
    if ys != [] {
      var init := ys[..|ys| - 1];
      assert (xs + ys)[..|xs + ys| - 1] == xs + init;
      LookupAppend(xs, init, k);
    } else {
      assert xs + ys == xs;
    }
  }

  /** A property before two further parts that do not hold its key. */
  lemma LookupBeforeTails(xs: seq<Prop>, ys: seq<Prop>, zs: seq<Prop>, k: string)
    requires k !in PropKeys(ys) && k !in PropKeys(zs)
    ensures Lookup(xs + ys + zs, k) == Lookup(xs, k)
    ensures k in PropKeys(xs + ys + zs) <==> k in PropKeys(xs)
  {
    LookupAppend(xs + ys, zs, k);
    LookupAppend(xs, ys, k);
    PropKeysAppend(xs + ys, zs);
    PropKeysAppend(xs, ys);
  }

  // ---------------------------------------------------------------------------
  // Array helpers

  /** `a.concat(x)`: an array argument is spread, any other value appended as one element. */
  function ConcatItems(xs: seq<Value>, x: Value): (r: seq<Value>)
    ensures x.Arr? ==> r == xs + x.elems
    ensures !x.Arr? ==> r == xs + [x]
  {
    if x.Arr? then xs + x.elems else xs + [x]
  }

  /** `[].concat(...xs)`: flattens one level of nesting. */
  function Flatten1(xs: seq<Value>): seq<Value>
  {
    if xs == [] then [] else ConcatItems([], xs[0]) + Flatten1(xs[1..])
  }

  // ---------------------------------------------------------------------------
  // String helpers

  predicate EndsWith(s: string, suffix: string)
  {
    |suffix| <= |s| && s[|s| - |suffix|..] == suffix
  }

  predicate StartsWith(s: string, prefix: string)
  {
    |prefix| <= |s| && s[..|prefix|] == prefix
  }

  /** `s.includes(sub)` */
  predicate Contains(s: string, sub: string)
  {
    StartsWith(s, sub) || (s != [] && Contains(s[1..], sub))
  }

  function Join(parts: seq<string>, sep: string): string
  {
    if parts == [] then ""
    else if |parts| == 1 then parts[0]
    else parts[0] + sep + Join(parts[1..], sep)
  }

  /** The text before the first occurrence of `c` (`s.split(c)[0]`). */
  function FirstSegment(s: string, c: char): (r: string)
    ensures |r| <= |s| && r == s[..|r|]
    ensures c !in r
  {
    if s == [] || s[0] == c then "" else [s[0]] + FirstSegment(s[1..], c)
  }

  function DigitChar(d: nat): char
    requires d < 10
  {
    "0123456789"[d]
  }

  function NatToString(n: nat): string
    decreases n
  {
    if n < 10 then [DigitChar(n)] else NatToString(n / 10) + [DigitChar(n % 10)]
  }

  function IntToString(n: int): string
  {
    if n < 0 then "-" + NatToString(-n) else NatToString(n)
  }

  /** `JSON.stringify` of a string (escaping is not modelled). */
  function JsonString(s: string): string
  {
    "\"" + s + "\""
  }

  /** The prefix a loop has handled, one step later. */
  lemma PrefixStep<T>(xs: seq<T>, i: nat)
    requires i < |xs|
    ensures xs[..i + 1][..i] == xs[..i] && xs[..i + 1][i] == xs[i] && |xs[..i + 1]| == i + 1
  {
  }

  /** Membership in a non-empty sequence, split at its last element. */
  lemma InitOrLast<T>(xs: seq<T>, x: T)
    requires xs != []
    ensures x in xs <==> x in xs[..|xs| - 1] || x == xs[|xs| - 1]
  {
    assert xs == xs[..|xs| - 1] + [xs[|xs| - 1]];
  }
}
