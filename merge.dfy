/**
 * The two deep-merge helpers the configuration code calls but whose code is
 * not part of this model: `replaceArrayMerge` (lib/utils.js) and the
 * `webpack-merge` package. Both are specified here by an explicit
 * definition, the lodash-style merge the call sites rely on:
 *  - layers are applied left to right onto an empty object, and a layer that
 *    is not an object contributes nothing;
 *  - two objects at the same key merge key by key, earlier keys first;
 *  - two arrays at the same key are concatenated (`webpack-merge`) or the
 *    later one replaces the earlier one (`replaceArrayMerge`);
 *  - an undefined later value never overrides; any other later value wins.
 */
module Merge {
  import opened Js

  datatype ArrayPolicy = Concat | Replace

  /** Merges a later value `b` into an earlier value `a` found at the same key. */
  function MergeValue(p: ArrayPolicy, a: Value, b: Value): Value
    decreases a, 1
  {
    if a.Obj? && b.Obj? then Obj(MergeProps(p, a, |a.props|, b) + FilterOut(b.props, Keys(a)))
    else if a.Arr? && b.Arr? then (if p == Concat then Arr(a.elems + b.elems) else b)
    else if b.Undef? then a
    else b
  }

  /** The first `n` properties of `a`, each merged with `b`'s value for the same key. */
  function MergeProps(p: ArrayPolicy, a: Value, n: nat, b: Value): (r: seq<Prop>)
    requires a.Obj? && b.Obj? && n <= |a.props|
    ensures PropKeys(r) == PropKeys(a.props[..n])
    decreases a, 0, n
  {
    if n == 0 then []
    else
      var q := a.props[n - 1];
      var r := MergeProps(p, a, n - 1, b)
        + [Prop(q.key, if Has(b, q.key) then MergeValue(p, q.val, Get(b, q.key)) else q.val)];
      assert a.props[..n - 1] == a.props[..n][..n - 1];
      assert r[..|r| - 1] == MergeProps(p, a, n - 1, b);
      r
  }

  lemma {:induction false} MergePropsLookup(p: ArrayPolicy, a: Value, n: nat, b: Value, k: string)
    requires a.Obj? && b.Obj? && n <= |a.props|
    ensures Lookup(MergeProps(p, a, n, b), k)
         == if k !in PropKeys(a.props[..n]) then Undef
            else if Has(b, k) then MergeValue(p, Lookup(a.props[..n], k), Get(b, k))
            else Lookup(a.props[..n], k)
  {
    if n > 0 {
      var r := MergeProps(p, a, n - 1, b);
      var q := a.props[n - 1];
      assert a.props[..n - 1] == a.props[..n][..n - 1];
      var full := MergeProps(p, a, n, b);
      assert full[..|full| - 1] == r;
      if q.key != k {
        MergePropsLookup(p, a, n - 1, b, k);
      }
    }
  }

  /** Key-wise view of merging two objects: every key of either survives, a key
      of both holds the merge of the two values, a key of one holds its value. */
  lemma MergeObjects(p: ArrayPolicy, a: Value, b: Value, k: string)
    requires a.Obj? && b.Obj?
    ensures MergeValue(p, a, b).Obj?
    ensures Has(MergeValue(p, a, b), k) <==> Has(a, k) || Has(b, k)
    ensures Get(MergeValue(p, a, b), k)
         == if Has(a, k) && Has(b, k) then MergeValue(p, Get(a, k), Get(b, k))
            else if Has(b, k) then Get(b, k)
            else Get(a, k)
  {
    var m := MergeProps(p, a, |a.props|, b);
    var f := FilterOut(b.props, Keys(a));
    assert MergeValue(p, a, b) == Obj(m + f);
    assert a.props[..|a.props|] == a.props;
    MergePropsLookup(p, a, |a.props|, b, k);
    PropKeysAppend(m, f);
    LookupAppend(m, f, k);
  }

  /** Merges the layers, left to right, onto an empty object. */
  function MergeLayers(p: ArrayPolicy, layers: seq<Value>): (r: Value)
    ensures r.Obj?
  {
    if layers == [] then Obj([])
    else
      var acc := MergeLayers(p, layers[..|layers| - 1]);
      var layer := layers[|layers| - 1];
      if layer.Obj? then MergeValue(p, acc, layer) else acc
  }

  /** `replaceArrayMerge(default, build, user)`: later arrays replace earlier ones. */
  function ReplaceArrayMerge(d: Value, b: Value, u: Value): Value
  {
    MergeLayers(Replace, [d, b, u])
  }

  /** `webpack-merge(a, b)`: arrays at the same key are concatenated. */
  function WebpackMerge(a: Value, b: Value): Value
  {
    MergeLayers(Concat, [a, b])
  }

  /** A value that a later layer replaces outright. */
  predicate Scalar(v: Value)
  {
    !v.Obj? && !v.Arr? && !v.Undef?
  }

  /** Merging an object onto the empty object yields an object with the same keys and values. */
  lemma MergeOntoEmpty(p: ArrayPolicy, a: Value, k: string)
    requires a.Obj?
    ensures Has(MergeValue(p, Obj([]), a), k) <==> Has(a, k)
    ensures Get(MergeValue(p, Obj([]), a), k) == Get(a, k)
  {
    MergeObjects(p, Obj([]), a, k);
  }

  /** One layer of a merge, seen through one key: an object layer holding the key
      merges its value into (or adds it to) what the layers before it left. */
  lemma LayerStep(p: ArrayPolicy, layers: seq<Value>, k: string)
    requires layers != []
    ensures var last := layers[|layers| - 1];
      var acc := MergeLayers(p, layers[..|layers| - 1]);
      && (Has(MergeLayers(p, layers), k) <==> Has(acc, k) || Has(last, k))
      && Get(MergeLayers(p, layers), k)
         == if Has(last, k) then (if Has(acc, k) then MergeValue(p, Get(acc, k), Get(last, k)) else Get(last, k))
            else Get(acc, k)
  {
    var last := layers[|layers| - 1];
    var acc := MergeLayers(p, layers[..|layers| - 1]);
    if last.Obj? {
      MergeObjects(p, acc, last, k);
    }
  }

  /** A merge of one layer onto nothing: that layer's keys, and its values. */
  lemma SingleLayer(p: ArrayPolicy, a: Value, k: string)
    ensures Has(MergeLayers(p, [a]), k) <==> Has(a, k)
    ensures Get(MergeLayers(p, [a]), k) == Get(a, k)
  {
    assert [a][..0] == [];
    LayerStep(p, [a], k);
  }

  /** The last layer decides a key it holds a scalar for; a layer without the key
      leaves the value of the layers before it. */
  lemma LayerPrecedence(p: ArrayPolicy, layers: seq<Value>, k: string)
    requires layers != []
    requires Has(layers[|layers| - 1], k) ==> Scalar(Get(layers[|layers| - 1], k))
    ensures Get(MergeLayers(p, layers), k)
         == if Has(layers[|layers| - 1], k) then Get(layers[|layers| - 1], k)
            else Get(MergeLayers(p, layers[..|layers| - 1]), k)
  {
    var last := layers[|layers| - 1];
    var acc := MergeLayers(p, layers[..|layers| - 1]);
    if last.Obj? {
      MergeObjects(p, acc, last, k);
    }
  }

  /** Precedence: for a key holding scalars, the user layer wins over the build
      layer, which wins over the defaults; a layer that is not an object counts
      as one without the key. */
  lemma ScalarPrecedence(p: ArrayPolicy, d: Value, b: Value, u: Value, k: string)
    requires Has(d, k) ==> Scalar(Get(d, k))
    requires Has(b, k) ==> Scalar(Get(b, k))
    requires Has(u, k) ==> Scalar(Get(u, k))
    ensures Get(MergeLayers(p, [d, b, u]), k)
         == if Has(u, k) then Get(u, k) else if Has(b, k) then Get(b, k) else Get(d, k)
  {
    var l := [d, b, u];
    assert l[..2] == [d, b];
    assert l[..2][..1] == [d];
    assert l[..2][..1][..0] == [];
    LayerPrecedence(p, l, k);
    LayerPrecedence(p, [d, b], k);
    LayerPrecedence(p, [d], k);
  }

  /** The two array policies: given `{k: xs}` then `{k: ys}`, the replace policy
      keeps `ys` only, the combine policy `xs` followed by `ys`. */
  lemma ArrayPolicies(k: string, xs: seq<Value>, ys: seq<Value>)
    ensures Get(MergeValue(Replace, Obj1(k, Arr(xs)), Obj1(k, Arr(ys))), k) == Arr(ys)
    ensures Get(MergeValue(Concat, Obj1(k, Arr(xs)), Obj1(k, Arr(ys))), k) == Arr(xs + ys)
  {
    MergeObjects(Replace, Obj1(k, Arr(xs)), Obj1(k, Arr(ys)), k);
    MergeObjects(Concat, Obj1(k, Arr(xs)), Obj1(k, Arr(ys)), k);
  }

  /** A key the later config does not hold comes through `webpack-merge` as it was. */
  lemma MergeKeepsUntouched(a: Value, b: Value, k: string)
    requires !Has(b, k)
    ensures Has(WebpackMerge(a, b), k) <==> Has(a, k)
    ensures Get(WebpackMerge(a, b), k) == Get(a, k)
  {
    assert [a, b][..1] == [a];
    LayerStep(Concat, [a, b], k);
    SingleLayer(Concat, a, k);
  }
}
