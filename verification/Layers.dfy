/**
 An index that grows and shrinks with the chain: one map per block, stacked. The four
 chain-wide indexes (undo records, transaction locations, anchors, address activity) are
 all of this shape, so what it takes to add or remove a block, at either end, is proved
 once here.
 */
module Layers {

  /** The entries of all layers; an upper layer wins. */
  function Union<K, V>(layers: seq<map<K, V>>): map<K, V> {
    if |layers| == 0 then map[] else Union(layers[..|layers| - 1]) + layers[|layers| - 1]
  }

  /** No key belongs to two layers. */
  ghost predicate Disjoint<K, V>(layers: seq<map<K, V>>) {
    forall i, j :: 0 <= i < j < |layers| ==> layers[i].Keys !! layers[j].Keys
  }

  lemma {:induction false} UnionPush<K, V>(layers: seq<map<K, V>>, top: map<K, V>)
    ensures Union(layers + [top]) == Union(layers) + top
  {
    assert (layers + [top])[..|layers|] == layers;
  }

  lemma {:induction false} PutIsMerge<K, V>(m: map<K, V>, k: K, v: V)
    ensures m[k := v] == m + map[k := v]
  {
  }

  /** `m` with the entries `e` deleted or put. */
  function Edited<K, V>(m: map<K, V>, e: map<K, V>, remove: bool): map<K, V> {
    if remove then m - e.Keys else m + e
  }

  lemma {:induction false} EditedNothing<K, V>(m: map<K, V>, remove: bool)
    ensures Edited(m, map[], remove) == m
  {
  }

  lemma {:induction false} EditedTwice<K, V>(m: map<K, V>, a: map<K, V>, b: map<K, V>, remove: bool)
    ensures Edited(Edited(m, a, remove), b, remove) == Edited(m, a + b, remove)
  {
  }

  lemma {:induction false} EditedOneMore<K, V>(m: map<K, V>, e: map<K, V>, k: K, v: V, remove: bool)
    ensures Edited(m, e[k := v], remove)
         == if remove then Edited(m, e, remove) - {k} else Edited(m, e, remove)[k := v]
  {
    assert e[k := v].Keys == e.Keys + {k};
  }

  lemma {:induction false} LayerOf<K, V>(layers: seq<map<K, V>>, k: K) returns (i: nat)
    requires k in Union(layers)
    ensures i < |layers| && k in layers[i]
  {
    var n := |layers| - 1;
    if k in layers[n] {
      i := n;
    } else {
      i := LayerOf(layers[..n], k);
    }
  }

  lemma {:induction false} InUnion<K, V>(layers: seq<map<K, V>>, i: nat, k: K)
    requires Disjoint(layers) && i < |layers| && k in layers[i]
    ensures k in Union(layers) && Union(layers)[k] == layers[i][k]
  {
    var n := |layers| - 1;
    if i < n {
      assert k !in layers[n].Keys;
      InUnion(layers[..n], i, k);
    }
  }

  /** Removing the top layer's keys leaves the layers below it. */
  lemma {:induction false} DropTop<K, V>(layers: seq<map<K, V>>, top: map<K, V>)
    requires Disjoint(layers + [top])
    ensures Union(layers + [top]) - top.Keys == Union(layers)
  {
    UnionPush(layers, top);
    forall k | k in Union(layers) ensures k !in top.Keys {
      var i := LayerOf(layers, k);
      var all := layers + [top];
      assert all[i].Keys !! all[|layers|].Keys;
    }
  }

  lemma {:induction false} UnionSplit<K, V>(bottom: map<K, V>, layers: seq<map<K, V>>)
    requires Disjoint([bottom] + layers)
    ensures Union([bottom] + layers) == Union(layers) + bottom
    ensures Union(layers).Keys !! bottom.Keys
  {
    var all := [bottom] + layers;
    if |layers| == 0 {
      assert all == [bottom];
      assert Union([bottom]) == map[] + bottom;
    } else {
      var n := |layers| - 1;
      var init := layers[..n];
      assert all[..|all| - 1] == [bottom] + init;
      assert all[0].Keys !! all[n + 1].Keys;
      assert Disjoint([bottom] + init) by {
        forall i, j | 0 <= i < j < |[bottom] + init|
          ensures ([bottom] + init)[i].Keys !! ([bottom] + init)[j].Keys
        {
          assert all[i].Keys !! all[j].Keys;
        }
      }
      UnionSplit(bottom, init);
    }
  }

  /** Removing the bottom layer's keys leaves the layers above it. */
  lemma {:induction false} DropBottom<K, V>(bottom: map<K, V>, layers: seq<map<K, V>>)
    requires Disjoint([bottom] + layers)
    ensures Union([bottom] + layers) - bottom.Keys == Union(layers)
  {
    UnionSplit(bottom, layers);
  }

  // ---------------------------------------------------------------- a window of the top layers

  /** First layer a window of depth `depth` covers when the top layer is `top`; 0 keeps all. */
  function Floor(depth: nat, top: int): nat {
    if depth == 0 || top - depth + 1 < 0 then 0 else top - depth + 1
  }

  /** The entries of the top `depth` layers, or of all of them when `depth` is 0. */
  function Window<K, V>(depth: nat, layers: seq<map<K, V>>): map<K, V> {
    Union(layers[Floor(depth, |layers| - 1)..])
  }

  /** The layer `depth` below position `k`, if there is one. */
  function Behind<K, V>(depth: nat, layers: seq<map<K, V>>, k: nat): map<K, V>
    requires k <= |layers|
  {
    if 0 < depth <= k then layers[k - depth] else map[]
  }

  lemma {:induction false} DisjointSlice<K, V>(layers: seq<map<K, V>>, lo: nat, hi: nat)
    requires Disjoint(layers) && lo <= hi <= |layers|
    ensures Disjoint(layers[lo..hi])
  {
    forall i, j | 0 <= i < j < |layers[lo..hi]| ensures layers[lo..hi][i].Keys !! layers[lo..hi][j].Keys {
      assert layers[lo + i].Keys !! layers[lo + j].Keys;
    }
  }

  /** Taking the top layer off: its entries go, and the one it had pushed out comes back. */
  lemma {:induction false} WindowPop<K, V>(depth: nat, layers: seq<map<K, V>>, top: map<K, V>)
    requires Disjoint(layers + [top])
    ensures (Window(depth, layers + [top]) - top.Keys) + Behind(depth, layers + [top], |layers|)
         == Window(depth, layers)
  {
    hide Union, Disjoint;
    var all := layers + [top];
    var n := |layers|;
    var lo := Floor(depth, n);
    assert all[lo..] == layers[lo..] + [top];
    DisjointSlice(all, lo, n + 1);
    assert all[lo..n + 1] == all[lo..];
    DropTop(layers[lo..], top);
    if 0 < depth <= n {
      DisjointSlice(all, lo - 1, n);
      assert all[lo - 1..n] == [layers[lo - 1]] + layers[lo..];
      assert layers[lo - 1..] == [layers[lo - 1]] + layers[lo..];
      UnionSplit(layers[lo - 1], layers[lo..]);
    } else {
      NothingMore(Union(layers[lo..]));
    }
  }

  lemma {:induction false} NothingMore<K, V>(m: map<K, V>)
    ensures m + map[] == m && forall none: map<K, V> :: none == map[] ==> m - none.Keys == m
  {
  }

  /** Putting a layer on top: its entries come, and the one it pushes out goes. */
  lemma {:induction false} WindowPush<K, V>(depth: nat, layers: seq<map<K, V>>, top: map<K, V>)
    requires Disjoint(layers + [top])
    ensures (Window(depth, layers) + top) - Behind(depth, layers, |layers|).Keys
         == Window(depth, layers + [top])
  {
    hide Union, Disjoint;
    var all := layers + [top];
    var lo := Floor(depth, |layers| - 1);
    assert all[lo..] == layers[lo..] + [top];
    UnionPush(layers[lo..], top);
    if 0 < depth <= |layers| {
      DisjointSlice(all, lo, |all|);
      var upper := all[lo + 1..];
      assert all[lo..|all|] == [layers[lo]] + upper;
      assert all[lo..] == [layers[lo]] + upper;
      DropBottom(layers[lo], upper);
    } else {
      NothingMore(Union(all[lo..]));
    }
  }

  // ---------------------------------------------------------------- writing over what is there

  lemma {:induction false} OverKeys<K, V>(before: map<K, V>, layer: map<K, V>)
    ensures before + layer == layer <==> before.Keys <= layer.Keys
  {
    if before.Keys <= layer.Keys {
      assert before + layer == layer;
    } else {
      var k :| k in before.Keys && k !in layer.Keys;
      assert k in before + layer;
    }
  }

  lemma {:induction false} OverWindow<K, V>(before: map<K, V>, all: map<K, V>, window: map<K, V>)
    requires window.Keys <= all.Keys
    ensures (before - all.Keys) + window == window <==> before.Keys <= all.Keys
  {
    if before.Keys <= all.Keys {
      assert (before - all.Keys) + window == window;
    } else {
      var k :| k in before.Keys && k !in all.Keys;
      assert k in (before - all.Keys) + window;
    }
  }
}
