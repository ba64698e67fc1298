/**
 * Blocks waiting for a missing parent (src/node/node.ts:1457-1488): groups in the order their
 * parents were first missed, and the set of all waiting hashes.
 */
module Orphans {

  import opened Ledger
  import opened Numbers

  /** Blocks that wait for the same parent. */
  datatype Group = Group(parent: Hash, blocks: seq<Block>)

  const MAX_ORPHANS := 50

  function HashesOf(bs: seq<Block>): set<Hash> {
    if |bs| == 0 then {} else HashesOf(bs[..|bs| - 1]) + {bs[|bs| - 1].hash}
  }

  predicate Distinct(bs: seq<Block>) {
    |bs| == 0 || (Distinct(bs[..|bs| - 1]) && bs[|bs| - 1].hash !in HashesOf(bs[..|bs| - 1]))
  }

  predicate AllUnder(parent: Hash, bs: seq<Block>) {
    forall i :: 0 <= i < |bs| ==> bs[i].header.previousHash == parent
  }

  function Queued(g: seq<Group>): set<Hash> {
    if |g| == 0 then {} else Queued(g[..|g| - 1]) + HashesOf(g[|g| - 1].blocks)
  }

  function SetOf(bs: seq<Block>): set<Block> {
    if |bs| == 0 then {} else SetOf(bs[..|bs| - 1]) + {bs[|bs| - 1]}
  }

  /** The blocks that wait anywhere. */
  function Waiting(g: seq<Group>): set<Block> {
    if |g| == 0 then {} else Waiting(g[..|g| - 1]) + SetOf(g[|g| - 1].blocks)
  }

  function Parents(g: seq<Group>): set<Hash> {
    if |g| == 0 then {} else Parents(g[..|g| - 1]) + {g[|g| - 1].parent}
  }

  predicate GroupOk(g: Group) {
    0 < |g.blocks| && AllUnder(g.parent, g.blocks) && Distinct(g.blocks)
  }

  /** One group per parent, every block under its own parent, no block twice. */
  predicate WellQueued(g: seq<Group>) {
    |g| == 0 ||
    (var front, last := g[..|g| - 1], g[|g| - 1];
     && WellQueued(front) && GroupOk(last)
     && last.parent !in Parents(front) && HashesOf(last.blocks) !! Queued(front))
  }

  /** The waiting set is the queued blocks and those taken out but not yet looked at again. */
  predicate PoolOk(g: seq<Group>, hashes: set<Hash>, extra: set<Hash>) {
    WellQueued(g) && hashes == Queued(g) + extra && Queued(g) !! extra && |hashes| <= MAX_ORPHANS
  }

  // ---------------------------------------------------------------- lists of groups

  lemma {:induction false} ConcatGroups(a: seq<Group>, b: seq<Group>)
    ensures Queued(a + b) == Queued(a) + Queued(b) && Parents(a + b) == Parents(a) + Parents(b)
    ensures WellQueued(a + b) <==> WellQueued(a) && WellQueued(b) && Queued(a) !! Queued(b) && Parents(a) !! Parents(b)
  {
    hide GroupOk;
    if |b| == 0 {
      assert a + b == a;
    } else {
      var front, last := b[..|b| - 1], b[|b| - 1];
      ConcatGroups(a, front);
      assert (a + b)[..|a + b| - 1] == a + front;
    }
  }

  lemma {:induction false} OneGroup(g: Group)
    ensures Queued([g]) == HashesOf(g.blocks) && Parents([g]) == {g.parent}
    ensures WellQueued([g]) <==> GroupOk(g)
  {
    hide GroupOk;
    assert [g][..0] == [];
  }

  lemma {:induction false} SplitAt(g: seq<Group>, i: nat)
    requires i < |g| && WellQueued(g)
    ensures var rest := g[..i] + g[i + 1..];
            && WellQueued(rest) && GroupOk(g[i])
            && Queued(g) == Queued(rest) + HashesOf(g[i].blocks) && Queued(rest) !! HashesOf(g[i].blocks)
            && Parents(g) == Parents(rest) + {g[i].parent} && g[i].parent !in Parents(rest)
  {
    hide GroupOk, WellQueued;
    var a, b := g[..i], g[i + 1..];
    assert g == a + ([g[i]] + b);
    ConcatGroups(a, [g[i]] + b);
    ConcatGroups([g[i]], b);
    ConcatGroups(a, b);
    OneGroup(g[i]);
  }

  /** Putting a group with the same parent back in place of another. */
  lemma {:induction false} ReplaceAt(g: seq<Group>, i: nat, h: Group)
    requires i < |g| && WellQueued(g) && GroupOk(h) && h.parent == g[i].parent
    requires HashesOf(h.blocks) !! Queued(g[..i] + g[i + 1..])
    ensures WellQueued(g[i := h]) && Queued(g[i := h]) == Queued(g[..i] + g[i + 1..]) + HashesOf(h.blocks)
  {
    hide GroupOk, WellQueued;
    SplitAt(g, i);
    var a, b := g[..i], g[i + 1..];
    assert g[i := h] == a + ([h] + b);
    ConcatGroups(a, [h] + b);
    ConcatGroups([h], b);
    ConcatGroups(a, b);
    OneGroup(h);
  }

  lemma {:induction false} WaitingConcat(a: seq<Group>, b: seq<Group>)
    ensures Waiting(a + b) == Waiting(a) + Waiting(b)
  {
    if |b| == 0 {
      assert a + b == a;
    } else {
      WaitingConcat(a, b[..|b| - 1]);
      assert (a + b)[..|a + b| - 1] == a + b[..|b| - 1];
    }
  }

  lemma {:induction false} WaitingOne(g: Group)
    ensures Waiting([g]) == SetOf(g.blocks)
  {
    assert [g][..0] == [];
  }

  lemma {:induction false} WaitingReplace(g: seq<Group>, i: nat, h: Group)
    requires i < |g|
    ensures Waiting(g[i := h]) == Waiting(g[..i] + g[i + 1..]) + SetOf(h.blocks)
  {
    hide Waiting, SetOf;
    var a, b := g[..i], g[i + 1..];
    assert g[i := h] == a + ([h] + b);
    WaitingConcat(a, [h] + b);
    WaitingConcat([h], b);
    WaitingConcat(a, b);
    WaitingOne(h);
  }

  lemma {:induction false} WaitingWithout(g: seq<Group>, i: nat)
    requires i < |g|
    ensures Waiting(g) == Waiting(g[..i] + g[i + 1..]) + SetOf(g[i].blocks)
  {
    WaitingReplace(g, i, g[i]);
    assert g[i := g[i]] == g;
  }

  lemma {:induction false} SetPush(bs: seq<Block>, b: Block)
    ensures SetOf(bs + [b]) == SetOf(bs) + {b}
  {
    assert (bs + [b])[..|bs|] == bs;
  }

  lemma {:induction false} HashesPush(bs: seq<Block>, b: Block)
    ensures HashesOf(bs + [b]) == HashesOf(bs) + {b.hash}
    ensures Distinct(bs + [b]) <==> Distinct(bs) && b.hash !in HashesOf(bs)
  {
    assert (bs + [b])[..|bs|] == bs;
  }

  lemma {:induction false} GroupPush(g: Group, b: Block)
    requires GroupOk(g) && b.header.previousHash == g.parent && b.hash !in HashesOf(g.blocks)
    ensures GroupOk(Group(g.parent, g.blocks + [b])) && HashesOf(g.blocks + [b]) == HashesOf(g.blocks) + {b.hash}
  {
    HashesPush(g.blocks, b);
  }

  lemma {:induction false} LoneBlock(b: Block)
    ensures GroupOk(Group(b.header.previousHash, [b])) && HashesOf([b]) == {b.hash}
  {
    HashesPush([], b);
    assert [] + [b] == [b];
  }

  /** Position of the group waiting for `parent`, or |g|. */
  method FindGroup(g: seq<Group>, parent: Hash) returns (i: nat)
    ensures i <= |g| && (i < |g| ==> g[i].parent == parent)
    ensures forall k :: 0 <= k < i ==> g[k].parent != parent
    ensures i == |g| <==> parent !in Parents(g)
  {
    hide Parents;
    for k := 0 to |g|
      invariant forall j :: 0 <= j < k ==> g[j].parent != parent
    {
      if g[k].parent == parent {
        ParentListed(g, k);
        return k;
      }
    }
    NotAParent(g, parent);
    return |g|;
  }

  lemma {:induction false} NotAParent(g: seq<Group>, parent: Hash)
    requires forall j :: 0 <= j < |g| ==> g[j].parent != parent
    ensures parent !in Parents(g)
  {
    if |g| > 0 {
      NotAParent(g[..|g| - 1], parent);
    }
  }

  lemma {:induction false} ParentListed(g: seq<Group>, k: nat)
    requires k < |g|
    ensures g[k].parent in Parents(g)
  {
    if k < |g| - 1 {
      ParentListed(g[..|g| - 1], k);
    }
  }

  // ---------------------------------------------------------------- queueing

  lemma {:induction false} SetBound(s: set<Hash>, h: Hash)
    requires h !in s
    ensures |s + {h}| == |s| + 1
  {
  }

  lemma {:induction false} FewerLeft(s: set<Hash>, t: set<Hash>)
    requires t <= s && t != {}
    ensures |s - t| < |s|
  {
    var x :| x in t;
    assert s - t <= s - {x};
    SubsetSize(s - t, s - {x});
  }

  /** `b` at the end of its parent's group, or in a new group at the end. */
  function Enqueued(g: seq<Group>, b: Block): seq<Group> {
    if |g| == 0 then [Group(b.header.previousHash, [b])]
    else if g[0].parent == b.header.previousHash then [Group(g[0].parent, g[0].blocks + [b])] + g[1..]
    else [g[0]] + Enqueued(g[1..], b)
  }

  lemma {:induction false} EnqueuedAt(g: seq<Group>, b: Block, at: nat)
    requires at <= |g| && (forall i :: 0 <= i < at ==> g[i].parent != b.header.previousHash)
    requires at < |g| ==> g[at].parent == b.header.previousHash
    ensures Enqueued(g, b)
            == if at < |g| then g[at := Group(g[at].parent, g[at].blocks + [b])]
              else g + [Group(b.header.previousHash, [b])]
  {
    if 0 < at {
      EnqueuedAt(g[1..], b, at - 1);
    }
  }

  method AddToGroup(g: seq<Group>, b: Block) returns (g': seq<Group>)
    requires WellQueued(g) && b.hash !in Queued(g)
    ensures g' == Enqueued(g, b)
    ensures WellQueued(g') && Queued(g') == Queued(g) + {b.hash} && Waiting(g') == Waiting(g) + {b}
  {
    hide WellQueued, GroupOk, Queued, Parents, HashesOf, Waiting, SetOf, Enqueued;
    var at := FindGroup(g, b.header.previousHash);
    EnqueuedAt(g, b, at);
    if at < |g| {
      SplitAt(g, at);
      GroupPush(g[at], b);
      ReplaceAt(g, at, Group(g[at].parent, g[at].blocks + [b]));
      WaitingWithout(g, at);
      WaitingReplace(g, at, Group(g[at].parent, g[at].blocks + [b]));
      SetPush(g[at].blocks, b);
      g' := g[at := Group(g[at].parent, g[at].blocks + [b])];
    } else {
      LoneBlock(b);
      OneGroup(Group(b.header.previousHash, [b]));
      ConcatGroups(g, [Group(b.header.previousHash, [b])]);
      WaitingConcat(g, [Group(b.header.previousHash, [b])]);
      WaitingOne(Group(b.header.previousHash, [b]));
      SetPush([], b);
      assert [] + [b] == [b] && SetOf([]) == {} by { NoBlocks(); }
      g' := g + [Group(b.header.previousHash, [b])];
    }
  }

  lemma {:induction false} OldestDropped(g: seq<Group>, hashes: set<Hash>, extra: set<Hash>)
    requires WellQueued(g) && |g| > 0 && hashes == Queued(g) + extra && Queued(g) !! extra
    ensures var left := hashes - HashesOf(g[0].blocks);
            && WellQueued(g[1..]) && left == Queued(g[1..]) + extra && Queued(g[1..]) !! extra
            && |left| < |hashes| && Queued(g[1..]) <= Queued(g) && Waiting(g[1..]) <= Waiting(g)
  {
    hide WellQueued, GroupOk, Queued, Parents, HashesOf, Waiting, SetOf;
    SplitAt(g, 0);
    WaitingWithout(g, 0);
    assert g[..0] + g[1..] == g[1..];
    SomeHash(g[0]);
    FewerLeft(hashes, HashesOf(g[0].blocks));
  }

  lemma {:induction false} QueuedNothing(g: seq<Group>)
    ensures Queued(g) != {} ==> |g| > 0
  {
  }

  /** Queues `b` under its parent and, past the limit, drops the group that has waited longest. */
  method QueueOrphan(
    g: seq<Group>, hashes: set<Hash>, b: Block, ghost extra: set<Hash>) returns (g': seq<Group>, hashes': set<Hash>)
    requires PoolOk(g, hashes, extra)
    ensures PoolOk(g', hashes', extra)
    ensures b.hash in hashes ==> g' == g && hashes' == hashes
    ensures b.hash !in hashes && |hashes| < 50 ==> g' == Enqueued(g, b)
    ensures b.hash !in hashes && 50 <= |hashes| ==> 0 < |Enqueued(g, b)| && g' == Enqueued(g, b)[1..]
    ensures hashes' <= hashes + {b.hash} && Waiting(g') <= Waiting(g) + {b}
  {
    hide WellQueued, Queued, HashesOf, Waiting, Enqueued;
    if b.hash in hashes {
      return g, hashes;
    }
    g' := AddToGroup(g, b);
    SetBound(hashes, b.hash);
    hashes' := hashes + {b.hash};
    if |hashes'| > MAX_ORPHANS {
      QueuedNothing(g');
      OldestDropped(g', hashes', extra);
      hashes' := DropHashes(hashes', g'[0].blocks);
      g' := g'[1..];
    }
  }

  lemma {:induction false} NoBlocks()
    ensures SetOf([]) == {}
  {
  }

  lemma {:induction false} SomeHash(g: Group)
    requires GroupOk(g)
    ensures HashesOf(g.blocks) != {}
  {
  }

  method DropHashes(hashes: set<Hash>, bs: seq<Block>) returns (r: set<Hash>)
    ensures r == hashes - HashesOf(bs)
  {
    r := hashes;
    for i := 0 to |bs|
      invariant r == hashes - HashesOf(bs[..i])
    {
      TakeOneMore(bs, i);
      r := r - {bs[i].hash};
    }
    assert bs[..|bs|] == bs;
  }

  lemma {:induction false} HashesConcat(a: seq<Block>, b: seq<Block>)
    ensures HashesOf(a + b) == HashesOf(a) + HashesOf(b)
    ensures Distinct(a + b) <==> Distinct(a) && Distinct(b) && HashesOf(a) !! HashesOf(b)
  {
    if |b| == 0 {
      assert a + b == a;
    } else {
      HashesConcat(a, b[..|b| - 1]);
      assert (a + b)[..|a + b| - 1] == a + b[..|b| - 1];
    }
  }

  /** The first of the remaining blocks leaves the waiting set. */
  lemma {:induction false} HashesHead(bs: seq<Block>, i: nat)
    requires i < |bs| && Distinct(bs)
    ensures HashesOf(bs[i..]) == {bs[i].hash} + HashesOf(bs[i + 1..]) && bs[i].hash !in HashesOf(bs[i + 1..])
  {
    hide HashesOf, Distinct;
    assert bs == bs[..i] + bs[i..] && bs[i..] == [bs[i]] + bs[i + 1..];
    HashesConcat(bs[..i], bs[i..]);
    HashesConcat([bs[i]], bs[i + 1..]);
    LoneBlock(bs[i]);
  }

  // ---------------------------------------------------------------- dependents

  /** The groups that wait for none of `marked`, in order. */
  function Without(g: seq<Group>, marked: set<Hash>): seq<Group> {
    if |g| == 0 then []
    else Without(g[..|g| - 1], marked) + if g[|g| - 1].parent in marked then [] else [g[|g| - 1]]
  }

  /** `path` leads down from `h` through waiting blocks, each the child of the one before it. */
  predicate Descends(g: seq<Group>, h: Hash, path: seq<Block>) {
    && 0 < |path| && path[0].header.previousHash == h
    && (forall k :: 0 <= k < |path| ==> path[k] in Waiting(g))
    && (forall k :: 0 < k < |path| ==> path[k].header.previousHash == path[k - 1].hash)
  }

  /** Waiting for `h`, directly or through other waiting blocks. */
  ghost predicate DependsOn(g: seq<Group>, h: Hash, x: Hash) {
    exists path: seq<Block> :: Descends(g, h, path) && path[|path| - 1].hash == x
  }

  ghost function Dependents(g: seq<Group>, h: Hash): set<Hash> {
    set x | x in Queued(g) && DependsOn(g, h, x)
  }

  lemma {:induction false} WithoutConcat(a: seq<Group>, b: seq<Group>, marked: set<Hash>)
    ensures Without(a + b, marked) == Without(a, marked) + Without(b, marked)
  {
    if |b| == 0 {
      assert a + b == a;
    } else {
      WithoutConcat(a, b[..|b| - 1], marked);
      assert (a + b)[..|a + b| - 1] == a + b[..|b| - 1];
    }
  }

  lemma {:induction false} Pushed(g: seq<Group>, last: Group)
    ensures Queued(g + [last]) == Queued(g) + HashesOf(last.blocks)
    ensures Waiting(g + [last]) == Waiting(g) + SetOf(last.blocks)
  {
    assert (g + [last])[..|g|] == g;
  }

  lemma {:induction false} WithoutLast(g: seq<Group>, marked: set<Hash>)
    requires |g| > 0
    ensures var front, last := Without(g[..|g| - 1], marked), g[|g| - 1];
            if last.parent in marked then Without(g, marked) == front
            else && Without(g, marked) == front + [last]
                 && Queued(Without(g, marked)) == Queued(front) + HashesOf(last.blocks)
                 && Waiting(Without(g, marked)) == Waiting(front) + SetOf(last.blocks)
  {
    hide Queued, Waiting, HashesOf, SetOf;
    Pushed(Without(g[..|g| - 1], marked), g[|g| - 1]);
  }

  lemma {:induction false} WithoutSingle(g: Group, marked: set<Hash>)
    ensures Without([g], marked) == if g.parent in marked then [] else [g]
  {
    assert [g][..0] == [];
  }

  lemma {:induction false} WithoutNone(g: seq<Group>, marked: set<Hash>)
    requires Parents(g) !! marked
    ensures Without(g, marked) == g
  {
    if |g| > 0 {
      WithoutNone(g[..|g| - 1], marked);
    }
  }

  lemma {:induction false} WithoutTwice(g: seq<Group>, a: set<Hash>, b: set<Hash>)
    ensures Without(Without(g, a), b) == Without(g, a + b)
  {
    if |g| > 0 {
      var front, last := g[..|g| - 1], g[|g| - 1];
      WithoutTwice(front, a, b);
      if last.parent !in a {
        assert Without(g, a) == Without(front, a) + [last];
        WithoutConcat(Without(front, a), [last], b);
        WithoutSingle(last, b);
      } else {
        assert Without(g, a) == Without(front, a) && Without(g, a + b) == Without(front, a + b);
      }
    }
  }

  /** Taking out the one group that waits for `h`. */
  lemma {:induction false} WithoutOne(g: seq<Group>, at: nat)
    requires WellQueued(g) && at < |g|
    ensures Without(g, {g[at].parent}) == g[..at] + g[at + 1..]
  {
    hide WellQueued, GroupOk, Queued, Without, Parents, HashesOf;
    var a, b, h := g[..at], g[at + 1..], g[at].parent;
    SplitAt(g, at);
    ConcatGroups(a, b);
    WithoutNone(a, {h});
    WithoutNone(b, {h});
    WithoutConcat(a, [g[at]] + b, {h});
    WithoutConcat([g[at]], b, {h});
    WithoutSingle(g[at], {h});
    assert g == a + ([g[at]] + b);
  }

  lemma {:induction false} WithoutWaits(g: seq<Group>, marked: set<Hash>)
    ensures Waiting(Without(g, marked)) <= Waiting(g) && Queued(Without(g, marked)) <= Queued(g)
  {
    if |g| > 0 {
      var front, last := g[..|g| - 1], g[|g| - 1];
      WithoutWaits(front, marked);
      WithoutLast(g, marked);
    }
  }

  lemma {:induction false} SetMember(bs: seq<Block>, b: Block) returns (i: nat)
    requires b in SetOf(bs)
    ensures i < |bs| && bs[i] == b && b.hash in HashesOf(bs)
  {
    if bs[|bs| - 1] == b {
      i := |bs| - 1;
    } else {
      i := SetMember(bs[..|bs| - 1], b);
    }
  }

  lemma {:induction false} WaitingQueued(g: seq<Group>, b: Block)
    requires b in Waiting(g)
    ensures b.hash in Queued(g)
  {
    if b in SetOf(g[|g| - 1].blocks) {
      var i := SetMember(g[|g| - 1].blocks, b);
    } else {
      WaitingQueued(g[..|g| - 1], b);
    }
  }

  /** A block that waits for a marked hash leaves the queue with the marked groups. */
  lemma {:induction false} MarkedLeaves(g: seq<Group>, marked: set<Hash>, b: Block)
    requires WellQueued(g) && b in Waiting(g) && b.header.previousHash in marked
    ensures b.hash in Queued(g) && b.hash !in Queued(Without(g, marked))
  {
    hide SetOf, Distinct, HashesOf, Without;
    WaitingQueued(g, b);
    var front, last := g[..|g| - 1], g[|g| - 1];
    WithoutWaits(front, marked);
    WithoutLast(g, marked);
    if b in SetOf(last.blocks) {
      var i := SetMember(last.blocks, b);
      assert last.blocks[i].header.previousHash == last.parent;
    } else {
      MarkedLeaves(front, marked, b);
    }
  }

  lemma {:induction false} HashOwner(bs: seq<Block>, x: Hash) returns (b: Block)
    requires x in HashesOf(bs)
    ensures b in SetOf(bs) && b in bs && b.hash == x
  {
    if bs[|bs| - 1].hash == x {
      b := bs[|bs| - 1];
    } else {
      b := HashOwner(bs[..|bs| - 1], x);
    }
  }

  /** Only what waits for a marked hash leaves. */
  lemma {:induction false} LeaverWaits(g: seq<Group>, marked: set<Hash>, x: Hash) returns (b: Block)
    requires WellQueued(g) && x in Queued(g) && x !in Queued(Without(g, marked))
    ensures b in Waiting(g) && b.hash == x && b.header.previousHash in marked
  {
    hide SetOf, Distinct, HashesOf, Without;
    var front, last := g[..|g| - 1], g[|g| - 1];
    WithoutLast(g, marked);
    if x in HashesOf(last.blocks) {
      b := HashOwner(last.blocks, x);
      var i :| 0 <= i < |last.blocks| && last.blocks[i] == b;
      assert last.blocks[i].header.previousHash == last.parent;
    } else {
      b := LeaverWaits(front, marked, x);
    }
  }

  lemma {:induction false} DescendsFirst(g: seq<Group>, b: Block)
    requires b in Waiting(g)
    ensures DependsOn(g, b.header.previousHash, b.hash)
  {
    hide Waiting;
    assert Descends(g, b.header.previousHash, [b]);
  }

  lemma {:induction false} DescendsFurther(g: seq<Group>, h: Hash, b: Block)
    requires b in Waiting(g) && DependsOn(g, h, b.header.previousHash)
    ensures DependsOn(g, h, b.hash)
  {
    hide Waiting;
    var path: seq<Block> :| Descends(g, h, path) && path[|path| - 1].hash == b.header.previousHash;
    assert Descends(g, h, path + [b]);
  }

  /** What depends on a dependent depends on what that one waits for. */
  lemma {:induction false} DescendsThrough(g: seq<Group>, h: Hash, d: Block, now: seq<Group>, x: Hash)
    requires d in Waiting(g) && d.header.previousHash == h && Waiting(now) <= Waiting(g) && DependsOn(now, d.hash, x)
    ensures DependsOn(g, h, x)
  {
    hide Waiting;
    var path: seq<Block> :| Descends(now, d.hash, path) && path[|path| - 1].hash == x;
    var longer := [d] + path;
    forall k | 0 <= k < |longer| ensures longer[k] in Waiting(g)
      && (0 < k ==> longer[k].header.previousHash == longer[k - 1].hash) {
      if k > 0 {
        assert longer[k] == path[k - 1] && path[k - 1] in Waiting(now);
      }
    }
    assert Descends(g, h, longer);
  }

  lemma {:induction false} PathMarked(g: seq<Group>, h: Hash, marked: set<Hash>, path: seq<Block>, k: nat)
    requires WellQueued(g) && h in marked && Queued(g) - Queued(Without(g, marked)) <= marked
    requires Descends(g, h, path) && k < |path|
    ensures path[k].hash in marked && path[k].hash !in Queued(Without(g, marked))
    decreases k
  {
    hide Waiting, WellQueued, Queued, Without;
    if k > 0 {
      PathMarked(g, h, marked, path, k - 1);
    }
    MarkedLeaves(g, marked, path[k]);
  }

  /** A set that holds `h`, everything that left, and nothing that does not depend on `h`, holds exactly the
      dependents. */
  lemma {:induction false} MarkedIsDependents(g: seq<Group>, h: Hash, marked: set<Hash>)
    requires WellQueued(g) && h in marked && Queued(g) - Queued(Without(g, marked)) <= marked
    requires forall x :: x in marked ==> x == h || (x in Queued(g) && DependsOn(g, h, x))
    ensures marked == {h} + Dependents(g, h) && Queued(g) - Queued(Without(g, marked)) == Dependents(g, h)
  {
    hide Waiting, WellQueued, Queued, Without;
    forall x | x in Dependents(g, h) ensures x in marked && x !in Queued(Without(g, marked)) {
      var path: seq<Block> :| Descends(g, h, path) && path[|path| - 1].hash == x;
      PathMarked(g, h, marked, path, |path| - 1);
    }
    forall x | x in Queued(g) && x !in Queued(Without(g, marked)) ensures DependsOn(g, h, x) {
      var b := LeaverWaits(g, marked, x);
      if b.header.previousHash == h {
        DescendsFirst(g, b);
      } else {
        DescendsFurther(g, h, b);
      }
    }
  }

  /** Every hash that waits without a group takes up room for good. */
  lemma {:induction false} LessRoom(g: seq<Group>, hashes: set<Hash>, extra: set<Hash>)
    requires PoolOk(g, hashes, extra)
    ensures |Queued(g)| + |extra| <= 50
  {
    hide WellQueued, Queued;
    assert hashes - extra == Queued(g);
    assert |hashes| == |Queued(g)| + |extra|;
  }
}
