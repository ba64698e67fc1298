/** Coin selection (src/wallet/txBuilder.ts:52-81): largest first, ties broken by outpoint. */
module Coins {

  import opened Ledger
  import opened Utxo

  datatype Unspent = Unspent(outpoint: Outpoint, entry: UtxoEntry)

  function Sum(s: seq<Unspent>): int {
    if |s| == 0 then 0 else Sum(s[..|s| - 1]) + s[|s| - 1].entry.amount
  }

  lemma {:induction false} SumPush(s: seq<Unspent>, u: Unspent)
    ensures Sum(s + [u]) == Sum(s) + u.entry.amount
  {
    assert (s + [u])[..|s|] == s;
  }

  lemma {:induction false} SumConcat(a: seq<Unspent>, b: seq<Unspent>)
    ensures Sum(a + b) == Sum(a) + Sum(b)
  {
    if |b| == 0 {
      assert a + b == a;
    } else {
      SumConcat(a, b[..|b| - 1]);
      assert (a + b)[..|a + b| - 1] == a + b[..|b| - 1];
    }
  }

  // ---------------------------------------------------------------- the order

  /** Larger amounts first, then lower ids, then lower positions. */
  predicate Before(a: Unspent, b: Unspent) {
    if a.entry.amount != b.entry.amount then a.entry.amount > b.entry.amount
    else if a.outpoint.txId != b.outpoint.txId then a.outpoint.txId < b.outpoint.txId
    else a.outpoint.index <= b.outpoint.index
  }

  predicate Ordered(s: seq<Unspent>) {
    forall i, j :: 0 <= i < j < |s| ==> Before(s[i], s[j])
  }

  function Place(s: seq<Unspent>, u: Unspent): seq<Unspent> {
    if |s| == 0 || Before(s[|s| - 1], u) then s + [u] else Place(s[..|s| - 1], u) + [s[|s| - 1]]
  }

  function Sorted(s: seq<Unspent>): seq<Unspent> {
    if |s| == 0 then [] else Place(Sorted(s[..|s| - 1]), s[|s| - 1])
  }

  predicate AllBefore(s: seq<Unspent>, u: Unspent) {
    forall i :: 0 <= i < |s| ==> Before(s[i], u)
  }

  lemma {:induction false} OrderedPush(s: seq<Unspent>, u: Unspent)
    requires Ordered(s) && AllBefore(s, u)
    ensures Ordered(s + [u])
  {
  }

  lemma {:induction false} LastIsLast(s: seq<Unspent>, u: Unspent)
    requires Ordered(s) && |s| > 0 && Before(s[|s| - 1], u)
    ensures AllBefore(s, u)
  {
  }

  lemma {:induction false} PlaceOrders(s: seq<Unspent>, u: Unspent, end: Unspent)
    requires Ordered(s)
    ensures Ordered(Place(s, u))
    ensures AllBefore(s, end) && Before(u, end) ==> AllBefore(Place(s, u), end)
  {
    if |s| == 0 {
    } else if Before(s[|s| - 1], u) {
      LastIsLast(s, u);
      OrderedPush(s, u);
    } else {
      var front, last := s[..|s| - 1], s[|s| - 1];
      PlaceOrders(front, u, last);
      PlaceOrders(front, u, end);
      OrderedPush(Place(front, u), last);
    }
  }

  lemma {:induction false} PlacePermutes(s: seq<Unspent>, u: Unspent)
    ensures multiset(Place(s, u)) == multiset(s) + multiset{u}
  {
    if |s| > 0 && !Before(s[|s| - 1], u) {
      PlacePermutes(s[..|s| - 1], u);
      assert s == s[..|s| - 1] + [s[|s| - 1]];
    }
  }

  lemma {:induction false} SortedIsOrdered(s: seq<Unspent>)
    ensures Ordered(Sorted(s))
  {
    if |s| > 0 {
      SortedIsOrdered(s[..|s| - 1]);
      PlaceOrders(Sorted(s[..|s| - 1]), s[|s| - 1], s[|s| - 1]);
    }
  }

  lemma {:induction false} SortedPermutes(s: seq<Unspent>)
    ensures multiset(Sorted(s)) == multiset(s) && |Sorted(s)| == |s|
  {
    if |s| > 0 {
      SortedPermutes(s[..|s| - 1]);
      PlacePermutes(Sorted(s[..|s| - 1]), s[|s| - 1]);
      assert s == s[..|s| - 1] + [s[|s| - 1]];
    }
    assert |multiset(Sorted(s))| == |Sorted(s)| && |multiset(s)| == |s|;
  }

  // ---------------------------------------------------------------- selection

  /** The shortest prefix of `s` worth at least `target`, if any prefix is. */
  function Prefix(s: seq<Unspent>, target: int): (r: Option<nat>)
    ensures r.Some? ==> r.value <= |s| && Sum(s[..r.value]) >= target
    ensures r.Some? ==> forall k :: 0 <= k < r.value ==> Sum(s[..k]) < target
    ensures r.None? ==> forall k :: 0 <= k <= |s| ==> Sum(s[..k]) < target
    decreases |s|
  {
    if |s| > 0 && Prefix(s[..|s| - 1], target).Some? then
      assert forall k :: 0 <= k <= |s| - 1 ==> s[..|s| - 1][..k] == s[..k];
      Prefix(s[..|s| - 1], target)
    else
      assert s[..|s|] == s;
      assert |s| > 0 ==> forall k :: 0 <= k <= |s| - 1 ==> s[..|s| - 1][..k] == s[..k];
      if Sum(s) >= target then Some(|s|) else None
  }

  method SelectCoins(spendable: seq<Unspent>, target: int) returns (r: Option<seq<Unspent>>)
    ensures r == Selected(spendable, target)
  {
    var sorted := Sorted(spendable);
    var chosen: seq<Unspent>, total := [], 0;
    var i := 0;
    while i < |sorted| && total < target
      invariant i <= |sorted| && chosen == sorted[..i] && total == Sum(chosen)
      invariant forall k :: 0 <= k < i ==> Sum(sorted[..k]) < target
    {
      TakeOneMore(sorted, i);
      SumPush(chosen, sorted[i]);
      chosen := chosen + [sorted[i]];
      total := total + sorted[i].entry.amount;
      i := i + 1;
    }
    PrefixIs(sorted, target, i);
    if total < target {
      return None;
    }
    return Some(chosen);
  }

  function Selected(spendable: seq<Unspent>, target: int): Option<seq<Unspent>> {
    var k := Prefix(Sorted(spendable), target);
    if k.Some? then Some(Sorted(spendable)[..k.value]) else None
  }

  lemma {:induction false} PrefixIs(s: seq<Unspent>, target: int, i: nat)
    requires i <= |s| && forall k :: 0 <= k < i ==> Sum(s[..k]) < target
    requires Sum(s[..i]) >= target || i == |s|
    ensures Prefix(s, target) == if Sum(s[..i]) >= target then Some(i) else None
  {
    var r := Prefix(s, target);
    if r.Some? {
      assert Sum(s[..r.value]) >= target;
    }
  }

  // ---------------------------------------------------------------- fewest coins

  lemma {:induction false} SumWithout(c: seq<Unspent>, i: nat)
    requires i < |c|
    ensures Sum(c) == c[i].entry.amount + Sum(c[..i] + c[i + 1..])
    ensures multiset(c[..i] + c[i + 1..]) == multiset(c) - multiset{c[i]}
  {
    assert c == (c[..i] + [c[i]]) + c[i + 1..];
    SumConcat(c[..i] + [c[i]], c[i + 1..]);
    SumPush(c[..i], c[i]);
    SumConcat(c[..i], c[i + 1..]);
  }

  lemma {:induction false} SumHead(s: seq<Unspent>, k: nat)
    requires 0 < k <= |s|
    ensures Sum(s[..k]) == s[0].entry.amount + Sum(s[1..][..k - 1])
  {
    assert s[..k] == [s[0]] + s[1..][..k - 1];
    SumConcat([s[0]], s[1..][..k - 1]);
    assert [s[0]][..0] == [];
    assert Sum([s[0]]) == s[0].entry.amount;
  }

  lemma {:induction false} Fewer(c: seq<Unspent>, s: seq<Unspent>)
    requires multiset(c) <= multiset(s)
    ensures |c| <= |s|
  {
    assert multiset(s) == multiset(c) + (multiset(s) - multiset(c));
    assert |multiset(c)| <= |multiset(s)|;
  }

  /** One coin of a choice can be matched with the first coin in order. */
  lemma {:induction false} MatchFirst(s: seq<Unspent>, c: seq<Unspent>) returns (i: nat)
    requires Ordered(s) && multiset(c) <= multiset(s) && 0 < |c| && 0 < |s|
    ensures i < |c| && c[i].entry.amount <= s[0].entry.amount
    ensures multiset(c[..i] + c[i + 1..]) <= multiset(s[1..])
  {
    i := if s[0] in c then IndexIn(c, s[0]) else |c| - 1;
    SumWithout(c, i);
    AmountBelow(s, c[i]);
    var fewer := c[..i] + c[i + 1..];
    if s[0] in c {
      assert s == [s[0]] + s[1..];
      assert multiset(s[1..]) == multiset(s) - multiset{s[0]};
    } else {
      MultisetWithout(c, s, fewer, i);
    }
  }

  /** No choice of n coins is worth more than the first n in order. */
  lemma {:induction false} FirstAreMost(s: seq<Unspent>, c: seq<Unspent>)
    requires Ordered(s) && multiset(c) <= multiset(s)
    ensures |c| <= |s| && Sum(c) <= Sum(s[..|c|])
    decreases |c|
  {
    Fewer(c, s);
    if |c| > 0 {
      var i := MatchFirst(s, c);
      SumWithout(c, i);
      OrderedRest(s);
      hide Ordered, Sum;
      FirstAreMost(s[1..], c[..i] + c[i + 1..]);
      SumHead(s, |c|);
    }
  }

  lemma {:induction false} OrderedRest(s: seq<Unspent>)
    requires Ordered(s) && 0 < |s|
    ensures Ordered(s[1..])
  {
  }

  /** Any choice of coins that covers the target has at least as many coins as the selection. */
  lemma {:induction false} SelectionIsFewest(spendable: seq<Unspent>, target: int, c: seq<Unspent>)
    requires multiset(c) <= multiset(spendable) && Sum(c) >= target
    ensures Selected(spendable, target).Some? && |Selected(spendable, target).value| <= |c|
  {
    var s := Sorted(spendable);
    SortedIsOrdered(spendable);
    SortedPermutes(spendable);
    FirstAreMost(s, c);
    var k := Prefix(s, target);
    assert Sum(s[..|c|]) >= target;
  }

  function IndexIn(c: seq<Unspent>, u: Unspent): (i: nat)
    requires u in c
    ensures i < |c| && c[i] == u
  {
    if c[|c| - 1] == u then |c| - 1 else
    assert u in c[..|c| - 1];
    IndexIn(c[..|c| - 1], u)
  }

  lemma {:induction false} AmountBelow(s: seq<Unspent>, u: Unspent)
    requires Ordered(s) && |s| > 0 && u in multiset(s)
    ensures u.entry.amount <= s[0].entry.amount
  {
    var j := IndexIn(s, u);
    if j > 0 {
      assert Before(s[0], s[j]);
    }
  }

  lemma {:induction false} MultisetWithout(c: seq<Unspent>, s: seq<Unspent>, fewer: seq<Unspent>, i: nat)
    requires i < |c| && |s| > 0 && multiset(c) <= multiset(s) && s[0] !in c
    requires multiset(fewer) == multiset(c) - multiset{c[i]}
    ensures multiset(fewer) <= multiset(s[1..])
  {
    assert s == [s[0]] + s[1..];
    forall x ensures multiset(fewer)[x] <= multiset(s[1..])[x] {
      if x == s[0] {
        assert multiset(c)[x] == 0;
      }
    }
  }

  // ---------------------------------------------------------------- a function of the set of coins

  /** An outpoint names one coin. */
  predicate OutpointsTell(s: seq<Unspent>) {
    forall i, j :: 0 <= i < |s| && 0 <= j < |s| && s[i].outpoint == s[j].outpoint ==> s[i] == s[j]
  }

  lemma {:induction false} FirstIsFirst(s: seq<Unspent>, t: seq<Unspent>)
    requires Ordered(s) && Ordered(t) && OutpointsTell(s) && multiset(s) == multiset(t) && 0 < |s| && 0 < |t|
    ensures s[0] == t[0]
  {
    assert s[0] in multiset(t) && t[0] in multiset(s);
    var i, j := IndexIn(s, t[0]), IndexIn(t, s[0]);
    if i > 0 && j > 0 {
      assert Before(s[0], s[i]) && Before(t[0], t[j]);
    }
  }

  lemma {:induction false} RestOf(s: seq<Unspent>)
    requires Ordered(s) && OutpointsTell(s) && 0 < |s|
    ensures Ordered(s[1..]) && OutpointsTell(s[1..]) && multiset(s[1..]) == multiset(s) - multiset{s[0]}
  {
    assert s == [s[0]] + s[1..];
  }

  /** There is one way to order a set of coins. */
  lemma {:induction false} OneOrder(s: seq<Unspent>, t: seq<Unspent>)
    requires Ordered(s) && Ordered(t) && OutpointsTell(s) && OutpointsTell(t) && multiset(s) == multiset(t)
    ensures s == t
  {
    Fewer(s, t);
    Fewer(t, s);
    if 0 < |s| {
      FirstIsFirst(s, t);
      RestOf(s);
      RestOf(t);
      hide Ordered, OutpointsTell;
      OneOrder(s[1..], t[1..]);
      assert s == [s[0]] + s[1..] && t == [t[0]] + t[1..];
    }
  }

  lemma {:induction false} SortedTells(s: seq<Unspent>, t: seq<Unspent>)
    requires OutpointsTell(s) && multiset(t) == multiset(s)
    ensures OutpointsTell(t)
  {
    forall i, j | 0 <= i < |t| && 0 <= j < |t| && t[i].outpoint == t[j].outpoint ensures t[i] == t[j] {
      assert t[i] in multiset(s) && t[j] in multiset(s);
      var a, b := IndexIn(s, t[i]), IndexIn(s, t[j]);
    }
  }

  /** Two wallets that see the same coins, in whatever order, choose the same ones. */
  lemma {:induction false} SelectionIgnoresOrder(a: seq<Unspent>, b: seq<Unspent>, target: int)
    requires multiset(a) == multiset(b) && OutpointsTell(a)
    ensures Selected(a, target) == Selected(b, target)
  {
    SortedIsOrdered(a);
    SortedIsOrdered(b);
    SortedPermutes(a);
    SortedPermutes(b);
    SortedTells(a, Sorted(a));
    SortedTells(a, Sorted(b));
    OneOrder(Sorted(a), Sorted(b));
  }

  /**
   * What is chosen: the larger coins, of equal ones those with the lower id, and of one transaction those with the
   * lower position, in that order; everything left comes after everything chosen.
   */
  lemma {:induction false} SelectionOrder(spendable: seq<Unspent>, target: int) returns (rest: seq<Unspent>)
    requires Selected(spendable, target).Some?
    ensures var chosen := Selected(spendable, target).value;
            && multiset(chosen) + multiset(rest) == multiset(spendable)
            && (forall i, j :: 0 <= i < j < |chosen + rest| ==>
                  var a, b := (chosen + rest)[i], (chosen + rest)[j];
                  || a.entry.amount > b.entry.amount
                  || (a.entry.amount == b.entry.amount && a.outpoint.txId < b.outpoint.txId)
                  || (a.entry.amount == b.entry.amount && a.outpoint.txId == b.outpoint.txId
                      && a.outpoint.index <= b.outpoint.index))
  {
    var sorted := Sorted(spendable);
    var k := Prefix(sorted, target).value;
    rest := sorted[k..];
    SortedIsOrdered(spendable);
    SortedPermutes(spendable);
    assert sorted[..k] + rest == sorted;
  }
}
