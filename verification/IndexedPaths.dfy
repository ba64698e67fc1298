/**
 * Everything the node stores or indexes has passed the header rules (src/node/node.ts:1110-1157, 1345-1389,
 * 1499-1547): behind every known hash lies a chain that a light client would verify. The clock only bounds timestamps
 * from above, so one late enough serves for all of them.
 */
module IndexedPaths {

  import opened Ledger
  import opened Store
  import opened Tree
  import opened Consensus
  import opened HeaderChain
  import opened HeaderIndex
  import opened HeaderWalk
  import opened Authority
  import opened BlockRules
  import opened Adoption
  import opened Branches
  import opened NodeState
  import opened Arrivals

  /** `path` is a verified chain of known headers that ends in `h`. */
  ghost predicate PathTo(p: Params, lookup: Lookup, h: Hash, path: seq<ChainHeader>) {
    && Verified(p, path) && Finds(lookup, path, |path|)
    && h in lookup && path[|path| - 1] == ChainHeader(h, lookup[h])
  }

  ghost predicate HasPath(p: Params, lookup: Lookup, h: Hash) {
    exists path :: PathTo(p, lookup, h, path)
  }

  /** Every known header has passed the header rules by the time `t`. */
  ghost predicate RulesHeld(p: Params, lookup: Lookup, t: int) {
    forall h :: h in lookup ==> HasPath(p.(now := t), lookup, h)
  }

  lemma {:induction false} LaterAccepted(p: Params, path: seq<ChainHeader>, i: nat, t: int)
    requires 0 < i < |path| && HeaderChain.Accepted(p, path, i) && p.now <= t
    ensures HeaderChain.Accepted(p.(now := t), path, i)
  {
    hide Signers;
    var later := p.(now := t);
    assert ExpectedTarget(later, path, i) == ExpectedTarget(p, path, i);
  }

  lemma {:induction false} LaterVerified(p: Params, path: seq<ChainHeader>, t: int)
    requires Verified(p, path) && p.now <= t
    ensures Verified(p.(now := t), path)
  {
    hide HeaderChain.Accepted;
    forall i | 0 < i < |path| ensures HeaderChain.Accepted(p.(now := t), path, i) {
      LaterAccepted(p, path, i, t);
    }
  }

  lemma {:induction false} FoundStill(lookup: Lookup, more: Lookup, path: seq<ChainHeader>)
    requires Finds(lookup, path, |path|) && forall h :: h in lookup ==> h in more && more[h] == lookup[h]
    ensures Finds(more, path, |path|)
  {
  }

  /** Later and with more headers known, what had a path still has it. */
  lemma {:induction false} PathStays(p: Params, lookup: Lookup, more: Lookup, h: Hash, t: int)
    requires HasPath(p, lookup, h) && p.now <= t && forall k :: k in lookup ==> k in more && more[k] == lookup[k]
    ensures HasPath(p.(now := t), more, h)
  {
    hide Verified, Finds;
    var path :| PathTo(p, lookup, h, path);
    LaterVerified(p, path, t);
    FoundStill(lookup, more, path);
    assert PathTo(p.(now := t), more, h, path);
  }

  lemma {:induction false} RulesHeldLater(p: Params, lookup: Lookup, t: int, later: int)
    requires RulesHeld(p, lookup, t) && t <= later
    ensures RulesHeld(p, lookup, later)
  {
    hide HasPath;
    forall h | h in lookup ensures HasPath(p.(now := later), lookup, h) {
      PathStays(p.(now := t), lookup, lookup, h, later);
    }
  }

  /** What the header rules that hold for every node say about a header after a known one. */
  predicate Passes(r: Rules, lookup: Lookup, header: Header, hash: Hash, now: int) {
    var parentHash := header.previousHash;
    parentHash in lookup &&
    (var target := TargetByWalk(r.params, lookup, lookup[parentHash]);
     && target.Some?
     && ValidateHeader(r.Crypto(), r.params.engine, header, hash,
                       ContextFor(r, lookup, lookup[parentHash], parentHash, header.height, target.value,
                         now).(checkpoint := None))
        == Valid)
  }

  /** A header that passes goes on top of its parent's path. */
  lemma {:induction false} PathGrows(
    r: Rules, lookup: Lookup, header: Header, hash: Hash, now: int, t: int, path: seq<ChainHeader>)
    requires Passes(r, lookup, header, hash, now) && now <= t
    requires PathTo(r.params.(now := t), lookup, header.previousHash, path)
    ensures Verified(r.params.(now := t), path + [ChainHeader(hash, header)])
  {
    hide Signers, SignersByWalk, Behind, NextTarget;
    var p, n, chain := r.params.(now := t), |path|, path + [ChainHeader(hash, header)];
    assert chain[..n] == path && Finds(lookup, chain, n);
    HeightsAreIndices(p, path, n - 1);
    assert header.height == n;
    TargetsAgree(p, lookup, chain, n);
    SignersAgree(p, lookup, chain, n);
    var target := TargetByWalk(r.params, lookup, lookup[header.previousHash]);
    assert TargetByWalk(p, lookup, path[n - 1].header) == target;
    assert HeaderChain.Accepted(p, chain, n);
    ExtendingIsVerifying(p, path, [ChainHeader(hash, header)]);
  }

  lemma {:induction false} PathAddsTo(p: Params, lookup: Lookup, header: Header, hash: Hash, path: seq<ChainHeader>)
    requires hash !in lookup && PathTo(p, lookup, header.previousHash, path)
    requires Verified(p, path + [ChainHeader(hash, header)])
    ensures HasPath(p, lookup[hash := header], hash)
  {
    hide Verified;
    var longer, more := path + [ChainHeader(hash, header)], lookup[hash := header];
    forall k | 0 <= k < |longer| ensures longer[k].hash in more && more[longer[k].hash] == longer[k].header {
      if k < |path| {
        assert longer[k] == path[k];
      }
    }
    assert PathTo(p, more, hash, longer);
  }

  /** Adding a header that passes keeps the rules held, by the later of the two times. */
  lemma {:induction false} RulesHeldWith(r: Rules, lookup: Lookup, header: Header, hash: Hash, now: int, t: int)
    requires RulesHeld(r.params, lookup, t) && Passes(r, lookup, header, hash, now)
    requires hash in lookup ==> lookup[hash] == header
    ensures RulesHeld(r.params, lookup[hash := header], if t < now then now else t)
  {
    hide HasPath, Passes, PathTo;
    var later, more := if t < now then now else t, lookup[hash := header];
    PassesAfter(r, lookup, header, hash, now);
    forall h | h in lookup ensures HasPath(r.params.(now := later), more, h) {
      PathStays(r.params.(now := t), lookup, more, h, later);
    }
    if hash !in lookup {
      PathStays(r.params.(now := t), lookup, lookup, header.previousHash, later);
      var path := APath(r.params.(now := later), lookup, header.previousHash);
      PathGrows(r, lookup, header, hash, now, later, path);
      PathAddsTo(r.params.(now := later), lookup, header, hash, path);
    }
  }

  lemma {:induction false} APath(p: Params, lookup: Lookup, h: Hash) returns (path: seq<ChainHeader>)
    requires HasPath(p, lookup, h)
    ensures PathTo(p, lookup, h, path)
  {
    path :| PathTo(p, lookup, h, path);
  }

  lemma {:induction false} PassesAfter(r: Rules, lookup: Lookup, header: Header, hash: Hash, now: int)
    requires Passes(r, lookup, header, hash, now)
    ensures header.previousHash in lookup
  {
  }

  /** A store that holds nothing but genesis. */
  lemma {:induction false} RulesHeldFirst(p: Params, g: Header, t: int)
    requires g.height == 0
    ensures RulesHeld(p, map[p.genesisHash := g], t)
  {
    var path, lookup := [ChainHeader(p.genesisHash, g)], map[p.genesisHash := g];
    assert PathTo(p.(now := t), lookup, p.genesisHash, path);
  }

  // ---------------------------------------------------------------- what becomes known

  lemma {:induction false} LookupKnown(r: Rules, w: World, s: State, h: Hash)
    requires Assumes(r, w) && Sane(r, w, s) && h in NodeLookup(s, map[])
    ensures NodeLookup(s, map[])[h] in w.headers && r.Crypto().blockHash(NodeLookup(s, map[])[h]) == h
  {
    hide Consistent, BodiesOk, IdsBind;
    SaneTree(r, w, s);
    if h in s.headers {
      assert HeaderOk(r.Crypto(), r.params.engine, r.Genesis(), s.headers, h);
    } else {
      StoredAt(s.blocks, r.Genesis(), h);
      BlockHeader(r.Crypto(), w, s.blocks[h]);
    }
  }

  /** A hash stands for one header wherever it is known. */
  lemma {:induction false} KnownOnce(r: Rules, w: World, s: State, header: Header)
    requires Assumes(r, w) && Sane(r, w, s) && header in w.headers
    requires r.Crypto().blockHash(header) in NodeLookup(s, map[])
    ensures NodeLookup(s, map[])[r.Crypto().blockHash(header)] == header
  {
    hide Sane, NodeLookup, HashesBind, IdsBind;
    LookupKnown(r, w, s, r.Crypto().blockHash(header));
    OneHeader(r.Crypto(), w, NodeLookup(s, map[])[r.Crypto().blockHash(header)], header);
  }

  /** Between two stores only `b` has become known. */
  predicate OnlyNew(s: State, t: State, b: Block) {
    && Grows(s.blocks, t.blocks) && Extends(s.headers, t.headers)
    && (forall h :: h in t.blocks ==> h in s.blocks || h == b.hash)
    && (forall h :: h in t.headers ==> h in s.headers || h in s.blocks || h == b.hash)
    && b.hash in t.blocks && t.blocks[b.hash] == b
  }

  lemma {:induction false} KnownAfter(r: Rules, w: World, s: State, t: State, b: Block)
    requires Assumes(r, w) && Sane(r, w, s) && Sane(r, w, t) && OnlyNew(s, t, b)
    ensures NodeLookup(t, map[]) == NodeLookup(s, map[])[b.hash := b.header]
  {
    hide Sane, Assumes, NodeLookup;
    var now, more := NodeLookup(t, map[]), NodeLookup(s, map[])[b.hash := b.header];
    forall h ensures (h in now <==> h in more) && (h in now ==> now[h] == more[h]) {
      LookupIs(s, h);
      LookupIs(t, h);
      if h in t.blocks {
        LookupStored(r, w, t, h);
      }
      if h in s.blocks {
        LookupStored(r, w, s, h);
      }
    }
  }

  /** Filling the index in from stored blocks makes nothing known. */
  lemma {:induction false} KnownFilled(r: Rules, w: World, s: State, t: State)
    requires Assumes(r, w) && Sane(r, w, s) && Sane(r, w, t) && t.blocks == s.blocks && Extends(s.headers, t.headers)
    requires forall h :: h in t.headers ==> h in s.headers || h in s.blocks
    ensures NodeLookup(t, map[]) == NodeLookup(s, map[])
  {
    hide Sane, Assumes, NodeLookup;
    var was, now := NodeLookup(s, map[]), NodeLookup(t, map[]);
    forall h ensures (h in now <==> h in was) && (h in now ==> now[h] == was[h]) {
      LookupIs(s, h);
      LookupIs(t, h);
      if h in s.blocks {
        LookupStored(r, w, s, h);
        LookupStored(r, w, t, h);
      }
    }
  }

  lemma {:induction false} LookupIs(s: State, h: Hash)
    ensures h in NodeLookup(s, map[]) <==> h in s.headers || h in s.blocks
    ensures h in s.headers ==> NodeLookup(s, map[])[h] == s.headers[h].header
    ensures h in s.blocks && h !in s.headers ==> NodeLookup(s, map[])[h] == s.blocks[h].header
  {
  }

  lemma {:induction false} KnownIndexed(s: State, hash: Hash, header: Header, work: int)
    ensures NodeLookup(s.(headers := s.headers[hash := IndexedHeader(header, work)]), map[])
      == NodeLookup(s, map[])[hash := header]
  {
    hide NodeLookup;
    var t := s.(headers := s.headers[hash := IndexedHeader(header, work)]);
    var now, more := NodeLookup(t, map[]), NodeLookup(s, map[])[hash := header];
    forall h ensures (h in now <==> h in more) && (h in now ==> now[h] == more[h]) {
      LookupIs(s, h);
      LookupIs(t, h);
    }
  }

  lemma {:induction false} NoneChecked(c: Crypto, e: Engine, header: Header, hash: Hash, ctx: HeaderContext)
    requires ValidateHeader(c, e, header, hash, ctx) == Valid
    ensures ValidateHeader(c, e, header, hash, ctx.(checkpoint := None)) == Valid
  {
  }

  /** An accepted block's header passes. */
  lemma {:induction false} AcceptedPasses(
    r: Rules, w: World, s: State, processed: set<Hash>, invalid: set<Hash>, verified: int, b: Block, now: int)
    requires Assumes(r, w) && Sane(r, w, s) && Judge(r, s, processed, invalid, verified, b, now).Accepted?
    ensures Passes(r, NodeLookup(s, map[]), b.header, b.hash, now)
  {
    hide Sane, Assumes, NodeLookup, TargetByWalk, SignersByWalk, SoundBody, ValidateHeader;
    SaneTree(r, w, s);
    var parent, lookup := s.blocks[b.header.previousHash], NodeLookup(s, map[]);
    StoredAt(s.blocks, r.Genesis(), b.header.previousHash);
    LookupStored(r, w, s, b.header.previousHash);
    var target := TargetByWalk(r.params, lookup, parent.header);
    NoneChecked(r.Crypto(), r.params.engine, b.header, b.hash,
                ContextFor(r, lookup, parent.header, parent.hash, b.header.height, target.value, now));
  }

  /** So does a header that is taken into the index. */
  lemma {:induction false} TakenPasses(
    r: Rules, s: State, invalid: set<Hash>, verified: int, header: Header, previous: Hash, now: int)
    requires previous in s.headers && HeaderTaken(r, s, invalid, verified, header, previous, map[], now)
    requires r.Crypto().blockHash(header) !in s.headers
    ensures header.previousHash == previous
    ensures Passes(r, NodeLookup(s, map[]), header, r.Crypto().blockHash(header), now)
  {
    hide TargetByWalk, SignersByWalk;
    var lookup := NodeLookup(s, map[]);
    assert previous in lookup && lookup[previous] == s.headers[previous].header;
  }

  /** A step that makes one passing header known, on a clock that has been brought up to `now`. */
  lemma {:induction false} RulesHeldAfter(
    r: Rules, w: World, s: State, lookup: Lookup, header: Header, hash: Hash, now: int, t: int)
    requires Assumes(r, w) && Sane(r, w, s) && RulesHeld(r.params, NodeLookup(s, map[]), t) && now <= t
    requires Passes(r, NodeLookup(s, map[]), header, hash, now) && header in w.headers
    requires r.Crypto().blockHash(header) == hash
    requires lookup == NodeLookup(s, map[])[hash := header]
    ensures RulesHeld(r.params, lookup, t)
  {
    hide Sane, Assumes, NodeLookup, RulesHeld, Passes;
    if hash in NodeLookup(s, map[]) {
      KnownOnce(r, w, s, header);
    }
    RulesHeldWith(r, NodeLookup(s, map[]), header, hash, now, t);
  }

  // ---------------------------------------------------------------- the canonical chain

  function HeadersOf(chain: seq<Block>): seq<ChainHeader> {
    seq(|chain|, k requires 0 <= k < |chain| => ChainHeader(chain[k].hash, chain[k].header))
  }

  /** Two ways down from the same header meet the same headers. */
  lemma {:induction false} SamePath(p: Params, lookup: Lookup, path: seq<ChainHeader>, chain: seq<Block>, k: nat)
    requires Verified(p, path) && Finds(lookup, path, |path|) && |chain| == |path| && k < |path|
    requires forall i :: 0 <= i < |chain| ==> chain[i].hash in lookup && lookup[chain[i].hash] == chain[i].header
    requires forall i :: 0 < i < |chain| ==> chain[i].header.previousHash == chain[i - 1].hash
    requires path[|path| - 1].hash == chain[|chain| - 1].hash
    ensures path[k].hash == chain[k].hash && path[k].header == chain[k].header
    decreases |path| - k
  {
    if k < |path| - 1 {
      SamePath(p, lookup, path, chain, k + 1);
      AcceptedLinks(p, path, k + 1);
    }
  }

  /** The node's canonical chain is one that a light client would verify. */
  lemma {:induction false} CanonicalVerifies(r: Rules, w: World, s: State, t: int)
    requires Assumes(r, w) && Sane(r, w, s) && RulesHeld(r.params, NodeLookup(s, map[]), t)
    ensures Verified(r.params.(now := t), HeadersOf(Canonical(r, s)))
  {
    hide Sane, Assumes, NodeLookup, HasPath;
    SaneTree(r, w, s);
    var p, lookup, chain := r.params.(now := t), NodeLookup(s, map[]), Canonical(r, s);
    hide TreeOk, ChainOf;
    CanonicalFound(r, w, s);
    var path := APath(p, lookup, s.tip.hash);
    HeightsAreIndices(p, path, |path| - 1);
    LookupStored(r, w, s, s.tip.hash);
    forall k | 0 <= k < |chain| ensures path[k] == HeadersOf(chain)[k] {
      SamePath(p, lookup, path, chain, k);
    }
    assert path == HeadersOf(chain);
  }

  lemma {:induction false} CanonicalFound(r: Rules, w: World, s: State)
    requires Assumes(r, w) && Sane(r, w, s)
    ensures var chain, lookup := Canonical(r, s), NodeLookup(s, map[]);
            && (forall i :: 0 <= i < |chain| ==> chain[i].hash in lookup && lookup[chain[i].hash] == chain[i].header)
            && (forall i :: 0 < i < |chain| ==> chain[i].header.previousHash == chain[i - 1].hash)
            && 0 < |chain| && chain[|chain| - 1].hash == s.tip.hash && s.tip.hash in lookup
  {
    hide Sane, Assumes, NodeLookup;
    SaneTree(r, w, s);
    var chain, lookup := Canonical(r, s), NodeLookup(s, map[]);
    ChainShape(s.blocks, r.Genesis(), s.tip.hash);
    StoredAt(s.blocks, r.Genesis(), s.tip.hash);
    forall i | 0 <= i < |chain| ensures chain[i].hash in lookup && lookup[chain[i].hash] == chain[i].header {
      ChainPrefix(s.blocks, r.Genesis(), s.tip.hash, i);
      LookupStored(r, w, s, chain[i].hash);
    }
  }

  /** So under proof of authority no few signers can carry the node's chain on their own. */
  lemma {:induction false} CanonicalSigners(r: Rules, w: World, s: State, t: int, from: nat, n: nat, group: set<Key>)
    requires Assumes(r, w) && Sane(r, w, s) && RulesHeld(r.params, NodeLookup(s, map[]), t) && r.params.engine.Poa?
    requires 0 < from && from + n <= |Canonical(r, s)| && |group| <= |r.params.engine.authorities| / 2
    requires forall k :: from <= k < from + n ==>
      Canonical(r, s)[k].header.signer.Some? && Canonical(r, s)[k].header.signer.value in group
    ensures n <= |group|
  {
    hide Sane, Assumes, NodeLookup, RulesHeld, Verified, ChainOf, TreeOk;
    CanonicalVerifies(r, w, s, t);
    SaneTree(r, w, s);
    MinorityRunIsShort(r.params.(now := t), HeadersOf(Canonical(r, s)), from, n, group);
  }
}
