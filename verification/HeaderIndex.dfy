/**
 * The index of validated headers with their cumulative work (src/node/node.ts:1159-1193), and
 * the standing assumption on hashes that everything a node stores is built on.
 */
module HeaderIndex {

  import opened Ledger
  import opened Consensus
  import opened HeaderChain
  import opened Store
  import opened Tree
  import opened UtxoSets

  type Headers = map<Hash, IndexedHeader>

  // ---------------------------------------------------------------- what hashes bind

  /** The headers and blocks that can ever reach the node. */
  datatype World = World(headers: iset<Header>, blocks: iset<Block>)

  /** Among the headers that reach the node no two share a hash, targets are 256-bit numbers, and every
      block names the hash of its own header; its body may be anything. */
  ghost predicate HashesBind(c: Crypto, w: World) {
    && (forall a, b :: a in w.headers && b in w.headers && c.blockHash(a) == c.blockHash(b) ==> a == b)
    && (forall a :: a in w.headers ==> a.difficultyTarget <= MAX_TARGET)
    && (forall b :: b in w.blocks ==> b.header in w.headers && b.hash == c.blockHash(b.header))
  }

  lemma {:induction false} OneHeader(c: Crypto, w: World, a: Header, b: Header)
    requires HashesBind(c, w) && a in w.headers && b in w.headers && c.blockHash(a) == c.blockHash(b)
    ensures a == b
  {
  }

  lemma {:induction false} BlockHeader(c: Crypto, w: World, b: Block)
    requires HashesBind(c, w) && b in w.blocks
    ensures b.header in w.headers && c.blockHash(b.header) == b.hash && b.header.difficultyTarget <= MAX_TARGET
  {
  }

  // ---------------------------------------------------------------- the index

  /** Indexed under its own hash, one above an indexed parent unless it is genesis, with the work of the path to it. */
  predicate HeaderOk(c: Crypto, e: Engine, genesis: Hash, headers: Headers, h: Hash)
    requires h in headers
  {
    var i := headers[h];
    && c.blockHash(i.header) == h
    && 0 <= i.header.height
    && (i.header.height == 0 <==> h == genesis)
    && (i.header.height == 0 ==> i.work == BlockWork(e, i.header))
    && (0 < i.header.height ==>
        && i.header.previousHash in headers
        && headers[i.header.previousHash].header.height == i.header.height - 1
        && i.work == headers[i.header.previousHash].work + BlockWork(e, i.header))
  }

  predicate HeadersOk(c: Crypto, e: Engine, genesis: Hash, headers: Headers) {
    forall h {:trigger HeaderOk(c, e, genesis, headers, h)} :: h in headers ==> HeaderOk(c, e, genesis, headers, h)
  }

  /** The indexed headers from genesis to `h`. */
  function HeaderPath(c: Crypto, e: Engine, genesis: Hash, headers: Headers, h: Hash): seq<ChainHeader>
    requires HeadersOk(c, e, genesis, headers) && h in headers
    decreases headers[h].header.height
  {
    assert HeaderOk(c, e, genesis, headers, h);
    var last := ChainHeader(h, headers[h].header);
    if headers[h].header.height <= 0 then [last]
    else HeaderPath(c, e, genesis, headers, headers[h].header.previousHash) + [last]
  }

  /** Every indexed header's work is the sum of the block weights along its ancestry. */
  lemma {:induction false} WorkIsSum(c: Crypto, e: Engine, genesis: Hash, headers: Headers, h: Hash)
    requires HeadersOk(c, e, genesis, headers) && h in headers
    ensures headers[h].work == ChainWork(e, HeaderPath(c, e, genesis, headers, h))
    ensures |HeaderPath(c, e, genesis, headers, h)| == headers[h].header.height + 1
    ensures HeaderPath(c, e, genesis, headers, h)[0].hash == genesis
    decreases headers[h].header.height
  {
    assert HeaderOk(c, e, genesis, headers, h);
    var path, last := HeaderPath(c, e, genesis, headers, h), ChainHeader(h, headers[h].header);
    if headers[h].header.height == 0 {
      assert path[..0] == [];
    } else {
      var parent := headers[h].header.previousHash;
      WorkIsSum(c, e, genesis, headers, parent);
      assert path[..|path| - 1] == HeaderPath(c, e, genesis, headers, parent);
    }
  }

  /** Indexing a child of an indexed header keeps the index right. */
  lemma {:induction false} IndexChild(c: Crypto, e: Engine, genesis: Hash, headers: Headers, header: Header)
    requires HeadersOk(c, e, genesis, headers) && header.previousHash in headers
    requires header.height == headers[header.previousHash].header.height + 1
    requires c.blockHash(header) !in headers && c.blockHash(header) != genesis
    ensures HeadersOk(c, e, genesis,
                      headers[c.blockHash(header) :=
                        IndexedHeader(header, headers[header.previousHash].work + BlockWork(e, header))])
  {
    var hash := c.blockHash(header);
    var more := headers[hash := IndexedHeader(header, headers[header.previousHash].work + BlockWork(e, header))];
    assert HeaderOk(c, e, genesis, headers, header.previousHash);
    forall h | h in more ensures HeaderOk(c, e, genesis, more, h) {
      if h in headers {
        assert HeaderOk(c, e, genesis, headers, h);
      }
    }
  }

  lemma {:induction false} IndexGenesis(c: Crypto, e: Engine, genesis: Hash, headers: Headers, header: Header)
    requires HeadersOk(c, e, genesis, headers) && header.height == 0 && c.blockHash(header) == genesis
    requires genesis !in headers
    ensures HeadersOk(c, e, genesis, headers[genesis := IndexedHeader(header, BlockWork(e, header))])
  {
    var more := headers[genesis := IndexedHeader(header, BlockWork(e, header))];
    forall h | h in more ensures HeaderOk(c, e, genesis, more, h) {
      if h in headers {
        assert HeaderOk(c, e, genesis, headers, h);
      }
    }
  }

  predicate Extends(headers: Headers, more: Headers) {
    forall h :: h in headers ==> h in more && more[h] == headers[h]
  }

  // ---------------------------------------------------------------- blocks and headers together

  /** Everything stored or indexed comes from the world, and both views of a hash agree. */
  ghost predicate FromWorld(w: World, s: State) {
    && (forall h :: h in s.blocks ==> s.blocks[h] in w.blocks)
    && (forall h :: h in s.headers ==> s.headers[h].header in w.headers)
  }

  lemma {:induction false} ViewsAgree(c: Crypto, e: Engine, w: World, genesis: Hash, s: State, h: Hash)
    requires HashesBind(c, w) && FromWorld(w, s) && TreeOk(s.blocks, genesis) && HeadersOk(c, e, genesis, s.headers)
    requires h in s.blocks && h in s.headers
    ensures s.headers[h].header == s.blocks[h].header
  {
    assert BlockOk(s.blocks, genesis, h);
    assert HeaderOk(c, e, genesis, s.headers, h);
    BlockHeader(c, w, s.blocks[h]);
    OneHeader(c, w, s.headers[h].header, s.blocks[h].header);
  }

  /** A run of stored blocks without index entries, each the parent of the one before it. */
  predicate Unindexed(s: State, hash: Hash, pending: seq<Block>) {
    && (|pending| > 0 ==> pending[0].hash == hash)
    && (forall i :: 0 <= i < |pending| ==>
          pending[i].hash in s.blocks && s.blocks[pending[i].hash] == pending[i] && pending[i].hash !in s.headers)
    && (forall i :: 0 <= i < |pending| - 1 ==>
      pending[i].header.previousHash == pending[i + 1].hash && pending[i].header.height > 0)
  }

  /** Where the walk stands after `pending`. */
  function CursorAfter(hash: Hash, pending: seq<Block>): Hash {
    if |pending| == 0 then hash else pending[|pending| - 1].header.previousHash
  }

  lemma {:induction false} WalkFurther(s: State, genesis: Hash, hash: Hash, pending: seq<Block>)
    requires Unindexed(s, hash, pending) && TreeOk(s.blocks, genesis)
    requires |pending| > 0 ==> pending[|pending| - 1].header.height > 0
    requires CursorAfter(hash, pending) !in s.headers && CursorAfter(hash, pending) in s.blocks
    ensures Unindexed(s, hash, pending + [s.blocks[CursorAfter(hash, pending)]])
  {
    assert BlockOk(s.blocks, genesis, CursorAfter(hash, pending));
  }

  /** What the forward pass has done once every pending block from `n` on is indexed. */
  ghost predicate Filled(
    c: Crypto, e: Engine, w: World, genesis: Hash, s: State, now: State, pending: seq<Block>, n: nat, work: int) {
    && n <= |pending|
    && now == s.(headers := now.headers) && Extends(s.headers, now.headers)
    && HeadersOk(c, e, genesis, now.headers) && FromWorld(w, now)
    && (forall h :: h in now.headers ==> h in s.headers || h in s.blocks)
    && (forall i :: 0 <= i < n ==> pending[i].hash !in now.headers)
    && (n < |pending| ==> pending[n].hash in now.headers && now.headers[pending[n].hash].work == work
                          && now.headers[pending[n].hash].header == pending[n].header)
  }

  /** The work below the lowest pending block. */
  predicate WorkBelow(s: State, pending: seq<Block>, work: int) {
    |pending| > 0 &&
    (var low := pending[|pending| - 1];
     if low.header.height == 0 then work == 0
     else low.header.previousHash in s.headers && work == s.headers[low.header.previousHash].work)
  }

  lemma {:induction false} PendingDiffer(s: State, genesis: Hash, hash: Hash, pending: seq<Block>, i: nat, j: nat)
    requires Unindexed(s, hash, pending) && TreeOk(s.blocks, genesis) && i < j < |pending|
    ensures pending[j].header.height < pending[i].header.height
    decreases j
  {
    assert BlockOk(s.blocks, genesis, pending[j - 1].hash);
    if i < j - 1 {
      PendingDiffer(s, genesis, hash, pending, i, j - 1);
    }
  }

  /** The pending block `n - 1` can be indexed next. */
  lemma {:induction false} NextFits(
    c: Crypto, e: Engine, w: World, genesis: Hash, s: State, now: State, hash: Hash, pending: seq<Block>, n: nat,
    work: int)
    requires HashesBind(c, w) && FromWorld(w, s) && TreeOk(s.blocks, genesis)
    requires Unindexed(s, hash, pending) && 0 < n && Filled(c, e, w, genesis, s, now, pending, n, work)
    requires n == |pending| ==> WorkBelow(s, pending, work)
    ensures var b := pending[n - 1];
            HeadersOk(c, e, genesis, now.headers[b.hash := IndexedHeader(b.header, work + BlockWork(e, b.header))])
  {
    var b := pending[n - 1];
    StoredAt(s.blocks, genesis, b.hash);
    GenesisOnly(s.blocks, genesis, b.hash);
    BlockHeader(c, w, b);
    hide HashesBind, TreeOk, HeadersOk, BlockWork;
    if b.header.height == 0 {
      assert n == |pending|;
      IndexGenesis(c, e, genesis, now.headers, b.header);
    } else {
      if n == |pending| {
        ViewsAgree(c, e, w, genesis, now, b.header.previousHash);
      }
      IndexChild(c, e, genesis, now.headers, b.header);
    }
  }

  lemma {:induction false} GenesisOnly(blocks: Blocks, genesis: Hash, h: Hash)
    requires TreeOk(blocks, genesis) && h in blocks
    ensures blocks[h].header.height == 0 <==> h == genesis
  {
    assert BlockOk(blocks, genesis, h);
  }

  lemma {:induction false} FillNext(
    c: Crypto, e: Engine, w: World, genesis: Hash, s: State, now: State, hash: Hash, pending: seq<Block>, n: nat,
    work: int)
    requires HashesBind(c, w) && FromWorld(w, s) && TreeOk(s.blocks, genesis)
    requires Unindexed(s, hash, pending) && 0 < n && Filled(c, e, w, genesis, s, now, pending, n, work)
    requires n == |pending| ==> WorkBelow(s, pending, work)
    ensures var b := pending[n - 1];
            Filled(c, e, w, genesis, s,
                   now.(headers := now.headers[b.hash := IndexedHeader(b.header, work + BlockWork(e, b.header))]),
                   pending, n - 1, work + BlockWork(e, b.header))
  {
    NextFits(c, e, w, genesis, s, now, hash, pending, n, work);
    BlockHeader(c, w, pending[n - 1]);
    hide HashesBind, TreeOk, HeadersOk, BlockWork;
    forall i | 0 <= i < n - 1 ensures pending[i].hash != pending[n - 1].hash {
      PendingDiffer(s, genesis, hash, pending, i, n - 1);
    }
  }

  /** The stored blocks from `hash` down to the first indexed one below, and the work there. */
  method CollectUnindexed(genesis: Hash, db: Db, hash: Hash) returns (pending: seq<Block>, work: int)
    requires TreeOk(db.state.blocks, genesis) && hash in db.state.blocks && hash !in db.state.headers
    ensures Unindexed(db.state, hash, pending) && WorkBelow(db.state, pending, work)
  {
    hide TreeOk, Unindexed;
    pending := [];
    var cursor := hash;
    work := 0;
    assert Unindexed(db.state, hash, []) by { NoneUnindexed(db.state, hash); }
    while true
      invariant Unindexed(db.state, hash, pending) && cursor == CursorAfter(hash, pending)
      invariant |pending| > 0 ==> pending[|pending| - 1].header.height > 0
      invariant cursor in db.state.blocks && (cursor !in db.state.headers || |pending| > 0)
      decreases db.state.blocks[cursor].header.height
    {
      StoredAt(db.state.blocks, genesis, cursor);
      if cursor in db.state.headers {
        work := db.state.headers[cursor].work;
        break;
      }
      WalkFurther(db.state, genesis, hash, pending);
      var block := db.state.blocks[cursor];
      pending := pending + [block];
      if block.header.height == 0 {
        break;
      }
      cursor := block.header.previousHash;
    }
  }

  lemma {:induction false} NoneUnindexed(s: State, hash: Hash)
    ensures Unindexed(s, hash, [])
  {
  }

  lemma {:induction false} StoredAt(blocks: Blocks, genesis: Hash, h: Hash)
    requires TreeOk(blocks, genesis) && h in blocks
    ensures 0 <= blocks[h].header.height && blocks[h].hash == h
    ensures 0 < blocks[h].header.height ==>
      blocks[h].header.previousHash in blocks
      && blocks[blocks[h].header.previousHash].header.height == blocks[h].header.height - 1
  {
    assert BlockOk(blocks, genesis, h);
  }

  /**
   * The index entry of `hash`. A missing one is filled in from the stored blocks, down to the
   * first ancestor that has one and then up again; it is missing for good only when the block is too.
   */
  method GetIndexedHeader(
    c: Crypto, e: Engine, genesis: Hash, db: Db, hash: Hash, ghost w: World) returns (r: Option<IndexedHeader>)
    requires HashesBind(c, w) && FromWorld(w, db.state)
    requires TreeOk(db.state.blocks, genesis) && HeadersOk(c, e, genesis, db.state.headers)
    modifies db
    ensures db.state == old(db.state).(headers := db.state.headers)
    ensures HeadersOk(c, e, genesis, db.state.headers) && Extends(old(db.state.headers), db.state.headers)
    ensures FromWorld(w, db.state)
    ensures hash in old(db.state.headers) || r.None? ==> db.state == old(db.state)
    ensures r.Some? <==> hash in old(db.state.headers) || hash in old(db.state.blocks)
    ensures r.Some? ==> hash in db.state.headers && r.value == db.state.headers[hash]
    ensures forall h :: h in db.state.headers ==> h in old(db.state.headers) || h in old(db.state.blocks)
  {
    hide HashesBind, FromWorld, TreeOk, HeadersOk;
    if hash in db.state.headers {
      return Some(db.state.headers[hash]);
    }
    if hash !in db.state.blocks {
      return None;
    }
    ghost var was := db.state;
    var pending, work := CollectUnindexed(genesis, db, hash);
    var i: nat := |pending|;
    while i > 0
      invariant Filled(c, e, w, genesis, was, db.state, pending, i, work)
      invariant i == |pending| ==> WorkBelow(was, pending, work)
    {
      FillNext(c, e, w, genesis, was, db.state, hash, pending, i, work);
      i := i - 1;
      work := work + BlockWork(e, pending[i].header);
      db.state := db.state.(headers := db.state.headers[pending[i].hash := IndexedHeader(pending[i].header, work)]);
    }
    return Some(IndexedHeader(pending[0].header, work));
  }
}
