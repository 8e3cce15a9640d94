/**
 * The block producer: drain the mempool, execute on a snapshot, keep the transactions that
 * succeeded, sign and commit; an aborted block leaves no trace but the dropped failures.
 */
module Producer {
  import opened Numbers
  import opened Collections
  import opened Rules
  import opened ChainState
  import opened Executor
  import StateRoot
  import opened StateDb
  import opened TxExecutor
  import opened Blocks
  import opened ChainStore
  import opened Mempool
  import opened Node

  /** The configured private key, known by the address its public key derives. */
  datatype SigningKey = NoKey | UnreadableKey | PrivateKey(address: Address)

  // ---------------------------------------------------------------- receipts

  method CollectWinners(txs: seq<Tx>, receipts: seq<Receipt>, ghost verdicts: seq<bool>) returns (won: seq<Tx>)
    requires Judged(txs, verdicts, receipts)
    ensures won == Winners(txs, verdicts)
  {
    won := [];
    var i := 0;
    while i < |txs|
      invariant 0 <= i <= |txs| && won == Winners(txs[..i], verdicts[..i])
    {
      assert txs[..i + 1][..i] == txs[..i] && verdicts[..i + 1][..i] == verdicts[..i];
      if receipts[i].error.None? {
        won := won + [txs[i]];
      }
      i := i + 1;
    }
    assert txs[..i] == txs && verdicts[..i] == verdicts;
  }

  /** The number of successes before position i. */
  ghost function Rank(verdicts: seq<bool>, i: nat): nat
    requires i <= |verdicts|
  {
    if i == 0 then 0 else Rank(verdicts, i - 1) + if verdicts[i - 1] then 1 else 0
  }

  /** A successful transaction stands in the block at its rank. */
  lemma {:induction false} WinnerAt(txs: seq<Tx>, verdicts: seq<bool>, i: nat)
    requires |txs| == |verdicts| && i < |txs| && verdicts[i]
    ensures Rank(verdicts, i) < |Winners(txs, verdicts)| && Winners(txs, verdicts)[Rank(verdicts, i)] == txs[i]
    ensures |Winners(txs, verdicts)| == Rank(verdicts, |verdicts|)
    decreases |txs|
  {
    var n := |txs| - 1;
    WinnerCount(txs[..n], verdicts[..n]);
    RankPrefix(verdicts, n, n);
    if i < n {
      WinnerAt(txs[..n], verdicts[..n], i);
      RankPrefix(verdicts, n, i);
    }
  }

  lemma {:induction false} WinnerCount(txs: seq<Tx>, verdicts: seq<bool>)
    requires |txs| == |verdicts|
    ensures |Winners(txs, verdicts)| == Rank(verdicts, |verdicts|)
    decreases |txs|
  {
    if txs != [] {
      var n := |txs| - 1;
      WinnerCount(txs[..n], verdicts[..n]);
      RankPrefix(verdicts, n, n);
    }
  }

  lemma {:induction false} RankPrefix(verdicts: seq<bool>, n: nat, i: nat)
    requires i <= n <= |verdicts|
    ensures Rank(verdicts[..n], i) == Rank(verdicts, i)
    decreases i
  {
    if i > 0 {
      RankPrefix(verdicts, n, i - 1);
    }
  }

  /** Tag receipts with the height; successful ones also with their position in the block. */
  method Tag(receipts: seq<Receipt>, height: nat, ghost txs: seq<Tx>, ghost verdicts: seq<bool>) returns (tagged: seq<StoredReceipt>)
    requires Judged(txs, verdicts, receipts)
    ensures |tagged| == |receipts|
    ensures forall i :: 0 <= i < |receipts| ==>
      tagged[i] == StoredReceipt(receipts[i], height, if verdicts[i] then Rank(verdicts, i) else 0)
  {
    tagged := [];
    var next := 0;
    var i := 0;
    while i < |receipts|
      invariant 0 <= i == |tagged| <= |receipts| && next == Rank(verdicts, i)
      invariant forall j :: 0 <= j < i ==>
        tagged[j] == StoredReceipt(receipts[j], height, if verdicts[j] then Rank(verdicts, j) else 0)
    {
      if receipts[i].error.None? {
        tagged := tagged + [StoredReceipt(receipts[i], height, next)];
        next := next + 1;
      } else {
        tagged := tagged + [StoredReceipt(receipts[i], height, 0)];
      }
      i := i + 1;
    }
  }

  lemma {:induction false} TaggedWinnersLocated(blocks: map<nat, Block>, b: Block, txs: seq<Tx>, verdicts: seq<bool>,
                                               receipts: seq<Receipt>, tagged: seq<StoredReceipt>)
    requires Judged(txs, verdicts, receipts) && b.txs == Winners(txs, verdicts) && |tagged| == |receipts|
    requires forall i :: 0 <= i < |receipts| ==>
      tagged[i] == StoredReceipt(receipts[i], b.header.height, if verdicts[i] then Rank(verdicts, i) else 0)
    ensures forall i :: 0 <= i < |tagged| ==> Located(blocks[b.header.height := b], tagged[i])
  {
    hide Rank, Winners;
    forall i | 0 <= i < |tagged| ensures Located(blocks[b.header.height := b], tagged[i]) {
      if verdicts[i] {
        WinnerAt(txs, verdicts, i);
      }
    }
  }

  lemma {:induction false} TaggedFailuresLocated(blocks: map<nat, Block>, txs: seq<Tx>, verdicts: seq<bool>,
                                                receipts: seq<Receipt>, tagged: seq<StoredReceipt>)
    requires Judged(txs, verdicts, receipts) && Winners(txs, verdicts) == [] && |tagged| == |receipts|
    requires forall i :: 0 <= i < |receipts| ==> tagged[i].receipt == receipts[i]
    ensures forall i :: 0 <= i < |tagged| ==> Located(blocks, tagged[i])
  {
    WinnersExact(txs, verdicts);
  }

  // ---------------------------------------------------------------- producing

  class BlockProducer {
    const bc: Blockchain
    const exec: TxExecutor
    const pool: Mempool
    /** The canonical proposer, if consensus is configured, and this node's own address and key. */
    const canonical: Option<Address>
    const proposer: Address
    const key: SigningKey

    constructor (bc: Blockchain, exec: TxExecutor, pool: Mempool, canonical: Option<Address>, proposer: Address, key: SigningKey)
      ensures this.bc == bc && this.exec == exec && this.pool == pool
      ensures this.canonical == canonical && this.proposer == proposer && this.key == key
    {
      this.bc, this.exec, this.pool := bc, exec, pool;
      this.canonical, this.proposer, this.key := canonical, proposer, key;
    }

    /** Build and sign the block for the current state; without a usable key there is none. */
    method Forge(won: seq<Tx>, now: int64, signs: bool) returns (block: Option<Block>)
      requires exec.Valid()
      ensures block.Some? <==> key.PrivateKey? && signs
      ensures block.Some? ==>
        var header := Header(HeightAfter(bc.tip), now, HashBefore(bc.tip), StateRoot.Root(exec.db.View()), RootOfTxs(won), proposer);
        block.value == Block(header, won, Commit(proposer, KeyOf(key.address), Signed(key.address, HeaderHash(header))), HeaderHash(header))
    {
      hide StateDB.Valid, StateDB.View, StateRoot.Root, RootOfTxs;
      var root := exec.db.ComputeStateRoot();
      var txRoot := ComputeTxRoot(won);
      var header := Header(HeightAfter(bc.tip), now, HashBefore(bc.tip), root, txRoot, proposer);
      var hash := HeaderHash(header);
      if key.NoKey? || key.UnreadableKey? || !signs {
        return None;
      }
      block := Some(Block(header, won, Commit(proposer, KeyOf(key.address), Signed(key.address, hash)), hash));
    }

    /** Sign and commit the block with its receipts. */
    method TryCommit(won: seq<Tx>, now: int64, receipts: seq<Receipt>, signs: bool, flushed: bool,
                     ghost txs: seq<Tx>, ghost verdicts: seq<bool>) returns (block: Option<Block>)
      requires bc.Valid() && exec.Valid() && bc.store !in exec.db.Repr() && bc !in exec.db.Repr()
      requires Judged(txs, verdicts, receipts) && won == Winners(txs, verdicts)
      modifies bc, bc.store
      ensures bc.Valid()
      ensures block.Some? <==> key.PrivateKey? && signs && flushed
      ensures block.None? ==> bc.Chain() == old(bc.Chain())
      ensures block.Some? ==>
        var header := Header(HeightAfter(old(bc.tip)), now, HashBefore(old(bc.tip)), StateRoot.Root(old(exec.db.View())), RootOfTxs(won), proposer);
        && block.value == Block(header, won, Commit(proposer, KeyOf(key.address), Signed(key.address, HeaderHash(header))), HeaderHash(header))
        && bc.Chain() == old(bc.Chain()) + [block.value]
      ensures old(bc.store.ReceiptsOk()) ==> bc.store.ReceiptsOk()
    {
      hide StateDB.Valid, StateDB.View, StateRoot.Root, RootOfTxs, Blockchain.Valid, Blockchain.Chain, Located, Rank, Winners;
      block := Forge(won, now, signs);
      if block.None? {
        return;
      }
      var b := block.value;
      var tagged := Tag(receipts, b.header.height, txs, verdicts);
      TaggedWinnersLocated(bc.store.blocks, b, txs, verdicts, receipts, tagged);
      var ok := bc.CommitBlock(b, tagged, flushed);
      if !ok {
        return None;
      }
    }

    /** Nothing succeeded: the state is unchanged, so the snapshot is dropped and the receipts are stored. */
    method GiveUp(snapshot: nat, receipts: seq<Receipt>, writable: nat, ghost txs: seq<Tx>, ghost verdicts: seq<bool>)
      requires bc.Valid() && exec.Valid() && bc.store !in exec.db.Repr() && bc !in exec.db.Repr()
      requires snapshot < |exec.db.Saved| && Judged(txs, verdicts, receipts) && Winners(txs, verdicts) == []
      modifies bc.store, exec`pending, exec`buffered, exec.db.Repr()
      ensures exec.Valid() && fresh(exec.db.Repr() - old(exec.db.Repr())) && exec.buffered == []
      ensures exec.db.View() == old(exec.db.View()) && exec.db.Saved == old(exec.db.Saved)[..snapshot]
      ensures bc.Valid() && bc.Chain() == old(bc.Chain())
      ensures old(bc.store.ReceiptsOk()) ==> bc.store.ReceiptsOk()
    {
      hide StateDB.Valid, StateDB.View, Blockchain.Valid, Blockchain.Chain, Located, Rank, Winners;
      exec.db.DiscardSnapshot(snapshot);
      exec.DiscardEvents();
      var height := HeightAfter(bc.tip);
      var tagged := Tag(receipts, height, txs, verdicts);
      TaggedFailuresLocated(bc.store.blocks, txs, verdicts, receipts, tagged);
      bc.StoreReceipts(tagged, writable);
    }

    /**
     * Execute a list of transactions and turn those that succeed into the next block.  Without a
     * block the state, snapshots, chain and bus are as before.
     */
    method Propose(txs: seq<Tx>, now: int64, signs: bool, flushed: bool, writable: nat) returns (block: Option<Block>, won: seq<Tx>)
      requires Ready(bc, exec)
      modifies bc, bc.store, exec, exec.db.Repr()
      ensures Ready(bc, exec) && fresh(exec.db.Repr() - old(exec.db.Repr())) && exec.db.Saved == old(exec.db.Saved)
      ensures won == Winners(txs, ExecuteBlock(exec.db.params, old(exec.db.View()), txs, now).verdicts)
      ensures block.Some? <==> won != [] && key.PrivateKey? && signs && flushed
      ensures block.None? ==> exec.db.View() == old(exec.db.View()) && bc.Chain() == old(bc.Chain()) && exec.published == old(exec.published)
      ensures block.Some? ==>
        var r := ExecuteBlock(exec.db.params, old(exec.db.View()), txs, now);
        && block.value == Proposal(exec.db.params, old(exec.db.View()), old(bc.tip), txs, now, proposer, key.address)
        && exec.db.View() == r.state && bc.Chain() == old(bc.Chain()) + [block.value]
        && exec.published == old(exec.published) + if exec.hasBus then Publish(block.value.header.height, r.events) else []
      ensures old(bc.store.ReceiptsOk()) ==> bc.store.ReceiptsOk()
    {
      hide StateDB.Valid, StateDB.View, StateRoot.Root, Executor.ExecuteBlock, RootOfTxs, Blockchain.Valid, Blockchain.Chain, Winners, Publish;
      ghost var r := ExecuteBlock(exec.db.params, exec.db.View(), txs, now);
      var snapshot, receipts := Begin(exec, txs, now);
      won := CollectWinners(txs, receipts, r.verdicts);
      if won == [] {
        NoWinnersNoChange(exec.db.params, old(exec.db.View()), txs, now);
        GiveUp(snapshot, receipts, writable, txs, r.verdicts);
        return None, [];
      }
      block := TryCommit(won, now, receipts, signs, flushed, txs, r.verdicts);
      if block.None? {
        Abort(exec, snapshot);
      } else {
        Seal(exec, snapshot, block.value.header.height);
      }
    }

    /**
     * One round: drain the pool and propose.  A committed block takes its transactions out of the
     * pool; an aborted one puts those that succeeded back, so that only failures are gone.
     */
    method ProduceBlock(now: int64, signs: bool, flushed: bool, writable: nat)
      returns (block: Option<Block>, txs: seq<Tx>, won: seq<Tx>)
      requires Ready(bc, exec) && pool.Valid() && pool !in exec.db.Repr()
      modifies pool, bc, bc.store, exec, exec.db.Repr()
      ensures Ready(bc, exec) && fresh(exec.db.Repr() - old(exec.db.Repr())) && exec.db.Saved == old(exec.db.Saved)
      ensures pool.Valid() && pool !in exec.db.Repr()
      ensures txs == if canonical.Some? && proposer != canonical.value then [] else old(FirstTxs(pool.byNonce))
      ensures won == Winners(txs, ExecuteBlock(exec.db.params, old(exec.db.View()), txs, now).verdicts)
      ensures block.Some? <==> won != [] && key.PrivateKey? && signs && flushed
      ensures block.None? ==> exec.db.View() == old(exec.db.View()) && bc.Chain() == old(bc.Chain()) && exec.published == old(exec.published)
      ensures block.Some? ==>
        var r := ExecuteBlock(exec.db.params, old(exec.db.View()), txs, now);
        && block.value == Proposal(exec.db.params, old(exec.db.View()), old(bc.tip), txs, now, proposer, key.address)
        && exec.db.View() == r.state && bc.Chain() == old(bc.Chain()) + [block.value]
        && exec.published == old(exec.published) + if exec.hasBus then Publish(block.value.header.height, r.events) else []
      ensures pool.pending == old(pool.pending) - if block.Some? then HashSet(txs) else HashSet(txs) - HashSet(won)
      ensures old(bc.store.ReceiptsOk()) ==> bc.store.ReceiptsOk()
    {
      hide StateDB.Valid, StateDB.View, Executor.ExecuteBlock, Winners, Publish, Proposal, Blockchain.Valid, Blockchain.Chain,
        Consistent, HashSet, WithAll, Ordered;
      NothingDrained(pool.pending);
      block, txs, won := None, [], [];
      if canonical.Some? && proposer != canonical.value {
        return;
      }
      txs := Drain(exec.db.params, exec.db.View(), now);
      if |txs| == 0 {
        return;
      }
      block, won := ProposeOrPutBack(txs, old(pool.pending), now, signs, flushed, writable);
    }

    /** Propose a drained batch, and put its successes back into the pool if no block comes of it. */
    method ProposeOrPutBack(txs: seq<Tx>, ghost whole: map<Hash, Tx>, now: int64, signs: bool, flushed: bool, writable: nat)
      returns (block: Option<Block>, won: seq<Tx>)
      requires Ready(bc, exec) && pool.Valid() && pool !in exec.db.Repr() && pool.pending == whole - HashSet(txs)
      requires var won := Winners(txs, ExecuteBlock(exec.db.params, exec.db.View(), txs, now).verdicts);
        WithAll(pool.pending, pool.maxSize, won) == whole - (HashSet(txs) - HashSet(won))
      modifies pool, bc, bc.store, exec, exec.db.Repr()
      ensures Ready(bc, exec) && fresh(exec.db.Repr() - old(exec.db.Repr())) && exec.db.Saved == old(exec.db.Saved)
      ensures pool.Valid() && pool !in exec.db.Repr()
      ensures won == Winners(txs, ExecuteBlock(exec.db.params, old(exec.db.View()), txs, now).verdicts)
      ensures block.Some? <==> won != [] && key.PrivateKey? && signs && flushed
      ensures block.None? ==> exec.db.View() == old(exec.db.View()) && bc.Chain() == old(bc.Chain()) && exec.published == old(exec.published)
      ensures block.Some? ==>
        var r := ExecuteBlock(exec.db.params, old(exec.db.View()), txs, now);
        && block.value == Proposal(exec.db.params, old(exec.db.View()), old(bc.tip), txs, now, proposer, key.address)
        && exec.db.View() == r.state && bc.Chain() == old(bc.Chain()) + [block.value]
        && exec.published == old(exec.published) + if exec.hasBus then Publish(block.value.header.height, r.events) else []
      ensures pool.pending == whole - if block.Some? then HashSet(txs) else HashSet(txs) - HashSet(won)
      ensures old(bc.store.ReceiptsOk()) ==> bc.store.ReceiptsOk()
    {
      hide StateDB.Valid, StateDB.View, Executor.ExecuteBlock, Winners, Publish, Proposal, Blockchain.Valid, Blockchain.Chain,
        Consistent, HashSet, WithAll, Ordered;
      block, won := Propose(txs, now, signs, flushed, writable);
      if block.None? {
        pool.ReinsertAll(won);
      }
    }

    /** Take the next batch out of the pool; its successes fit back in. */
    method Drain(ghost p: Params, ghost s: State, now: int64) returns (txs: seq<Tx>)
      requires pool.Valid()
      modifies pool
      ensures pool.Valid() && txs == old(FirstTxs(pool.byNonce)) && pool.pending == old(pool.pending) - HashSet(txs)
      ensures var won := Winners(txs, ExecuteBlock(p, s, txs, now).verdicts);
        WithAll(pool.pending, pool.maxSize, won) == old(pool.pending) - (HashSet(txs) - HashSet(won))
    {
      hide Consistent, HashSet, WithAll, Ordered, Executor.ExecuteBlock, Winners;
      txs := pool.DrainForBlock(MAX_TXS_PER_BLOCK);
      PutBack(old(pool.pending), old(pool.byNonce), pool.maxSize, |txs|, ExecuteBlock(p, s, txs, now).verdicts);
    }
  }

  /** What a block takes from the pool: the first transactions in drain order. */
  ghost function FirstTxs(queues: map<Address, seq<Tx>>): seq<Tx> {
    Ordered(queues)[..Clamp(MAX_TXS_PER_BLOCK, |Ordered(queues)|)]
  }

  lemma {:induction false} NothingDrained(pending: map<Hash, Tx>)
    ensures Winners([], []) == [] && pending - (HashSet([]) - HashSet([])) == pending && pending - HashSet([]) == pending
  {}

  lemma {:induction false} WinnersDistinct(txs: seq<Tx>, verdicts: seq<bool>)
    requires |txs| == |verdicts| && HashesDistinct(txs)
    ensures HashesDistinct(Winners(txs, verdicts))
    decreases |txs|
  {
    if txs != [] {
      var n := |txs| - 1;
      var before := Winners(txs[..n], verdicts[..n]);
      WinnersDistinct(txs[..n], verdicts[..n]);
      forall i | 0 <= i < |before| ensures before[i].hash != txs[n].hash {
        WinnersExact(txs[..n], verdicts[..n]);
        assert before[i] in before;
        var j :| 0 <= j < n && txs[..n][j] == before[i];
        assert txs[j].hash != txs[n].hash;
      }
    }
  }

  /** Putting the winners of a drained batch back removes exactly the losers from the pool. */
  lemma {:induction false} PutBack(pending: map<Hash, Tx>, queues: map<Address, seq<Tx>>, maxSize: nat, k: nat, verdicts: seq<bool>)
    requires Consistent(pending, queues) && |pending| <= maxSize && k <= |Ordered(queues)| && |verdicts| == k
    ensures var txs := Ordered(queues)[..k]; var won := Winners(txs, verdicts);
      WithAll(pending - HashSet(txs), maxSize, won) == pending - (HashSet(txs) - HashSet(won))
  {
    hide Consistent, Ordered, WithAll, Joined, Winners;
    var txs := Ordered(queues)[..k];
    var won := Winners(txs, verdicts);
    OrderedDistinct(pending, queues);
    WinnersDistinct(txs, verdicts);
    WinnersExact(txs, verdicts);
    forall i | 0 <= i < |won| ensures won[i].hash in HashSet(txs) && won[i].hash in pending && pending[won[i].hash] == won[i] {
      assert won[i] in won;
      var j :| 0 <= j < k && txs[j] == won[i];
      assert Ordered(queues)[j] in Ordered(queues);
      OrderedMembers(pending, queues, won[i]);
    }
    ReinsertLosesNone(pending, pending - HashSet(txs), maxSize, won);
    JoinedBack(pending, HashSet(txs), won);
  }
}
