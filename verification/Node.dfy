/**
 * A node: blocks enter the chain through the producer or the processor, and a restart rebuilds
 * the state by replaying the stored blocks.  Every operation is proved against the block
 * specification, and keeps the state equal to what the chain says it is.
 */
module Node {
  import opened Numbers
  import opened Collections
  import opened ChainState
  import opened Executor
  import StateRoot
  import opened StateDb
  import opened TxExecutor
  import opened Blocks
  import opened ChainStore

  const DEFAULT_GENESIS_TIMESTAMP: int64 := 1735689600
  const MAX_TXS_PER_BLOCK := 500

  method CreateGenesisBlock(db: StateDB, timestamp: int64) returns (b: Block)
    requires db.Valid()
    ensures GenesisBlock(db.View(), b) && b.header.previous == NoBlock && b.header.proposer == db.params.admin
    ensures b.header.timestamp == if timestamp == 0 then DEFAULT_GENESIS_TIMESTAMP else timestamp
  {
    hide StateDB.Valid, StateDB.View, StateRoot.Root;
    var root := db.ComputeStateRoot();
    var header := Header(0, if timestamp == 0 then DEFAULT_GENESIS_TIMESTAMP else timestamp, NoBlock, root, EmptyTxRoot, db.params.admin);
    b := Block(header, [], Commit(ZERO_ADDRESS, MissingKey, Unsigned), HeaderHash(header));
  }

  // ---------------------------------------------------------------- what holds between operations

  /** The node's objects are sound and share nothing; no events wait between blocks. */
  ghost predicate Ready(bc: Blockchain, exec: TxExecutor)
    reads bc, bc.store, exec, exec.db, exec.db.Repr()
  {
    bc.Valid() && exec.Valid() && exec.buffered == [] && bc !in exec.db.Repr() && bc.store !in exec.db.Repr()
  }

  /** The stored chain is valid from the genesis state, and the database holds the state it leads to. */
  ghost predicate InSync(genesis: State, bc: Blockchain, exec: TxExecutor)
    reads bc, bc.store, exec, exec.db, exec.db.Repr()
  {
    && Ready(bc, exec) && bc.Chain() != []
    && ValidChain(exec.db.params, genesis, bc.Chain())
    && exec.db.View() == StateAfter(exec.db.params, genesis, bc.Chain()[1..])
  }

  /** A block that extends the tip and executes on the chain's state extends the valid chain. */
  lemma {:induction false} ChainGrows(p: Params, g: State, blocks: seq<Block>, b: Block)
    requires blocks != [] && ValidChain(p, g, blocks)
    requires Extends(TipOf(blocks), b) && b.header.txRoot == RootOfTxs(b.txs) && Executes(p, StateAfter(p, g, blocks[1..]), b)
    ensures ValidChain(p, g, blocks + [b])
    ensures StateAfter(p, g, (blocks + [b])[1..]) == ExecuteBlock(p, StateAfter(p, g, blocks[1..]), b.txs, b.header.timestamp).state
  {
    hide Executes, ExecuteBlock, RootOfTxs, GenesisBlock, Extends;
    var n := |blocks|;
    assert (blocks + [b])[..n] == blocks && (blocks + [b])[1..n] == blocks[1..];
    assert (blocks + [b])[1..] == blocks[1..] + [b];
    assert (blocks[1..] + [b])[..n - 1] == blocks[1..];
  }

  // ---------------------------------------------------------------- executing on a snapshot

  /** Execute a list of transactions on top of a snapshot of the state. */
  method Begin(exec: TxExecutor, txs: seq<Tx>, now: int64) returns (snapshot: nat, receipts: seq<Receipt>)
    requires exec.Valid() && exec.buffered == []
    modifies exec`pending, exec`buffered, exec.db.Repr()
    ensures exec.Valid() && fresh(exec.db.Repr() - old(exec.db.Repr()))
    ensures snapshot == |old(exec.db.Saved)| && exec.db.Saved == old(exec.db.Saved) + [old(exec.db.View())]
    ensures |receipts| == |txs|
    ensures var r := ExecuteBlock(exec.db.params, old(exec.db.View()), txs, now);
      && exec.db.View() == r.state
      && Judged(txs, r.verdicts, receipts)
      && exec.buffered == if exec.hasBus then r.events else []
  {
    hide StateDB.Valid, StateDB.View, Executor.ExecuteBlock;
    snapshot := exec.db.Snapshot();
    receipts := exec.ExecuteBlock(txs, now);
  }

  /** Go back to the snapshot and forget the events. */
  method Abort(exec: TxExecutor, snapshot: nat)
    requires exec.Valid() && snapshot < |exec.db.Saved|
    modifies exec`pending, exec`buffered, exec.db.Repr()
    ensures exec.Valid() && fresh(exec.db.Repr() - old(exec.db.Repr()))
    ensures exec.db.View() == old(exec.db.Saved)[snapshot] && exec.db.Saved == old(exec.db.Saved)[..snapshot] && exec.buffered == []
  {
    hide StateDB.Valid, StateDB.View;
    var restored := exec.db.Revert(snapshot);
    exec.DiscardEvents();
  }

  /** Keep the state, drop the snapshot and publish the events. */
  method Seal(exec: TxExecutor, snapshot: nat, height: nat)
    requires exec.Valid() && snapshot < |exec.db.Saved|
    modifies exec, exec.db.Repr()
    ensures exec.Valid() && fresh(exec.db.Repr() - old(exec.db.Repr()))
    ensures exec.db.View() == old(exec.db.View()) && exec.db.Saved == old(exec.db.Saved)[..snapshot] && exec.buffered == []
    ensures exec.published == old(exec.published) + if exec.hasBus then Publish(height, old(exec.buffered)) else []
  {
    hide StateDB.Valid, StateDB.View, Publish;
    exec.db.DiscardSnapshot(snapshot);
    exec.FlushEvents(height);
  }

  // ---------------------------------------------------------------- following

  /** Every receipt tagged with the height and its own position. */
  method TagAll(receipts: seq<Receipt>, height: nat) returns (ok: bool, tagged: seq<StoredReceipt>)
    ensures ok <==> forall i :: 0 <= i < |receipts| ==> receipts[i].error.None?
    ensures ok ==> |tagged| == |receipts| && forall i :: 0 <= i < |receipts| ==> tagged[i] == StoredReceipt(receipts[i], height, i)
  {
    tagged := [];
    var i := 0;
    while i < |receipts|
      invariant 0 <= i == |tagged| <= |receipts|
      invariant forall j :: 0 <= j < i ==> receipts[j].error.None? && tagged[j] == StoredReceipt(receipts[j], height, j)
    {
      if receipts[i].error.Some? {
        return false, [];
      }
      tagged := tagged + [StoredReceipt(receipts[i], height, i)];
      i := i + 1;
    }
    ok := true;
  }

  /** Tagged receipts of a block locate its transactions. */
  lemma {:induction false} TaggedLocated(blocks: map<nat, Block>, b: Block, tagged: seq<StoredReceipt>)
    requires |tagged| == |b.txs|
    requires forall i :: 0 <= i < |tagged| ==>
      tagged[i].height == b.header.height && tagged[i].index == i && tagged[i].receipt.tx == b.txs[i].hash
    ensures forall i :: 0 <= i < |tagged| ==> Located(blocks[b.header.height := b], tagged[i])
  {}

  class BlockProcessor {
    const bc: Blockchain
    const exec: TxExecutor

    constructor (bc: Blockchain, exec: TxExecutor)
      ensures this.bc == bc && this.exec == exec
    {
      this.bc, this.exec := bc, exec;
    }

    /** Every check that needs no execution. */
    method Validate(block: Block, tip: Option<Block>) returns (ok: bool)
      ensures ok <==>
        && (tip.Some? ==> block.header.previous == tip.value.hash && block.header.height == tip.value.header.height + 1)
        && block.hash == HeaderHash(block.header) && ProperlySigned(exec.db.params.admin, block)
        && block.header.txRoot == RootOfTxs(block.txs) && AllAuthentic(block.txs)
    {
      var h, c := block.header, block.commit;
      if tip.Some? {
        if h.previous != tip.value.hash {
          return false;
        }
        if h.height != tip.value.header.height + 1 {
          return false;
        }
      }
      if block.hash != HeaderHash(h) || h.proposer != exec.db.params.admin || c.proposer != h.proposer {
        return false;
      }
      if c.key.MissingKey? || c.key.MalformedKey? || c.key.address != c.proposer {
        return false;
      }
      if c.signature != Signed(c.key.address, block.hash) {
        return false;
      }
      var root := ComputeTxRoot(block.txs);
      if root != h.txRoot {
        return false;
      }
      var i := 0;
      while i < |block.txs|
        invariant 0 <= i <= |block.txs| && AllAuthentic(block.txs[..i])
      {
        if !block.txs[i].authentic {
          return false;
        }
        i := i + 1;
      }
      ok := true;
    }

    /** Commit the block if every receipt is a success and the state has the declared root. */
    method TryCommit(block: Block, receipts: seq<Receipt>, flushed: bool) returns (ok: bool)
      requires bc.Valid() && exec.Valid()
      requires |receipts| == |block.txs| && forall i :: 0 <= i < |receipts| ==> receipts[i].tx == block.txs[i].hash
      modifies bc, bc.store
      ensures bc.Valid()
      ensures ok <==>
        && flushed && Extends(old(bc.tip), block) && StateRoot.Root(old(exec.db.View())) == block.header.stateRoot
        && forall i :: 0 <= i < |receipts| ==> receipts[i].error.None?
      ensures bc.Chain() == old(bc.Chain()) + if ok then [block] else []
      ensures old(bc.store.ReceiptsOk()) ==> bc.store.ReceiptsOk()
    {
      hide StateDB.Valid, StateDB.View, StateRoot.Root, Blockchain.Valid, Blockchain.Chain, Located, Extends;
      var allPassed, tagged := TagAll(receipts, block.header.height);
      if !allPassed {
        return false;
      }
      var root := exec.db.ComputeStateRoot();
      if root != block.header.stateRoot {
        return false;
      }
      TaggedLocated(bc.store.blocks, block, tagged);
      ok := bc.CommitBlock(block, tagged, flushed);
    }

    /** Execute on a snapshot, compare the root, commit; anything that goes wrong is rolled back. */
    method Apply(block: Block, flushed: bool) returns (ok: bool)
      requires Ready(bc, exec)
      modifies bc, bc.store, exec, exec.db.Repr()
      ensures Ready(bc, exec) && fresh(exec.db.Repr() - old(exec.db.Repr())) && exec.db.Saved == old(exec.db.Saved)
      ensures ok <==> flushed && Extends(old(bc.tip), block) && Executes(exec.db.params, old(exec.db.View()), block)
      ensures old(bc.store.ReceiptsOk()) ==> bc.store.ReceiptsOk()
      ensures !ok ==> exec.db.View() == old(exec.db.View()) && bc.Chain() == old(bc.Chain()) && exec.published == old(exec.published)
      ensures ok ==>
        var r := ExecuteBlock(exec.db.params, old(exec.db.View()), block.txs, block.header.timestamp);
        && exec.db.View() == r.state && bc.Chain() == old(bc.Chain()) + [block]
        && exec.published == old(exec.published) + if exec.hasBus then Publish(block.header.height, r.events) else []
    {
      hide StateDB.Valid, StateDB.View, StateRoot.Root, Executor.ExecuteBlock, Blockchain.Valid, Blockchain.Chain, Located, Extends, Publish;
      var snapshot, receipts := Begin(exec, block.txs, block.header.timestamp);
      ok := TryCommit(block, receipts, flushed);
      if ok {
        Seal(exec, snapshot, block.header.height);
      } else {
        Abort(exec, snapshot);
      }
    }

    /**
     * A block above the tip enters the chain exactly when it is acceptable on the current state
     * and the store takes it.  Any other block leaves state, snapshots, chain and bus as they were.
     */
    method ProcessBlock(block: Block, flushed: bool) returns (ok: bool)
      requires Ready(bc, exec)
      modifies bc, bc.store, exec, exec.db.Repr()
      ensures Ready(bc, exec) && fresh(exec.db.Repr() - old(exec.db.Repr())) && exec.db.Saved == old(exec.db.Saved)
      ensures old(bc.store.ReceiptsOk()) ==> bc.store.ReceiptsOk()
      ensures var stale := old(bc.tip).Some? && block.header.height <= old(bc.tip).value.header.height;
        var r := ExecuteBlock(exec.db.params, old(exec.db.View()), block.txs, block.header.timestamp);
        if stale || !flushed || !Acceptable(exec.db.params, old(exec.db.View()), old(bc.tip), block) then
          && ok == stale
          && exec.db.View() == old(exec.db.View()) && bc.Chain() == old(bc.Chain()) && exec.published == old(exec.published)
        else
          && ok
          && exec.db.View() == r.state && bc.Chain() == old(bc.Chain()) + [block]
          && exec.published == old(exec.published) + if exec.hasBus then Publish(block.header.height, r.events) else []
    {
      hide Executor.ExecuteBlock, RootOfTxs, AllAuthentic, ProperlySigned, Executes, Ready, Publish;
      var tip := bc.tip;
      if tip.Some? && block.header.height <= tip.value.header.height {
        return true;
      }
      ok := Validate(block, tip);
      if !ok {
        return false;
      }
      ok := Apply(block, flushed);
    }
  }

  // ---------------------------------------------------------------- replaying

  ghost predicate Present(blocks: map<nat, Block>, n: nat) {
    forall h: nat :: 1 <= h <= n ==> h in blocks
  }

  /** The blocks stored at heights 1 to n. */
  ghost function Stored(blocks: map<nat, Block>, n: nat): (r: seq<Block>)
    requires Present(blocks, n)
    ensures |r| == n && forall i :: 0 <= i < n ==> r[i] == blocks[i + 1]
  {
    seq(n, i requires i + 1 in blocks => blocks[i + 1])
  }

  /** Re-executing the blocks from state s meets no failed transaction. */
  ghost predicate Replays(p: Params, s: State, blocks: seq<Block>) {
    if blocks == [] then true
    else
      var n := |blocks| - 1;
      && Replays(p, s, blocks[..n])
      && AllTrue(ExecuteBlock(p, StateAfter(p, s, blocks[..n]), blocks[n].txs, blocks[n].header.timestamp).verdicts)
  }

  lemma {:induction false} ReplaysPrefix(p: Params, s: State, blocks: seq<Block>, k: nat)
    requires Replays(p, s, blocks) && k <= |blocks|
    ensures Replays(p, s, blocks[..k])
    decreases |blocks|
  {
    hide ExecuteBlock, AllTrue;
    if k == |blocks| {
      assert blocks[..k] == blocks;
    } else {
      ReplaysPrefix(p, s, blocks[..|blocks| - 1], k);
      assert blocks[..|blocks| - 1][..k] == blocks[..k];
    }
  }

  /** Re-execute one stored block; its events are dropped. */
  method ReplayOne(exec: TxExecutor, block: Block) returns (ok: bool)
    requires exec.Valid() && exec.buffered == []
    modifies exec`pending, exec`buffered, exec.db.Repr()
    ensures exec.Valid() && fresh(exec.db.Repr() - old(exec.db.Repr())) && exec.db.Saved == old(exec.db.Saved)
    ensures var r := ExecuteBlock(exec.db.params, old(exec.db.View()), block.txs, block.header.timestamp);
      exec.db.View() == r.state && ok == AllTrue(r.verdicts)
    ensures ok ==> exec.buffered == []
  {
    hide StateDB.Valid, StateDB.View, Executor.ExecuteBlock;
    var receipts := exec.ExecuteBlock(block.txs, block.header.timestamp);
    var i := 0;
    while i < |receipts|
      invariant 0 <= i <= |receipts| && forall j :: 0 <= j < i ==> receipts[j].error.None?
    {
      if receipts[i].error.Some? {
        return false;
      }
      i := i + 1;
    }
    exec.DiscardEvents();
    ok := true;
  }

  /** One more stored block. */
  lemma {:induction false} StoredGrows(p: Params, s: State, blocks: map<nat, Block>, h: nat)
    requires Present(blocks, h + 1)
    ensures Present(blocks, h)
    ensures StateAfter(p, s, Stored(blocks, h + 1)) ==
      ExecuteBlock(p, StateAfter(p, s, Stored(blocks, h)), blocks[h + 1].txs, blocks[h + 1].header.timestamp).state
    ensures Replays(p, s, Stored(blocks, h + 1)) <==>
      && Replays(p, s, Stored(blocks, h))
      && AllTrue(ExecuteBlock(p, StateAfter(p, s, Stored(blocks, h)), blocks[h + 1].txs, blocks[h + 1].header.timestamp).verdicts)
  {
    hide ExecuteBlock, AllTrue;
    assert Stored(blocks, h + 1)[..h] == Stored(blocks, h);
  }

  lemma {:induction false} StoredFails(p: Params, s: State, blocks: map<nat, Block>, h: nat, n: nat)
    requires h <= n && Present(blocks, n) && !Replays(p, s, Stored(blocks, h))
    ensures !Replays(p, s, Stored(blocks, n))
  {
    hide Replays;
    assert Stored(blocks, n)[..h] == Stored(blocks, h);
    if Replays(p, s, Stored(blocks, n)) {
      ReplaysPrefix(p, s, Stored(blocks, n), h);
    }
  }

  /** The stored chain re-executes from state s to a state with the root in the tip's header. */
  ghost predicate Rebuilds(p: Params, s: State, blocks: map<nat, Block>, tip: Block) {
    && Present(blocks, tip.header.height)
    && Replays(p, s, Stored(blocks, tip.header.height))
    && StateRoot.Root(StateAfter(p, s, Stored(blocks, tip.header.height))) == tip.header.stateRoot
  }

  /** Rebuild the state from the stored blocks; succeeds exactly when all re-execute to the tip's root. */
  method Replay(bc: Blockchain, exec: TxExecutor) returns (ok: bool)
    requires exec.Valid() && exec.buffered == [] && bc !in exec.db.Repr() && bc.store !in exec.db.Repr()
    modifies exec`pending, exec`buffered, exec.db.Repr()
    ensures exec.Valid() && fresh(exec.db.Repr() - old(exec.db.Repr())) && exec.db.Saved == old(exec.db.Saved)
    ensures var young := bc.tip.None? || bc.tip.value.header.height == 0;
      && (ok <==> young || Rebuilds(exec.db.params, old(exec.db.View()), bc.store.blocks, bc.tip.value))
      && (young ==> exec.db.View() == old(exec.db.View()))
      && (ok && !young ==>
            exec.db.View() == StateAfter(exec.db.params, old(exec.db.View()), Stored(bc.store.blocks, bc.tip.value.header.height)))
    ensures ok ==> exec.buffered == []
  {
    hide StateDB.Valid, StateDB.View, StateRoot.Root, Executor.ExecuteBlock, StateAfter, Replays, AllTrue;
    if bc.tip.None? || bc.tip.value.header.height == 0 {
      return true;
    }
    var height := bc.tip.value.header.height;
    ghost var p, s, blocks := exec.db.params, exec.db.View(), bc.store.blocks;
    ReplayNothing(p, s, blocks);
    var h := 1;
    while h <= height
      invariant 1 <= h <= height + 1 && bc.store.blocks == blocks
      invariant exec.Valid() && fresh(exec.db.Repr() - old(exec.db.Repr())) && exec.db.Saved == old(exec.db.Saved)
      invariant exec.buffered == [] && Present(blocks, h - 1)
      invariant exec.db.View() == StateAfter(p, s, Stored(blocks, h - 1)) && Replays(p, s, Stored(blocks, h - 1))
    {
      if h !in bc.store.blocks {
        return false;
      }
      StoredGrows(p, s, blocks, h - 1);
      ok := ReplayOne(exec, bc.store.blocks[h]);
      if !ok {
        if Present(blocks, height) {
          StoredFails(p, s, blocks, h, height);
        }
        return false;
      }
      h := h + 1;
    }
    var root := exec.db.ComputeStateRoot();
    ok := root == bc.tip.value.header.stateRoot;
  }

  lemma {:induction false} ReplayNothing(p: Params, s: State, blocks: map<nat, Block>)
    ensures Present(blocks, 0) && StateAfter(p, s, Stored(blocks, 0)) == s && Replays(p, s, Stored(blocks, 0))
  {
    hide ExecuteBlock;
  }

  lemma {:induction false} ChainReplays(p: Params, g: State, chain: seq<Block>)
    requires chain != [] && ValidChain(p, g, chain)
    ensures Replays(p, g, chain[1..])
    decreases |chain|
  {
    hide ExecuteBlock, StateRoot.Root, AllTrue;
    var n := |chain| - 1;
    if n >= 1 {
      ChainReplays(p, g, chain[..n]);
      assert chain[..n][1..] == chain[1..n] == chain[1..][..n - 1];
    }
  }

  /** A restarted node rebuilds exactly the state it had: the stored chain always replays from genesis. */
  lemma {:induction false} ChainRebuilds(p: Params, g: State, chain: seq<Block>, blocks: map<nat, Block>)
    requires chain != [] && ValidChain(p, g, chain) && Contiguous(blocks, |chain|) && InOrder(blocks, |chain|) == chain
    ensures var tip := chain[|chain| - 1];
      && tip.header.height == |chain| - 1 && Present(blocks, |chain| - 1)
      && Stored(blocks, |chain| - 1) == chain[1..] && Rebuilds(p, g, blocks, tip)
  {
    hide StateRoot.Root, StateAfter, Replays, ValidChain;
    ChainHeights(p, g, chain, |chain| - 1);
    ChainReplays(p, g, chain);
    TipRoot(p, g, chain);
    assert Stored(blocks, |chain| - 1) == chain[1..];
  }
}
