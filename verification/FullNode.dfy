/**
 * The whole node: boot, blocks from peers and blocks of its own.  Whatever happens, in whatever
 * order, the stored chain stays valid and the state stays the one the chain leads to.
 */
module FullNode {
  import opened Numbers
  import opened Collections
  import opened Rules
  import opened ChainState
  import opened Executor
  import opened StateDb
  import opened TxExecutor
  import opened Blocks
  import opened ChainStore
  import opened Mempool
  import opened Node
  import opened Producer
  import StateRoot

  /** A proposal, whoever signs it, is a valid next block for its own proposer. */
  lemma {:induction false} ProposalFits(p: Params, s: State, tip: Option<Block>, txs: seq<Tx>, now: int64, proposer: Address, key: Address)
    ensures var b := Proposal(p, s, tip, txs, now, proposer, key); var r := ExecuteBlock(p, s, txs, now);
      && Extends(tip, b) && b.header.txRoot == RootOfTxs(b.txs) && Executes(p, s, b)
      && ExecuteBlock(p, s, b.txs, b.header.timestamp).state == r.state
      && ExecuteBlock(p, s, b.txs, b.header.timestamp).events == r.events
  {
    hide StateRoot.Root, ExecuteBlock, Winners, RootOfTxs;
    WinnersReexecute(p, s, txs, now);
  }

  /** Open the chain of a store, starting a new one with the genesis block. */
  method Open(db: StateDB, timestamp: int64, store: BlockStore, flushed: bool) returns (ok: bool, bc: Blockchain)
    requires db.Valid()
    modifies store
    ensures fresh(bc) && bc.store == store
    ensures ok <==> old(store.savedHeight).Some? || flushed
    ensures old(store.savedHeight).Some? ==>
      unchanged(store) && bc.tip == var h := store.savedHeight.value; if h in store.blocks then Some(store.blocks[h]) else None
    ensures old(store.savedHeight).None? && ok ==> bc.tip.Some? && GenesisBlock(db.View(), bc.tip.value)
    ensures old(store.Valid()) && ok ==> bc.Valid() && bc.Chain() != []
    ensures old(store.Valid()) && ok && old(store.savedHeight).Some? ==> bc.Chain() == old(store.Chain())
    ensures old(store.Valid()) && ok && old(store.savedHeight).None? ==> ValidChain(db.params, db.View(), bc.Chain())
    ensures old(store.Valid()) && old(store.ReceiptsOk()) ==> store.ReceiptsOk()
  {
    hide StateDB.Valid, StateDB.View, ValidChain, GenesisBlock, BlockStore.ReceiptsOk;
    bc := new Blockchain(store);
    var genesisBlock := CreateGenesisBlock(db, timestamp);
    GenesisShape(db.View(), genesisBlock);
    GenesisChain(db.params, db.View(), genesisBlock);
    ok := bc.Init(genesisBlock, flushed);
  }

  /** The chain in a store that a node with these parameters and this genesis state can have written. */
  ghost predicate Trusted(p: Params, g: State, store: BlockStore)
    reads store
  {
    store.Valid() && store.ReceiptsOk() && (store.Chain() == [] || ValidChain(p, g, store.Chain()))
  }

  /** What the recorded tip of a store must satisfy for a replay from this genesis state to succeed. */
  ghost predicate Replayable(p: Params, g: State, store: BlockStore)
    reads store
    requires store.savedHeight.Some?
  {
    var h := store.savedHeight.value;
    h in store.blocks && store.blocks[h].header.height > 0 ==> Rebuilds(p, g, store.blocks, store.blocks[h])
  }

  /** The store of a valid chain is replayable. */
  lemma {:induction false} TrustedReplays(p: Params, g: State, store: BlockStore)
    requires Trusted(p, g, store) && store.savedHeight.Some?
    ensures Replayable(p, g, store) && store.Chain() != []
    ensures var chain := store.Chain(); var n := |chain| - 1;
      && store.savedHeight.value == n && n in store.blocks && store.blocks[n].header.height == n
      && Present(store.blocks, n) && Stored(store.blocks, n) == chain[1..] && ValidChain(p, g, chain)
  {
    hide Rebuilds, ValidChain, BlockStore.ReceiptsOk, Indexed;
    ChainRebuilds(p, g, store.Chain(), store.blocks);
  }

  /** Everything that belongs to a booted node. */
  ghost function Belongings(bc: Blockchain, exec: TxExecutor): set<object>
    reads exec.db
  {
    {bc, bc.store, exec} + exec.db.Repr()
  }

  /** The state of a store's chain, after a successful replay from genesis. */
  lemma {:induction false} ReplayedInSync(p: Params, g: State, bc: Blockchain, exec: TxExecutor)
    requires Ready(bc, exec) && exec.db.params == p && bc.Chain() != [] && ValidChain(p, g, bc.Chain())
    requires |bc.Chain()| == 1 ==> exec.db.View() == g
    requires |bc.Chain()| > 1 ==> Present(bc.store.blocks, |bc.Chain()| - 1) && exec.db.View() == StateAfter(p, g, Stored(bc.store.blocks, |bc.Chain()| - 1))
    requires |bc.Chain()| > 1 ==> Stored(bc.store.blocks, |bc.Chain()| - 1) == bc.Chain()[1..]
    ensures InSync(g, bc, exec)
  {
    hide Ready, ValidChain, ExecuteBlock;
    if |bc.Chain()| == 1 {
      assert bc.Chain()[1..] == [];
    }
  }

  /**
   * Start a node on a store, whatever is in it: a new chain begins with the genesis block, an
   * existing one is replayed by an executor without a bus, and refused if it does not replay.
   */
  method Boot(config: Params, balances: seq<GenesisBalance>, timestamp: int64, store: BlockStore, hasBus: bool, flushed: bool)
    returns (ok: bool, bc: Blockchain, exec: TxExecutor)
    modifies store
    ensures bc.store == store && exec.hasBus == hasBus && exec.published == [] && exec.db.params == WithDefaults(config)
    ensures fresh(Belongings(bc, exec) - {store})
    ensures old(store.savedHeight).None? ==> ok == flushed
    ensures old(store.savedHeight).Some? ==>
      unchanged(store) && (ok <==> Replayable(WithDefaults(config), Genesis(balances), store))
    ensures old(Trusted(WithDefaults(config), Genesis(balances), store)) ==>
      && (ok <==> flushed || old(store.savedHeight).Some?)
      && (ok ==> InSync(Genesis(balances), bc, exec) && store.ReceiptsOk())
      && (ok && old(store.savedHeight).Some? ==> bc.Chain() == old(store.Chain()))
  {
    hide StateDB.Valid, StateDB.View, ValidChain, StateAfter, Genesis, WithDefaults, Rebuilds, Stored, GenesisBlock, BlockStore.ReceiptsOk, InSync,
      Indexed;
    ghost var p, g := WithDefaults(config), Genesis(balances);
    ghost var known, trusted := store.savedHeight.Some?, Trusted(p, g, store);
    if trusted && known {
      TrustedReplays(p, g, store);
    }
    var db := NewStateDB(config, balances);
    ok, bc := Open(db, timestamp, store, flushed);
    exec := new TxExecutor(db, hasBus);
    if ok {
      if !known {
        GenesisShape(db.View(), bc.tip.value);
      }
      var quiet := new TxExecutor(db, false);
      ok := Replay(bc, quiet);
      if ok && trusted {
        ReplayedInSync(p, g, bc, exec);
      }
    }
  }

  lemma {:induction false} GenesisShape(g: State, b: Block)
    requires GenesisBlock(g, b)
    ensures b.header.height == 0 && b.hash == HeaderHash(b.header)
  {}

  lemma {:induction false} GenesisChain(p: Params, g: State, b: Block)
    requires GenesisBlock(g, b)
    ensures ValidChain(p, g, [b])
  {
    hide GenesisBlock;
  }

  // ---------------------------------------------------------------- keeping the state in step with the chain

  /** The store of a node in step with its chain can be booted from. */
  lemma {:induction false} InSyncTrusted(g: State, bc: Blockchain, exec: TxExecutor)
    requires InSync(g, bc, exec) && bc.store.ReceiptsOk()
    ensures Trusted(exec.db.params, g, bc.store) && bc.store.savedHeight.Some?
  {
    hide ValidChain, StateAfter, StateDB.Valid, BlockStore.ReceiptsOk, Indexed;
  }

  /** After a crash only the store is left; booting from it brings back chain and state. */
  method Restart(config: Params, balances: seq<GenesisBalance>, timestamp: int64, crashed: Blockchain, ghost lost: TxExecutor, hasBus: bool)
    returns (ok: bool, bc: Blockchain, exec: TxExecutor)
    requires InSync(Genesis(balances), crashed, lost) && crashed.store.ReceiptsOk() && lost.db.params == WithDefaults(config)
    modifies crashed.store
    ensures ok && InSync(Genesis(balances), bc, exec) && bc.store == crashed.store && bc.store.ReceiptsOk()
    ensures bc.Chain() == old(crashed.Chain()) && exec.db.View() == old(lost.db.View()) && exec.db.params == WithDefaults(config)
    ensures exec.published == [] && exec.hasBus == hasBus && fresh(Belongings(bc, exec) - {crashed.store})
  {
    hide StateDB.Valid, ValidChain, StateAfter, Genesis, WithDefaults, Trusted, Ready, Replayable, BlockStore.ReceiptsOk;
    InSyncTrusted(Genesis(balances), crashed, lost);
    ok, bc, exec := Boot(config, balances, timestamp, crashed.store, hasBus, true);
  }

  /** The events of the blocks from position base on, as they should appear on the bus. */
  ghost function Announced(p: Params, g: State, chain: seq<Block>, base: nat): seq<Published>
    requires 1 <= base
  {
    if |chain| <= base then []
    else
      var n := |chain| - 1;
      Announced(p, g, chain[..n], base)
        + Publish(chain[n].header.height, ExecuteBlock(p, StateAfter(p, g, chain[1..n]), chain[n].txs, chain[n].header.timestamp).events)
  }

  lemma NothingAnnounced(p: Params, g: State, chain: seq<Block>)
    requires chain != []
    ensures Announced(p, g, chain, |chain|) == []
  {}

  lemma {:induction false} AnnouncedGrows(p: Params, g: State, chain: seq<Block>, base: nat, b: Block)
    requires 1 <= base <= |chain|
    ensures Announced(p, g, chain + [b], base) ==
      Announced(p, g, chain, base) + Publish(b.header.height, ExecuteBlock(p, StateAfter(p, g, chain[1..]), b.txs, b.header.timestamp).events)
  {
    hide ExecuteBlock, StateAfter, Publish;
    var longer := chain + [b];
    assert longer[..|chain|] == chain && longer[1..|chain|] == chain[1..];
  }

  /** The proposer's own block continues its chain, its state and what it announces. */
  lemma {:induction false} ProposalGrows(p: Params, g: State, chain: seq<Block>, base: nat, txs: seq<Tx>, now: int64, proposer: Address, key: Address)
    requires 1 <= base <= |chain| && ValidChain(p, g, chain)
    ensures var s := StateAfter(p, g, chain[1..]);
      var b := Proposal(p, s, TipOf(chain), txs, now, proposer, key); var r := ExecuteBlock(p, s, txs, now);
      && ValidChain(p, g, chain + [b]) && StateAfter(p, g, (chain + [b])[1..]) == r.state
      && Announced(p, g, chain + [b], base) == Announced(p, g, chain, base) + Publish(b.header.height, r.events)
  {
    hide ExecuteBlock, StateAfter, Publish, Announced, ValidChain, Proposal, Extends, Executes, RootOfTxs;
    var s := StateAfter(p, g, chain[1..]);
    var b := Proposal(p, s, TipOf(chain), txs, now, proposer, key);
    ProposalFits(p, s, TipOf(chain), txs, now, proposer, key);
    ChainGrows(p, g, chain, b);
    AnnouncedGrows(p, g, chain, base, b);
  }

  /** What can happen to a node: a transaction or a block arrives, it is time to produce, or it crashes and restarts. */
  datatype Op =
    | Submit(tx: Tx)
    | Incoming(block: Block, flushed: bool)
    | Round(now: int64, signs: bool, flushed: bool, writable: nat)
    | Crash(timestamp: int64)

  class FullNode {
    const bc: Blockchain
    const exec: TxExecutor
    const pool: Mempool
    const processor: BlockProcessor
    const producer: BlockProducer
    ghost const genesis: State
    /** Length of the chain when the node was started. */
    ghost const booted: nat

    ghost function Parts(): set<object>
      reads exec.db
    {
      {pool} + Belongings(bc, exec)
    }

    /** The chain is valid, the state is the one it leads to, and the bus has shown what was committed since boot. */
    ghost predicate Valid()
      reads this, pool, bc, bc.store, exec, exec.db, exec.db.Repr()
    {
      && InSync(genesis, bc, exec) && bc.store.ReceiptsOk() && pool.Valid() && pool !in exec.db.Repr()
      && processor.bc == bc && processor.exec == exec
      && producer.bc == bc && producer.exec == exec && producer.pool == pool
      && 1 <= booted <= |bc.Chain()|
      && exec.published == if exec.hasBus then Announced(exec.db.params, genesis, bc.Chain(), booted) else []
    }

    /** Wire the parts around a booted chain. */
    constructor (bc: Blockchain, exec: TxExecutor, poolSize: int, proposer: Address, key: SigningKey, ghost genesis: State)
      requires InSync(genesis, bc, exec) && bc.store.ReceiptsOk() && exec.published == []
      ensures Valid() && this.bc == bc && this.exec == exec && this.genesis == genesis && pool.pending == map[]
      ensures producer.canonical == Some(exec.db.params.admin) && producer.proposer == proposer && producer.key == key
      ensures fresh(pool)
    {
      hide StateDB.Valid, ValidChain, StateAfter, Blockchain.Valid, Blockchain.Chain, Announced, Consistent, BlockStore.ReceiptsOk;
      NothingAnnounced(exec.db.params, genesis, bc.Chain());
      var mempool := new Mempool(poolSize);
      this.bc, this.exec, this.pool, this.genesis, booted := bc, exec, mempool, genesis, |bc.Chain()|;
      processor := new BlockProcessor(bc, exec);
      producer := new BlockProducer(bc, exec, mempool, Some(exec.db.params.admin), proposer, key);
    }

    /** A block from a peer. */
    method Receive(block: Block, flushed: bool) returns (ok: bool)
      requires Valid()
      modifies Parts()
      ensures Valid() && fresh(Parts() - old(Parts())) && exec.db.Saved == old(exec.db.Saved)
      ensures bc.Chain() == old(bc.Chain()) || (ok && bc.Chain() == old(bc.Chain()) + [block])
    {
      hide StateDB.Valid, ValidChain, StateAfter, ExecuteBlock, Executes, RootOfTxs, Extends, Blockchain.Valid, Blockchain.Chain,
        Publish, Announced, BlockStore.ReceiptsOk, Mempool.Valid;
      ghost var p, chain := exec.db.params, bc.Chain();
      assert bc.tip == TipOf(chain) by { TipIs(bc, exec); }
      if Acceptable(p, exec.db.View(), bc.tip, block) {
        ChainGrows(p, genesis, chain, block);
        AnnouncedGrows(p, genesis, chain, booted, block);
      }
      ok := processor.ProcessBlock(block, flushed);
    }

    /** A production round. */
    method Tick(now: int64, signs: bool, flushed: bool, writable: nat) returns (block: Option<Block>)
      requires Valid()
      modifies Parts()
      ensures Valid() && fresh(Parts() - old(Parts())) && exec.db.Saved == old(exec.db.Saved)
      ensures bc.Chain() == old(bc.Chain()) + if block.Some? then [block.value] else []
    {
      hide StateDB.Valid, ValidChain, StateAfter, ExecuteBlock, Executes, RootOfTxs, Extends, Proposal, Winners,
        Blockchain.Valid, Blockchain.Chain, Publish, Announced, HashSet, FirstTxs, Consistent, TipOf, BlockStore.ReceiptsOk, Mempool.Valid;
      ghost var p, chain := exec.db.params, bc.Chain();
      TipIs(bc, exec);
      var txs, won;
      block, txs, won := producer.ProduceBlock(now, signs, flushed, writable);
      if block.Some? {
        ProposalGrows(p, genesis, chain, booted, txs, now, producer.proposer, producer.key.address);
      }
    }

    /** A transaction for the pool. */
    method Accept(tx: Tx) returns (ok: bool)
      requires Valid()
      modifies Parts()
      ensures Valid() && fresh(Parts() - old(Parts())) && exec.db.Saved == old(exec.db.Saved) && bc.Chain() == old(bc.Chain())
    {
      hide InSync, Announced, BlockStore.ReceiptsOk, Mempool.Valid, Consistent;
      ok := pool.Add(tx);
    }
  }

  /** A valid node of the network with this genesis file and configuration. */
  ghost predicate NodeOf(node: FullNode, config: Params, balances: seq<GenesisBalance>)
    reads node, node.pool, node.bc, node.bc.store, node.exec, node.exec.db, node.exec.db.Repr()
  {
    node.Valid() && node.genesis == Genesis(balances) && node.exec.db.params == WithDefaults(config)
  }

  /** One thing happens to a node; a crash leaves only the store, from which a new node starts. */
  method Do(node: FullNode, op: Op, config: Params, balances: seq<GenesisBalance>) returns (r: FullNode)
    requires NodeOf(node, config, balances)
    modifies node.Parts()
    ensures NodeOf(r, config, balances) && fresh(r.Parts() - old(node.Parts()))
    ensures old(node.bc.Chain()) <= r.bc.Chain()
  {
    hide FullNode.Valid, Genesis, WithDefaults;
    match op
    case Submit(tx) =>
      var ok := node.Accept(tx);
      r := node;
    case Incoming(block, flushed) =>
      var ok := node.Receive(block, flushed);
      r := node;
    case Round(now, signs, flushed, writable) =>
      var block := node.Tick(now, signs, flushed, writable);
      r := node;
    case Crash(timestamp) =>
      r := Reboot(node, timestamp, config, balances);
  }

  method Reboot(node: FullNode, timestamp: int64, config: Params, balances: seq<GenesisBalance>) returns (r: FullNode)
    requires NodeOf(node, config, balances)
    modifies node.bc.store
    ensures NodeOf(r, config, balances) && fresh(r.Parts() - {node.bc.store})
    ensures r.bc.Chain() == old(node.bc.Chain()) && r.exec.db.View() == old(node.exec.db.View())
  {
    hide InSync, Announced, Genesis, WithDefaults, BlockStore.ReceiptsOk, Mempool.Valid;
    var ok, bc, exec := Restart(config, balances, timestamp, node.bc, node.exec, node.exec.hasBus);
    r := new FullNode(bc, exec, 10000, node.producer.proposer, node.producer.key, node.genesis);
  }

  /**
   * Whatever happens to a node, in whatever order and number, the chain only grows, stays valid,
   * and the state stays the one it leads to.
   */
  method Drive(node: FullNode, ops: seq<Op>, config: Params, balances: seq<GenesisBalance>) returns (r: FullNode)
    requires NodeOf(node, config, balances)
    modifies node.Parts()
    ensures NodeOf(r, config, balances) && fresh(r.Parts() - old(node.Parts()))
    ensures old(node.bc.Chain()) <= r.bc.Chain()
    decreases |ops|
  {
    hide NodeOf, FullNode.Parts, Blockchain.Chain;
    if ops == [] {
      r := node;
    } else {
      var next := Do(node, ops[0], config, balances);
      ghost var between := next.Parts();
      label Between:
      r := Drive(next, ops[1..], config, balances);
      forall o | o in r.Parts() && o !in old(node.Parts()) ensures fresh(o) {
        if o !in between {
          assert fresh@Between(o);
        }
      }
    }
  }

  /** Start a node on an empty store. */
  method Found(config: Params, balances: seq<GenesisBalance>, timestamp: int64, hasBus: bool, proposer: Address, key: SigningKey)
    returns (node: FullNode)
    ensures NodeOf(node, config, balances) && fresh(node.Parts())
  {
    hide InSync, Genesis, WithDefaults, BlockStore.ReceiptsOk, ValidChain, Replayable, BlockStore.Valid, BlockStore.Chain, FullNode.Valid;
    var store := new BlockStore();
    var ok, bc, exec := Boot(config, balances, timestamp, store, hasBus, true);
    node := new FullNode(bc, exec, 10000, proposer, key, Genesis(balances));
  }

  /** A node started on an empty store is still such a node after whatever happens to it. */
  method Live(config: Params, balances: seq<GenesisBalance>, timestamp: int64, hasBus: bool, proposer: Address, key: SigningKey, ops: seq<Op>)
    returns (node: FullNode)
    ensures NodeOf(node, config, balances)
  {
    hide NodeOf, FullNode.Parts;
    node := Found(config, balances, timestamp, hasBus, proposer, key);
    node := Drive(node, ops, config, balances);
  }

  ghost function LeaderParts(l: BlockProducer): set<object>
    reads l.exec.db
  {
    {l.pool} + Belongings(l.bc, l.exec)
  }

  /** A leader with a usable admin key and a follower, sharing nothing. */
  ghost predicate Apart(l: BlockProducer, f: BlockProcessor)
    reads l.pool, l.bc, l.bc.store, l.exec, l.exec.db, l.exec.db.Repr(), f.bc, f.bc.store, f.exec, f.exec.db, f.exec.db.Repr()
  {
    && Ready(l.bc, l.exec) && l.pool.Valid() && l.pool !in l.exec.db.Repr()
    && Ready(f.bc, f.exec) && LeaderParts(l) !! Belongings(f.bc, f.exec)
    && l.proposer == l.exec.db.params.admin && l.key == PrivateKey(l.proposer) && l.exec.db.params == f.exec.db.params
  }

  /** Both on the same chain and in the same state. */
  ghost predicate Agreed(l: BlockProducer, f: BlockProcessor)
    reads l.bc, l.bc.store, l.exec.db, f.bc, f.bc.store, f.exec.db
  {
    l.bc.Chain() == f.bc.Chain() && l.exec.db.View() == f.exec.db.View()
  }

  lemma DbInParts(bc: Blockchain, exec: TxExecutor)
    requires Ready(bc, exec)
    ensures exec.db in exec.db.Repr()
  {}

  /** The follower's side of a proposal made on the same chain and state. */
  lemma {:induction false} ProposalAccepted(p: Params, s: State, tip: Option<Block>, txs: seq<Tx>, now: int64)
    ensures var b := Proposal(p, s, tip, txs, now, p.admin, p.admin); var r := ExecuteBlock(p, s, txs, now);
      && Acceptable(p, s, tip, b) && b.header.height == HeightAfter(tip)
      && ExecuteBlock(p, s, b.txs, b.header.timestamp).state == r.state
  {
    hide Acceptable, ExecuteBlock, Winners, StateRoot.Root, RootOfTxs;
    FollowerAgrees(p, s, tip, txs, now, p.admin, p.admin);
  }

  /** What a round of the admin yields: nothing, or the proposal of these transactions and the state they lead to. */
  ghost predicate Proposed(p: Params, s: State, tip: Option<Block>, now: int64, block: Option<Block>, txs: seq<Tx>, after: State) {
    match block
    case None => after == s
    case Some(b) => b == Proposal(p, s, tip, txs, now, p.admin, p.admin) && after == ExecuteBlock(p, s, txs, now).state
  }

  /** A production round of the leader does not reach the follower. */
  method Lead(leader: BlockProducer, follower: BlockProcessor, now: int64, signs: bool, flushed: bool, writable: nat)
    returns (block: Option<Block>, txs: seq<Tx>)
    requires Apart(leader, follower)
    modifies LeaderParts(leader)
    ensures Apart(leader, follower) && fresh(LeaderParts(leader) - old(LeaderParts(leader)))
    ensures Belongings(follower.bc, follower.exec) == old(Belongings(follower.bc, follower.exec))
    ensures follower.exec.db.View() == old(follower.exec.db.View()) && follower.bc.Chain() == old(follower.bc.Chain())
    ensures leader.bc.Chain() == old(leader.bc.Chain()) + if block.Some? then [block.value] else []
    ensures Proposed(leader.exec.db.params, old(leader.exec.db.View()), old(leader.bc.tip), now, block, txs, leader.exec.db.View())
  {
    hide Ready, Mempool.Valid, ExecuteBlock, Proposal, Winners, Blockchain.Chain, HashSet, FirstTxs, Consistent, Publish, BlockStore.ReceiptsOk;
    DbInParts(leader.bc, leader.exec);
    DbInParts(follower.bc, follower.exec);
    var won;
    block, txs, won := leader.ProduceBlock(now, signs, flushed, writable);
  }

  /** Handing a block to the follower does not reach the leader. */
  method Deliver(leader: BlockProducer, follower: BlockProcessor, block: Block)
    requires Apart(leader, follower) && Acceptable(follower.exec.db.params, follower.exec.db.View(), follower.bc.tip, block)
    modifies Belongings(follower.bc, follower.exec)
    ensures Apart(leader, follower)
    ensures fresh(Belongings(follower.bc, follower.exec) - old(Belongings(follower.bc, follower.exec)))
    ensures LeaderParts(leader) == old(LeaderParts(leader))
    ensures leader.exec.db.View() == old(leader.exec.db.View()) && leader.bc.Chain() == old(leader.bc.Chain())
    ensures follower.bc.Chain() == old(follower.bc.Chain()) + [block]
    ensures follower.exec.db.View() ==
      ExecuteBlock(follower.exec.db.params, old(follower.exec.db.View()), block.txs, block.header.timestamp).state
  {
    hide Ready, Mempool.Valid, ExecuteBlock, Executes, ProperlySigned, RootOfTxs, AllAuthentic, Blockchain.Chain, Publish, BlockStore.ReceiptsOk, Consistent;
    DbInParts(leader.bc, leader.exec);
    DbInParts(follower.bc, follower.exec);
    var ok := follower.ProcessBlock(block, true);
  }

  /**
   * A leader and a follower that agree still agree after a round of the leader, whether or not it
   * yields a block, and its delivery to the follower.
   */
  method Propagate(leader: BlockProducer, follower: BlockProcessor, now: int64, signs: bool, flushed: bool, writable: nat)
    returns (block: Option<Block>)
    requires Apart(leader, follower) && Agreed(leader, follower)
    modifies LeaderParts(leader), Belongings(follower.bc, follower.exec)
    ensures Apart(leader, follower) && Agreed(leader, follower)
    ensures fresh(LeaderParts(leader) - old(LeaderParts(leader)))
    ensures fresh(Belongings(follower.bc, follower.exec) - old(Belongings(follower.bc, follower.exec)))
    ensures leader.bc.Chain() == old(leader.bc.Chain()) + if block.Some? then [block.value] else []
  {
    hide Ready, Mempool.Valid, ExecuteBlock, Proposal, Acceptable, Blockchain.Chain, Consistent;
    TipsAgree(leader, follower);
    ghost var p, s, tip := leader.exec.db.params, leader.exec.db.View(), leader.bc.tip;
    var txs;
    block, txs := Lead(leader, follower, now, signs, flushed, writable);
    if block.Some? {
      TipIs(follower.bc, follower.exec);
      ProposalAccepted(p, s, tip, txs, now);
      Deliver(leader, follower, block.value);
    }
  }

  lemma TipIs(bc: Blockchain, exec: TxExecutor)
    requires Ready(bc, exec)
    ensures bc.tip == TipOf(bc.Chain())
  {}

  lemma TipsAgree(leader: BlockProducer, follower: BlockProcessor)
    requires Apart(leader, follower) && Agreed(leader, follower)
    ensures leader.bc.tip == follower.bc.tip == TipOf(leader.bc.Chain()) == TipOf(follower.bc.Chain())
  {
    TipIs(leader.bc, leader.exec);
    TipIs(follower.bc, follower.exec);
  }

  /** A round: transactions that reach the leader's pool, and what the production round meets. */
  datatype RoundInput = RoundInput(txs: seq<Tx>, now: int64, signs: bool, flushed: bool, writable: nat)

  /** Transactions reach the leader's pool. */
  method Feed(leader: BlockProducer, follower: BlockProcessor, txs: seq<Tx>)
    requires Apart(leader, follower)
    modifies leader.pool
    ensures Apart(leader, follower) && LeaderParts(leader) == old(LeaderParts(leader))
  {
    hide Ready, Consistent;
    var i := 0;
    while i < |txs|
      invariant 0 <= i <= |txs| && Apart(leader, follower) && LeaderParts(leader) == old(LeaderParts(leader))
    {
      DbInParts(leader.bc, leader.exec);
      DbInParts(follower.bc, follower.exec);
      var ok := leader.pool.Add(txs[i]);
      i := i + 1;
    }
  }

  /** Any number of rounds: leader and follower agree after every one of them. */
  method PropagateAll(leader: BlockProducer, follower: BlockProcessor, rounds: seq<RoundInput>)
    requires Apart(leader, follower) && Agreed(leader, follower)
    modifies LeaderParts(leader), Belongings(follower.bc, follower.exec)
    ensures Apart(leader, follower) && Agreed(leader, follower) && old(leader.bc.Chain()) <= leader.bc.Chain()
  {
    hide Apart, Agreed;
    var i := 0;
    while i < |rounds|
      invariant 0 <= i <= |rounds|
      invariant Apart(leader, follower) && Agreed(leader, follower) && old(leader.bc.Chain()) <= leader.bc.Chain()
      invariant fresh(LeaderParts(leader) - old(LeaderParts(leader)))
      invariant fresh(Belongings(follower.bc, follower.exec) - old(Belongings(follower.bc, follower.exec)))
    {
      var round := rounds[i];
      FeedKeepsAgreement(leader, follower, round.txs);
      var block := Propagate(leader, follower, round.now, round.signs, round.flushed, round.writable);
      i := i + 1;
    }
  }

  method FeedKeepsAgreement(leader: BlockProducer, follower: BlockProcessor, txs: seq<Tx>)
    requires Apart(leader, follower) && Agreed(leader, follower)
    modifies leader.pool
    ensures Apart(leader, follower) && Agreed(leader, follower) && LeaderParts(leader) == old(LeaderParts(leader))
    ensures leader.bc.Chain() == old(leader.bc.Chain())
    ensures Belongings(follower.bc, follower.exec) == old(Belongings(follower.bc, follower.exec))
  {
    hide Ready, Consistent, Mempool.Valid;
    DbInParts(leader.bc, leader.exec);
    DbInParts(follower.bc, follower.exec);
    Feed(leader, follower, txs);
  }
}
