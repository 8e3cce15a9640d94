/**
 * Blocks and chains of blocks: what a proposer builds, what a follower accepts, and why the two
 * agree.  Hashes and signatures are symbolic: equal hashes mean equal contents.
 */
module Blocks {
  import opened Numbers
  import opened Collections
  import opened Rules
  import opened ChainState
  import opened Executor
  import opened Merkle
  import StateRoot

  datatype TxRoot = EmptyTxRoot | HashedTxs(hashes: seq<Hash>)

  datatype BlockHash = NoBlock | HeaderHash(header: Header)

  datatype Header = Header(height: nat, timestamp: int64, previous: BlockHash, stateRoot: Digest, txRoot: TxRoot, proposer: Address)

  /** A public key is known by the address it derives. */
  datatype PublicKey = MissingKey | MalformedKey | KeyOf(address: Address)

  datatype Signature = Unsigned | Signed(key: Address, hash: BlockHash)

  datatype Commit = Commit(proposer: Address, key: PublicKey, signature: Signature)

  datatype Block = Block(header: Header, txs: seq<Tx>, commit: Commit, hash: BlockHash)

  // ---------------------------------------------------------------- transaction root

  function TxHashes(txs: seq<Tx>): (r: seq<Hash>)
    ensures |r| == |txs|
  {
    seq(|txs|, i requires 0 <= i < |txs| => txs[i].hash)
  }

  function RootOfTxs(txs: seq<Tx>): TxRoot {
    if txs == [] then EmptyTxRoot else HashedTxs(TxHashes(txs))
  }

  method ComputeTxRoot(txs: seq<Tx>) returns (root: TxRoot)
    ensures root == RootOfTxs(txs)
  {
    if |txs| == 0 {
      return EmptyTxRoot;
    }
    var combined := [];
    for i := 0 to |txs|
      invariant combined == TxHashes(txs[..i])
    {
      combined := combined + [txs[i].hash];
    }
    assert txs[..|txs|] == txs;
    root := HashedTxs(combined);
  }

  // ---------------------------------------------------------------- the successful transactions of a block

  ghost function Winners(txs: seq<Tx>, verdicts: seq<bool>): (r: seq<Tx>)
    requires |txs| == |verdicts|
    ensures |r| <= |txs|
  {
    if txs == [] then []
    else
      var n := |txs| - 1;
      Winners(txs[..n], verdicts[..n]) + if verdicts[n] then [txs[n]] else []
  }

  ghost predicate AllTrue(verdicts: seq<bool>) {
    forall i :: 0 <= i < |verdicts| ==> verdicts[i]
  }

  lemma {:induction false} WinnersAppend(txs: seq<Tx>, verdicts: seq<bool>, tx: Tx, verdict: bool)
    requires |txs| == |verdicts|
    ensures Winners(txs + [tx], verdicts + [verdict]) == Winners(txs, verdicts) + if verdict then [tx] else []
  {
    assert (txs + [tx])[..|txs|] == txs && (verdicts + [verdict])[..|txs|] == verdicts;
  }

  /** Failed transactions leave no trace: running the successful ones alone ends in the same state with the same events. */
  lemma {:induction false} WinnersReexecute(p: Params, s: State, txs: seq<Tx>, now: int64)
    ensures var r := ExecuteBlock(p, s, txs, now); var again := ExecuteBlock(p, s, Winners(txs, r.verdicts), now);
      again.state == r.state && again.events == r.events && AllTrue(again.verdicts)
    decreases |txs|
  {
    if txs == [] {
      return;
    }
    hide BlockStep, ExecuteBlock, Winners;
    var n := |txs| - 1;
    var before := ExecuteBlock(p, s, txs[..n], now);
    var won, ok := Winners(txs[..n], before.verdicts), BlockStep(p, before.state, txs[n], now).Ok?;
    assert txs == txs[..n] + [txs[n]];
    WinnersReexecute(p, s, txs[..n], now);
    ExecuteAppend(p, s, txs[..n], txs[n], now);
    WinnersAppend(txs[..n], before.verdicts, txs[n], ok);
    if ok {
      ExecuteAppend(p, s, won, txs[n], now);
    } else {
      assert won + [] == won;
    }
  }

  /** Only authentic transactions succeed. */
  lemma {:induction false} WinnersAuthentic(p: Params, s: State, txs: seq<Tx>, now: int64)
    ensures AllAuthentic(Winners(txs, ExecuteBlock(p, s, txs, now).verdicts))
    decreases |txs|
  {
    hide Step;
    if txs != [] {
      var n := |txs| - 1;
      WinnersAuthentic(p, s, txs[..n], now);
      assert ExecuteBlock(p, s, txs, now).verdicts[..n] == ExecuteBlock(p, s, txs[..n], now).verdicts;
    }
  }

  lemma {:induction false} WinnerCame(txs: seq<Tx>, verdicts: seq<bool>, tx: Tx) returns (i: nat)
    requires |txs| == |verdicts| && tx in Winners(txs, verdicts)
    ensures i < |txs| && verdicts[i] && txs[i] == tx
    decreases |txs|
  {
    var n := |txs| - 1;
    if tx in Winners(txs[..n], verdicts[..n]) {
      i := WinnerCame(txs[..n], verdicts[..n], tx);
    } else {
      i := n;
    }
  }

  lemma {:induction false} WinnerStays(txs: seq<Tx>, verdicts: seq<bool>, i: nat)
    requires |txs| == |verdicts| && i < |txs| && verdicts[i]
    ensures txs[i] in Winners(txs, verdicts)
    decreases |txs|
  {
    var n := |txs| - 1;
    if i < n {
      WinnerStays(txs[..n], verdicts[..n], i);
    }
  }

  /** The winners are exactly the transactions whose verdict is success. */
  lemma {:induction false} WinnersExact(txs: seq<Tx>, verdicts: seq<bool>)
    requires |txs| == |verdicts|
    ensures forall tx :: tx in Winners(txs, verdicts) <==> exists i :: 0 <= i < |txs| && verdicts[i] && txs[i] == tx
    ensures Winners(txs, verdicts) == [] <==> forall i :: 0 <= i < |txs| ==> !verdicts[i]
  {
    hide Winners;
    forall tx | tx in Winners(txs, verdicts) ensures exists i :: 0 <= i < |txs| && verdicts[i] && txs[i] == tx {
      var i := WinnerCame(txs, verdicts, tx);
    }
    forall i | 0 <= i < |txs| && verdicts[i] ensures txs[i] in Winners(txs, verdicts) {
      WinnerStays(txs, verdicts, i);
    }
    if Winners(txs, verdicts) != [] {
      var i := WinnerCame(txs, verdicts, Winners(txs, verdicts)[0]);
    }
  }

  lemma {:induction false} NoWinnersNoChange(p: Params, s: State, txs: seq<Tx>, now: int64)
    requires Winners(txs, ExecuteBlock(p, s, txs, now).verdicts) == []
    ensures ExecuteBlock(p, s, txs, now).state == s && ExecuteBlock(p, s, txs, now).events == []
  {
    WinnersReexecute(p, s, txs, now);
  }

  // ---------------------------------------------------------------- proposing and accepting

  function HeightAfter(tip: Option<Block>): nat {
    if tip.None? then 0 else tip.value.header.height + 1
  }

  function HashBefore(tip: Option<Block>): BlockHash {
    if tip.None? then NoBlock else tip.value.hash
  }

  /** The signed block a proposer builds from a list of transactions executed on state s. */
  ghost function Proposal(p: Params, s: State, tip: Option<Block>, txs: seq<Tx>, now: int64, proposer: Address, key: Address): Block {
    var r := ExecuteBlock(p, s, txs, now);
    var won := Winners(txs, r.verdicts);
    var header := Header(HeightAfter(tip), now, HashBefore(tip), StateRoot.Root(r.state), RootOfTxs(won), proposer);
    Block(header, won, Commit(proposer, KeyOf(key), Signed(key, HeaderHash(header))), HeaderHash(header))
  }

  /** The block extends the tip and carries the hash of its own header. */
  predicate Extends(tip: Option<Block>, b: Block) {
    b.header.height == HeightAfter(tip) && (tip.Some? ==> b.header.previous == tip.value.hash) && b.hash == HeaderHash(b.header)
  }

  /** Signed by the canonical proposer. */
  predicate ProperlySigned(admin: Address, b: Block) {
    && b.header.proposer == admin && b.commit.proposer == admin
    && b.commit.key == KeyOf(admin) && b.commit.signature == Signed(admin, b.hash)
  }

  predicate AllAuthentic(txs: seq<Tx>) {
    forall i :: 0 <= i < |txs| ==> txs[i].authentic
  }

  /** Executing the block succeeds throughout and ends in a state with the declared root. */
  ghost predicate Executes(p: Params, s: State, b: Block) {
    var r := ExecuteBlock(p, s, b.txs, b.header.timestamp);
    AllTrue(r.verdicts) && StateRoot.Root(r.state) == b.header.stateRoot
  }

  ghost predicate Acceptable(p: Params, s: State, tip: Option<Block>, b: Block) {
    && Extends(tip, b) && ProperlySigned(p.admin, b)
    && b.header.txRoot == RootOfTxs(b.txs) && AllAuthentic(b.txs) && Executes(p, s, b)
  }

  /**
   * Agreement: a follower on the same state and tip accepts a proposed block exactly when the
   * proposer is the genesis admin and signs with the admin's key, and then reaches the proposer's
   * state with the proposer's events.
   */
  lemma {:induction false} FollowerAgrees(p: Params, s: State, tip: Option<Block>, txs: seq<Tx>, now: int64, proposer: Address, key: Address)
    ensures var b := Proposal(p, s, tip, txs, now, proposer, key);
      Acceptable(p, s, tip, b) <==> proposer == p.admin && key == p.admin
    ensures var b := Proposal(p, s, tip, txs, now, proposer, key); var r := ExecuteBlock(p, s, txs, now);
      ExecuteBlock(p, s, b.txs, b.header.timestamp).state == r.state && ExecuteBlock(p, s, b.txs, b.header.timestamp).events == r.events
  {
    hide StateRoot.Root, ExecuteBlock, Winners;
    WinnersReexecute(p, s, txs, now);
    WinnersAuthentic(p, s, txs, now);
  }

  // ---------------------------------------------------------------- whole chains

  /** The state after executing a list of blocks. */
  ghost function StateAfter(p: Params, s: State, blocks: seq<Block>): State {
    if blocks == [] then s
    else
      var n := |blocks| - 1;
      ExecuteBlock(p, StateAfter(p, s, blocks[..n]), blocks[n].txs, blocks[n].header.timestamp).state
  }

  /** The events committed by a list of blocks, in order. */
  ghost function EventsOf(p: Params, s: State, blocks: seq<Block>): seq<Event> {
    if blocks == [] then []
    else
      var n := |blocks| - 1;
      EventsOf(p, s, blocks[..n]) + ExecuteBlock(p, StateAfter(p, s, blocks[..n]), blocks[n].txs, blocks[n].header.timestamp).events
  }

  function TipOf(blocks: seq<Block>): Option<Block> {
    if blocks == [] then None else Some(blocks[|blocks| - 1])
  }

  /** A genesis block: height zero, no transactions, the root of the genesis state. */
  ghost predicate GenesisBlock(s: State, b: Block) {
    b.header.height == 0 && b.txs == [] && b.header.stateRoot == StateRoot.Root(s) && b.header.txRoot == EmptyTxRoot
    && b.hash == HeaderHash(b.header)
  }

  /** A chain: a genesis block, then blocks that each extend the tip and execute on the state left by those before. */
  ghost predicate ValidChain(p: Params, s: State, blocks: seq<Block>) {
    if |blocks| <= 1 then |blocks| == 1 && GenesisBlock(s, blocks[0])
    else
      var n := |blocks| - 1;
      && ValidChain(p, s, blocks[..n])
      && Extends(Some(blocks[n - 1]), blocks[n]) && blocks[n].header.txRoot == RootOfTxs(blocks[n].txs)
      && Executes(p, StateAfter(p, s, blocks[1..n]), blocks[n])
  }

  /** A chain's prefixes are chains. */
  lemma {:induction false} ChainPrefix(p: Params, s: State, blocks: seq<Block>, k: nat)
    requires ValidChain(p, s, blocks) && 1 <= k <= |blocks|
    ensures ValidChain(p, s, blocks[..k])
    decreases |blocks|
  {
    hide Executes, StateAfter, Extends, RootOfTxs, GenesisBlock;
    if k == |blocks| {
      assert blocks[..k] == blocks;
    } else {
      ChainPrefix(p, s, blocks[..|blocks| - 1], k);
      assert blocks[..|blocks| - 1][..k] == blocks[..k];
    }
  }

  lemma {:induction false} ChainLast(p: Params, s: State, blocks: seq<Block>)
    requires blocks != [] && ValidChain(p, s, blocks)
    ensures var n := |blocks| - 1;
      && blocks[n].header.height == n && blocks[n].hash == HeaderHash(blocks[n].header)
      && blocks[n].header.txRoot == RootOfTxs(blocks[n].txs)
      && (n > 0 ==> blocks[n].header.previous == blocks[n - 1].hash)
    decreases |blocks|
  {
    hide Executes, StateAfter;
    if |blocks| > 1 {
      ChainLast(p, s, blocks[..|blocks| - 1]);
    }
  }

  /** Every block stands at its height, carries its true hash and transaction root, and names its predecessor. */
  lemma {:induction false} ChainHeights(p: Params, s: State, blocks: seq<Block>, i: nat)
    requires ValidChain(p, s, blocks) && i < |blocks|
    ensures blocks[i].header.height == i && blocks[i].hash == HeaderHash(blocks[i].header)
    ensures blocks[i].header.txRoot == RootOfTxs(blocks[i].txs)
    ensures i > 0 ==> blocks[i].header.previous == blocks[i - 1].hash
  {
    hide ValidChain, RootOfTxs;
    ChainPrefix(p, s, blocks, i + 1);
    ChainLast(p, s, blocks[..i + 1]);
  }

  /** The blocks of a chain all execute without a failed transaction, and each header holds the root reached. */
  lemma {:induction false} ChainExecutes(p: Params, s: State, blocks: seq<Block>, i: nat)
    requires ValidChain(p, s, blocks) && 1 <= i < |blocks|
    ensures Executes(p, StateAfter(p, s, blocks[1..i]), blocks[i])
    decreases |blocks|
  {
    hide Executes, StateAfter, Extends, RootOfTxs, GenesisBlock;
    var n := |blocks| - 1;
    if i < n {
      ChainExecutes(p, s, blocks[..n], i);
      assert blocks[..n][1..i] == blocks[1..i];
    }
  }

  /** The header of the tip holds the root of the state after the whole chain. */
  lemma {:induction false} TipRoot(p: Params, s: State, blocks: seq<Block>)
    requires ValidChain(p, s, blocks)
    ensures blocks[|blocks| - 1].header.stateRoot == StateRoot.Root(StateAfter(p, s, blocks[1..]))
  {
    hide ExecuteBlock, StateRoot.Root;
    var n := |blocks| - 1;
    if n >= 1 {
      assert blocks[1..][..n - 1] == blocks[1..n];
    }
  }

  /** Transaction hashes identify transactions. */
  ghost predicate HashesIdentify(txs: seq<Tx>, others: seq<Tx>) {
    forall i, j :: 0 <= i < |txs| && 0 <= j < |others| && txs[i].hash == others[j].hash ==> txs[i] == others[j]
  }

  lemma {:induction false} SameTxs(txs: seq<Tx>, others: seq<Tx>)
    requires RootOfTxs(txs) == RootOfTxs(others) && HashesIdentify(txs, others)
    ensures txs == others
  {
    if txs != [] {
      assert TxHashes(txs) == TxHashes(others);
      forall i | 0 <= i < |txs| ensures txs[i] == others[i] {
        assert TxHashes(txs)[i] == TxHashes(others)[i];
      }
    }
  }

  /** One signature admits one block, header, transactions and all, whatever state and tip the followers are on. */
  lemma {:induction false} SignatureFixesBlock(p: Params, s: State, tip: Option<Block>, b: Block, t: State, tip': Option<Block>, c: Block)
    requires Acceptable(p, s, tip, b) && Acceptable(p, t, tip', c) && b.commit.signature == c.commit.signature && HashesIdentify(b.txs, c.txs)
    ensures b == c
  {
    hide Executes;
    SameTxs(b.txs, c.txs);
  }

  /** Equal tip hashes mean the same number of blocks with the same headers. */
  lemma {:induction false} TipFixesHeaders(p: Params, s: State, a: seq<Block>, b: seq<Block>)
    requires a != [] && b != [] && ValidChain(p, s, a) && ValidChain(p, s, b) && a[|a| - 1].hash == b[|b| - 1].hash
    ensures |a| == |b| && forall i :: 0 <= i < |a| ==> a[i].header == b[i].header
    decreases |a|
  {
    hide Executes, StateAfter, RootOfTxs, GenesisBlock;
    var n, m := |a| - 1, |b| - 1;
    ChainHeights(p, s, a, n);
    ChainHeights(p, s, b, m);
    if n > 0 {
      TipFixesHeaders(p, s, a[..n], b[..n]);
    }
  }

  /** The tip hash fixes the whole state, including the tables the state root leaves out. */
  lemma {:induction false} TipFixesState(p: Params, s: State, a: seq<Block>, b: seq<Block>)
    requires a != [] && b != [] && ValidChain(p, s, a) && ValidChain(p, s, b) && a[|a| - 1].hash == b[|b| - 1].hash
    requires forall i, j :: 0 <= i < |a| && 0 <= j < |b| ==> HashesIdentify(a[i].txs, b[j].txs)
    ensures StateAfter(p, s, a[1..]) == StateAfter(p, s, b[1..]) && EventsOf(p, s, a[1..]) == EventsOf(p, s, b[1..])
  {
    hide Executes, HashesIdentify, ValidChain;
    TipFixesHeaders(p, s, a, b);
    ChainHeights(p, s, a, |a| - 1);
    forall i | 0 <= i < |a| ensures a[i].txs == b[i].txs && a[i].header == b[i].header {
      ChainHeights(p, s, a, i);
      ChainHeights(p, s, b, i);
      SameTxs(a[i].txs, b[i].txs);
    }
    SameContents(p, s, a[1..], b[1..]);
  }

  lemma {:induction false} SameContents(p: Params, s: State, a: seq<Block>, b: seq<Block>)
    requires |a| == |b| && forall i :: 0 <= i < |a| ==> a[i].txs == b[i].txs && a[i].header == b[i].header
    ensures StateAfter(p, s, a) == StateAfter(p, s, b) && EventsOf(p, s, a) == EventsOf(p, s, b)
  {
    hide ExecuteBlock;
    if a != [] {
      SameContents(p, s, a[..|a| - 1], b[..|b| - 1]);
    }
  }

  // ---------------------------------------------------------------- chains as runs

  /** The transactions of a list of blocks as one run. */
  ghost function InputsOf(blocks: seq<Block>): seq<Input> {
    if blocks == [] then []
    else
      var b := blocks[|blocks| - 1];
      InputsOf(blocks[..|blocks| - 1]) + Stamped(b.txs, b.header.timestamp)
  }

  ghost function Stamped(txs: seq<Tx>, now: int64): seq<Input> {
    seq(|txs|, i requires 0 <= i < |txs| => Input(txs[i], now))
  }

  /** Executing a block is running its transactions one after the other. */
  lemma {:induction false} BlockIsRun(p: Params, s: State, before: seq<Input>, txs: seq<Tx>, now: int64)
    ensures var inputs := before + Stamped(txs, now);
      && Run(p, s, inputs) == ExecuteBlock(p, Run(p, s, before), txs, now).state
      && RunEvents(p, s, inputs) == RunEvents(p, s, before) + ExecuteBlock(p, Run(p, s, before), txs, now).events
    decreases |txs|
  {
    hide BlockStep;
    var inputs := before + Stamped(txs, now);
    if txs == [] {
      assert inputs == before;
    } else {
      var n := |txs| - 1;
      BlockIsRun(p, s, before, txs[..n], now);
      assert inputs[..|inputs| - 1] == before + Stamped(txs[..n], now) && inputs[|inputs| - 1] == Input(txs[n], now);
      var done := ExecuteBlock(p, Run(p, s, before), txs[..n], now);
      var r := BlockStep(p, done.state, txs[n], now);
      assert (RunEvents(p, s, before) + done.events) + (if r.Ok? then r.value.events else []) ==
        RunEvents(p, s, before) + ExecuteBlock(p, Run(p, s, before), txs, now).events;
    }
  }

  /** The state and events of a chain are those of a run, so every run invariant holds of every chain. */
  lemma {:induction false} ChainIsRun(p: Params, s: State, blocks: seq<Block>)
    ensures StateAfter(p, s, blocks) == Run(p, s, InputsOf(blocks))
    ensures EventsOf(p, s, blocks) == RunEvents(p, s, InputsOf(blocks))
  {
    hide ExecuteBlock, Run, RunEvents;
    if blocks != [] {
      var n := |blocks| - 1;
      ChainIsRun(p, s, blocks[..n]);
      BlockIsRun(p, s, InputsOf(blocks[..n]), blocks[n].txs, blocks[n].header.timestamp);
    } else {
      RunOfNothing(p, s);
    }
  }

  lemma {:induction false} RunOfNothing(p: Params, s: State)
    ensures Run(p, s, []) == s && RunEvents(p, s, []) == []
  {}

  // ---------------------------------------------------------------- every stored transaction commits

  lemma {:induction false} SameStart(p: Params, s: State, inputs: seq<Input>, longer: seq<Input>, k: nat)
    requires k < |inputs| && inputs <= longer
    ensures Succeeds(p, s, longer, k) == Succeeds(p, s, inputs, k)
  {
    hide Run, BlockStep;
    assert longer[..k] == inputs[..k];
  }

  /** A transaction whose verdict in a block is good commits at its place in the run. */
  lemma {:induction false} VerdictsCommit(p: Params, s: State, before: seq<Input>, txs: seq<Tx>, now: int64, j: nat)
    requires j < |txs| && AllTrue(ExecuteBlock(p, Run(p, s, before), txs, now).verdicts)
    ensures Succeeds(p, s, before + Stamped(txs, now), |before| + j)
    decreases |txs|
  {
    hide Run, BlockStep;
    var n := |txs| - 1;
    var init := txs[..n];
    assert Stamped(txs, now) == Stamped(init, now) + [Input(txs[n], now)];
    var shorter, inputs := before + Stamped(init, now), before + Stamped(txs, now);
    assert inputs == shorter + [Input(txs[n], now)];
    ExecuteAppend(p, Run(p, s, before), init, txs[n], now);
    assert txs == init + [txs[n]];
    var verdicts := ExecuteBlock(p, Run(p, s, before), init, now).verdicts;
    if j < n {
      assert AllTrue(verdicts) by { GoodPrefix(verdicts, ExecuteBlock(p, Run(p, s, before), txs, now).verdicts); }
      VerdictsCommit(p, s, before, init, now, j);
      SameStart(p, s, shorter, inputs, |before| + j);
    } else {
      BlockIsRun(p, s, before, init, now);
      assert ExecuteBlock(p, Run(p, s, before), txs, now).verdicts[n];
      assert inputs[..|before| + n] == shorter;
    }
  }

  lemma GoodPrefix(a: seq<bool>, b: seq<bool>)
    requires a <= b && AllTrue(b)
    ensures AllTrue(a)
  {}

  lemma {:induction false} BlocksCommit(p: Params, s: State, blocks: seq<Block>, k: nat)
    requires forall i :: 0 <= i < |blocks| ==> Executes(p, StateAfter(p, s, blocks[..i]), blocks[i])
    requires k < |InputsOf(blocks)|
    ensures Succeeds(p, s, InputsOf(blocks), k)
    decreases |blocks|
  {
    hide Run, BlockStep, ExecuteBlock, StateAfter, Executes;
    var n := |blocks| - 1;
    var init, b := blocks[..n], blocks[n];
    if k < |InputsOf(init)| {
      forall i | 0 <= i < n ensures Executes(p, StateAfter(p, s, init[..i]), init[i]) {
        assert init[..i] == blocks[..i];
      }
      BlocksCommit(p, s, init, k);
      SameStart(p, s, InputsOf(init), InputsOf(blocks), k);
    } else {
      ChainIsRun(p, s, init);
      assert AllTrue(ExecuteBlock(p, Run(p, s, InputsOf(init)), b.txs, b.header.timestamp).verdicts) by { GoodVerdicts(p, StateAfter(p, s, init), b); }
      VerdictsCommit(p, s, InputsOf(init), b.txs, b.header.timestamp, k - |InputsOf(init)|);
    }
  }

  lemma GoodVerdicts(p: Params, s: State, b: Block)
    requires Executes(p, s, b)
    ensures AllTrue(ExecuteBlock(p, s, b.txs, b.header.timestamp).verdicts)
  {}

  /** Every transaction stored on a chain commits in the run of that chain, so what holds of committed positions holds of all of them. */
  lemma {:induction false} ChainCommits(p: Params, s: State, blocks: seq<Block>, k: nat)
    requires ValidChain(p, s, blocks) && k < |InputsOf(blocks[1..])|
    ensures Succeeds(p, s, InputsOf(blocks[1..]), k)
  {
    hide Succeeds, Executes, StateAfter, InputsOf, ValidChain;
    assert |blocks| >= 1 by { NotEmpty(p, s, blocks); }
    var rest := blocks[1..];
    forall i | 0 <= i < |rest| ensures Executes(p, StateAfter(p, s, rest[..i]), rest[i]) {
      ChainExecutes(p, s, blocks, i + 1);
      assert rest[..i] == blocks[1..i + 1];
    }
    BlocksCommit(p, s, rest, k);
  }

  lemma NotEmpty(p: Params, s: State, blocks: seq<Block>)
    requires ValidChain(p, s, blocks)
    ensures |blocks| >= 1
  {}
}
