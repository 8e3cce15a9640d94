/**
 * What holds of every chain and of every node: the run theorems read off the stored blocks.
 */
module Safety {
  import opened Numbers
  import opened ChainState
  import opened Executor
  import opened Supply
  import opened Conservation
  import opened Books
  import opened Lifecycle
  import opened Settlement
  import opened Laws
  import opened Accounts
  import opened Staking
  import opened Ownership
  import opened Announcements
  import opened Provenance
  import Indexes
  import Validators
  import StateRoot
  import opened Blocks
  import FullNode
  import Node
  import TxExecutor
  import StateDb

  /** Every state a chain leads to: PayLinks and proofs in order, indexes exact, roster sound. */
  ghost predicate SoundState(p: Params, s: State) {
    LinksOk(p, s.links) && Indexes.IndexesExact(s.links) && Validators.RosterOk(s.bank) && StateRoot.RecordsKeyed(s)
  }

  lemma {:induction false} ChainStateSound(p: Params, balances: seq<GenesisBalance>, blocks: seq<Block>)
    ensures SoundState(p, StateAfter(p, Genesis(balances), blocks))
  {
    hide Run, RunEvents, StateAfter, EventsOf, Genesis, LinksOk, Indexes.IndexesExact, StateRoot.RecordsKeyed, Validators.RosterOk;
    var inputs := InputsOf(blocks);
    ChainIsRun(p, Genesis(balances), blocks);
    GenesisLinks(p, balances);
    RunKeepsLinks(p, Genesis(balances), inputs);
    Indexes.ReachableIndexed(p, balances, inputs);
    Validators.ReachableKeyed(p, balances, inputs);
    Validators.ReachableRoster(p, balances, inputs);
  }

  /** Over a whole chain no PayLink settles twice and no proof settles two PayLinks. */
  lemma {:induction false} ChainSettlesOnce(p: Params, balances: seq<GenesisBalance>, blocks: seq<Block>)
    ensures var list := Settlements(EventsOf(p, Genesis(balances), blocks));
      forall i, j :: 0 <= i < j < |list| ==> list[i].id != list[j].id && list[i].proof != list[j].proof
  {
    hide Run, RunEvents, StateAfter, EventsOf, Genesis;
    ChainIsRun(p, Genesis(balances), blocks);
    SettledOnce(p, balances, InputsOf(blocks));
  }

  /** On every chain a completed withdrawal has its request in an earlier transaction, stamped a cooldown before, with nothing about withdrawals of that validator in between. */
  lemma {:induction false} ChainCooldown(p: Params, balances: seq<GenesisBalance>, blocks: seq<Block>, t: nat) returns (k: nat)
    requires ValidChain(p, Genesis(balances), blocks) && t < |InputsOf(blocks[1..])| && InputsOf(blocks[1..])[t].tx.body.CompleteUnstake?
    ensures var inputs := InputsOf(blocks[1..]);
      && k < t && inputs[k].tx.body.InitiateUnstake? && inputs[k].tx.from == inputs[t].tx.from
      && (-0x8000_0000_0000_0000 <= inputs[k].now + p.cooldown < 0x8000_0000_0000_0000 ==> inputs[t].now >= inputs[k].now + p.cooldown)
      && (forall j :: k < j < t ==> !Sets(WithdrawalOf(inputs[t].tx.from), inputs[j].tx))
  {
    hide Succeeds, ValidChain, InputsOf, Sets;
    NotEmpty(p, Genesis(balances), blocks);
    var inputs := InputsOf(blocks[1..]);
    ChainCommits(p, Genesis(balances), blocks, t);
    k := CooldownKept(p, balances, inputs, t);
    forall j | k < j < t ensures Succeeds(p, Genesis(balances), inputs, j) {
      ChainCommits(p, Genesis(balances), blocks, j);
    }
  }

  /**
   * Over every chain supply plus burned is genesis supply plus announced fees plus what moved
   * unannounced, up to whole words.  From a conserved genesis, while no slash takes a stake below its
   * pending withdrawal and no fee drifts, tokens are conserved and all that moves unannounced is
   * what half-way payments minted; if every fee brought due fits, nothing does, and the equation is
   * exact as long as the burn counter has not wrapped and no longer.
   */
  lemma {:induction false} ChainConserves(p: Params, balances: seq<GenesisBalance>, blocks: seq<Block>)
    ensures var g, inputs := Genesis(balances), InputsOf(blocks); var b, events := StateAfter(p, g, blocks).bank, EventsOf(p, g, blocks);
      (b.totalSupply + b.totalBurned) % U64_MOD == (g.bank.totalSupply + FeesIn(events) + RunUnbooked(p, g, inputs)) % U64_MOD
    ensures var g, inputs := Genesis(balances), InputsOf(blocks); var b := StateAfter(p, g, blocks).bank;
      Conserved(p, g.bank) && (forall k: nat :: k < |inputs| ==> SafeAt(p, g, inputs, k)) ==>
        && Conserved(p, b) && Covered(b)
        && (RunUnbooked(p, g, inputs) > 0 <==> exists k: nat :: k < |inputs| && HalfwayAt(p, g, inputs, k))
    ensures var g, inputs := Genesis(balances), InputsOf(blocks); var b, events := StateAfter(p, g, blocks).bank, EventsOf(p, g, blocks);
      Conserved(p, g.bank) && (forall k: nat :: k < |inputs| ==> SteadyAt(p, g, inputs, k)) ==>
        && Conserved(p, b) && Covered(b)
        && (b.totalSupply + b.totalBurned == g.bank.totalSupply + FeesIn(events) <==> Burns(events) < U64_MOD)
  {
    hide Run, RunEvents, StateAfter, EventsOf, Genesis, Conserved, Covered, SteadyAt, OrderlyAt, SafeAt, FeesIn, Burns, RunUnbooked, HalfwayAt;
    var s, inputs := Genesis(balances), InputsOf(blocks);
    ChainIsRun(p, s, blocks);
    GenesisBooks(balances);
    SupplyPlusBurned(p, s, inputs);
    assert inputs[..|inputs|] == inputs;
    if Conserved(p, s.bank) {
      GenesisCovered(balances);
      if forall k: nat :: k < |inputs| ==> SafeAt(p, s, inputs, k) {
        SafeSlashesConserve(p, s, inputs, |inputs|);
        SafeUnbooked(p, s, inputs);
      }
      if forall k: nat :: k < |inputs| ==> SteadyAt(p, s, inputs, k) {
        SteadyRun(p, s, inputs, |inputs|);
      }
    }
  }

  lemma GenesisCovered(balances: seq<GenesisBalance>)
    ensures Covered(Genesis(balances).bank)
  {
    GenesisBooks(balances);
  }

  /** However a block shifts the index slices and tables on the heap, reverting it leaves the sound state and the snapshots as they were. */
  method RolledBack(exec: TxExecutor.TxExecutor, txs: seq<Tx>, now: int64)
    requires exec.Valid() && exec.buffered == [] && SoundState(exec.db.params, exec.db.View())
    modifies exec`pending, exec`buffered, exec.db.Repr()
    ensures exec.Valid() && fresh(exec.db.Repr() - old(exec.db.Repr()))
    ensures exec.db.View() == old(exec.db.View()) && exec.db.Saved == old(exec.db.Saved) && SoundState(exec.db.params, exec.db.View())
  {
    hide SoundState, StateDb.StateDB.Valid, StateDb.StateDB.View, ExecuteBlock;
    var snapshot, receipts := Node.Begin(exec, txs, now);
    Node.Abort(exec, snapshot);
  }

  /** A running node, after any mix of received, produced and refused blocks, is in a sound state. */
  lemma {:induction false} NodeStateSound(node: FullNode.FullNode, balances: seq<GenesisBalance>)
    requires node.Valid() && node.genesis == Genesis(balances)
    ensures SoundState(node.exec.db.params, node.exec.db.View())
  {
    hide SoundState, StateAfter, ValidChain, Genesis;
    ChainStateSound(node.exec.db.params, balances, node.bc.Chain()[1..]);
  }

  // ---------------------------------------------------------------- the law of every executed transaction

  /** The state after a committed transaction, in fields: every balance, validator and PayLink, and the punished offences. */
  ghost predicate Lawful(p: Params, s: State, tx: Tx, now: int64, after: State) {
    && (forall a :: Moved(AccountOf(s.bank, a).balance, AccountOf(after.bank, a).balance, Debit(tx, a), Credit(p, s, tx, a)))
    && RosterMoves(p, s, tx, now, after.bank) && LinksMove(p, s, tx, now, after.links)
    && after.evidence == s.evidence + (if tx.body.SubmitEvidence? && Shows(s.bank, tx.body.validator, tx.body.evidence) then {Offence(tx.body.validator, tx.body.evidence)} else {})
  }

  lemma {:induction false} CommittedLawful(p: Params, s: State, tx: Tx, now: int64)
    requires BlockStep(p, s, tx, now).Ok?
    ensures var r := BlockStep(p, s, tx, now).value; Lawful(p, s, tx, now, r.state) && r.events == News(p, s, r.state, tx)
  {
    hide Step, RosterMoves, LinksMove, News, Moved, Debit, Credit, AccountOf, Shows, RulesPass;
    CommitsIff(p, s, tx, now);
    StakeLaw(p, s, tx, now);
    LinkLaw(p, s, tx, now);
    EventLaw(p, s, tx, now);
    forall a ensures Moved(AccountOf(s.bank, a).balance, AccountOf(Step(p, s, tx, now).value.state.bank, a).balance, Debit(tx, a), Credit(p, s, tx, a)) {
      BalanceLaw(p, s, tx, now, a);
    }
  }

  /** The executor on the heap commits exactly the allowed transactions, does to the database what the law says, and leaves it alone otherwise. */
  method ExecuteLawfully(exec: TxExecutor.TxExecutor, tx: Tx, now: int64) returns (receipt: TxExecutor.Receipt)
    requires exec.Valid()
    modifies exec`pending, exec`buffered, exec.db.Repr()
    ensures exec.Valid() && fresh(exec.db.Repr() - old(exec.db.Repr())) && exec.db.Saved == old(exec.db.Saved)
    ensures receipt.error.None? <==>
      tx.authentic && tx.nonce == AccountOf(old(exec.db.View()).bank, tx.from).nonce && Allowed(exec.db.params, old(exec.db.View()), tx, now)
    ensures receipt.error.None? ==> Lawful(exec.db.params, old(exec.db.View()), tx, now, exec.db.View())
    ensures receipt.error.None? ==>
      exec.buffered == old(exec.buffered) + if exec.hasBus then News(exec.db.params, old(exec.db.View()), exec.db.View(), tx) else []
    ensures receipt.error.Some? ==> exec.db.View() == old(exec.db.View()) && exec.buffered == old(exec.buffered)
  {
    hide StateDb.StateDB.Valid, StateDb.StateDB.View, Step, Lawful, Allowed, News;
    ghost var p, s := exec.db.params, exec.db.View();
    CommitsIff(p, s, tx, now);
    if BlockStep(p, s, tx, now).Ok? {
      CommittedLawful(p, s, tx, now);
    }
    receipt := exec.ExecuteOne(tx, now);
  }
}
