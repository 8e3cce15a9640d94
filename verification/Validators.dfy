/**
 * The validator roster over whole runs: records under their own address, listed once, and when
 * an active validator really holds the minimum stake.
 */
module Validators {
  import opened Numbers
  import opened Collections
  import opened Rules
  import opened ChainState
  import opened Fees
  import opened Executor
  import opened Demo
  import opened Supply
  import opened Conservation
  import opened Lifecycle
  import StateRoot

  /** Every record carries its own address, and the list names each validator exactly once. */
  ghost predicate RosterOk(b: Bank) {
    && (forall a :: a in b.validators ==> b.validators[a].address == a)
    && NoDup(b.validatorList)
    && (forall a :: a in b.validatorList <==> a in b.validators)
  }

  ghost predicate SameRoster(b: Bank, b': Bank) {
    b'.validators == b.validators && b'.validatorList == b.validatorList
  }

  // ---------------------------------------------------------------- fees do not touch the roster

  lemma {:induction false} MintAllKeepsRoster(p: Params, b: Bank, list: seq<Address>, shares: seq<uint64>)
    requires |list| == |shares|
    ensures SameRoster(b, MintAll(p, b, list, shares).bank)
    decreases |list|
  {
    if list != [] {
      if shares[0] == 0 {
        MintAllKeepsRoster(p, b, list[1..], shares[1..]);
      } else if MintTokens(p, b, list[0], shares[0]).Ok? {
        MintAllKeepsRoster(p, MintTokens(p, b, list[0], shares[0]).value, list[1..], shares[1..]);
      }
    }
  }

  lemma {:induction false} DistributionKeepsRoster(p: Params, b: Bank, fee: Fee, voters: seq<Address>)
    ensures SameRoster(b, DistributeFees(p, b, fee, voters).bank)
  {
    hide MintAll, Shares, VoterStake;
    var stake := VoterStake(b, voters);
    if stake != 0 {
      var list := SortedSeq(ActiveVoters(b, voters));
      MintAllKeepsRoster(p, b, list, Shares(StakeList(b, list), fee.reward, stake, 0));
    }
  }

  lemma {:induction false} VoteKeepsRoster(p: Params, s: State, from: Address, id: Hash, proof: Hash, now: int64)
    requires DoVote(p, s, from, id, proof, now).Ok?
    ensures SameRoster(s.bank, DoVote(p, s, from, id, proof, now).value.state.bank)
  {
    hide DistributeFees, EvaluateField, Settled, VoteError, CastVote, Voters, SortedSeq, FeeEvents, CalculateFee, IsActive;
    VotedOnCreated(s, from, id, proof, now);
    var voters := SortedSeq(Voters(CastVote(s.links, id, from, proof), id));
    DistributionKeepsRoster(p, s.bank, CalculateFee(p, 0, s.links.paylinks[id].amount), voters);
  }

  // ---------------------------------------------------------------- the roster invariant

  lemma {:induction false} StakeKeepsRoster(p: Params, b: Bank, a: Address, amount: uint64, now: int64)
    requires RosterOk(b)
    ensures RosterOk(Stake(p, b, a, amount, now))
  {}

  lemma {:induction false} DispatchKeepsRoster(p: Params, s: State, tx: Tx, now: int64)
    requires RosterOk(s.bank) && Dispatch(p, s, tx, now).Ok?
    ensures RosterOk(Dispatch(p, s, tx, now).value.state.bank)
  {
    hide DoVote, Stake, DoCreate, DoCancel, DoFail, DoTransferPayLink, DoApprove, DoSetOperator, ProcessEvidence, RosterOk;
    var b, b' := s.bank, Dispatch(p, s, tx, now).value.state.bank;
    match tx.body
    case StakeTokens(amount) =>
      SameRosterOk(b, SubBalance(b, tx.from, amount).value);
      StakeKeepsRoster(p, SubBalance(b, tx.from, amount).value, tx.from, amount, now);
    case InitiateUnstake(_) => RecordRewritten(b, b', tx.from);
    case CompleteUnstake => RecordRewritten(b, b', tx.from);
    case SlashValidator(validator, _) => RecordRewritten(b, b', validator);
    case RewardValidator(validator, _) => RecordRewritten(b, b', validator);
    case RegisterVrfKey(_) => RecordRewritten(b, b', tx.from);
    case SubmitEvidence(validator, _) => RecordRewritten(b, b', validator);
    case SubmitValidation(id, proof) =>
      VoteKeepsRoster(p, s, tx.from, id, proof, now);
      SameRosterOk(b, b');
    case _ => SameRosterOk(b, b');
  }

  lemma {:induction false} SameRosterOk(b: Bank, b': Bank)
    requires RosterOk(b) && SameRoster(b, b')
    ensures RosterOk(b')
  {}

  lemma {:induction false} RecordRewritten(b: Bank, b': Bank, a: Address)
    requires RosterOk(b) && a in b.validators && a in b'.validators && b'.validators[a].address == b.validators[a].address
    requires b'.validators == b.validators[a := b'.validators[a]] && b'.validatorList == b.validatorList
    ensures RosterOk(b')
  {}

  lemma {:induction false} RunKeepsRoster(p: Params, s: State, inputs: seq<Input>)
    requires RosterOk(s.bank)
    ensures RosterOk(Run(p, s, inputs).bank)
    decreases |inputs|
  {
    if inputs != [] {
      var n := |inputs| - 1;
      RunKeepsRoster(p, s, inputs[..n]);
      AfterKeepsRoster(p, Run(p, s, inputs[..n]), inputs[n]);
    }
  }

  lemma {:induction false} AfterKeepsRoster(p: Params, s: State, i: Input)
    requires RosterOk(s.bank)
    ensures RosterOk(After(p, s, i).bank)
  {
    hide Dispatch;
    if BlockStep(p, s, i.tx, i.now).Ok? {
      DispatchKeepsRoster(p, s, i.tx, i.now);
    }
  }

  lemma {:induction false} GenesisRoster(b: Bank, balances: seq<GenesisBalance>)
    ensures SameRoster(b, Fund(b, balances))
    decreases |balances|
  {
    if balances != [] {
      GenesisRoster(PutAccount(b, balances[0].address, Account(balances[0].balance, 0))
                      .(totalSupply := Add64(b.totalSupply, balances[0].balance)), balances[1..]);
    }
  }

  /** Among the states reachable from genesis, the state root tells apart exactly the six tables it covers. */
  lemma {:induction false} ReachableRootIff(p: Params, balances: seq<GenesisBalance>, inputs: seq<Input>,
                                           q: Params, others: seq<GenesisBalance>, inputs': seq<Input>)
    ensures var s, t := Run(p, Genesis(balances), inputs), Run(q, Genesis(others), inputs');
      StateRoot.Root(s) == StateRoot.Root(t) <==> StateRoot.SameTables(s, t)
  {
    hide Run, StateRoot.Root, StateRoot.SameTables, Fund;
    ReachableKeyed(p, balances, inputs);
    ReachableKeyed(q, others, inputs');
    StateRoot.RootIff(Run(p, Genesis(balances), inputs), Run(q, Genesis(others), inputs'));
  }

  lemma {:induction false} ReachableKeyed(p: Params, balances: seq<GenesisBalance>, inputs: seq<Input>)
    ensures StateRoot.RecordsKeyed(Run(p, Genesis(balances), inputs))
  {
    hide Run, Fund, VotesExact, ValidateField, TransfersBound, SettlementBound, ProofsOk;
    GenesisRoster(EmptyBank(), balances);
    GenesisLinks(p, balances);
    RunKeepsRoster(p, Genesis(balances), inputs);
    RunKeepsLinks(p, Genesis(balances), inputs);
  }

  /** In every state reachable from genesis the roster is sound. */
  lemma {:induction false} ReachableRoster(p: Params, balances: seq<GenesisBalance>, inputs: seq<Input>)
    ensures RosterOk(Run(p, Genesis(balances), inputs).bank)
  {
    hide Run, Fund;
    GenesisRoster(EmptyBank(), balances);
    RunKeepsRoster(p, Genesis(balances), inputs);
  }

  // ---------------------------------------------------------------- minimum stake of active validators

  ghost predicate StakedEnough(p: Params, b: Bank) {
    forall a :: a in b.validators && b.validators[a].active ==> b.validators[a].staked >= p.minimumStake
  }

  /** An active validator's stake falls below the minimum by completing a withdrawal, or by staking so much that it wraps. */
  ghost predicate Understakes(p: Params, b: Bank, tx: Tx) {
    && tx.from in b.validators && b.validators[tx.from].active
    && match tx.body
       case CompleteUnstake => Sub64(b.validators[tx.from].staked, b.validators[tx.from].pending) < p.minimumStake
       case StakeTokens(amount) => Add64(b.validators[tx.from].staked, amount) < p.minimumStake
       case _ => false
  }

  lemma {:induction false} StakeStakedIff(p: Params, b: Bank, tx: Tx, now: int64)
    requires StakedEnough(p, b) && tx.body.StakeTokens? && DoStake(p, b, tx.from, tx.body.amount, now).Ok?
    ensures StakedEnough(p, DoStake(p, b, tx.from, tx.body.amount, now).value.bank) <==> !Understakes(p, b, tx)
  {
    var b' := DoStake(p, b, tx.from, tx.body.amount, now).value.bank;
    assert StakedEnough(p, b') <==> b'.validators[tx.from].active ==> b'.validators[tx.from].staked >= p.minimumStake;
  }

  lemma {:induction false} CompleteStakedIff(p: Params, b: Bank, tx: Tx, now: int64)
    requires StakedEnough(p, b) && tx.body.CompleteUnstake? && DoCompleteUnstake(b, tx.from, now).Ok?
    ensures StakedEnough(p, DoCompleteUnstake(b, tx.from, now).value.bank) <==> !Understakes(p, b, tx)
  {
    var b' := DoCompleteUnstake(b, tx.from, now).value.bank;
    assert StakedEnough(p, b') <==> b'.validators[tx.from].active ==> b'.validators[tx.from].staked >= p.minimumStake;
  }

  /** In a conserved state only a withdrawal can do that. */
  lemma {:induction false} OnlyWithdrawalsUnderstake(p: Params, b: Bank, tx: Tx)
    requires Conserved(p, b) && StakedEnough(p, b) && Understakes(p, b, tx)
    requires tx.body.StakeTokens? ==> SubBalance(b, tx.from, tx.body.amount).Ok?
    ensures tx.body.CompleteUnstake?
  {
    HoldingsBound(b, tx.from, tx.from);
  }

  /** A step keeps every active validator at the minimum exactly when it does not understake one. */
  lemma {:induction false} DispatchStakedIff(p: Params, s: State, tx: Tx, now: int64)
    requires StakedEnough(p, s.bank) && Dispatch(p, s, tx, now).Ok?
    ensures StakedEnough(p, Dispatch(p, s, tx, now).value.state.bank) <==> !Understakes(p, s.bank, tx)
  {
    hide DoVote, DoStake, DoCreate, DoCancel, DoFail, DoTransferPayLink, DoApprove, DoSetOperator, ProcessEvidence, DoCompleteUnstake;
    match tx.body
    case SubmitValidation(id, proof) => VoteKeepsRoster(p, s, tx.from, id, proof, now);
    case StakeTokens(amount) => StakeStakedIff(p, s.bank, tx, now);
    case CompleteUnstake => CompleteStakedIff(p, s.bank, tx, now);
    case _ =>
  }

  ghost predicate UnderstakesAt(p: Params, s: State, inputs: seq<Input>, k: nat)
    requires k < |inputs|
  {
    Succeeds(p, s, inputs, k) && Understakes(p, Run(p, s, inputs[..k]).bank, inputs[k].tx)
  }

  ghost predicate StakedAt(p: Params, s: State, inputs: seq<Input>, k: nat)
    requires k <= |inputs|
  {
    StakedEnough(p, Run(p, s, inputs[..k]).bank)
  }

  lemma {:induction false} StepStakedIff(p: Params, s: State, inputs: seq<Input>, k: nat)
    requires k < |inputs| && StakedAt(p, s, inputs, k)
    ensures StakedAt(p, s, inputs, k + 1) <==> !UnderstakesAt(p, s, inputs, k)
  {
    hide Dispatch, StakedEnough, Run, Understakes;
    RunGrows(p, s, inputs, k);
    var t := Run(p, s, inputs[..k]);
    if Succeeds(p, s, inputs, k) {
      DispatchStakedIff(p, t, inputs[k].tx, inputs[k].now);
      NonceKeepsStakes(p, Dispatch(p, t, inputs[k].tx, inputs[k].now).value.state.bank, inputs[k].tx.from);
    }
  }

  lemma NonceKeepsStakes(p: Params, b: Bank, a: Address)
    ensures StakedEnough(p, IncrementNonce(b, a)) == StakedEnough(p, b)
  {}

  /** Over every run active validators always hold the minimum exactly when no committed step understakes one. */
  lemma {:induction false} RunStakedIff(p: Params, s: State, inputs: seq<Input>)
    requires StakedEnough(p, s.bank)
    ensures (forall k: nat :: k <= |inputs| ==> StakedAt(p, s, inputs, k)) <==> (forall k: nat :: k < |inputs| ==> !UnderstakesAt(p, s, inputs, k))
  {
    hide StakedEnough, Run, UnderstakesAt;
    StakedAtStart(p, s, inputs);
    if forall k: nat :: k < |inputs| ==> !UnderstakesAt(p, s, inputs, k) {
      forall k: nat | k <= |inputs| ensures StakedAt(p, s, inputs, k) {
        StakedUntil(p, s, inputs, k);
      }
    }
    if forall k: nat :: k <= |inputs| ==> StakedAt(p, s, inputs, k) {
      forall k: nat | k < |inputs| ensures !UnderstakesAt(p, s, inputs, k) {
        assert StakedAt(p, s, inputs, k) && StakedAt(p, s, inputs, k + 1);
        StepStakedIff(p, s, inputs, k);
      }
    }
  }

  lemma {:induction false} StakedAtStart(p: Params, s: State, inputs: seq<Input>)
    requires StakedEnough(p, s.bank)
    ensures StakedAt(p, s, inputs, 0)
  {
    hide StakedEnough, After;
    assert inputs[..0] == [];
  }

  lemma {:induction false} StakedUntil(p: Params, s: State, inputs: seq<Input>, k: nat)
    requires k <= |inputs| && StakedAt(p, s, inputs, 0)
    requires forall j: nat :: j < |inputs| ==> !UnderstakesAt(p, s, inputs, j)
    ensures StakedAt(p, s, inputs, k)
    decreases k
  {
    hide StakedAt, Run, UnderstakesAt;
    if k > 0 {
      StakedUntil(p, s, inputs, k - 1);
      StepStakedIff(p, s, inputs, k - 1);
    }
  }

  // ---------------------------------------------------------------- an active validator below the minimum

  const TOPPED_UP := DemoState(DemoBank(399, 3, DemoValidator(101, 100, 0, true), 500, 0))
  const BELOW := DemoState(DemoBank(499, 4, DemoValidator(1, 0, 0, true), 500, 0))
  const UNDERSTAKE_INPUTS := [DEMO_INPUTS[0], DEMO_INPUTS[1], DemoInput(1, 2, StakeTokens(1)), DemoInput(1, 3, CompleteUnstake)]

  lemma DemoTopUp()
    ensures After(DEMO_PARAMS, DEMO_2, UNDERSTAKE_INPUTS[2]) == TOPPED_UP
  {}

  lemma DemoUnderstake()
    ensures After(DEMO_PARAMS, TOPPED_UP, UNDERSTAKE_INPUTS[3]) == BELOW
  {}

  /** From genesis: stake, start withdrawing everything, stake one token more, complete: still active with a stake of one. */
  lemma UnderstakeExample()
    ensures StakedEnough(DEMO_PARAMS, Genesis(DEMO_BALANCES).bank)
    ensures Run(DEMO_PARAMS, Genesis(DEMO_BALANCES), UNDERSTAKE_INPUTS) == BELOW && !StakedEnough(DEMO_PARAMS, BELOW.bank)
  {
    hide After, Genesis;
    DemoGenesis();
    DemoStake(DEMO_PARAMS);
    DemoWithdraw();
    DemoTopUp();
    DemoUnderstake();
    Traced(DEMO_PARAMS, [DEMO_0, DEMO_1, DEMO_2, TOPPED_UP, BELOW], UNDERSTAKE_INPUTS, 4);
    assert UNDERSTAKE_INPUTS[..4] == UNDERSTAKE_INPUTS;
    assert 1 in BELOW.bank.validators;
  }
}
