/**
 * Conservation over whole runs: which steps can break it and why nothing else does.
 */
module Conservation {
  import opened Numbers
  import opened Collections
  import opened Rules
  import opened ChainState
  import opened Fees
  import opened Supply
  import opened Payouts
  import opened Executor
  import opened Demo

  /** The step completes a withdrawal that the stake no longer covers. */
  predicate Overdraws(s: State, tx: Tx) {
    tx.body.CompleteUnstake? && Overdrawn(s.bank, tx.from)
  }

  /** The fee of this amount splits into parts that sum to it, and the supply has room for what it mints. */
  predicate FeeFits(p: Params, b: Bank, amount: uint64) {
    var fee := CalculateFee(p, 0, amount);
    fee.reward + fee.burn <= fee.total && b.totalSupply + fee.reward + fee.treasury < U64_MOD
  }

  /** The vote fills the quorum of a PayLink, so that its fee is due if the rules let it settle. */
  predicate FeeDue(p: Params, s: State, tx: Tx) {
    tx.body.SubmitValidation? && tx.body.id in s.links.paylinks && Add64(s.links.paylinks[tx.body.id].voteCount, 1) >= p.required
  }

  predicate FeesFit(p: Params, s: State, tx: Tx) {
    FeeDue(p, s, tx) ==> FeeFits(p, s.bank, s.links.paylinks[tx.body.id].amount)
  }

  /** The fee a transaction brings due, and the voters it is shared among. */
  ghost function DueFee(p: Params, s: State, tx: Tx): Fee
    requires FeeDue(p, s, tx)
  {
    CalculateFee(p, 0, s.links.paylinks[tx.body.id].amount)
  }

  ghost function DueVoters(s: State, tx: Tx): seq<Address>
    requires tx.body.SubmitValidation? && tx.body.id in s.links.paylinks
  {
    SortedSeq(Voters(CastVote(s.links, tx.body.id, tx.from, tx.body.proof), tx.body.id))
  }

  /** Wraps of the supply minus wraps of balances in the mints of the fee that a transaction brings due. */
  ghost function FeeDrift(p: Params, s: State, tx: Tx): int {
    if FeeDue(p, s, tx) then DistributionDrift(p, s.bank, DueFee(p, s, tx), DueVoters(s, tx)) else 0
  }

  /** The fee that a transaction brings due is paid to some voters and then fails. */
  ghost predicate PaidHalfway(p: Params, s: State, tx: Tx) {
    FeeDue(p, s, tx) && Halfway(p, s.bank, DueFee(p, s, tx), DueVoters(s, tx))
  }

  lemma {:induction false} CollectGap(p: Params, b: Bank, id: Hash, amount: uint64, voters: seq<Address>)
    ensures Drifted(p, b, CollectFees(p, b, id, amount, voters).0, DistributionDrift(p, b, CalculateFee(p, 0, amount), voters))
  {
    hide DistributeFees, DistributionDrift, CalculateFee, FeeEvents, Gap;
    var fee := CalculateFee(p, 0, amount);
    DistributionGap(p, b, fee, voters);
    if fee.total == 0 || voters == [] {
      NoFeeNoDrift(p, b, fee, voters);
    }
  }

  lemma NoFeeNoDrift(p: Params, b: Bank, fee: Fee, voters: seq<Address>)
    requires fee.total == 0 || voters == []
    ensures DistributionDrift(p, b, fee, voters) == 0
  {}

  /** A vote moves the gap between holdings and supply by the drift of the fee it brings due. */
  lemma {:induction false} VoteGap(p: Params, s: State, tx: Tx, now: int64)
    requires tx.body.SubmitValidation? && DoVote(p, s, tx.from, tx.body.id, tx.body.proof, now).Ok?
    ensures Drifted(p, s.bank, DoVote(p, s, tx.from, tx.body.id, tx.body.proof, now).value.state.bank, FeeDrift(p, s, tx))
  {
    hide CollectFees, DistributionDrift, Settled, EvaluateField, Gap;
    var id := tx.body.id;
    if FeeDue(p, s, tx) {
      CollectGap(p, s.bank, id, s.links.paylinks[id].amount, DueVoters(s, tx));
    }
  }

  lemma {:induction false} VoteConservesIff(p: Params, s: State, tx: Tx, now: int64)
    requires Conserved(p, s.bank) && tx.body.SubmitValidation? && DoVote(p, s, tx.from, tx.body.id, tx.body.proof, now).Ok?
    ensures Conserved(p, DoVote(p, s, tx.from, tx.body.id, tx.body.proof, now).value.state.bank) <==> FeeDrift(p, s, tx) == 0
  {
    hide DoVote, FeeDrift, Holdings;
    VoteGap(p, s, tx, now);
  }

  /** In a conserved state a fee that fits does not drift. */
  lemma {:induction false} FitNoDrift(p: Params, s: State, tx: Tx)
    requires Conserved(p, s.bank) && FeesFit(p, s, tx)
    ensures FeeDrift(p, s, tx) == 0
  {
    hide DistributeFees, DistributionDrift, Holdings, CalculateFee, PaidTotal, Credited;
    if FeeDue(p, s, tx) {
      var fee, voters := DueFee(p, s, tx), DueVoters(s, tx);
      if fee.total == 0 {
        NoFeeNoDrift(p, s.bank, fee, voters);
      } else {
        SortedNoDup(voters);
        FittingDistribution(p, s.bank, fee, voters);
        DistributionGap(p, s.bank, fee, voters);
      }
    }
  }

  /** With sound parameters every fee fits in every conserved state. */
  lemma {:induction false} SoundFeesFit(p: Params, s: State, tx: Tx)
    requires SoundParams(p) && Conserved(p, s.bank)
    ensures FeesFit(p, s, tx)
  {
    hide CalculateFee, Holdings;
    if FeeDue(p, s, tx) {
      FeeSplitSound(p, s.links.paylinks[tx.body.id].amount);
    }
  }

  lemma {:induction false} KeyConserves(p: Params, b: Bank, from: Address, key: Bytes)
    requires Conserved(p, b) && RegisterKey(b, from, key).Ok?
    ensures Conserved(p, RegisterKey(b, from, key).value)
  {
    var b' := RegisterKey(b, from, key).value;
    ValidatorNoteConserves(p, b, b', from, b'.validators[from]);
  }

  /**
   * A handler that succeeds conserves the supply unless it completes an overdrawn withdrawal or
   * collects a fee whose mints drift, and those never do.
   */
  lemma {:induction false} DispatchConservesIff(p: Params, s: State, tx: Tx, now: int64)
    requires Conserved(p, s.bank) && Dispatch(p, s, tx, now).Ok?
    ensures Conserved(p, Dispatch(p, s, tx, now).value.state.bank) <==> !Overdraws(s, tx) && FeeDrift(p, s, tx) == 0
  {
    hide DoVote, DistributionDrift;
    match tx.body
    case SubmitValidation(id, proof) => VoteConservesIff(p, s, tx, now);
    case SendTokens(to, amount) => TransferConserves(p, s.bank, tx.from, to, amount);
    case StakeTokens(amount) => StakeConserves(p, s.bank, tx.from, amount, now);
    case InitiateUnstake(amount) => InitiateConserves(p, s.bank, tx.from, amount, now);
    case CompleteUnstake => CompleteConservesIff(p, s.bank, tx.from, now);
    case SlashValidator(validator, amount) => SlashConserves(p, s.bank, validator, amount);
    case RewardValidator(validator, amount) => RewardConserves(p, s.bank, tx.from, validator, amount);
    case RegisterVrfKey(key) => KeyConserves(p, s.bank, tx.from, key);
    case SubmitEvidence(validator, e) =>
      SlashConserves(p, s.bank, validator, ProcessEvidence(s.bank, validator, e).value.amount);
    case _ =>
  }

  lemma {:induction false} StepConservesIff(p: Params, s: State, tx: Tx, now: int64)
    requires Conserved(p, s.bank) && Step(p, s, tx, now).Ok?
    ensures Conserved(p, Step(p, s, tx, now).value.state.bank) <==> !Overdraws(s, tx) && FeeDrift(p, s, tx) == 0
  {
    hide Conserved, Dispatch, FeeDrift;
    DispatchConservesIff(p, s, tx, now);
    NonceConserves(p, Dispatch(p, s, tx, now).value.state.bank, tx.from);
  }

  /** The input commits and is an overdrawn withdrawal or a settlement with a drifting fee. */
  ghost predicate Breaks(p: Params, s: State, i: Input) {
    BlockStep(p, s, i.tx, i.now).Ok? && (Overdraws(s, i.tx) || FeeDrift(p, s, i.tx) != 0)
  }

  lemma {:induction false} AfterConservesIff(p: Params, s: State, i: Input)
    requires Conserved(p, s.bank)
    ensures Conserved(p, After(p, s, i).bank) <==> !Breaks(p, s, i)
  {
    hide Conserved, Step, FeeDrift;
    if BlockStep(p, s, i.tx, i.now).Ok? {
      StepConservesIff(p, s, i.tx, i.now);
    }
  }

  ghost predicate ConservedAt(p: Params, s: State, inputs: seq<Input>, k: nat)
    requires k <= |inputs|
  {
    Conserved(p, Run(p, s, inputs[..k]).bank)
  }

  ghost predicate BreaksAt(p: Params, s: State, inputs: seq<Input>, k: nat)
    requires k < |inputs|
  {
    Breaks(p, Run(p, s, inputs[..k]), inputs[k])
  }

  lemma {:induction false} ConservedUntil(p: Params, s: State, inputs: seq<Input>, k: nat)
    requires Conserved(p, s.bank) && k <= |inputs|
    requires forall j: nat :: j < k ==> !BreaksAt(p, s, inputs, j)
    ensures ConservedAt(p, s, inputs, k)
    decreases k
  {
    if k == 0 {
      assert inputs[..0] == [];
    } else {
      ConservedUntil(p, s, inputs, k - 1);
      RunGrows(p, s, inputs, k - 1);
      AfterConservesIff(p, Run(p, s, inputs[..k - 1]), inputs[k - 1]);
      assert !BreaksAt(p, s, inputs, k - 1);
    }
  }

  /**
   * Over every run from a conserved state, whatever the parameters: all states along the run are
   * conserved if and only if no committed step completes a withdrawal larger than the remaining
   * stake or settles with a fee whose mints drift.
   */
  lemma {:induction false} RunConservedIff(p: Params, s: State, inputs: seq<Input>)
    requires Conserved(p, s.bank)
    ensures (forall k: nat :: k <= |inputs| ==> ConservedAt(p, s, inputs, k)) <==>
            (forall k: nat :: k < |inputs| ==> !BreaksAt(p, s, inputs, k))
  {
    if forall k: nat :: k < |inputs| ==> !BreaksAt(p, s, inputs, k) {
      forall k: nat | k <= |inputs| ensures ConservedAt(p, s, inputs, k) {
        ConservedUntil(p, s, inputs, k);
      }
    } else {
      var k: nat :| k < |inputs| && BreaksAt(p, s, inputs, k);
      RunGrows(p, s, inputs, k);
      if ConservedAt(p, s, inputs, k) {
        AfterConservesIff(p, Run(p, s, inputs[..k]), inputs[k]);
        assert !ConservedAt(p, s, inputs, k + 1);
      }
    }
  }

  // ---------------------------------------------------------------- orderly runs

  /** If the step at this position commits, it is no overdrawn withdrawal and any fee it brings due fits. */
  ghost predicate OrderlyAt(p: Params, s: State, inputs: seq<Input>, k: nat)
    requires k < |inputs|
  {
    Succeeds(p, s, inputs, k) ==>
      var t := Run(p, s, inputs[..k]);
      !Overdraws(t, inputs[k].tx) && FeesFit(p, t, inputs[k].tx)
  }

  lemma {:induction false} OrderlyConserves(p: Params, s: State, inputs: seq<Input>, k: nat)
    requires Conserved(p, s.bank) && k <= |inputs|
    requires forall j: nat :: j < k ==> OrderlyAt(p, s, inputs, j)
    ensures ConservedAt(p, s, inputs, k) && forall j: nat :: j < k ==> !BreaksAt(p, s, inputs, j)
    decreases k
  {
    hide Conserved, FeesFit, FeeDrift, BlockStep, Overdraws;
    if k > 0 {
      OrderlyConserves(p, s, inputs, k - 1);
      assert OrderlyAt(p, s, inputs, k - 1);
      if Succeeds(p, s, inputs, k - 1) {
        FitNoDrift(p, Run(p, s, inputs[..k - 1]), inputs[k - 1].tx);
      }
    }
    ConservedUntil(p, s, inputs, k);
  }

  // ---------------------------------------------------------------- fees are paid whole

  /** Stakes and balances of a conserved bank fit the word together. */
  lemma {:induction false} StakesFit(p: Params, b: Bank)
    requires Conserved(p, b)
    ensures Sum(Stakes(b)) < U64_MOD
  {
    SumNonNegative(Balances(b));
  }

  /** With sound parameters a fee brought due in a conserved state is not paid half-way. */
  lemma {:induction false} SoundStepsPayWhole(p: Params, s: State, tx: Tx)
    requires SoundParams(p) && Conserved(p, s.bank)
    ensures !PaidHalfway(p, s, tx)
  {
    hide SoundParams, Halfway;
    StakesFit(p, s.bank);
    if FeeDue(p, s, tx) {
      SortedNoDup(DueVoters(s, tx));
      SoundFeesWhole(p, s.bank, s.links.paylinks[tx.body.id].amount, DueVoters(s, tx));
    }
  }

  /** With sound parameters no settlement of any run is paid half-way before a withdrawal is overdrawn. */
  lemma {:induction false} SoundRunsPayWhole(p: Params, s: State, inputs: seq<Input>, k: nat)
    requires SoundParams(p) && Conserved(p, s.bank) && k < |inputs|
    requires forall j: nat :: j < k && Succeeds(p, s, inputs, j) ==> !Overdraws(Run(p, s, inputs[..j]), inputs[j].tx)
    ensures !PaidHalfway(p, Run(p, s, inputs[..k]), inputs[k].tx)
  {
    hide SoundParams, Conserved, PaidHalfway, Run, Succeeds, Overdraws;
    SoundOrderly(p, s, inputs, k);
    OrderlyConserves(p, s, inputs, k);
    SoundStepsPayWhole(p, Run(p, s, inputs[..k]), inputs[k].tx);
  }

  lemma {:induction false} SoundOrderly(p: Params, s: State, inputs: seq<Input>, k: nat)
    requires SoundParams(p) && Conserved(p, s.bank) && k <= |inputs|
    requires forall j: nat :: j < k && Succeeds(p, s, inputs, j) ==> !Overdraws(Run(p, s, inputs[..j]), inputs[j].tx)
    ensures forall j: nat :: j < k ==> OrderlyAt(p, s, inputs, j)
    decreases k
  {
    hide SoundParams, Conserved, Run, Succeeds, Overdraws, FeesFit;
    if k > 0 {
      SoundOrderly(p, s, inputs, k - 1);
      OrderlyConserves(p, s, inputs, k - 1);
      SoundFeesFit(p, Run(p, s, inputs[..k - 1]), inputs[k - 1].tx);
      assert OrderlyAt(p, s, inputs, k - 1);
    }
  }

  // ---------------------------------------------------------------- slashes that leave withdrawals covered

  /** Every pending withdrawal is still backed by stake. */
  predicate Covered(b: Bank) {
    forall a :: a in b.validators ==> b.validators[a].pending <= b.validators[a].staked
  }

  predicate LeavesUncovered(b: Bank, validator: Address, amount: uint64) {
    validator in b.validators && b.validators[validator].staked < b.validators[validator].pending + amount
  }

  /** The transaction slashes a validator below its own pending withdrawal. */
  predicate Uncovers(s: State, tx: Tx) {
    match tx.body
    case SlashValidator(validator, amount) => LeavesUncovered(s.bank, validator, amount)
    case SubmitEvidence(validator, e) =>
      ProcessEvidence(s.bank, validator, e).Some? && LeavesUncovered(s.bank, validator, ProcessEvidence(s.bank, validator, e).value.amount)
    case _ => false
  }

  lemma SlashCoveredIff(p: Params, b: Bank, validator: Address, amount: uint64)
    requires Covered(b) && Slash(p, b, validator, amount).Ok?
    ensures Covered(Slash(p, b, validator, amount).value) <==> !LeavesUncovered(b, validator, amount)
  {
    var b' := Slash(p, b, validator, amount).value;
    assert Covered(b') <==> b'.validators[validator].pending <= b'.validators[validator].staked;
  }

  lemma StakeCovered(p: Params, b: Bank, a: Address, amount: uint64, now: int64)
    requires Covered(b) && Conserved(p, b) && DoStake(p, b, a, amount, now).Ok?
    ensures Covered(DoStake(p, b, a, amount, now).value.bank)
  {
    StakeConserves(p, b, a, amount, now);
  }

  /** From a covered, conserved state a step keeps all withdrawals covered unless it is such a slash. */
  lemma {:induction false} DispatchCoveredIff(p: Params, s: State, tx: Tx, now: int64)
    requires Conserved(p, s.bank) && Covered(s.bank) && Dispatch(p, s, tx, now).Ok?
    ensures Covered(Dispatch(p, s, tx, now).value.state.bank) <==> !Uncovers(s, tx)
  {
    hide Conserved, DoVote, FeeDrift, Gap, DoStake, DoCreate, DoCancel, DoFail, DoTransferPayLink, DoApprove, DoSetOperator, ProcessEvidence, CollectFees;
    match tx.body
    case SubmitValidation(id, proof) => VoteGap(p, s, tx, now);
    case StakeTokens(amount) => StakeCovered(p, s.bank, tx.from, amount, now);
    case SlashValidator(validator, amount) => SlashCoveredIff(p, s.bank, validator, amount);
    case SubmitEvidence(validator, e) =>
      SlashCoveredIff(p, s.bank, validator, ProcessEvidence(s.bank, validator, e).value.amount);
    case _ =>
  }

  /** A step that commits neither slashes below a pending withdrawal nor settles with a drifting fee. */
  ghost predicate SafeStep(p: Params, s: State, i: Input) {
    BlockStep(p, s, i.tx, i.now).Ok? ==> !Uncovers(s, i.tx) && FeeDrift(p, s, i.tx) == 0
  }

  ghost predicate SafeAt(p: Params, s: State, inputs: seq<Input>, k: nat)
    requires k < |inputs|
  {
    SafeStep(p, Run(p, s, inputs[..k]), inputs[k])
  }

  lemma {:induction false} AfterCovered(p: Params, s: State, i: Input)
    requires Conserved(p, s.bank) && Covered(s.bank) && SafeStep(p, s, i)
    ensures Covered(After(p, s, i).bank) && Conserved(p, After(p, s, i).bank) && !Breaks(p, s, i)
  {
    hide Dispatch, Conserved, FeeDrift;
    AfterConservesIff(p, s, i);
    if BlockStep(p, s, i.tx, i.now).Ok? {
      DispatchCoveredIff(p, s, i.tx, i.now);
    }
  }

  /**
   * As long as no committed slash takes a stake below its pending withdrawal and no fee drifts,
   * every state is conserved and no withdrawal is ever overdrawn.
   */
  lemma {:induction false} SafeSlashesConserve(p: Params, s: State, inputs: seq<Input>, k: nat)
    requires Conserved(p, s.bank) && Covered(s.bank) && k <= |inputs|
    requires forall j: nat :: j < k ==> SafeAt(p, s, inputs, j)
    ensures Conserved(p, Run(p, s, inputs[..k]).bank) && Covered(Run(p, s, inputs[..k]).bank)
    ensures forall j: nat :: j < k ==> !BreaksAt(p, s, inputs, j)
    decreases k
  {
    hide BlockStep, After, Conserved, Covered, Uncovers, SafeStep, Breaks;
    if k == 0 {
      assert inputs[..0] == [];
    } else {
      SafeSlashesConserve(p, s, inputs, k - 1);
      RunGrows(p, s, inputs, k - 1);
      assert SafeAt(p, s, inputs, k - 1);
      AfterCovered(p, Run(p, s, inputs[..k - 1]), inputs[k - 1]);
    }
  }

  // ---------------------------------------------------------------- nothing wraps

  /** A credit after the sender's debit stays within the word size. */
  predicate CreditFits(b: Bank, from: Address, to: Address, amount: uint64) {
    SubBalance(b, from, amount).Ok? ==> AccountOf(SubBalance(b, from, amount).value, to).balance + amount < U64_MOD
  }

  /** No balance, stake or supply update of the transaction wraps, and the slash takes all it slashes from the supply. */
  ghost predicate NothingWraps(p: Params, s: State, tx: Tx) {
    match tx.body
    case SubmitValidation(_, _) =>
      FeeDue(p, s, tx) ==>
        var fee := CalculateFee(p, 0, s.links.paylinks[tx.body.id].amount);
        Holdings(s.bank) + fee.reward + fee.treasury < U64_MOD
    case SendTokens(to, amount) => CreditFits(s.bank, tx.from, to, amount)
    case StakeTokens(amount) => StakedBy(s.bank, tx.from) + amount < U64_MOD
    case CompleteUnstake =>
      tx.from in s.bank.validators ==>
        var v := s.bank.validators[tx.from];
        v.pending <= v.staked && AccountOf(s.bank, tx.from).balance + v.pending < U64_MOD
    case SlashValidator(_, amount) => amount <= s.bank.totalSupply
    case RewardValidator(validator, amount) => CreditFits(s.bank, tx.from, validator, amount)
    case SubmitEvidence(validator, e) =>
      ProcessEvidence(s.bank, validator, e).Some? ==> ProcessEvidence(s.bank, validator, e).value.amount <= s.bank.totalSupply
    case _ => true
  }

  lemma {:induction false} CreditStays(p: Params, b: Bank, from: Address, to: Address, amount: uint64)
    requires Conserved(p, b)
    ensures CreditFits(b, from, to, amount)
  {
    if SubBalance(b, from, amount).Ok? {
      DebitExact(b, from, amount);
      HoldingsBound(SubBalance(b, from, amount).value, to, to);
    }
  }

  /** In a conserved, covered state a committed step whose fee fits wraps nothing. */
  lemma {:induction false} StepWrapsNothing(p: Params, s: State, tx: Tx, now: int64)
    requires Conserved(p, s.bank) && Covered(s.bank) && FeesFit(p, s, tx) && Dispatch(p, s, tx, now).Ok?
    ensures NothingWraps(p, s, tx)
  {
    hide CreditFits, DoVote, DoCreate, DoCancel, DoFail, DoTransferPayLink, DoApprove, DoSetOperator, CalculateFee, Holdings;
    match tx.body
    case SendTokens(to, amount) => CreditStays(p, s.bank, tx.from, to, amount);
    case StakeTokens(amount) => HoldingsBound(s.bank, tx.from, tx.from);
    case CompleteUnstake => HoldingsBound(s.bank, tx.from, tx.from);
    case SlashValidator(validator, amount) => SlashConserves(p, s.bank, validator, amount);
    case RewardValidator(validator, amount) => CreditStays(p, s.bank, tx.from, validator, amount);
    case SubmitEvidence(validator, e) =>
      SlashConserves(p, s.bank, validator, ProcessEvidence(s.bank, validator, e).value.amount);
    case _ =>
  }

  /** If the step at this position commits, it slashes nobody below a pending withdrawal and any fee it brings due fits. */
  ghost predicate SteadyAt(p: Params, s: State, inputs: seq<Input>, k: nat)
    requires k < |inputs|
  {
    Succeeds(p, s, inputs, k) ==>
      var t := Run(p, s, inputs[..k]);
      !Uncovers(t, inputs[k].tx) && FeesFit(p, t, inputs[k].tx)
  }

  /** A steady run from a conserved, covered state is conserved, covered and orderly. */
  lemma {:induction false} SteadyRun(p: Params, s: State, inputs: seq<Input>, k: nat)
    requires Conserved(p, s.bank) && Covered(s.bank) && k <= |inputs|
    requires forall j: nat :: j < k ==> SteadyAt(p, s, inputs, j)
    ensures Conserved(p, Run(p, s, inputs[..k]).bank) && Covered(Run(p, s, inputs[..k]).bank)
    ensures forall j: nat :: j < k ==> OrderlyAt(p, s, inputs, j) && SafeAt(p, s, inputs, j)
    decreases k
  {
    hide Conserved, Covered, Run, BlockStep, Uncovers, FeesFit, FeeDrift, Overdraws;
    if k > 0 {
      SteadyRun(p, s, inputs, k - 1);
      assert SteadyAt(p, s, inputs, k - 1);
      SteadySafe(p, Run(p, s, inputs[..k - 1]), inputs[k - 1]);
    }
    SafeSlashesConserve(p, s, inputs, k);
  }

  lemma {:induction false} SteadySafe(p: Params, s: State, i: Input)
    requires Conserved(p, s.bank) && Covered(s.bank)
    requires BlockStep(p, s, i.tx, i.now).Ok? ==> !Uncovers(s, i.tx) && FeesFit(p, s, i.tx)
    ensures SafeStep(p, s, i) && !Overdraws(s, i.tx)
  {
    hide Conserved, BlockStep, Uncovers, FeesFit, FeeDrift;
    if BlockStep(p, s, i.tx, i.now).Ok? {
      FitNoDrift(p, s, i.tx);
    }
  }

  /** Along such a run no committed step wraps a balance, a stake or the supply, and no slash meets the supply clamp. */
  lemma {:induction false} RunWrapsNothing(p: Params, s: State, inputs: seq<Input>, k: nat)
    requires Conserved(p, s.bank) && Covered(s.bank) && k < |inputs|
    requires forall j: nat :: j <= k ==> SteadyAt(p, s, inputs, j)
    ensures Succeeds(p, s, inputs, k) ==> NothingWraps(p, Run(p, s, inputs[..k]), inputs[k].tx)
  {
    hide Conserved, Covered, Run, Dispatch, Uncovers, FeesFit, NothingWraps;
    SteadyRun(p, s, inputs, k);
    assert SteadyAt(p, s, inputs, k);
    if Succeeds(p, s, inputs, k) {
      StepWrapsNothing(p, Run(p, s, inputs[..k]), inputs[k].tx, inputs[k].now);
    }
  }

  // ---------------------------------------------------------------- the failing cases are reachable

  function DemoValidator(staked: uint64, pending: uint64, slashed: uint64, active: bool): map<Address, Validator> {
    map[1 := Validator(1, staked, pending, 0, slashed, 0, active, 0, [])]
  }

  function DemoBank(balance: uint64, nonce: uint64, validators: map<Address, Validator>, supply: uint64, burned: uint64): Bank {
    Bank(map[1 := Account(balance, nonce)], validators, [1], map[], supply, burned)
  }

  function DemoState(b: Bank): State {
    State(b, EmptyLinks(), {})
  }

  const DEMO_0 := DemoState(Bank(map[1 := Account(500, 0)], map[], [], map[], 500, 0))
  const DEMO_1 := DemoState(DemoBank(400, 1, DemoValidator(100, 0, 0, true), 500, 0))
  const DEMO_2 := DemoState(DemoBank(400, 2, DemoValidator(100, 100, 0, false), 500, 0))
  const DEMO_3 := DemoState(DemoBank(400, 3, DemoValidator(40, 100, 60, false), 440, 60))
  const DEMO_4 := DemoState(DemoBank(500, 4, DemoValidator(U64_MOD - 60, 0, 60, false), 440, 60))

  const DEMO_INPUTS :=
    [DemoInput(1, 0, StakeTokens(100)), DemoInput(1, 1, InitiateUnstake(100)), DemoInput(1, 2, SlashValidator(1, 60)), DemoInput(1, 3, CompleteUnstake)]

  lemma DemoGenesis()
    ensures Genesis(DEMO_BALANCES) == DEMO_0
  {
    var funded := PutAccount(EmptyBank(), 1, Account(500, 0)).(totalSupply := 500);
    assert DEMO_BALANCES[1..] == [];
    assert Fund(EmptyBank(), DEMO_BALANCES) == Fund(funded, []);
  }

  lemma DemoConserved()
    ensures Conserved(DEMO_PARAMS, Genesis(DEMO_BALANCES).bank)
  {
    assert DEMO_BALANCES[1..] == [];
    assert InitialTotal(DEMO_BALANCES) == 500 + InitialTotal([]);
    GenesisConservedIff(DEMO_PARAMS, DEMO_BALANCES);
  }

  /** The demo runs share their first step, whatever the fee parameters. */
  lemma DemoStake(p: Params)
    requires p.minimumStake == 10
    ensures After(p, DEMO_0, DEMO_INPUTS[0]) == DEMO_1
  {}

  lemma DemoWithdraw()
    ensures After(DEMO_PARAMS, DEMO_1, DEMO_INPUTS[1]) == DEMO_2
  {}

  lemma DemoSlash()
    ensures After(DEMO_PARAMS, DEMO_2, DEMO_INPUTS[2]) == DEMO_3
  {}

  lemma DemoComplete()
    ensures After(DEMO_PARAMS, DEMO_3, DEMO_INPUTS[3]) == DEMO_4
  {}

  /**
   * From a conserved genesis state: stake 100, start withdrawing all of it, be slashed by 60,
   * complete.  The validator's balance is credited 100 for a remaining stake of 40 and the stake
   * wraps around.
   */
  lemma OverdraftExample()
    ensures Conserved(DEMO_PARAMS, Genesis(DEMO_BALANCES).bank)
    ensures Run(DEMO_PARAMS, Genesis(DEMO_BALANCES), DEMO_INPUTS) == DEMO_4 && !Conserved(DEMO_PARAMS, DEMO_4.bank)
  {
    hide After, Genesis;
    DemoGenesis();
    DemoConserved();
    DemoStake(DEMO_PARAMS);
    DemoWithdraw();
    DemoSlash();
    DemoComplete();
    Traced(DEMO_PARAMS, [DEMO_0, DEMO_1, DEMO_2, DEMO_3, DEMO_4], DEMO_INPUTS, 4);
    assert DEMO_INPUTS[..4] == DEMO_INPUTS;
    HoldingsBound(DEMO_4.bank, 1, 1);
  }

  /** Percentages of 90 and 20, and a fee as large as the amount. */
  const GREEDY := Params(1000, 10, 0, 1, 1, 2, 10000, 90, 20, 20)
  const GREEDY_INPUTS := [DEMO_INPUTS[0], DemoInput(1, 1, CreatePayLink(7, 3, 100, 10, 0, NoRules)), DemoInput(1, 2, SubmitValidation(7, 9))]

  const GREEDY_LINKS :=
    Links(map[7 := PayLink(7, 1, 3, 1, 0, 100, 10, Created, 0, 0, 0, 0, NoRules)], {}, map[], {},
          map[1 := [7]], map[3 := [7]], map[Created := [7]], map[1 := [7]], {})
  const GREEDY_2 := State(DemoBank(400, 2, DemoValidator(100, 0, 0, true), 500, 0), GREEDY_LINKS, {})

  lemma GreedyCreate()
    ensures After(GREEDY, DEMO_1, GREEDY_INPUTS[1]) == GREEDY_2
  {
    assert [] + [7 as Hash] == [7];
    var l := EmptyLinks();
    assert Append(l.byCreator, 1, 7) == map[1 := [7]] && Append(l.byStatus, Created, 7) == map[Created := [7]];
  }

  lemma SingletonSorted(x: nat)
    ensures SortedSeq({x}) == [x]
  {
    SortedUnique(SortedSeq({x}), [x]);
  }

  lemma GreedyFee()
    ensures CalculateFee(GREEDY, 0, 100) == Fee(100, 90, U64_MOD - 10, 20)
  {
    hide Mul64;
    MulWrapBelow(100, 10000);
    MulWrapBelow(100, 90);
    MulWrapBelow(100, 20);
  }

  lemma {:induction false} GreedyVoters()
    ensures var b := GREEDY_2.bank;
      && VoterStake(b, [1]) == 100 && SortedSeq(ActiveVoters(b, [1])) == [1]
      && StakeList(b, [1]) == [100] && Shares([100], 90, 100, 0) == [90]
  {
    hide Mul64;
    var b := GREEDY_2.bank;
    assert [1][..0] == [];
    assert ActiveVoters(b, [1]) == {1};
    SingletonSorted(1);
    assert [100][1..] == [];
  }

  lemma {:induction false} OnePayout(p: Params, b: Bank, a: Address, amount: uint64)
    requires amount > 0 && MintTokens(p, b, a, amount).Ok?
    ensures MintAll(p, b, [a], [amount]) == Paid(true, MintTokens(p, b, a, amount).value, [Payout(a, amount)])
    ensures MintAllDrift(p, b, [a], [amount]) == MintDrift(b, a, amount)
  {
    hide MintTokens, MintDrift;
    var list, shares := [a], [amount];
    assert list[1..] == [] && shares[1..] == [];
  }

  lemma GreedyPayout()
    ensures var minted := MintTokens(GREEDY, GREEDY_2.bank, 1, 90);
      minted.Ok? && minted.value.totalSupply == 590 && AccountOf(minted.value, 2).balance == 0 && MintDrift(GREEDY_2.bank, 1, 90) == 0
  {}

  lemma GreedyTreasury(paid: Paid, fee: Fee)
    requires paid.ok && paid.bank.totalSupply == 590 && AccountOf(paid.bank, 2).balance == 0 && fee.treasury == U64_MOD - 10
    ensures TreasuryDrift(GREEDY, paid, fee) == 1
  {}

  /** The voter is minted its 90, and the treasury, in a cap check that wraps, all but ten of a word. */
  lemma {:induction false} GreedyDrift()
    ensures DistributionDrift(GREEDY, GREEDY_2.bank, Fee(100, 90, U64_MOD - 10, 20), [1]) == 1
  {
    hide VoterStake, ActiveVoters, StakeList, Shares, SortedSeq, MintAll, MintAllDrift, MintTokens, MintDrift, TreasuryDrift, AccountOf;
    GreedyVoters();
    GreedyPayout();
    OnePayout(GREEDY, GREEDY_2.bank, 1, 90);
    GreedyTreasury(MintAll(GREEDY, GREEDY_2.bank, [1], [90]), Fee(100, 90, U64_MOD - 10, 20));
  }

  lemma {:induction false} GreedyVote()
    ensures BlockStep(GREEDY, GREEDY_2, GREEDY_INPUTS[2].tx, 0).Ok? && FeeDrift(GREEDY, GREEDY_2, GREEDY_INPUTS[2].tx) == 1
  {
    hide DistributionDrift, CollectFees, CalculateFee, Settled;
    assert Voters(CastVote(GREEDY_LINKS, 7, 1, 9), 7) == {1};
    SingletonSorted(1);
    GreedyFee();
    GreedyDrift();
  }

  /**
   * From the same genesis state, with unsound percentages: stake, create a PayLink of 100 and let
   * it settle.  The settlement commits, its fee drifts, and the supply is no longer what is held.
   */
  lemma {:induction false} GreedyFeeExample()
    ensures Conserved(GREEDY, Genesis(DEMO_BALANCES).bank)
    ensures Run(GREEDY, Genesis(DEMO_BALANCES), GREEDY_INPUTS[..2]) == GREEDY_2 && Conserved(GREEDY, GREEDY_2.bank)
    ensures BreaksAt(GREEDY, Genesis(DEMO_BALANCES), GREEDY_INPUTS, 2)
    ensures !Conserved(GREEDY, Run(GREEDY, Genesis(DEMO_BALANCES), GREEDY_INPUTS).bank)
  {
    hide After, Genesis, BlockStep, FeeDrift, Holdings;
    var s := Genesis(DEMO_BALANCES);
    DemoGenesis();
    DemoConserved();
    assert GREEDY_INPUTS[..3] == GREEDY_INPUTS;
    DemoStake(GREEDY);
    GreedyCreate();
    Traced(GREEDY, [DEMO_0, DEMO_1, GREEDY_2], GREEDY_INPUTS, 2);
    RunGrows(GREEDY, s, GREEDY_INPUTS, 2);
    GreedyVote();
    GreedyHoldings();
    AfterConservesIff(GREEDY, GREEDY_2, GREEDY_INPUTS[2]);
  }

  lemma {:induction false} GreedyHoldings()
    ensures Holdings(GREEDY_2.bank) == 500
  {
    SumUpdate(map[], 1, 400);
    SumUpdate(map[], 1, 100);
    assert Balances(GREEDY_2.bank) == map[1 := 400] && Stakes(GREEDY_2.bank) == map[1 := 100];
  }
}
