/**
 * Whose stake moves, by whom and by how much: the record of every validator after a committed
 * transaction, field by field, and what can take stake away along a run.
 */
module Staking {
  import opened Numbers
  import opened Collections
  import opened Rules
  import opened ChainState
  import opened Fees
  import opened Supply
  import opened Payouts
  import opened Executor
  import opened Conservation
  import opened Laws

  // ---------------------------------------------------------------- one committed transaction

  function StakeIn(tx: Tx, v: Address): nat {
    if tx.body.StakeTokens? && tx.from == v then tx.body.amount else 0
  }

  /** What is burned from the stake: by the administrator, or by evidence against the validator. */
  function Slashed(s: State, tx: Tx, v: Address): nat {
    match tx.body
    case SlashValidator(a, amount) => if a == v then amount else 0
    case SubmitEvidence(a, e) => if a == v && v in s.bank.validators then Penalty(s.bank.validators[v].staked, e) else 0
    case _ => 0
  }

  /** What the validator takes back itself. */
  function Withdrawn(s: State, tx: Tx, v: Address): nat {
    if tx.body.CompleteUnstake? && tx.from == v && v in s.bank.validators then s.bank.validators[v].pending else 0
  }

  /** The cooldown ends at the sum of the clock and the period, which a signed clock may wrap. */
  function CooldownEnd(p: Params, now: int64): int {
    if now + p.cooldown > 0x7FFF_FFFF_FFFF_FFFF then now + p.cooldown - U64_MOD
    else if now + p.cooldown < -0x8000_0000_0000_0000 then now + p.cooldown + U64_MOD
    else now + p.cooldown
  }

  /** The record of a validator before a transaction; a newcomer starts from an empty one. */
  function RecordOf(b: Bank, v: Address, now: int64): Validator {
    if v in b.validators then b.validators[v] else Validator(v, 0, 0, 0, 0, 0, false, now, [])
  }

  /** The record of validator v after the transaction, against the record before it. */
  ghost predicate RecordMoves(p: Params, s: State, tx: Tx, now: int64, v: Address, after: Validator) {
    var before, mine := RecordOf(s.bank, v, now), tx.from == v;
    && after.address == before.address && after.joinedAt == before.joinedAt
    && after.staked == (before.staked + StakeIn(tx, v) - Slashed(s, tx, v) - Withdrawn(s, tx, v)) % U64_MOD
    && after.totalSlashed == (before.totalSlashed + Slashed(s, tx, v)) % U64_MOD
    && after.totalRewards == (before.totalRewards + if tx.body.RewardValidator? && tx.body.validator == v then tx.body.amount else 0) % U64_MOD
    && after.vrfKey == (if tx.body.RegisterVrfKey? && mine then tx.body.key else before.vrfKey)
    && after.pending == (if tx.body.InitiateUnstake? && mine then tx.body.amount
                         else if tx.body.CompleteUnstake? && mine then 0 else before.pending)
    && after.withdrawableAt == (if tx.body.InitiateUnstake? && mine then CooldownEnd(p, now)
                                else if tx.body.CompleteUnstake? && mine then 0 else before.withdrawableAt)
    && after.active == ActiveAfter(p, s, tx, v, before, after)
  }

  /** Staking up to the minimum activates; asking for stake back or being slashed below it deactivates; nothing else does either. */
  ghost predicate ActiveAfter(p: Params, s: State, tx: Tx, v: Address, before: Validator, after: Validator) {
    match tx.body
    case StakeTokens(_) => before.active || (tx.from == v && after.staked >= p.minimumStake)
    case InitiateUnstake(amount) => before.active && (tx.from == v ==> before.staked - amount >= p.minimumStake)
    case SlashValidator(a, _) => before.active && (a == v ==> after.staked >= p.minimumStake)
    case SubmitEvidence(a, _) => before.active && (a == v ==> after.staked >= p.minimumStake)
    case _ => before.active
  }

  /** The validators after a transaction: the same ones and a first-time staker, each moved as its record says. */
  ghost predicate RosterMoves(p: Params, s: State, tx: Tx, now: int64, after: Bank) {
    && (forall v :: v in after.validators <==> v in s.bank.validators || (tx.body.StakeTokens? && v == tx.from))
    && (forall v :: v in after.validators ==> RecordMoves(p, s, tx, now, v, after.validators[v]))
    && after.validatorList == s.bank.validatorList + (if tx.body.StakeTokens? && tx.from !in s.bank.validators then [tx.from] else [])
    && after.vrfKeys == (if tx.body.RegisterVrfKey? then s.bank.vrfKeys[tx.from := tx.body.key] else s.bank.vrfKeys)
  }

  /** Whose record a transaction is about. */
  function Target(tx: Tx): Option<Address> {
    match tx.body
    case StakeTokens(_) => Some(tx.from)
    case InitiateUnstake(_) => Some(tx.from)
    case CompleteUnstake => Some(tx.from)
    case RegisterVrfKey(_) => Some(tx.from)
    case SlashValidator(a, _) => Some(a)
    case RewardValidator(a, _) => Some(a)
    case SubmitEvidence(a, _) => Some(a)
    case _ => None
  }

  lemma {:induction false} Untouched(p: Params, s: State, tx: Tx, now: int64, v: Address)
    requires v in s.bank.validators && Target(tx) != Some(v)
    ensures RecordMoves(p, s, tx, now, v, s.bank.validators[v])
  {
    hide Penalty;
  }

  /** Rewriting the one record a transaction is about, as that record moves, moves the roster. */
  lemma {:induction false} OneRecord(p: Params, s: State, tx: Tx, now: int64, a: Address, record: Validator, after: Bank)
    requires Target(tx) == Some(a) && (a in s.bank.validators || tx.body.StakeTokens?)
    requires RecordMoves(p, s, tx, now, a, record) && after.validators == s.bank.validators[a := record]
    requires after.validatorList == s.bank.validatorList + (if a in s.bank.validators then [] else [a])
    requires after.vrfKeys == (if tx.body.RegisterVrfKey? then s.bank.vrfKeys[a := tx.body.key] else s.bank.vrfKeys)
    ensures RosterMoves(p, s, tx, now, after)
  {
    hide RecordMoves;
    forall v | v in after.validators ensures RecordMoves(p, s, tx, now, v, after.validators[v]) {
      if v != a {
        Untouched(p, s, tx, now, v);
      }
    }
  }

  lemma {:induction false} StakeRoster(p: Params, s: State, tx: Tx, now: int64)
    requires tx.body.StakeTokens? && DoStake(p, s.bank, tx.from, tx.body.amount, now).Ok?
    ensures RosterMoves(p, s, tx, now, DoStake(p, s.bank, tx.from, tx.body.amount, now).value.bank)
  {
    hide RosterMoves;
    var after := DoStake(p, s.bank, tx.from, tx.body.amount, now).value.bank;
    AddWraps(RecordOf(s.bank, tx.from, now).staked, tx.body.amount);
    OneRecord(p, s, tx, now, tx.from, after.validators[tx.from], after);
  }

  lemma {:induction false} InitiateRoster(p: Params, s: State, tx: Tx, now: int64)
    requires tx.body.InitiateUnstake? && DoInitiateUnstake(p, s.bank, tx.from, tx.body.amount, now).Ok?
    ensures RosterMoves(p, s, tx, now, DoInitiateUnstake(p, s.bank, tx.from, tx.body.amount, now).value.bank)
  {
    hide RosterMoves;
    var after := DoInitiateUnstake(p, s.bank, tx.from, tx.body.amount, now).value.bank;
    OneRecord(p, s, tx, now, tx.from, after.validators[tx.from], after);
  }

  lemma {:induction false} CompleteRoster(p: Params, s: State, tx: Tx, now: int64)
    requires tx.body.CompleteUnstake? && DoCompleteUnstake(s.bank, tx.from, now).Ok?
    ensures RosterMoves(p, s, tx, now, DoCompleteUnstake(s.bank, tx.from, now).value.bank)
  {
    hide RosterMoves;
    var after := DoCompleteUnstake(s.bank, tx.from, now).value.bank;
    OneRecord(p, s, tx, now, tx.from, after.validators[tx.from], after);
  }

  lemma {:induction false} SlashRoster(p: Params, s: State, tx: Tx, now: int64)
    requires tx.body.SlashValidator? && DoSlash(p, s.bank, tx.body.validator, tx.body.amount).Ok?
    ensures RosterMoves(p, s, tx, now, DoSlash(p, s.bank, tx.body.validator, tx.body.amount).value.bank)
  {
    hide RosterMoves;
    var after := DoSlash(p, s.bank, tx.body.validator, tx.body.amount).value.bank;
    AddWraps(s.bank.validators[tx.body.validator].totalSlashed, tx.body.amount);
    OneRecord(p, s, tx, now, tx.body.validator, after.validators[tx.body.validator], after);
  }

  lemma {:induction false} RewardRoster(p: Params, s: State, tx: Tx, now: int64)
    requires tx.body.RewardValidator? && DoReward(p, s.bank, tx.from, tx.body.validator, tx.body.amount).Ok?
    ensures RosterMoves(p, s, tx, now, DoReward(p, s.bank, tx.from, tx.body.validator, tx.body.amount).value.bank)
  {
    hide RosterMoves;
    var after := DoReward(p, s.bank, tx.from, tx.body.validator, tx.body.amount).value.bank;
    AddWraps(s.bank.validators[tx.body.validator].totalRewards, tx.body.amount);
    OneRecord(p, s, tx, now, tx.body.validator, after.validators[tx.body.validator], after);
  }

  lemma {:induction false} KeyRoster(p: Params, s: State, tx: Tx, now: int64)
    requires tx.body.RegisterVrfKey? && DoRegisterKey(s.bank, tx.from, tx.body.key).Ok?
    ensures RosterMoves(p, s, tx, now, DoRegisterKey(s.bank, tx.from, tx.body.key).value.bank)
  {
    hide RosterMoves;
    var after := DoRegisterKey(s.bank, tx.from, tx.body.key).value.bank;
    OneRecord(p, s, tx, now, tx.from, after.validators[tx.from], after);
  }

  lemma {:induction false} EvidenceRoster(p: Params, s: State, tx: Tx, now: int64)
    requires tx.body.SubmitEvidence? && DoEvidence(p, s, tx.body.validator, tx.body.evidence).Ok?
    ensures RosterMoves(p, s, tx, now, DoEvidence(p, s, tx.body.validator, tx.body.evidence).value.state.bank)
    ensures DoEvidence(p, s, tx.body.validator, tx.body.evidence).value.state.evidence == s.evidence + {Offence(tx.body.validator, tx.body.evidence)}
  {
    hide ProcessEvidence, Penalty, Shows, RosterMoves;
    EvidenceIff(s.bank, tx.body.validator, tx.body.evidence);
    var after := DoEvidence(p, s, tx.body.validator, tx.body.evidence).value.state.bank;
    var record := s.bank.validators[tx.body.validator];
    PenaltyIs(record.staked, tx.body.evidence);
    AddWraps(record.totalSlashed, Penalty(record.staked, tx.body.evidence));
    OneRecord(p, s, tx, now, tx.body.validator, after.validators[tx.body.validator], after);
  }

  /** Transactions that leave every record as it is. */
  lemma {:induction false} QuietRoster(p: Params, s: State, tx: Tx, now: int64, after: Bank)
    requires Target(tx).None?
    requires after.validators == s.bank.validators && after.validatorList == s.bank.validatorList && after.vrfKeys == s.bank.vrfKeys
    ensures RosterMoves(p, s, tx, now, after)
  {
    hide RecordMoves;
    forall v | v in after.validators ensures RecordMoves(p, s, tx, now, v, after.validators[v]) {
      Untouched(p, s, tx, now, v);
    }
  }

  lemma {:induction false} VoteRoster(p: Params, s: State, tx: Tx, now: int64)
    requires tx.body.SubmitValidation? && DoVote(p, s, tx.from, tx.body.id, tx.body.proof, now).Ok?
    ensures var after := DoVote(p, s, tx.from, tx.body.id, tx.body.proof, now).value.state;
      && after.bank.validators == s.bank.validators && after.bank.validatorList == s.bank.validatorList && after.bank.vrfKeys == s.bank.vrfKeys
      && after.evidence == s.evidence
  {
    hide DistributeFees, CalculateFee, EvaluateField, Settled, Passes, FeeEvents;
    if FeeDue(p, s, tx) {
      FeeRoster(p, s.bank, DueFee(p, s, tx), DueVoters(s, tx));
    }
  }

  lemma {:induction false} FeeRoster(p: Params, b: Bank, fee: Fee, voters: seq<Address>)
    ensures var after := DistributeFees(p, b, fee, voters).bank;
      after.validators == b.validators && after.validatorList == b.validatorList && after.vrfKeys == b.vrfKeys
  {
    hide DistributeFees, Passes, VotersOnly, PaidShares, PaidVoters, StopOf, Running, PaidTotal, Credits, TreasuryCredited, SumSeq;
    DistributionIff(p, b, fee, voters);
  }

  /** Every validator record after a committed transaction, and the punished offences. */
  lemma {:induction false} StakeLaw(p: Params, s: State, tx: Tx, now: int64)
    requires Step(p, s, tx, now).Ok?
    ensures RosterMoves(p, s, tx, now, Step(p, s, tx, now).value.state.bank)
    ensures Step(p, s, tx, now).value.state.evidence ==
      s.evidence + if tx.body.SubmitEvidence? then {Offence(tx.body.validator, tx.body.evidence)} else {}
  {
    hide DoVote, DoCreate, DoCancel, DoFail, DoTransferPayLink, DoApprove, DoSetOperator, DoSend, DoStake, DoInitiateUnstake,
      DoCompleteUnstake, DoSlash, DoReward, DoRegisterKey, DoEvidence, RosterMoves, RulesPass;
    var done := Dispatch(p, s, tx, now).value.state;
    SeenThroughNonce(p, s, tx, now, done.bank);
    match tx.body
    case StakeTokens(_) => StakeRoster(p, s, tx, now);
    case InitiateUnstake(_) => InitiateRoster(p, s, tx, now);
    case CompleteUnstake => CompleteRoster(p, s, tx, now);
    case SlashValidator(_, _) => SlashRoster(p, s, tx, now);
    case RewardValidator(_, _) => RewardRoster(p, s, tx, now);
    case RegisterVrfKey(_) => KeyRoster(p, s, tx, now);
    case SubmitEvidence(_, _) => EvidenceRoster(p, s, tx, now);
    case SubmitValidation(_, _) =>
      VoteRoster(p, s, tx, now);
      QuietRoster(p, s, tx, now, done.bank);
    case SendTokens(to, amount) =>
      SendRoster(s.bank, tx.from, to, amount);
      QuietRoster(p, s, tx, now, done.bank);
    case _ => QuietRoster(p, s, tx, now, done.bank);
  }

  lemma SeenThroughNonce(p: Params, s: State, tx: Tx, now: int64, b: Bank)
    ensures RosterMoves(p, s, tx, now, b) <==> RosterMoves(p, s, tx, now, IncrementNonce(b, tx.from))
  {}

  lemma SendRoster(b: Bank, from: Address, to: Address, amount: uint64)
    requires DoSend(b, from, to, amount).Ok?
    ensures var after := DoSend(b, from, to, amount).value.bank;
      after.validators == b.validators && after.validatorList == b.validatorList && after.vrfKeys == b.vrfKeys
  {}

  /** What an input does to the stake of a validator, negative when it takes from it. */
  ghost function StakeGain(p: Params, s: State, i: Input, v: Address): int {
    if BlockStep(p, s, i.tx, i.now).Ok? then StakeIn(i.tx, v) - Slashed(s, i.tx, v) - Withdrawn(s, i.tx, v) else 0
  }

  /** A validator stays on the roster, and its stake moves by that much, as the counter holds it. */
  lemma {:induction false} AfterStake(p: Params, s: State, i: Input, v: Address)
    requires v in s.bank.validators
    ensures v in After(p, s, i).bank.validators
    ensures After(p, s, i).bank.validators[v].staked == (s.bank.validators[v].staked + StakeGain(p, s, i, v)) % U64_MOD
  {
    hide Step, StakeIn, Slashed, Withdrawn, ActiveAfter;
    if BlockStep(p, s, i.tx, i.now).Ok? {
      StakeLaw(p, s, i.tx, i.now);
      assert RecordMoves(p, s, i.tx, i.now, v, Step(p, s, i.tx, i.now).value.state.bank.validators[v]);
    }
  }

  // ---------------------------------------------------------------- the administrator's slash and evidence

  /** Only the administrator slashes, only a validator that holds the amount, and nobody else's record moves. */
  lemma {:induction false} SlashIff(p: Params, s: State, tx: Tx, now: int64)
    requires tx.body.SlashValidator?
    ensures Step(p, s, tx, now).Ok? <==>
      && tx.nonce == AccountOf(s.bank, tx.from).nonce && tx.from == p.admin
      && tx.body.validator in s.bank.validators && tx.body.amount <= s.bank.validators[tx.body.validator].staked
    ensures Step(p, s, tx, now).Ok? ==>
      var after, v := Step(p, s, tx, now).value.state, tx.body.validator;
      && v in after.bank.validators && after.bank.validators[v].staked == s.bank.validators[v].staked - tx.body.amount
      && (forall u :: u in s.bank.validators && u != v ==> u in after.bank.validators && after.bank.validators[u] == s.bank.validators[u])
      && after.links == s.links && after.evidence == s.evidence
      && (forall a :: AccountOf(after.bank, a).balance == AccountOf(s.bank, a).balance)
  {}

  /**
   * Evidence commits exactly when it shows, in its own fields, a new offence of a validator with
   * stake; then half, a quarter or all of the stake is burned and the offence is on record.
   */
  lemma {:induction false} PunishedIff(p: Params, s: State, tx: Tx, now: int64)
    requires tx.body.SubmitEvidence?
    ensures var v, e := tx.body.validator, tx.body.evidence;
      Step(p, s, tx, now).Ok? <==>
        && tx.nonce == AccountOf(s.bank, tx.from).nonce && v in s.bank.validators && s.bank.validators[v].staked > 0
        && Shows(s.bank, v, e) && Offence(v, e) !in s.evidence
    ensures Step(p, s, tx, now).Ok? ==>
      var v, e, after := tx.body.validator, tx.body.evidence, Step(p, s, tx, now).value.state;
      var staked := s.bank.validators[v].staked;
      && v in after.bank.validators && after.bank.validators[v].staked == staked - Penalty(staked, e) < staked
      && (e.DoubleSign? && staked * 50 < U64_MOD ==> Penalty(staked, e) == if staked < 2 then staked else staked / 2)
      && (e.Equivocation? && staked * 25 < U64_MOD ==> Penalty(staked, e) == if staked < 4 then staked else staked / 4)
      && (forall u :: u in s.bank.validators && u != v ==> u in after.bank.validators && after.bank.validators[u].staked == s.bank.validators[u].staked)
      && after.evidence == s.evidence + {Offence(v, e)} && after.links == s.links
  {
    hide Step, RulesPass, Shows, Penalty, RosterMoves;
    CommitsIff(p, s, tx, now);
    ShownKinds(s.bank, tx.body.validator, tx.body.evidence);
    if Step(p, s, tx, now).Ok? {
      PenaltyIs(s.bank.validators[tx.body.validator].staked, tx.body.evidence);
      StakeLaw(p, s, tx, now);
      EvidenceLinks(p, s, tx, now);
      forall u | u in s.bank.validators
        ensures var after := Step(p, s, tx, now).value.state.bank;
          u in after.validators && after.validators[u].staked == s.bank.validators[u].staked - Slashed(s, tx, u)
      {
        PunishedStake(p, s, tx, now, u);
      }
    }
  }

  lemma SameSigned(p: Params, s: State, tx: Tx, now: int64)
    ensures Step(p, s, tx.(authentic := true), now) == Step(p, s, tx, now)
  {}

  lemma {:induction false} PunishedStake(p: Params, s: State, tx: Tx, now: int64, u: Address)
    requires tx.body.SubmitEvidence? && Step(p, s, tx, now).Ok? && u in s.bank.validators
    requires tx.body.validator in s.bank.validators && s.bank.validators[tx.body.validator].staked > 0
    ensures var after := Step(p, s, tx, now).value.state.bank;
      u in after.validators && after.validators[u].staked == s.bank.validators[u].staked - Slashed(s, tx, u)
  {
    hide Step, Penalty;
    var i := Input(tx.(authentic := true), now);
    SameSigned(p, s, tx, now);
    AfterStake(p, s, i, u);
    PenaltyIs(s.bank.validators[tx.body.validator].staked, tx.body.evidence);
  }

  lemma EvidenceLinks(p: Params, s: State, tx: Tx, now: int64)
    requires tx.body.SubmitEvidence? && Step(p, s, tx, now).Ok?
    ensures Step(p, s, tx, now).value.state.links == s.links
  {
    hide ProcessEvidence;
  }

  // ---------------------------------------------------------------- what takes stake away

  /**
   * The input takes this much of the validator's stake: the administrator slashes it, the validator
   * completes its own withdrawal, or evidence that shows a new offence is accepted.  The last case is
   * the wrap of a stake that grows past the word size.
   */
  ghost predicate Takes(p: Params, s: State, i: Input, v: Address, drop: nat)
    requires v in s.bank.validators
  {
    && BlockStep(p, s, i.tx, i.now).Ok?
    && match i.tx.body
       case SlashValidator(a, amount) => a == v && i.tx.from == p.admin && drop == amount
       case CompleteUnstake => i.tx.from == v && drop == s.bank.validators[v].pending
       case SubmitEvidence(a, e) => a == v && Shows(s.bank, v, e) && Offence(v, e) !in s.evidence && drop == Penalty(s.bank.validators[v].staked, e)
       case StakeTokens(amount) => i.tx.from == v && drop == U64_MOD - amount
       case _ => false
  }

  lemma {:induction false} FallsBy(staked: uint64, gain: int, drop: nat)
    requires 0 < drop <= staked
    ensures -U64_MOD < gain < U64_MOD ==> ((staked + gain) % U64_MOD == staked - drop <==> gain + drop == 0 || gain + drop == U64_MOD)
  {}

  /** A stake falls by an amount exactly when one of these takes it. */
  lemma {:induction false} StakeFallsIff(p: Params, s: State, i: Input, v: Address, drop: nat)
    requires v in s.bank.validators && 0 < drop <= s.bank.validators[v].staked
    ensures v in After(p, s, i).bank.validators
    ensures After(p, s, i).bank.validators[v].staked == s.bank.validators[v].staked - drop <==> Takes(p, s, i, v, drop)
  {
    hide Step, Penalty, Shows, RulesPass;
    AfterStake(p, s, i, v);
    FallsBy(s.bank.validators[v].staked, StakeGain(p, s, i, v), drop);
    CommitsIff(p, s, i.tx, i.now);
    if i.tx.body.SubmitEvidence? && i.tx.body.validator == v {
      PenaltyIs(s.bank.validators[v].staked, i.tx.body.evidence);
    }
  }

  ghost function StakeGains(p: Params, s: State, inputs: seq<Input>, v: Address): int {
    if inputs == [] then 0
    else
      var n := |inputs| - 1;
      StakeGains(p, s, inputs[..n], v) + StakeGain(p, Run(p, s, inputs[..n]), inputs[n], v)
  }

  /** Over every run the stake of a validator is what it was plus all it staked, less all that was slashed or taken back. */
  lemma {:induction false} RunStakes(p: Params, s: State, inputs: seq<Input>, v: Address)
    requires v in s.bank.validators
    ensures v in Run(p, s, inputs).bank.validators
    ensures Run(p, s, inputs).bank.validators[v].staked == (s.bank.validators[v].staked + StakeGains(p, s, inputs, v)) % U64_MOD
    decreases |inputs|
  {
    hide After, StakeGain;
    if inputs != [] {
      var n := |inputs| - 1;
      var t := Run(p, s, inputs[..n]);
      RunStakes(p, s, inputs[..n], v);
      AfterStake(p, t, inputs[n], v);
      ModAdd(s.bank.validators[v].staked + StakeGains(p, s, inputs[..n], v), StakeGain(p, t, inputs[n], v));
    }
  }

  /** If a stake is lower at the end of a run, some input of the run took from it. */
  lemma {:induction false} RunStakeFalls(p: Params, s: State, inputs: seq<Input>, v: Address) returns (k: nat, drop: nat)
    requires v in s.bank.validators && v in Run(p, s, inputs).bank.validators
    requires Run(p, s, inputs).bank.validators[v].staked < s.bank.validators[v].staked
    ensures k < |inputs| && drop > 0 && v in Run(p, s, inputs[..k]).bank.validators
    ensures Takes(p, Run(p, s, inputs[..k]), inputs[k], v, drop)
    decreases |inputs|
  {
    hide After, Takes;
    var n := |inputs| - 1;
    var t := Run(p, s, inputs[..n]);
    RunStakes(p, s, inputs[..n], v);
    if t.bank.validators[v].staked < s.bank.validators[v].staked {
      k, drop := RunStakeFalls(p, s, inputs[..n], v);
      assert inputs[..n][..k] == inputs[..k];
    } else {
      k, drop := n, t.bank.validators[v].staked - Run(p, s, inputs).bank.validators[v].staked;
      StakeFallsIff(p, t, inputs[n], v, drop);
    }
  }

  /**
   * A validator whom nobody in the run shows to have offended loses stake only by the
   * administrator, by completing its own withdrawal, or by staking past the word size.
   */
  lemma {:induction false} CleanStake(p: Params, s: State, inputs: seq<Input>, v: Address) returns (k: nat, drop: nat)
    requires v in s.bank.validators && v in Run(p, s, inputs).bank.validators
    requires forall j :: 0 <= j < |inputs| && inputs[j].tx.body.SubmitEvidence? && inputs[j].tx.body.validator == v ==>
      !Shows(Run(p, s, inputs[..j]).bank, v, inputs[j].tx.body.evidence)
    requires Run(p, s, inputs).bank.validators[v].staked < s.bank.validators[v].staked
    ensures k < |inputs| && drop > 0 && Succeeds(p, s, inputs, k)
    ensures var tx := inputs[k].tx;
      || (tx.body.SlashValidator? && tx.body.validator == v && tx.body.amount == drop && tx.from == p.admin)
      || (tx.body == CompleteUnstake && tx.from == v)
      || (tx.body.StakeTokens? && tx.from == v && tx.body.amount == U64_MOD - drop)
  {
    hide Run, Step, Shows, Penalty;
    k, drop := RunStakeFalls(p, s, inputs, v);
  }
}
