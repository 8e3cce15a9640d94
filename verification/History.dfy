/**
 * Whole-run history: nothing applies twice.  Nonces are consumed in order and an offence is punished
 * once.
 */
module History {
  import opened Numbers
  import opened Collections
  import opened Rules
  import opened ChainState
  import opened Fees
  import opened Executor
  import opened Laws

  // ---------------------------------------------------------------- nonces

  ghost predicate SameNonces(b: Bank, b': Bank) {
    forall a :: AccountOf(b', a).nonce == AccountOf(b, a).nonce
  }

  lemma {:induction false} MintKeepsNonces(p: Params, b: Bank, list: seq<Address>, shares: seq<uint64>)
    requires |list| == |shares|
    ensures SameNonces(b, MintAll(p, b, list, shares).bank)
    decreases |list|
  {
    if list != [] {
      if shares[0] == 0 {
        MintKeepsNonces(p, b, list[1..], shares[1..]);
      } else if MintTokens(p, b, list[0], shares[0]).Ok? {
        var minted := MintTokens(p, b, list[0], shares[0]).value;
        assert SameNonces(b, minted);
        MintKeepsNonces(p, minted, list[1..], shares[1..]);
      }
    }
  }

  lemma {:induction false} FinishKeepsNonces(p: Params, paid: Paid, fee: Fee)
    ensures SameNonces(paid.bank, FinishDistribution(p, paid, fee).bank)
  {}

  lemma {:induction false} DistributionKeepsNonces(p: Params, b: Bank, fee: Fee, voters: seq<Address>)
    ensures SameNonces(b, DistributeFees(p, b, fee, voters).bank)
  {
    hide MintAll, FinishDistribution, Shares, StakeList, ActiveVoters, AccountOf;
    if fee.total > 0 && VoterStake(b, voters) > 0 {
      var list := SortedSeq(ActiveVoters(b, voters));
      var shares := Shares(StakeList(b, list), fee.reward, VoterStake(b, voters), 0);
      MintKeepsNonces(p, b, list, shares);
      FinishKeepsNonces(p, MintAll(p, b, list, shares), fee);
    }
  }

  lemma {:induction false} CollectKeepsNonces(p: Params, b: Bank, id: Hash, amount: uint64, voters: seq<Address>)
    ensures SameNonces(b, CollectFees(p, b, id, amount, voters).0)
  {
    hide DistributeFees, CalculateFee, PayoutEvents, AccountOf;
    DistributionKeepsNonces(p, b, CalculateFee(p, 0, amount), voters);
  }

  lemma {:induction false} VoteKeepsNonces(p: Params, s: State, from: Address, id: Hash, proof: Hash, now: int64)
    requires DoVote(p, s, from, id, proof, now).Ok?
    ensures SameNonces(s.bank, DoVote(p, s, from, id, proof, now).value.state.bank)
  {
    hide CollectFees, EvaluateField, AccountOf;
    if VoteError(s, from, id, proof, now).None? {
      var voted := CastVote(s.links, id, from, proof);
      CollectKeepsNonces(p, s.bank, id, s.links.paylinks[id].amount, SortedSeq(Voters(voted, id)));
    }
  }

  lemma {:induction false} DispatchKeepsNonces(p: Params, s: State, tx: Tx, now: int64)
    requires Dispatch(p, s, tx, now).Ok?
    ensures SameNonces(s.bank, Dispatch(p, s, tx, now).value.state.bank)
  {
    hide DoVote, DoCreate, DoCancel, DoFail, DoTransferPayLink, DoApprove, DoSetOperator, ProcessEvidence;
    match tx.body
    case SubmitValidation(id, proof) => VoteKeepsNonces(p, s, tx.from, id, proof, now);
    case _ =>
  }

  /** A committed transaction carries its sender's nonce and advances that nonce alone. */
  lemma {:induction false} StepNonces(p: Params, s: State, tx: Tx, now: int64)
    requires Step(p, s, tx, now).Ok?
    ensures tx.nonce == AccountOf(s.bank, tx.from).nonce
    ensures var b' := Step(p, s, tx, now).value.state.bank; forall a ::
      AccountOf(b', a).nonce == (if a == tx.from then Add64(AccountOf(s.bank, a).nonce, 1) else AccountOf(s.bank, a).nonce)
  {
    hide Dispatch;
    DispatchKeepsNonces(p, s, tx, now);
  }

  /** How many transactions of a sender a run commits. */
  ghost function Committed(p: Params, s: State, inputs: seq<Input>, a: Address): nat {
    if inputs == [] then 0
    else
      var n := |inputs| - 1;
      Committed(p, s, inputs[..n], a) +
      (if inputs[n].tx.from == a && BlockStep(p, Run(p, s, inputs[..n]), inputs[n].tx, inputs[n].now).Ok? then 1 else 0)
  }

  lemma {:induction false} AfterNonces(p: Params, s: State, i: Input, a: Address)
    ensures AccountOf(After(p, s, i).bank, a).nonce ==
      (if i.tx.from == a && BlockStep(p, s, i.tx, i.now).Ok? then Add64(AccountOf(s.bank, a).nonce, 1) else AccountOf(s.bank, a).nonce)
    ensures BlockStep(p, s, i.tx, i.now).Ok? ==> i.tx.nonce == AccountOf(s.bank, i.tx.from).nonce
  {
    hide Step, AccountOf;
    if BlockStep(p, s, i.tx, i.now).Ok? {
      StepNonces(p, s, i.tx, i.now);
    }
  }

  lemma {:induction false} RunNonces(p: Params, s: State, inputs: seq<Input>, a: Address)
    ensures AccountOf(Run(p, s, inputs).bank, a).nonce == (AccountOf(s.bank, a).nonce + Committed(p, s, inputs, a)) % U64_MOD
    decreases |inputs|
  {
    hide BlockStep, After, AccountOf;
    if inputs != [] {
      var n := |inputs| - 1;
      RunNonces(p, s, inputs[..n], a);
      AfterNonces(p, Run(p, s, inputs[..n]), inputs[n], a);
      NextNonce(AccountOf(s.bank, a).nonce + Committed(p, s, inputs[..n], a));
    }
  }

  lemma NextNonce(x: nat)
    ensures Add64(x % U64_MOD, 1) == (x + 1) % U64_MOD
  {}

  /** A committed transaction carries the sender's first nonce plus the number committed before it. */
  lemma {:induction false} NonceAt(p: Params, s: State, inputs: seq<Input>, k: nat)
    requires k < |inputs| && Succeeds(p, s, inputs, k)
    ensures var a := inputs[k].tx.from; inputs[k].tx.nonce == (AccountOf(s.bank, a).nonce + Committed(p, s, inputs[..k], a)) % U64_MOD
  {
    hide BlockStep, After, AccountOf, Run, Committed;
    RunNonces(p, s, inputs[..k], inputs[k].tx.from);
    AfterNonces(p, Run(p, s, inputs[..k]), inputs[k], inputs[k].tx.from);
  }

  /**
   * From genesis, the committed transactions of a sender carry the nonces 0, 1, 2, … in order
   * (up to the word size): the one at position k has as nonce the number committed before it.
   */
  lemma {:induction false} NoncesInOrder(p: Params, s: State, inputs: seq<Input>, k: nat)
    requires k < |inputs| && Succeeds(p, s, inputs, k)
    requires AccountOf(s.bank, inputs[k].tx.from).nonce == 0
    ensures inputs[k].tx.nonce == Committed(p, s, inputs[..k], inputs[k].tx.from) % U64_MOD
  {
    hide BlockStep, AccountOf, Run, Committed;
    NonceAt(p, s, inputs, k);
  }

  lemma {:induction false} CommittedGrows(p: Params, s: State, inputs: seq<Input>, a: Address, j: nat, k: nat)
    requires j < k <= |inputs|
    ensures Committed(p, s, inputs[..j], a) <= Committed(p, s, inputs[..k], a) <= k
    ensures Succeeds(p, s, inputs, j) && inputs[j].tx.from == a ==> Committed(p, s, inputs[..j], a) < Committed(p, s, inputs[..k], a)
    decreases k
  {
    hide BlockStep, Run;
    assert inputs[..k][..k - 1] == inputs[..k - 1];
    if j < k - 1 {
      CommittedGrows(p, s, inputs, a, j, k - 1);
    } else {
      CommittedBound(p, s, inputs[..j], a);
    }
  }

  lemma {:induction false} CommittedBound(p: Params, s: State, inputs: seq<Input>, a: Address)
    ensures Committed(p, s, inputs, a) <= |inputs|
    decreases |inputs|
  {
    hide BlockStep, Run;
    if inputs != [] {
      CommittedBound(p, s, inputs[..|inputs| - 1], a);
    }
  }

  lemma SameRemainder(x: nat, y: nat)
    requires x <= y
    ensures x % U64_MOD == y % U64_MOD <==> (y - x) % U64_MOD == 0
  {}

  /**
   * Two committed transactions of one sender carry the same nonce exactly when a whole number of
   * full nonce cycles was committed in between; short of one cycle, no nonce succeeds twice.
   */
  lemma {:induction false} NoReplay(p: Params, s: State, inputs: seq<Input>, j: nat, k: nat)
    requires j < k < |inputs| && inputs[j].tx.from == inputs[k].tx.from
    requires Succeeds(p, s, inputs, j) && Succeeds(p, s, inputs, k)
    ensures var a := inputs[j].tx.from; var between := Committed(p, s, inputs[..k], a) - Committed(p, s, inputs[..j], a);
      && between > 0
      && (inputs[j].tx.nonce == inputs[k].tx.nonce <==> between % U64_MOD == 0)
      && (between < U64_MOD ==> inputs[j].tx.nonce != inputs[k].tx.nonce)
  {
    hide BlockStep, Run, Committed, AccountOf;
    var a := inputs[j].tx.from;
    NonceAt(p, s, inputs, j);
    NonceAt(p, s, inputs, k);
    CommittedGrows(p, s, inputs, a, j, k);
    var start := AccountOf(s.bank, a).nonce;
    SameRemainder(start + Committed(p, s, inputs[..j], a), start + Committed(p, s, inputs[..k], a));
  }

  // ---------------------------------------------------------------- offences

  /** The offence a piece of evidence is about, whatever else it contains. */
  function OffenceOf(validator: Address, e: Evidence): Option<EvidenceId> {
    match e
    case DoubleSign(height, _, _, _, _, _) => Some(DoubleSignAt(validator, height))
    case Equivocation(seed, _, _) => Some(EquivocationOn(validator, seed))
    case _ => None
  }

  predicate Reports(tx: Tx, id: EvidenceId) {
    tx.body.SubmitEvidence? && OffenceOf(tx.body.validator, tx.body.evidence) == Some(id)
  }

  lemma {:induction false} AfterEvidence(p: Params, s: State, i: Input)
    ensures s.evidence <= After(p, s, i).evidence
    ensures forall id :: BlockStep(p, s, i.tx, i.now).Ok? && Reports(i.tx, id) ==> id !in s.evidence && id in After(p, s, i).evidence
  {
    hide DoCreate, DoCancel, DoFail, DoTransferPayLink, DoApprove, DoSetOperator, CollectFees, EvaluateField,
      DoSend, DoStake, DoInitiateUnstake, DoCompleteUnstake, DoSlash, DoReward, DoRegisterKey, IncrementNonce;
  }

  lemma {:induction false} EvidenceGrows(p: Params, s: State, inputs: seq<Input>, j: nat, k: nat)
    requires j <= k <= |inputs|
    ensures Run(p, s, inputs[..j]).evidence <= Run(p, s, inputs[..k]).evidence
    decreases k
  {
    hide After, Run;
    if j < k {
      EvidenceGrows(p, s, inputs, j, k - 1);
      RunGrows(p, s, inputs, k - 1);
      AfterEvidence(p, Run(p, s, inputs[..k - 1]), inputs[k - 1]);
    }
  }

  /** Over every run an offence is punished at most once, however and by whomever it is reported. */
  lemma {:induction false} PunishedOnce(p: Params, s: State, inputs: seq<Input>, j: nat, k: nat, id: EvidenceId)
    requires j < k < |inputs|
    requires Succeeds(p, s, inputs, j) && Reports(inputs[j].tx, id)
    requires Reports(inputs[k].tx, id)
    ensures !Succeeds(p, s, inputs, k)
  {
    hide After, Run, BlockStep, Reports;
    AfterEvidence(p, Run(p, s, inputs[..j]), inputs[j]);
    RunGrows(p, s, inputs, j);
    EvidenceGrows(p, s, inputs, j + 1, k);
    AfterEvidence(p, Run(p, s, inputs[..k]), inputs[k]);
  }

  /** A slash by evidence takes something and never more than the stake, even when the product wraps. */
  lemma {:induction false} SlashWithinStake(staked: uint64, percent: uint64)
    requires staked > 0 && percent <= 100
    ensures 0 < SlashAmount(staked, percent) <= staked
    ensures staked * percent < U64_MOD && staked * percent >= 100 ==> SlashAmount(staked, percent) == staked * percent / 100
  {
    hide Mul64;
    MulWrapBelow(staked, percent);
    UpTo(staked, percent, 100);
    PartWithin(staked, Mul64(staked, percent));
  }

  lemma UpTo(a: nat, x: nat, y: nat)
    requires x <= y
    ensures a * x <= a * y
  {}

  lemma PartWithin(whole: nat, product: nat)
    requires product <= whole * 100
    ensures 0 <= product / 100 <= whole
  {}

  /**
   * Evidence slashes exactly when it shows, in its own fields, an offence not yet punished of a
   * validator with stake: the stake drops by half, a quarter or all of it, nobody else's changes,
   * and the offence is recorded.
   */
  lemma {:induction false} EvidencePunishes(p: Params, s: State, validator: Address, e: Evidence)
    ensures DoEvidence(p, s, validator, e).Ok? <==>
      && validator in s.bank.validators && s.bank.validators[validator].staked > 0
      && Shows(s.bank, validator, e) && Offence(validator, e) !in s.evidence
    ensures DoEvidence(p, s, validator, e).Ok? ==>
      var t, staked := DoEvidence(p, s, validator, e).value.state, s.bank.validators[validator].staked;
      && 0 < Penalty(staked, e) <= staked && validator in t.bank.validators
      && t.bank.validators[validator].staked == staked - Penalty(staked, e)
      && t.bank.validators == s.bank.validators[validator := t.bank.validators[validator]]
      && t.bank.accounts == s.bank.accounts && t.links == s.links && t.evidence == s.evidence + {Offence(validator, e)}
  {
    hide ProcessEvidence, Shows, Penalty;
    EvidenceIff(s.bank, validator, e);
    ShownKinds(s.bank, validator, e);
    if validator in s.bank.validators && s.bank.validators[validator].staked > 0 {
      PenaltyIs(s.bank.validators[validator].staked, e);
    }
  }
}
