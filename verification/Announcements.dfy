/**
 * What a committed transaction announces: its events against the states before and after it, so
 * that a reader of the log knows what happened without reading the state.
 */
module Announcements {
  import opened Numbers
  import opened Collections
  import opened Rules
  import opened ChainState
  import opened Fees
  import opened Supply
  import opened Payouts
  import opened Executor
  import opened Conservation
  import opened Accounts

  /** A validator switched between active and inactive. */
  function Switched(a: Address, before: Bank, after: Bank): seq<Event> {
    var was, active := a in before.validators && before.validators[a].active, a in after.validators && after.validators[a].active;
    if !was && active then [ValidatorActivated(a)] else if was && !active then [ValidatorDeactivated(a)] else []
  }

  /** One payment per share that is not zero, in order. */
  function Payments(list: seq<Address>, shares: seq<uint64>): seq<Event>
    requires |list| == |shares|
  {
    if list == [] then []
    else (if shares[0] == 0 then [] else [FeeDistributed(list[0], shares[0])]) + Payments(list[1..], shares[1..])
  }

  /** The fee of a settlement is announced when all its voters are paid, with what they got and what is burned. */
  ghost function FeeNews(p: Params, s: State, after: State, tx: Tx): seq<Event>
    requires FeeDue(p, s, tx)
  {
    var fee, voters := DueFee(p, s, tx), DueVoters(s, tx);
    if !Passes(p, s.bank, fee, voters) then []
    else
      var list, shares := PaidVoters(s.bank, voters), PaidShares(s.bank, fee, voters);
      if StopOf(p, s.bank, fee, voters) < |shares| then []
      else
        [FeeCollected(tx.body.id, s.links.paylinks[tx.body.id].amount, fee)] + Payments(list, shares) +
        (if fee.burn > 0 then [TokenBurned(fee.burn, after.bank.totalBurned)] else [])
  }

  /** What the transaction announces, from the states before and after it. */
  ghost function News(p: Params, s: State, after: State, tx: Tx): seq<Event> {
    var from, b, b', l, l' := tx.from, s.bank, after.bank, s.links, after.links;
    match tx.body
    case CreatePayLink(id, receiver, amount, expiry, metadata, _) => [PayLinkCreated(id, from, receiver, amount, expiry, metadata)]
    case SubmitValidation(id, proof) =>
      if id !in l.paylinks || id !in l'.paylinks then []
      else
        [PayLinkVoted(id, from, proof, l'.paylinks[id].voteCount, p.required)] +
        (if l'.paylinks[id].status == Verified then [PayLinkVerified(id, proof, l'.paylinks[id].voteCount)] else []) +
        (if FeeDue(p, s, tx) then FeeNews(p, s, after, tx) else [])
    case CancelPayLink(id) => [PayLinkCancelled(id)]
    case FailPayLink(id) => if id in l.paylinks then [PayLinkFailed(id, l.paylinks[id].status)] else []
    case SendTokens(to, amount) => [TokensSent(from, to, amount)]
    case StakeTokens(amount) =>
      if from !in b'.validators then []
      else [ValidatorStaked(from, amount, b'.validators[from].staked, b'.validators[from].active)] + Switched(from, b, b')
    case InitiateUnstake(amount) =>
      if from !in b'.validators then [] else [UnstakeStarted(from, amount, b'.validators[from].withdrawableAt)] + Switched(from, b, b')
    case CompleteUnstake => if from in b.validators then [UnstakeCompleted(from, b.validators[from].pending)] else []
    case SlashValidator(v, amount) =>
      if v !in b'.validators then [] else [ValidatorSlashed(v, amount, b'.validators[v].staked)] + Switched(v, b, b')
    case RewardValidator(v, amount) => if v in b'.validators then [ValidatorRewarded(v, amount, b'.validators[v].totalRewards)] else []
    case RegisterVrfKey(_) => [VrfKeyRegistered(from)]
    case SubmitEvidence(v, e) =>
      if v !in b.validators || v !in b'.validators then []
      else [ValidatorSlashed(v, (b.validators[v].staked - b'.validators[v].staked) % U64_MOD, b'.validators[v].staked)] + Switched(v, b, b')
    case TransferPayLink(id, to) =>
      if id !in l.paylinks || id !in l'.paylinks then []
      else [PayLinkTransferred(id, l.paylinks[id].owner, to, if from == l.paylinks[id].owner then None else Some(from), l'.paylinks[id].transferCount)]
    case ApprovePayLink(id, approved) => [PayLinkApproved(id, from, approved)]
    case SetApprovalForAll(operator, grant) => [ApprovalForAll(from, operator, grant)]
    case _ => []
  }

  // ---------------------------------------------------------------- the fee

  lemma {:induction false} PaymentsMade(p: Params, b: Bank, list: seq<Address>, shares: seq<uint64>)
    requires |list| == |shares| && MintAll(p, b, list, shares).ok
    ensures PayoutEvents(MintAll(p, b, list, shares).payouts) == Payments(list, shares)
    decreases |list|
  {
    hide MintTokens;
    if list != [] {
      if shares[0] == 0 {
        PaymentsMade(p, b, list[1..], shares[1..]);
      } else {
        var rest := MintAll(p, MintTokens(p, b, list[0], shares[0]).value, list[1..], shares[1..]);
        PaymentsMade(p, MintTokens(p, b, list[0], shares[0]).value, list[1..], shares[1..]);
        assert ([Payout(list[0], shares[0])] + rest.payouts)[1..] == rest.payouts;
      }
    }
  }

  lemma {:induction false} FeePayments(p: Params, b: Bank, fee: Fee, voters: seq<Address>)
    requires Passes(p, b, fee, voters) && DistributeFees(p, b, fee, voters).ok
    ensures PayoutEvents(DistributeFees(p, b, fee, voters).payouts) == Payments(PaidVoters(b, voters), PaidShares(b, fee, voters))
  {
    hide DistributeFees, MintAll, Payments, PayoutEvents, PaidVoters, PaidShares, Passes, VoterStake;
    assert VoterStake(b, voters) > 0 by { PassesMeans(p, b, fee, voters); }
    DistributesBy(p, b, fee, voters);
    PaymentsMade(p, b, PaidVoters(b, voters), PaidShares(b, fee, voters));
  }

  lemma {:induction false} FeeAnnounced(p: Params, s: State, after: State, tx: Tx)
    requires FeeDue(p, s, tx)
    requires after.bank == CollectFees(p, s.bank, tx.body.id, s.links.paylinks[tx.body.id].amount, DueVoters(s, tx)).0
    ensures CollectFees(p, s.bank, tx.body.id, s.links.paylinks[tx.body.id].amount, DueVoters(s, tx)).1 == FeeNews(p, s, after, tx)
  {
    hide DistributeFees, CalculateFee, Passes, PaidVoters, PaidShares, StopOf, Payments, PayoutEvents, VotersOnly, Running, Credits,
      TreasuryCredited, PaidTotal, SumSeq, SortedSeq;
    var fee, voters := DueFee(p, s, tx), DueVoters(s, tx);
    DistributionIff(p, s.bank, fee, voters);
    if Passes(p, s.bank, fee, voters) {
      PassesMeans(p, s.bank, fee, voters);
      if DistributeFees(p, s.bank, fee, voters).ok {
        FeePayments(p, s.bank, fee, voters);
      }
    }
  }

  // ---------------------------------------------------------------- every transaction

  lemma {:induction false} VoteNews(p: Params, s: State, tx: Tx, now: int64)
    requires tx.body.SubmitValidation? && DoVote(p, s, tx.from, tx.body.id, tx.body.proof, now).Ok?
    ensures var r := DoVote(p, s, tx.from, tx.body.id, tx.body.proof, now).value; r.events == News(p, s, r.state, tx)
  {
    hide CollectFees, EvaluateField, FeeNews, SortedSeq, Append, Remove;
    var r := DoVote(p, s, tx.from, tx.body.id, tx.body.proof, now).value;
    if FeeDue(p, s, tx) {
      FeeAnnounced(p, s, r.state, tx);
    }
  }

  lemma {:induction false} LinkNews(p: Params, s: State, tx: Tx, now: int64)
    requires Dispatch(p, s, tx, now).Ok?
    requires tx.body.CreatePayLink? || tx.body.CancelPayLink? || tx.body.FailPayLink? || tx.body.TransferPayLink? || tx.body.ApprovePayLink?
             || tx.body.SetApprovalForAll?
    ensures Dispatch(p, s, tx, now).value.events == News(p, s, Dispatch(p, s, tx, now).value.state, tx)
  {
    hide DoVote, DoSend, DoStake, DoInitiateUnstake, DoCompleteUnstake, DoSlash, DoReward, DoRegisterKey, DoEvidence, EvaluateField,
      ValidateField, Append, Remove, FeeNews;
  }

  lemma {:induction false} BankNews(p: Params, s: State, tx: Tx, now: int64)
    requires Dispatch(p, s, tx, now).Ok?
    requires tx.body.SendTokens? || tx.body.StakeTokens? || tx.body.InitiateUnstake? || tx.body.CompleteUnstake? || tx.body.SlashValidator?
             || tx.body.RewardValidator? || tx.body.RegisterVrfKey?
    ensures Dispatch(p, s, tx, now).value.events == News(p, s, Dispatch(p, s, tx, now).value.state, tx)
  {
    hide DoVote, DoCreate, DoCancel, DoFail, DoTransferPayLink, DoApprove, DoSetOperator, DoEvidence, FeeNews;
  }

  lemma {:induction false} EvidenceNews(p: Params, s: State, tx: Tx, now: int64)
    requires tx.body.SubmitEvidence? && DoEvidence(p, s, tx.body.validator, tx.body.evidence).Ok?
    ensures var r := DoEvidence(p, s, tx.body.validator, tx.body.evidence).value; r.events == News(p, s, r.state, tx)
  {
    hide ProcessEvidence, FeeNews;
  }

  /** The events of a committed transaction say what it did, nothing more and nothing else. */
  lemma {:induction false} EventLaw(p: Params, s: State, tx: Tx, now: int64)
    requires Step(p, s, tx, now).Ok?
    ensures Step(p, s, tx, now).value.events == News(p, s, Step(p, s, tx, now).value.state, tx)
  {
    hide DoVote, DoCreate, DoCancel, DoFail, DoTransferPayLink, DoApprove, DoSetOperator, DoSend, DoStake, DoInitiateUnstake,
      DoCompleteUnstake, DoSlash, DoReward, DoRegisterKey, DoEvidence, News;
    var done := Dispatch(p, s, tx, now).value.state;
    NewsDespiteNonce(p, s, done, tx);
    match tx.body
    case SubmitValidation(_, _) => VoteNews(p, s, tx, now);
    case SubmitEvidence(_, _) => EvidenceNews(p, s, tx, now);
    case CreatePayLink(_, _, _, _, _, _) => LinkNews(p, s, tx, now);
    case CancelPayLink(_) => LinkNews(p, s, tx, now);
    case FailPayLink(_) => LinkNews(p, s, tx, now);
    case TransferPayLink(_, _) => LinkNews(p, s, tx, now);
    case ApprovePayLink(_, _) => LinkNews(p, s, tx, now);
    case SetApprovalForAll(_, _) => LinkNews(p, s, tx, now);
    case _ => BankNews(p, s, tx, now);
  }

  lemma NewsDespiteNonce(p: Params, s: State, after: State, tx: Tx)
    ensures News(p, s, after.(bank := IncrementNonce(after.bank, tx.from)), tx) == News(p, s, after, tx)
  {}
}
