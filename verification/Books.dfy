/**
 * The books of supply, burns and fees: what the counters say after a run, against what its events
 * announced.  For every run up to whole words and what failed distributions minted; exactly for
 * orderly ones.
 */
module Books {
  import opened Numbers
  import opened Collections
  import opened Rules
  import opened ChainState
  import opened Fees
  import opened Supply
  import opened Payouts
  import opened Executor
  import opened Conservation

  // ---------------------------------------------------------------- what events say

  function EventBurn(e: Event): nat {
    match e
    case ValidatorSlashed(_, amount, _) => amount
    case FeeCollected(_, _, fee) => fee.burn
    case _ => 0
  }

  function EventFee(e: Event): nat {
    if e.FeeCollected? then e.fee.total else 0
  }

  ghost function Burns(events: seq<Event>): nat {
    if events == [] then 0 else EventBurn(events[0]) + Burns(events[1..])
  }

  ghost function FeesIn(events: seq<Event>): nat {
    if events == [] then 0 else EventFee(events[0]) + FeesIn(events[1..])
  }

  lemma {:induction false} EventsConcat(x: seq<Event>, y: seq<Event>)
    ensures Burns(x + y) == Burns(x) + Burns(y) && FeesIn(x + y) == FeesIn(x) + FeesIn(y)
  {
    if x == [] {
      assert x + y == y;
    } else {
      EventsConcat(x[1..], y);
      assert (x + y)[1..] == x[1..] + y;
    }
  }

  lemma {:induction false} PayoutEventsFree(payouts: seq<Payout>)
    ensures Burns(PayoutEvents(payouts)) == 0 && FeesIn(PayoutEvents(payouts)) == 0
  {
    if payouts != [] {
      PayoutEventsFree(payouts[1..]);
      assert PayoutEvents(payouts)[1..] == PayoutEvents(payouts[1..]);
    }
  }

  lemma {:induction false} QuietBooks(events: seq<Event>)
    requires forall e :: e in events ==> !e.ValidatorSlashed? && !e.FeeCollected?
    ensures Burns(events) == 0 && FeesIn(events) == 0
  {
    if events != [] {
      QuietBooks(events[1..]);
    }
  }

  /** One step's books: what is burned comes out of the supply or out of a collected fee. */
  ghost predicate Balanced(b: Bank, b': Bank, events: seq<Event>) {
    && b'.totalSupply + Burns(events) == b.totalSupply + FeesIn(events)
    && b'.totalBurned == (b.totalBurned + Burns(events)) % U64_MOD
  }

  lemma EmptyBooks()
    ensures Burns([]) == 0 && FeesIn([]) == 0
  {}

  lemma {:induction false} FeeEventBooks(id: Hash, amount: uint64, fee: Fee, payouts: seq<Payout>, tail: seq<Event>)
    requires tail == [] || (|tail| == 1 && tail[0].TokenBurned?)
    ensures var events := [FeeCollected(id, amount, fee)] + PayoutEvents(payouts) + tail;
      Burns(events) == fee.burn && FeesIn(events) == fee.total
  {
    PayoutEventsFree(payouts);
    EventsConcat([FeeCollected(id, amount, fee)], PayoutEvents(payouts));
    EventsConcat([FeeCollected(id, amount, fee)] + PayoutEvents(payouts), tail);
  }

  lemma PartsSum(p: Params, amount: uint64)
    ensures var fee := CalculateFee(p, 0, amount); fee.reward + fee.burn <= fee.total ==> fee.reward + fee.treasury + fee.burn == fee.total
  {}

  lemma {:induction false} CollectBooks(p: Params, b: Bank, id: Hash, amount: uint64, voters: seq<Address>)
    requires FeeFits(p, b, amount) && Conserved(p, b) && NoDup(voters)
    ensures var r := CollectFees(p, b, id, amount, voters); Balanced(b, r.0, r.1)
  {
    hide DistributeFees, CalculateFee, Holdings, PayoutEvents, Burns, FeesIn, Add64, PaidTotal, Credited;
    EmptyBooks();
    var fee := CalculateFee(p, 0, amount);
    PartsSum(p, amount);
    if fee.total != 0 && voters != [] {
      FittingDistribution(p, b, fee, voters);
      var paid := DistributeFees(p, b, fee, voters);
      if paid.ok {
        AddWraps(b.totalBurned, fee.burn);
        FeeEventBooks(id, amount, fee, paid.payouts,
                      if fee.burn > 0 then [TokenBurned(fee.burn, paid.bank.totalBurned)] else []);
      }
    }
  }

  lemma {:induction false} VoteBooks(p: Params, s: State, tx: Tx, now: int64)
    requires tx.body.SubmitValidation? && FeesFit(p, s, tx) && Conserved(p, s.bank)
    requires DoVote(p, s, tx.from, tx.body.id, tx.body.proof, now).Ok?
    ensures var r := DoVote(p, s, tx.from, tx.body.id, tx.body.proof, now).value; Balanced(s.bank, r.state.bank, r.events)
  {
    hide CollectFees, Settled, EvaluateField, Conserved, FeeFits;
    var id, proof := tx.body.id, tx.body.proof;
    var voted := CastVote(s.links, id, tx.from, proof);
    var count := voted.paylinks[id].voteCount;
    var vote := PayLinkVoted(id, tx.from, proof, count, p.required);
    QuietBooks([vote]);
    QuietBooks([vote, PayLinkVerified(id, proof, count)]);
    if count >= p.required {
      SortedNoDup(SortedSeq(Voters(voted, id)));
      var fees := CollectFees(p, s.bank, id, s.links.paylinks[id].amount, SortedSeq(Voters(voted, id)));
      CollectBooks(p, s.bank, id, s.links.paylinks[id].amount, SortedSeq(Voters(voted, id)));
      EventsConcat([vote, PayLinkVerified(id, proof, count)], fees.1);
    }
  }

  lemma {:induction false} SlashBooks(p: Params, b: Bank, validator: Address, amount: uint64)
    requires Conserved(p, b) && DoSlash(p, b, validator, amount).Ok?
    ensures var r := DoSlash(p, b, validator, amount).value; Balanced(b, r.bank, r.events)
  {
    SlashConserves(p, b, validator, amount);
    var after := Slash(p, b, validator, amount).value;
    EventsConcat([ValidatorSlashed(validator, amount, after.validators[validator].staked)], Deactivation(b, after, validator));
  }

  ghost predicate Quiet(b: Bank, b': Bank, events: seq<Event>) {
    && b'.totalSupply == b.totalSupply && b'.totalBurned == b.totalBurned
    && forall e :: e in events ==> !e.ValidatorSlashed? && !e.FeeCollected?
  }

  lemma {:induction false} QuietLinks(p: Params, s: State, tx: Tx, now: int64)
    requires Dispatch(p, s, tx, now).Ok?
    requires tx.body.CreatePayLink? || tx.body.CancelPayLink? || tx.body.FailPayLink? || tx.body.TransferPayLink?
             || tx.body.ApprovePayLink? || tx.body.SetApprovalForAll?
    ensures var r := Dispatch(p, s, tx, now).value; Quiet(s.bank, r.state.bank, r.events)
  {
    hide EvaluateField, ValidateField, SetStatus, SetOwner, AddPayLink, SetApproved, SetOperator, MayTransfer;
  }

  lemma {:induction false} QuietBank(p: Params, s: State, tx: Tx, now: int64)
    requires Dispatch(p, s, tx, now).Ok?
    requires tx.body.SendTokens? || tx.body.StakeTokens? || tx.body.InitiateUnstake? || tx.body.CompleteUnstake?
             || tx.body.RewardValidator? || tx.body.RegisterVrfKey?
    ensures var r := Dispatch(p, s, tx, now).value; Quiet(s.bank, r.state.bank, r.events)
  {}

  /** Handlers other than votes and slashes leave the counters alone and announce neither burns nor fees. */
  lemma {:induction false} QuietStep(p: Params, s: State, tx: Tx, now: int64)
    requires Dispatch(p, s, tx, now).Ok? && !tx.body.SubmitValidation? && !tx.body.SlashValidator? && !tx.body.SubmitEvidence?
    ensures var r := Dispatch(p, s, tx, now).value; Quiet(s.bank, r.state.bank, r.events)
  {
    hide Quiet, DoVote, DoSlash, DoCreate, DoCancel, DoFail, DoTransferPayLink, DoApprove, DoSetOperator,
      DoSend, DoStake, DoInitiateUnstake, DoCompleteUnstake, DoReward, DoRegisterKey, ProcessEvidence;
    if tx.body.CreatePayLink? || tx.body.CancelPayLink? || tx.body.FailPayLink? || tx.body.TransferPayLink?
       || tx.body.ApprovePayLink? || tx.body.SetApprovalForAll?
    {
      QuietLinks(p, s, tx, now);
    } else {
      QuietBank(p, s, tx, now);
    }
  }

  lemma {:induction false} DispatchBooks(p: Params, s: State, tx: Tx, now: int64)
    requires FeesFit(p, s, tx) && Conserved(p, s.bank) && Dispatch(p, s, tx, now).Ok?
    ensures var r := Dispatch(p, s, tx, now).value; Balanced(s.bank, r.state.bank, r.events)
  {
    hide DoVote, DoSlash, Conserved, FeesFit, DoCreate, DoCancel, DoFail, DoTransferPayLink, DoApprove, DoSetOperator,
      DoSend, DoStake, DoInitiateUnstake, DoCompleteUnstake, DoReward, DoRegisterKey, ProcessEvidence;
    match tx.body
    case SubmitValidation(id, proof) => VoteBooks(p, s, tx, now);
    case SlashValidator(validator, amount) => SlashBooks(p, s.bank, validator, amount);
    case SubmitEvidence(validator, e) =>
      SlashBooks(p, s.bank, validator, ProcessEvidence(s.bank, validator, e).value.amount);
    case Undecodable(_) =>
    case UnknownBody =>
    case _ =>
      QuietStep(p, s, tx, now);
      QuietBooks(Dispatch(p, s, tx, now).value.events);
  }

  lemma {:induction false} StepBooks(p: Params, s: State, tx: Tx, now: int64)
    requires FeesFit(p, s, tx) && Conserved(p, s.bank) && Step(p, s, tx, now).Ok?
    ensures var r := Step(p, s, tx, now).value; Balanced(s.bank, r.state.bank, r.events)
  {
    hide Dispatch, Conserved, Burns, FeesIn;
    DispatchBooks(p, s, tx, now);
  }

  lemma {:induction false} AfterBooks(p: Params, s: State, i: Input)
    requires Conserved(p, s.bank) && (BlockStep(p, s, i.tx, i.now).Ok? ==> FeesFit(p, s, i.tx))
    ensures var r := BlockStep(p, s, i.tx, i.now);
      Balanced(s.bank, After(p, s, i).bank, if r.Ok? then r.value.events else [])
  {
    hide Step, Conserved;
    if BlockStep(p, s, i.tx, i.now).Ok? {
      StepBooks(p, s, i.tx, i.now);
    }
  }

  lemma {:induction false} BalancedChain(b: Bank, b1: Bank, b2: Bank, x: seq<Event>, y: seq<Event>)
    requires Balanced(b, b1, x) && Balanced(b1, b2, y)
    ensures Balanced(b, b2, x + y)
  {
    EventsConcat(x, y);
    ModAdd(b.totalBurned + Burns(x), Burns(y));
  }

  // ---------------------------------------------------------------- orderly runs

  /** Along an orderly run what is burned comes out of the supply or of a collected fee. */
  lemma {:induction false} OrderlyBooks(p: Params, s: State, inputs: seq<Input>)
    requires Conserved(p, s.bank)
    requires forall k: nat :: k < |inputs| ==> OrderlyAt(p, s, inputs, k)
    ensures Balanced(s.bank, Run(p, s, inputs).bank, RunEvents(p, s, inputs))
    decreases |inputs|
  {
    if inputs != [] {
      var n := |inputs| - 1;
      var init := inputs[..n];
      forall k: nat | k < n ensures OrderlyAt(p, s, init, k) {
        assert init[..k] == inputs[..k];
        assert OrderlyAt(p, s, inputs, k);
      }
      OrderlyBooks(p, s, init);
      OrderlyConserves(p, s, inputs, n);
      assert OrderlyAt(p, s, inputs, n);
      AfterBooks(p, Run(p, s, init), inputs[n]);
      var r := BlockStep(p, Run(p, s, init), inputs[n].tx, inputs[n].now);
      BalancedChain(s.bank, Run(p, s, init).bank, Run(p, s, inputs).bank, RunEvents(p, s, init), if r.Ok? then r.value.events else []);
    }
  }

  // ---------------------------------------------------------------- every run

  /** The tokens minted by the distribution of a fee that failed half-way, without an event. */
  ghost function Leak(p: Params, s: State, tx: Tx): nat {
    if FeeDue(p, s, tx) then Leaked(p, s.bank, DueFee(p, s, tx), DueVoters(s, tx)) else 0
  }

  /** What a slash takes beyond the recorded supply, which stops at zero. */
  function Excess(b: Bank, amount: uint64): nat {
    if b.totalSupply < amount then amount - b.totalSupply else 0
  }

  /** What a transaction moves outside the announced fees and burns. */
  ghost function Unbooked(p: Params, s: State, tx: Tx): nat {
    match tx.body
    case SubmitValidation(_, _) => Leak(p, s, tx)
    case SlashValidator(_, amount) => Excess(s.bank, amount)
    case SubmitEvidence(validator, e) =>
      var action := ProcessEvidence(s.bank, validator, e);
      if action.Some? then Excess(s.bank, action.value.amount) else 0
    case _ => 0
  }

  /** The books up to whole words, with what moved unannounced. */
  ghost predicate Congruent(b: Bank, b': Bank, events: seq<Event>, unbooked: nat) {
    && (b'.totalSupply + Burns(events)) % U64_MOD == (b.totalSupply + FeesIn(events) + unbooked) % U64_MOD
    && b'.totalBurned == (b.totalBurned + Burns(events)) % U64_MOD
  }

  /** The parts of a fee add up to it modulo the word size. */
  lemma {:induction false} PartsModular(p: Params, amount: uint64, supply: uint64)
    ensures var fee := CalculateFee(p, 0, amount);
      ((supply + fee.reward + fee.treasury) % U64_MOD + fee.burn) % U64_MOD == (supply + fee.total) % U64_MOD
  {
    hide CalculateFee, Add64;
    var fee := CalculateFee(p, 0, amount);
    FeeSplitModular(p, 0, amount);
    AddWraps(fee.treasury, fee.burn);
    AddWraps(Add64(fee.treasury, fee.burn), fee.reward);
    ModAdd(fee.treasury + fee.burn, fee.reward);
    ModAdd(supply + fee.reward + fee.treasury, fee.burn);
    ModAdd(fee.treasury + fee.burn + fee.reward, supply);
  }

  lemma {:induction false} CollectCongruent(p: Params, b: Bank, id: Hash, amount: uint64, voters: seq<Address>)
    ensures var r := CollectFees(p, b, id, amount, voters);
      Congruent(b, r.0, r.1, Leaked(p, b, CalculateFee(p, 0, amount), voters))
  {
    hide DistributeFees, CalculateFee, PayoutEvents, Burns, FeesIn, Add64, Halfway, Leaked;
    EmptyBooks();
    var fee := CalculateFee(p, 0, amount);
    DistributionBooks(p, b, fee, voters);
    if fee.total == 0 || voters == [] {
      NothingLeaks(p, b, fee, voters);
    } else {
      var paid := DistributeFees(p, b, fee, voters);
      if paid.ok {
        AddWraps(b.totalBurned, fee.burn);
        WholeLeaksNothing(p, b, fee, voters);
        PartsModular(p, amount, b.totalSupply);
        FeeEventBooks(id, amount, fee, paid.payouts,
                      if fee.burn > 0 then [TokenBurned(fee.burn, paid.bank.totalBurned)] else []);
      }
    }
  }

  lemma NothingLeaks(p: Params, b: Bank, fee: Fee, voters: seq<Address>)
    requires fee.total == 0 || voters == []
    ensures Leaked(p, b, fee, voters) == 0
  {}

  lemma {:induction false} WholeLeaksNothing(p: Params, b: Bank, fee: Fee, voters: seq<Address>)
    requires DistributeFees(p, b, fee, voters).ok
    ensures Leaked(p, b, fee, voters) == 0
  {
    hide DistributeFees, Leaked;
    DistributionBooks(p, b, fee, voters);
  }

  lemma {:induction false} VoteCongruent(p: Params, s: State, tx: Tx, now: int64)
    requires tx.body.SubmitValidation? && DoVote(p, s, tx.from, tx.body.id, tx.body.proof, now).Ok?
    ensures var r := DoVote(p, s, tx.from, tx.body.id, tx.body.proof, now).value;
      Congruent(s.bank, r.state.bank, r.events, Leak(p, s, tx))
  {
    hide CollectFees, Settled, EvaluateField, Leaked, CalculateFee, Burns, FeesIn;
    var id, proof := tx.body.id, tx.body.proof;
    var voted := CastVote(s.links, id, tx.from, proof);
    var count := voted.paylinks[id].voteCount;
    var vote := PayLinkVoted(id, tx.from, proof, count, p.required);
    QuietBooks([vote]);
    QuietBooks([vote, PayLinkVerified(id, proof, count)]);
    if count >= p.required {
      var fees := CollectFees(p, s.bank, id, s.links.paylinks[id].amount, DueVoters(s, tx));
      CollectCongruent(p, s.bank, id, s.links.paylinks[id].amount, DueVoters(s, tx));
      EventsConcat([vote, PayLinkVerified(id, proof, count)], fees.1);
    }
  }

  lemma {:induction false} SlashCongruent(p: Params, b: Bank, validator: Address, amount: uint64)
    requires DoSlash(p, b, validator, amount).Ok?
    ensures var r := DoSlash(p, b, validator, amount).value; Congruent(b, r.bank, r.events, Excess(b, amount))
  {
    var after := Slash(p, b, validator, amount).value;
    AddWraps(b.totalBurned, amount);
    EventsConcat([ValidatorSlashed(validator, amount, after.validators[validator].staked)], Deactivation(b, after, validator));
  }

  lemma {:induction false} DispatchCongruent(p: Params, s: State, tx: Tx, now: int64)
    requires Dispatch(p, s, tx, now).Ok?
    ensures var r := Dispatch(p, s, tx, now).value; Congruent(s.bank, r.state.bank, r.events, Unbooked(p, s, tx))
  {
    hide DoVote, DoSlash, Leak, DoCreate, DoCancel, DoFail, DoTransferPayLink, DoApprove, DoSetOperator,
      DoSend, DoStake, DoInitiateUnstake, DoCompleteUnstake, DoReward, DoRegisterKey, ProcessEvidence;
    match tx.body
    case SubmitValidation(id, proof) => VoteCongruent(p, s, tx, now);
    case SlashValidator(validator, amount) => SlashCongruent(p, s.bank, validator, amount);
    case SubmitEvidence(validator, e) =>
      SlashCongruent(p, s.bank, validator, ProcessEvidence(s.bank, validator, e).value.amount);
    case Undecodable(_) =>
    case UnknownBody =>
    case _ =>
      QuietStep(p, s, tx, now);
      QuietBooks(Dispatch(p, s, tx, now).value.events);
  }

  lemma {:induction false} AfterCongruent(p: Params, s: State, i: Input)
    ensures var r := BlockStep(p, s, i.tx, i.now);
      Congruent(s.bank, After(p, s, i).bank, if r.Ok? then r.value.events else [], if r.Ok? then Unbooked(p, s, i.tx) else 0)
  {
    hide Dispatch, Unbooked;
    if BlockStep(p, s, i.tx, i.now).Ok? {
      DispatchCongruent(p, s, i.tx, i.now);
    }
  }

  lemma {:induction false} CongruentChain(b: Bank, b1: Bank, b2: Bank, x: seq<Event>, y: seq<Event>, u: nat, v: nat)
    requires Congruent(b, b1, x, u) && Congruent(b1, b2, y, v)
    ensures Congruent(b, b2, x + y, u + v)
  {
    hide Burns, FeesIn;
    EventsConcat(x, y);
    ModAdd(b.totalBurned + Burns(x), Burns(y));
    ModAdd(b2.totalSupply + Burns(y), Burns(x));
    ModAdd(b1.totalSupply + FeesIn(y) + v, Burns(x));
    ModAdd(b1.totalSupply + Burns(x), FeesIn(y) + v);
    ModAdd(b.totalSupply + FeesIn(x) + u, FeesIn(y) + v);
  }

  /** What a run moved outside the announced fees and burns. */
  ghost function RunUnbooked(p: Params, s: State, inputs: seq<Input>): nat {
    if inputs == [] then 0
    else
      var n := |inputs| - 1;
      RunUnbooked(p, s, inputs[..n]) + if Succeeds(p, s, inputs, n) then Unbooked(p, Run(p, s, inputs[..n]), inputs[n].tx) else 0
  }

  /**
   * Over every run, from every state and with any parameters: supply and burn counter move by the
   * announced fees and burns, by what failed distributions minted, and by what slashes took beyond
   * the supply, up to whole words.
   */
  lemma {:induction false} RunBooks(p: Params, s: State, inputs: seq<Input>)
    ensures Congruent(s.bank, Run(p, s, inputs).bank, RunEvents(p, s, inputs), RunUnbooked(p, s, inputs))
    decreases |inputs|
  {
    hide BlockStep, Unbooked, Congruent;
    if inputs == [] {
      NothingBooked(s.bank);
    } else {
      var n := |inputs| - 1;
      var init, t := inputs[..n], Run(p, s, inputs[..n]);
      RunBooks(p, s, init);
      AfterCongruent(p, t, inputs[n]);
      var r := BlockStep(p, t, inputs[n].tx, inputs[n].now);
      CongruentChain(s.bank, t.bank, Run(p, s, inputs).bank, RunEvents(p, s, init), if r.Ok? then r.value.events else [],
                     RunUnbooked(p, s, init), if r.Ok? then Unbooked(p, t, inputs[n].tx) else 0);
    }
  }

  lemma NothingBooked(b: Bank)
    ensures Congruent(b, b, [], 0)
  {}

  /** In a conserved state with a fee that does not fail half-way nothing moves unannounced. */
  lemma {:induction false} AllBooked(p: Params, s: State, tx: Tx, now: int64)
    requires Conserved(p, s.bank) && Dispatch(p, s, tx, now).Ok?
    ensures Unbooked(p, s, tx) > 0 <==> PaidHalfway(p, s, tx)
  {
    hide Conserved, DoVote, Leaked, Halfway, DoCreate, DoCancel, DoFail, DoTransferPayLink, DoApprove, DoSetOperator, CalculateFee, ProcessEvidence;
    match tx.body
    case SubmitValidation(_, _) =>
      if FeeDue(p, s, tx) {
        DistributionBooks(p, s.bank, DueFee(p, s, tx), DueVoters(s, tx));
      }
    case SlashValidator(validator, amount) => SlashConserves(p, s.bank, validator, amount);
    case SubmitEvidence(validator, e) =>
      SlashConserves(p, s.bank, validator, ProcessEvidence(s.bank, validator, e).value.amount);
    case _ =>
  }

  /** A settlement at this position commits and its fee is paid half-way. */
  ghost predicate HalfwayAt(p: Params, s: State, inputs: seq<Input>, k: nat)
    requires k < |inputs|
  {
    Succeeds(p, s, inputs, k) && PaidHalfway(p, Run(p, s, inputs[..k]), inputs[k].tx)
  }

  /** Along a conserving run something moves unannounced exactly when some fee is paid half-way. */
  lemma {:induction false} SafeUnbooked(p: Params, s: State, inputs: seq<Input>)
    requires Conserved(p, s.bank) && forall k: nat :: k < |inputs| ==> !BreaksAt(p, s, inputs, k)
    ensures RunUnbooked(p, s, inputs) > 0 <==> exists k: nat :: k < |inputs| && HalfwayAt(p, s, inputs, k)
    decreases |inputs|
  {
    hide Conserved, PaidHalfway, Unbooked, Run, BreaksAt, Dispatch;
    if inputs != [] {
      var n := |inputs| - 1;
      var init := inputs[..n];
      forall k: nat | k < n ensures !BreaksAt(p, s, init, k) && (HalfwayAt(p, s, init, k) <==> HalfwayAt(p, s, inputs, k)) {
        assert init[..k] == inputs[..k];
        SameBreak(p, s, init, inputs, k);
      }
      SafeUnbooked(p, s, init);
      ConservedUntil(p, s, inputs, n);
      if Succeeds(p, s, inputs, n) {
        AllBooked(p, Run(p, s, inputs[..n]), inputs[n].tx, inputs[n].now);
      }
      assert HalfwayAt(p, s, inputs, n) <==> Succeeds(p, s, inputs, n) && PaidHalfway(p, Run(p, s, init), inputs[n].tx);
    }
  }

  lemma SameBreak(p: Params, s: State, init: seq<Input>, inputs: seq<Input>, k: nat)
    requires k < |init| <= |inputs| && init[..k] == inputs[..k] && init[k] == inputs[k]
    ensures BreaksAt(p, s, init, k) == BreaksAt(p, s, inputs, k)
  {}

  /**
   * Over every run supply plus recorded burns is what it was plus all announced fees plus what moved
   * unannounced, up to whole words.  Along an orderly run with a burn counter that started at zero
   * it is exactly the initial supply plus the fees, as long as the counter has not wrapped and no
   * longer.
   */
  lemma {:induction false} SupplyPlusBurned(p: Params, s: State, inputs: seq<Input>)
    ensures var b := Run(p, s, inputs).bank; var events := RunEvents(p, s, inputs);
      (b.totalSupply + b.totalBurned) % U64_MOD ==
      (s.bank.totalSupply + s.bank.totalBurned + FeesIn(events) + RunUnbooked(p, s, inputs)) % U64_MOD
    ensures Conserved(p, s.bank) && s.bank.totalBurned == 0 && (forall k: nat :: k < |inputs| ==> OrderlyAt(p, s, inputs, k)) ==>
      var b := Run(p, s, inputs).bank; var events := RunEvents(p, s, inputs);
      b.totalSupply + b.totalBurned == s.bank.totalSupply + FeesIn(events) <==> Burns(events) < U64_MOD
  {
    hide Conserved, Run, RunEvents, RunUnbooked, OrderlyAt, Burns, FeesIn;
    var b, events, extra := Run(p, s, inputs).bank, RunEvents(p, s, inputs), RunUnbooked(p, s, inputs);
    RunBooks(p, s, inputs);
    ModAdd(s.bank.totalBurned + Burns(events), b.totalSupply);
    ModAdd(b.totalSupply + Burns(events), s.bank.totalBurned);
    ModAdd(s.bank.totalSupply + FeesIn(events) + extra, s.bank.totalBurned);
    if Conserved(p, s.bank) && s.bank.totalBurned == 0 && forall k: nat :: k < |inputs| ==> OrderlyAt(p, s, inputs, k) {
      OrderlyBooks(p, s, inputs);
    }
  }
}
