/**
 * Who pays and who is paid: every balance after a committed transaction, and along whole runs, from
 * what each address sends and receives.  Nobody but the sender of a transaction pays for it.
 */
module Accounts {
  import opened Numbers
  import opened Collections
  import opened Rules
  import opened ChainState
  import opened Fees
  import opened Supply
  import opened Payouts
  import opened Executor
  import opened Conservation
  import opened Laws

  // ---------------------------------------------------------------- balances

  /** What an address pays: only the sender pays, and only by sending, staking or rewarding. */
  function Debit(tx: Tx, a: Address): nat {
    if a != tx.from then 0
    else
      match tx.body
      case SendTokens(_, amount) => amount
      case StakeTokens(amount) => amount
      case RewardValidator(_, amount) => amount
      case _ => 0
  }

  /** What an address is paid: the recipient, the rewarded validator, the withdrawing one, and whoever gets a part of a fee. */
  ghost function Credit(p: Params, s: State, tx: Tx, a: Address): nat {
    match tx.body
    case SendTokens(to, amount) => if a == to then amount else 0
    case RewardValidator(v, amount) => if a == v then amount else 0
    case CompleteUnstake => if a == tx.from && a in s.bank.validators then s.bank.validators[a].pending else 0
    case SubmitValidation(_, _) => FeeCredit(p, s, tx, a)
    case _ => 0
  }

  /** The shares of the voters before the stop, and the treasury's part when everybody is paid. */
  ghost function FeeCredit(p: Params, s: State, tx: Tx, a: Address): nat {
    if !FeeDue(p, s, tx) || !Passes(p, s.bank, DueFee(p, s, tx), DueVoters(s, tx)) then 0
    else
      var fee, voters := DueFee(p, s, tx), DueVoters(s, tx);
      var list, shares, j := PaidVoters(s.bank, voters), PaidShares(s.bank, fee, voters), StopOf(p, s.bank, fee, voters);
      ShareTo(list, shares, j, a) + if j == |shares| && a == p.treasury then fee.treasury else 0
  }

  ghost function ShareTo(list: seq<Address>, shares: seq<uint64>, j: nat, a: Address): nat
    requires j <= |list| == |shares|
  {
    if j == 0 then 0 else ShareTo(list, shares, j - 1, a) + if list[j - 1] == a then shares[j - 1] else 0
  }

  lemma {:induction false} ShareOnce(list: seq<Address>, shares: seq<uint64>, j: nat, a: Address)
    requires j <= |list| == |shares| && NoDup(list)
    ensures a !in list[..j] ==> ShareTo(list, shares, j, a) == 0
    ensures forall i :: 0 <= i < j && list[i] == a ==> ShareTo(list, shares, j, a) == shares[i]
    decreases j
  {
    if j > 0 {
      ShareOnce(list, shares, j - 1, a);
      assert list[..j] == list[..j - 1] + [list[j - 1]];
      if list[j - 1] == a {
        assert a !in list[..j - 1];
      }
    }
  }

  /** A later balance is an earlier one after a debit and a credit, as the counter holds it. */
  predicate Moved(before: uint64, after: uint64, debit: nat, credit: nat) {
    debit <= before && after == (before - debit + credit) % U64_MOD
  }

  lemma {:induction false} FeeBalances(p: Params, b: Bank, fee: Fee, voters: seq<Address>, a: Address)
    requires Passes(p, b, fee, voters)
    ensures var list, shares, j := PaidVoters(b, voters), PaidShares(b, fee, voters), StopOf(p, b, fee, voters);
      && j <= |shares| == |list|
      && Moved(AccountOf(b, a).balance, AccountOf(DistributeFees(p, b, fee, voters).bank, a).balance, 0,
               ShareTo(list, shares, j, a) + if j == |shares| && a == p.treasury then fee.treasury else 0)
  {
    hide DistributeFees, VoterStake, MintAll, PaidShares, PaidVoters, StopOf, Running, PaidTotal, SumSeq, ShareTo, NoDup;
    var list, shares, j := PaidVoters(b, voters), PaidShares(b, fee, voters), StopOf(p, b, fee, voters);
    DistributionIff(p, b, fee, voters);
    PaidDistinct(b, voters);
    ShareOnce(list, shares, j, a);
    var paid := VotersOnly(p, b, fee, voters).bank;
    VoterMoved(b, paid, list, shares, j, a);
    if j == |shares| {
      TwoCredits(AccountOf(b, a).balance, AccountOf(paid, a).balance, ShareTo(list, shares, j, a), fee.treasury);
    }
  }

  lemma PaidDistinct(b: Bank, voters: seq<Address>)
    ensures NoDup(PaidVoters(b, voters))
  {
    SortedNoDup(PaidVoters(b, voters));
  }

  lemma {:induction false} VoterMoved(b: Bank, paid: Bank, list: seq<Address>, shares: seq<uint64>, j: nat, a: Address)
    requires j <= |list| == |shares| && NoDup(list) && Credits(b, paid, list, shares, j)
    ensures Moved(AccountOf(b, a).balance, AccountOf(paid, a).balance, 0, ShareTo(list, shares, j, a))
  {
    ShareOnce(list, shares, j, a);
    if a in list[..j] {
      var i :| 0 <= i < j && list[..j][i] == a;
      assert list[i] == a;
      AddWraps(AccountOf(b, a).balance, shares[i]);
    }
  }

  lemma {:induction false} TwoCredits(before: uint64, middle: uint64, x: nat, y: uint64)
    requires middle == (before + x) % U64_MOD
    ensures Add64(middle, y) == (before + x + y) % U64_MOD
  {
    AddWraps(middle, y);
    ModAdd(before + x, y);
  }

  lemma {:induction false} VoteBalances(p: Params, s: State, tx: Tx, now: int64, a: Address)
    requires tx.body.SubmitValidation? && DoVote(p, s, tx.from, tx.body.id, tx.body.proof, now).Ok?
    ensures Moved(AccountOf(s.bank, a).balance, AccountOf(DoVote(p, s, tx.from, tx.body.id, tx.body.proof, now).value.state.bank, a).balance,
                  0, FeeCredit(p, s, tx, a))
  {
    hide DistributeFees, CalculateFee, EvaluateField, Settled, Passes, PaidVoters, PaidShares, StopOf, ShareTo, FeeEvents;
    if FeeDue(p, s, tx) {
      var fee, voters := DueFee(p, s, tx), DueVoters(s, tx);
      if Passes(p, s.bank, fee, voters) {
        PassesMeans(p, s.bank, fee, voters);
        FeeBalances(p, s.bank, fee, voters, a);
      } else {
        NothingPaid(p, s.bank, fee, voters);
      }
    }
  }

  lemma PassesMeans(p: Params, b: Bank, fee: Fee, voters: seq<Address>)
    requires Passes(p, b, fee, voters)
    ensures VoterStake(b, voters) > 0 && fee.total > 0 && voters != []
  {}

  lemma {:induction false} NothingPaid(p: Params, b: Bank, fee: Fee, voters: seq<Address>)
    requires !Passes(p, b, fee, voters)
    ensures DistributeFees(p, b, fee, voters).bank == b
  {
    hide DistributeFees, Passes;
    DistributionIff(p, b, fee, voters);
  }

  lemma {:induction false} SendBalances(b: Bank, from: Address, to: Address, amount: uint64, a: Address)
    requires DoSend(b, from, to, amount).Ok?
    ensures Moved(AccountOf(b, a).balance, AccountOf(DoSend(b, from, to, amount).value.bank, a).balance,
                  if a == from then amount else 0, if a == to then amount else 0)
  {
    var debited := SubBalance(b, from, amount).value;
    AddWraps(AccountOf(debited, to).balance, amount);
  }

  lemma {:induction false} RewardBalances(p: Params, b: Bank, from: Address, v: Address, amount: uint64, a: Address)
    requires DoReward(p, b, from, v, amount).Ok?
    ensures Moved(AccountOf(b, a).balance, AccountOf(DoReward(p, b, from, v, amount).value.bank, a).balance,
                  if a == from then amount else 0, if a == v then amount else 0)
  {
    var debited := SubBalance(b, from, amount).value;
    AddWraps(AccountOf(debited, v).balance, amount);
  }

  lemma {:induction false} CompleteBalances(b: Bank, from: Address, now: int64, a: Address)
    requires DoCompleteUnstake(b, from, now).Ok?
    ensures Moved(AccountOf(b, a).balance, AccountOf(DoCompleteUnstake(b, from, now).value.bank, a).balance,
                  0, if a == from then b.validators[from].pending else 0)
  {
    AddWraps(AccountOf(b, from).balance, b.validators[from].pending);
  }

  lemma {:induction false} StakeBalances(p: Params, b: Bank, from: Address, amount: uint64, now: int64, a: Address)
    requires DoStake(p, b, from, amount, now).Ok?
    ensures Moved(AccountOf(b, a).balance, AccountOf(DoStake(p, b, from, amount, now).value.bank, a).balance, if a == from then amount else 0, 0)
  {}

  /** Handlers that touch no account. */
  lemma {:induction false} OtherBalances(p: Params, s: State, tx: Tx, now: int64)
    requires Dispatch(p, s, tx, now).Ok?
    requires !tx.body.SubmitValidation? && !tx.body.SendTokens? && !tx.body.StakeTokens? && !tx.body.CompleteUnstake? && !tx.body.RewardValidator?
    ensures Dispatch(p, s, tx, now).value.state.bank.accounts == s.bank.accounts
  {
    hide DoVote, DoCreate, DoCancel, DoFail, DoTransferPayLink, DoApprove, DoSetOperator, DoSend, DoStake, DoCompleteUnstake, DoReward, ProcessEvidence;
  }

  /** Every balance after a committed transaction is the balance before, less what the address pays, plus what it is paid. */
  lemma {:induction false} BalanceLaw(p: Params, s: State, tx: Tx, now: int64, a: Address)
    requires Step(p, s, tx, now).Ok?
    ensures Moved(AccountOf(s.bank, a).balance, AccountOf(Step(p, s, tx, now).value.state.bank, a).balance, Debit(tx, a), Credit(p, s, tx, a))
  {
    hide DoVote, DoCreate, DoCancel, DoFail, DoTransferPayLink, DoApprove, DoSetOperator, DoSend, DoStake, DoInitiateUnstake,
      DoCompleteUnstake, DoSlash, DoReward, DoRegisterKey, DoEvidence, FeeCredit, Moved;
    match tx.body
    case SubmitValidation(_, _) => VoteBalances(p, s, tx, now, a);
    case SendTokens(to, amount) => SendBalances(s.bank, tx.from, to, amount, a);
    case StakeTokens(amount) => StakeBalances(p, s.bank, tx.from, amount, now, a);
    case CompleteUnstake =>
      Completing(s.bank, tx.from, now);
      CompleteBalances(s.bank, tx.from, now, a);
    case RewardValidator(v, amount) => RewardBalances(p, s.bank, tx.from, v, amount, a);
    case _ =>
      OtherBalances(p, s, tx, now);
      StillThere(AccountOf(s.bank, a).balance);
  }

  lemma Completing(b: Bank, from: Address, now: int64)
    requires DoCompleteUnstake(b, from, now).Ok?
    ensures from in b.validators
  {}

  lemma StillThere(x: uint64)
    ensures Moved(x, x, 0, 0)
  {}

  // ---------------------------------------------------------------- genesis

  lemma {:induction false} NotFunded(b: Bank, balances: seq<GenesisBalance>, a: Address)
    requires forall i :: 0 <= i < |balances| ==> balances[i].address != a
    ensures AccountOf(Fund(b, balances), a) == AccountOf(b, a)
    decreases |balances|
  {
    if balances != [] {
      var g := balances[0];
      NotFunded(PutAccount(b, g.address, Account(g.balance, 0)).(totalSupply := Add64(b.totalSupply, g.balance)), balances[1..], a);
    }
  }

  lemma {:induction false} FundedLast(b: Bank, balances: seq<GenesisBalance>, i: nat)
    requires i < |balances| && forall j :: i < j < |balances| ==> balances[j].address != balances[i].address
    ensures AccountOf(Fund(b, balances), balances[i].address) == Account(balances[i].balance, 0)
    decreases |balances|
  {
    var g, rest := balances[0], balances[1..];
    var b' := PutAccount(b, g.address, Account(g.balance, 0)).(totalSupply := Add64(b.totalSupply, g.balance));
    if i == 0 {
      NotFunded(b', rest, g.address);
    } else {
      assert rest[i - 1] == balances[i];
      FundedLast(b', rest, i - 1);
    }
  }

  /** A genesis file leaves every address the balance of its last entry, nothing to those without one, and all nonces at zero. */
  lemma {:induction false} GenesisBalances(balances: seq<GenesisBalance>, a: Address)
    ensures (forall i :: 0 <= i < |balances| ==> balances[i].address != a) ==> AccountOf(Genesis(balances).bank, a) == Account(0, 0)
    ensures forall i :: 0 <= i < |balances| && balances[i].address == a && (forall j :: i < j < |balances| ==> balances[j].address != a) ==>
      AccountOf(Genesis(balances).bank, a) == Account(balances[i].balance, 0)
  {
    hide Fund;
    if forall i :: 0 <= i < |balances| ==> balances[i].address != a {
      NotFunded(EmptyBank(), balances, a);
    }
    forall i | 0 <= i < |balances| && balances[i].address == a && (forall j :: i < j < |balances| ==> balances[j].address != a)
      ensures AccountOf(Genesis(balances).bank, a) == Account(balances[i].balance, 0)
    {
      FundedLast(EmptyBank(), balances, i);
    }
  }

  // ---------------------------------------------------------------- sending tokens

  /**
   * A transfer is allowed exactly when it moves something to somebody and the sender holds it.  Then
   * the sender has that much less and the recipient that much more, and nothing else changes.
   */
  lemma {:induction false} SendIff(p: Params, s: State, tx: Tx, now: int64)
    requires tx.body.SendTokens?
    ensures Step(p, s, tx, now).Ok? <==>
      && tx.nonce == AccountOf(s.bank, tx.from).nonce && tx.body.amount > 0 && tx.body.to != ZERO_ADDRESS
      && tx.body.amount <= AccountOf(s.bank, tx.from).balance
    ensures Step(p, s, tx, now).Ok? ==>
      var after, to := Step(p, s, tx, now).value.state, tx.body.to;
      && after == s.(bank := s.bank.(accounts := after.bank.accounts))
      && (to == tx.from ==> AccountOf(after.bank, to).balance == AccountOf(s.bank, to).balance)
      && (to != tx.from ==>
            && AccountOf(after.bank, tx.from).balance == AccountOf(s.bank, tx.from).balance - tx.body.amount
            && AccountOf(after.bank, to).balance == (AccountOf(s.bank, to).balance + tx.body.amount) % U64_MOD)
      && (forall a :: a !in {tx.from, to} ==> AccountOf(after.bank, a) == AccountOf(s.bank, a))
  {
    AddWraps(AccountOf(s.bank, tx.body.to).balance, tx.body.amount);
  }

  // ---------------------------------------------------------------- nothing wraps

  lemma {:induction false} ShareBelow(list: seq<Address>, shares: seq<uint64>, j: nat, a: Address)
    requires j <= |list| == |shares|
    ensures ShareTo(list, shares, j, a) <= SumSeq(shares[..j])
    decreases j
  {
    if j > 0 {
      ShareBelow(list, shares, j - 1, a);
      assert shares[..j] == shares[..j - 1] + [shares[j - 1]];
      SumSeqConcat(shares[..j - 1], [shares[j - 1]]);
      assert SumSeq([shares[j - 1]]) == shares[j - 1] by { assert [shares[j - 1]][1..] == []; }
    }
  }

  /** What one address gets of a fee is at most what the fee mints. */
  lemma {:induction false} FeeCreditBelow(p: Params, s: State, tx: Tx, a: Address)
    requires Conserved(p, s.bank)
    ensures FeeCredit(p, s, tx, a) <= if FeeDue(p, s, tx) then DueFee(p, s, tx).reward + DueFee(p, s, tx).treasury else 0
  {
    hide CalculateFee, PaidVoters, PaidShares, StopOf, ShareTo, SumSeq, Holdings, Stakes, VoterStake;
    if FeeDue(p, s, tx) && Passes(p, s.bank, DueFee(p, s, tx), DueVoters(s, tx)) {
      var fee, voters := DueFee(p, s, tx), DueVoters(s, tx);
      var shares, j := PaidShares(s.bank, fee, voters), StopOf(p, s.bank, fee, voters);
      StakesFit(p, s.bank);
      SortedNoDup(voters);
      SharesWhole(s.bank, fee, voters);
      Aligned(s.bank, fee, voters);
      ShareBelow(PaidVoters(s.bank, voters), shares, j, a);
      PrefixBelow(shares, j);
    }
  }

  lemma Aligned(b: Bank, fee: Fee, voters: seq<Address>)
    requires VoterStake(b, voters) > 0
    ensures |PaidVoters(b, voters)| == |PaidShares(b, fee, voters)|
  {}

  /** In a conserved state whose withdrawals are covered, a committed transaction with a fitting fee wraps no balance. */
  lemma {:induction false} CreditRoom(p: Params, s: State, tx: Tx, now: int64, a: Address)
    requires Conserved(p, s.bank) && Covered(s.bank) && FeesFit(p, s, tx) && Step(p, s, tx, now).Ok?
    ensures Debit(tx, a) <= AccountOf(s.bank, a).balance
    ensures AccountOf(s.bank, a).balance - Debit(tx, a) + Credit(p, s, tx, a) < U64_MOD
  {
    hide Dispatch, Conserved, Covered, FeesFit, FeeCredit, Holdings, CalculateFee;
    BalanceLaw(p, s, tx, now, a);
    BalanceLaw(p, s, tx, now, tx.from);
    StepWrapsNothing(p, s, tx, now);
    if tx.body.SubmitValidation? {
      FeeCreditBelow(p, s, tx, a);
      HoldingsBound(s.bank, a, a);
    }
  }

  /** So there every balance moves by exactly what the address is paid and pays. */
  lemma {:induction false} ExactBalances(p: Params, s: State, tx: Tx, now: int64, a: Address)
    requires Conserved(p, s.bank) && Covered(s.bank) && FeesFit(p, s, tx) && Step(p, s, tx, now).Ok?
    ensures AccountOf(Step(p, s, tx, now).value.state.bank, a).balance == AccountOf(s.bank, a).balance - Debit(tx, a) + Credit(p, s, tx, a)
  {
    hide Step, Conserved, Covered, FeesFit, Credit, Debit;
    BalanceLaw(p, s, tx, now, a);
    CreditRoom(p, s, tx, now, a);
  }

  /** Whoever gets a part of a fee is the treasury, or an active validator that voted for the PayLink. */
  lemma {:induction false} FeeGoesToVoters(p: Params, s: State, tx: Tx, a: Address)
    requires FeeCredit(p, s, tx, a) > 0 && a != p.treasury
    ensures FeeDue(p, s, tx) && a in s.bank.validators && s.bank.validators[a].active
    ensures a == tx.from || (tx.body.id, a) in s.links.votes
  {
    hide CalculateFee, PaidVoters, PaidShares, StopOf, ShareTo, VoterStake, SortedSeq;
    var fee, voters := DueFee(p, s, tx), DueVoters(s, tx);
    var list, shares, j := PaidVoters(s.bank, voters), PaidShares(s.bank, fee, voters), StopOf(p, s.bank, fee, voters);
    PaidDistinct(s.bank, voters);
    Aligned(s.bank, fee, voters);
    ShareOnce(list, shares, j, a);
    assert a in list[..j] && a in list;
    PaidAreActive(s.bank, voters);
    VotersWith(s.links, tx.body.id, tx.from, tx.body.proof);
    assert a in Elements(voters);
  }

  // ---------------------------------------------------------------- whole runs

  /** What one input of a run gains an address, negative when it pays. */
  ghost function Gain(p: Params, s: State, i: Input, a: Address): int {
    if BlockStep(p, s, i.tx, i.now).Ok? then Credit(p, s, i.tx, a) - Debit(i.tx, a) else 0
  }

  ghost function Gains(p: Params, s: State, inputs: seq<Input>, a: Address): int {
    if inputs == [] then 0
    else
      var n := |inputs| - 1;
      Gains(p, s, inputs[..n], a) + Gain(p, Run(p, s, inputs[..n]), inputs[n], a)
  }

  lemma {:induction false} AfterBalance(p: Params, s: State, i: Input, a: Address)
    ensures AccountOf(After(p, s, i).bank, a).balance == (AccountOf(s.bank, a).balance + Gain(p, s, i, a)) % U64_MOD
  {
    hide Step, Credit, Debit;
    if BlockStep(p, s, i.tx, i.now).Ok? {
      BalanceLaw(p, s, i.tx, i.now, a);
    }
  }

  /** Over every run a balance is what it was plus all that the committed transactions paid the address, less all it paid. */
  lemma {:induction false} RunBalances(p: Params, s: State, inputs: seq<Input>, a: Address)
    ensures AccountOf(Run(p, s, inputs).bank, a).balance == (AccountOf(s.bank, a).balance + Gains(p, s, inputs, a)) % U64_MOD
    decreases |inputs|
  {
    hide After, Gain, AccountOf;
    if inputs != [] {
      var n := |inputs| - 1;
      var t := Run(p, s, inputs[..n]);
      RunBalances(p, s, inputs[..n], a);
      AfterBalance(p, t, inputs[n], a);
      ModAdd(AccountOf(s.bank, a).balance + Gains(p, s, inputs[..n], a), Gain(p, t, inputs[n], a));
    }
  }

  /** A committed transaction lowers a balance only by what its sender pays, or by wrapping it. */
  ghost predicate Pays(p: Params, s: State, i: Input, a: Address) {
    && BlockStep(p, s, i.tx, i.now).Ok?
    && ((a == i.tx.from && Debit(i.tx, a) > 0) || AccountOf(s.bank, a).balance - Debit(i.tx, a) + Credit(p, s, i.tx, a) >= U64_MOD)
  }

  lemma {:induction false} BalanceFalls(p: Params, s: State, i: Input, a: Address)
    requires AccountOf(After(p, s, i).bank, a).balance < AccountOf(s.bank, a).balance
    ensures Pays(p, s, i, a)
  {
    hide Step, Credit;
    if BlockStep(p, s, i.tx, i.now).Ok? {
      BalanceLaw(p, s, i.tx, i.now, a);
    }
  }

  /** Whatever a run takes from an address, some transaction of its own took it, or a credit wrapped its balance. */
  lemma {:induction false} RunBalanceFalls(p: Params, s: State, inputs: seq<Input>, a: Address) returns (k: nat)
    requires AccountOf(Run(p, s, inputs).bank, a).balance < AccountOf(s.bank, a).balance
    ensures k < |inputs| && Pays(p, Run(p, s, inputs[..k]), inputs[k], a)
    decreases |inputs|
  {
    hide After, Pays, AccountOf;
    var n := |inputs| - 1;
    var t := Run(p, s, inputs[..n]);
    if AccountOf(t.bank, a).balance < AccountOf(s.bank, a).balance {
      k := RunBalanceFalls(p, s, inputs[..n], a);
      assert inputs[..n][..k] == inputs[..k];
    } else {
      BalanceFalls(p, t, inputs[n], a);
      k := n;
    }
  }

  /**
   * Along a steady run from a conserved state with covered withdrawals, which every sound genesis is,
   * no balance ever wraps: each committed transaction moves each balance by exactly what it pays and
   * is paid, so it lowers nobody's balance but its sender's.
   */
  lemma {:induction false} OnlySenderPays(p: Params, s: State, inputs: seq<Input>, k: nat, a: Address)
    requires Conserved(p, s.bank) && Covered(s.bank) && k < |inputs|
    requires forall j: nat :: j <= k ==> SteadyAt(p, s, inputs, j)
    ensures AccountOf(Run(p, s, inputs[..k + 1]).bank, a).balance ==
      AccountOf(Run(p, s, inputs[..k]).bank, a).balance + Gain(p, Run(p, s, inputs[..k]), inputs[k], a)
    ensures a != inputs[k].tx.from ==>
      AccountOf(Run(p, s, inputs[..k + 1]).bank, a).balance >= AccountOf(Run(p, s, inputs[..k]).bank, a).balance
  {
    hide Run, Step, Conserved, Covered, Uncovers, FeesFit, Credit, AccountOf;
    var t := Run(p, s, inputs[..k]);
    SteadyRun(p, s, inputs, k);
    RunGrows(p, s, inputs, k);
    assert SteadyAt(p, s, inputs, k);
    if Succeeds(p, s, inputs, k) {
      ExactBalances(p, t, inputs[k].tx, inputs[k].now, a);
    }
  }
}
