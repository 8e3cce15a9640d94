/**
 * Token conservation: the recorded supply equals all balances plus all stakes and stays under
 * the cap.  Each bank operation is shown to move value exactly, without wrap-around; the two that
 * can break the equation, an overdrawn withdrawal and a mint that wraps, are singled out.
 */
module Supply {
  import opened Numbers
  import opened Collections
  import opened Rules
  import opened ChainState
  import opened Fees

  ghost function Balances(b: Bank): map<nat, int> {
    map a | a in b.accounts :: b.accounts[a].balance
  }

  ghost function Stakes(b: Bank): map<nat, int> {
    map a | a in b.validators :: b.validators[a].staked
  }

  /** Everything anybody holds. */
  ghost function Holdings(b: Bank): int {
    Sum(Balances(b)) + Sum(Stakes(b))
  }

  ghost predicate Conserved(p: Params, b: Bank) {
    b.totalSupply == Holdings(b) && b.totalSupply <= p.maxSupply
  }

  function StakedBy(b: Bank, a: Address): uint64 {
    if a in b.validators then b.validators[a].staked else 0
  }

  lemma {:induction false} PutAccountHoldings(b: Bank, a: Address, acc: Account)
    ensures Sum(Balances(PutAccount(b, a, acc))) == Sum(Balances(b)) + acc.balance - AccountOf(b, a).balance
    ensures Stakes(PutAccount(b, a, acc)) == Stakes(b)
    ensures Holdings(PutAccount(b, a, acc)) == Holdings(b) + acc.balance - AccountOf(b, a).balance
  {
    SumUpdate(Balances(b), a, acc.balance);
    assert Balances(PutAccount(b, a, acc)) == Balances(b)[a := acc.balance];
  }

  lemma {:induction false} PutValidatorHoldings(b: Bank, b': Bank, a: Address, v: Validator)
    requires b'.accounts == b.accounts && b'.validators == b.validators[a := v]
    ensures Holdings(b') == Holdings(b) + v.staked - StakedBy(b, a)
  {
    SumUpdate(Stakes(b), a, v.staked);
    assert Stakes(b') == Stakes(b)[a := v.staked];
  }

  /** No single balance or stake, and no balance together with a stake, exceeds what all hold. */
  lemma {:induction false} HoldingsBound(b: Bank, a: Address, v: Address)
    ensures AccountOf(b, a).balance + StakedBy(b, v) <= Holdings(b)
  {
    SumNonNegative(Balances(b));
    SumNonNegative(Stakes(b));
    if a in b.accounts { SumBoundsValue(Balances(b), a); }
    if v in b.validators { SumBoundsValue(Stakes(b), v); }
  }

  // ---------------------------------------------------------------- plain moves

  /** A credit that stays within the word size raises the balance and the holdings by exactly the amount. */
  lemma {:induction false} CreditExact(b: Bank, a: Address, amount: uint64)
    requires Holdings(b) + amount < U64_MOD
    ensures AccountOf(AddBalance(b, a, amount), a).balance == AccountOf(b, a).balance + amount
    ensures Holdings(AddBalance(b, a, amount)) == Holdings(b) + amount
  {
    HoldingsBound(b, a, a);
    PutAccountHoldings(b, a, AccountOf(b, a).(balance := AccountOf(b, a).balance + amount));
  }

  lemma {:induction false} DebitExact(b: Bank, a: Address, amount: uint64)
    requires SubBalance(b, a, amount).Ok?
    ensures Holdings(SubBalance(b, a, amount).value) == Holdings(b) - amount
  {
    PutAccountHoldings(b, a, b.accounts[a].(balance := b.accounts[a].balance - amount));
  }

  /** A transfer conserves the supply and moves the amount without wrapping the receiver's balance. */
  lemma {:induction false} TransferConserves(p: Params, b: Bank, from: Address, to: Address, amount: uint64)
    requires Conserved(p, b) && TransferTokens(b, from, to, amount).Ok?
    ensures Conserved(p, TransferTokens(b, from, to, amount).value)
    ensures var b' := TransferTokens(b, from, to, amount).value;
      AccountOf(b', to).balance == AccountOf(b, to).balance + (if from == to then 0 else amount)
  {
    DebitExact(b, from, amount);
    CreditExact(SubBalance(b, from, amount).value, to, amount);
  }

  lemma {:induction false} NonceConserves(p: Params, b: Bank, a: Address)
    ensures Conserved(p, IncrementNonce(b, a)) <==> Conserved(p, b)
  {
    PutAccountHoldings(b, a, AccountOf(b, a).(nonce := Add64(AccountOf(b, a).nonce, 1)));
  }

  // ---------------------------------------------------------------- staking

  /** Staking moves value from a balance to a stake; the stake does not wrap. */
  lemma {:induction false} StakeConserves(p: Params, b: Bank, a: Address, amount: uint64, now: int64)
    requires Conserved(p, b) && SubBalance(b, a, amount).Ok?
    ensures var b' := Stake(p, SubBalance(b, a, amount).value, a, amount, now);
      Conserved(p, b') && StakedBy(b', a) == StakedBy(b, a) + amount
  {
    var debited := SubBalance(b, a, amount).value;
    var b' := Stake(p, debited, a, amount, now);
    DebitExact(b, a, amount);
    HoldingsBound(b, a, a);
    PutValidatorHoldings(debited, b', a, b'.validators[a]);
  }

  lemma {:induction false} InitiateConserves(p: Params, b: Bank, a: Address, amount: uint64, now: int64)
    requires InitiateWithdrawal(p, b, a, amount, now).Ok?
    ensures Conserved(p, InitiateWithdrawal(p, b, a, amount, now).value) <==> Conserved(p, b)
  {
    var b' := InitiateWithdrawal(p, b, a, amount, now).value;
    PutValidatorHoldings(b, b', a, b'.validators[a]);
  }

  /** A pending withdrawal that the (slashed) stake no longer covers, and whose credit does not itself wrap. */
  predicate Overdrawn(b: Bank, a: Address) {
    && a in b.validators
    && b.validators[a].staked < b.validators[a].pending
    && AccountOf(b, a).balance + b.validators[a].pending < U64_MOD
  }

  /** Completing a withdrawal conserves the supply exactly when it is not overdrawn. */
  lemma {:induction false} CompleteConservesIff(p: Params, b: Bank, a: Address, now: int64)
    requires Conserved(p, b) && CompleteWithdrawal(b, a, now).Ok?
    ensures var b' := AddBalance(CompleteWithdrawal(b, a, now).value, a, b.validators[a].pending);
      && (Conserved(p, b') <==> !Overdrawn(b, a))
      && (b.validators[a].pending <= b.validators[a].staked ==>
            && StakedBy(b', a) == StakedBy(b, a) - b.validators[a].pending
            && AccountOf(b', a).balance == AccountOf(b, a).balance + b.validators[a].pending)
  {
    var v := b.validators[a];
    var done := CompleteWithdrawal(b, a, now).value;
    PutValidatorHoldings(b, done, a, done.validators[a]);
    HoldingsBound(b, a, a);
    PutAccountHoldings(done, a, AccountOf(done, a).(balance := Add64(AccountOf(done, a).balance, v.pending)));
  }

  /** Slashing destroys exactly the slashed amount: the drift clamp is never taken. */
  lemma {:induction false} SlashConserves(p: Params, b: Bank, a: Address, amount: uint64)
    requires Conserved(p, b) && Slash(p, b, a, amount).Ok?
    ensures amount <= b.totalSupply
    ensures Conserved(p, Slash(p, b, a, amount).value)
    ensures Slash(p, b, a, amount).value.totalSupply == b.totalSupply - amount
  {
    var b' := Slash(p, b, a, amount).value;
    HoldingsBound(b, a, a);
    PutValidatorHoldings(b, b', a, b'.validators[a]);
  }

  lemma {:induction false} ValidatorNoteConserves(p: Params, b: Bank, b': Bank, a: Address, v: Validator)
    requires b'.accounts == b.accounts && b'.validators == b.validators[a := v] && b'.totalSupply == b.totalSupply
    requires v.staked == StakedBy(b, a)
    ensures Conserved(p, b') <==> Conserved(p, b)
  {
    PutValidatorHoldings(b, b', a, v);
  }

  lemma {:induction false} RewardConserves(p: Params, b: Bank, from: Address, a: Address, amount: uint64)
    requires Conserved(p, b) && SubBalance(b, from, amount).Ok?
    requires RecordReward(AddBalance(SubBalance(b, from, amount).value, a, amount), a, amount).Ok?
    ensures Conserved(p, RecordReward(AddBalance(SubBalance(b, from, amount).value, a, amount), a, amount).value)
  {
    var debited := SubBalance(b, from, amount).value;
    var credited := AddBalance(debited, a, amount);
    DebitExact(b, from, amount);
    CreditExact(debited, a, amount);
    var recorded := RecordReward(credited, a, amount).value;
    ValidatorNoteConserves(p, credited, recorded, a, recorded.validators[a]);
  }

  // ---------------------------------------------------------------- minting

  /** By how much the holdings exceed the recorded supply. */
  ghost function Gap(b: Bank): int {
    Holdings(b) - b.totalSupply
  }

  function Wraps(a: uint64, b: uint64): nat {
    if a + b < U64_MOD then 0 else 1
  }

  /** How often the supply wraps in a mint minus how often the credited balance does. */
  function MintDrift(b: Bank, to: Address, amount: uint64): int {
    Wraps(b.totalSupply, amount) - Wraps(AccountOf(b, to).balance, amount)
  }

  /** A mint that succeeds opens a gap of one word for a wrap of the supply that the balance does not share. */
  lemma {:induction false} MintGap(p: Params, b: Bank, to: Address, amount: uint64)
    requires MintTokens(p, b, to, amount).Ok?
    ensures var b' := MintTokens(p, b, to, amount).value;
      && Gap(b') == Gap(b) + U64_MOD * MintDrift(b, to, amount) && b'.totalSupply <= p.maxSupply
      && b'.validators == b.validators && b'.totalBurned == b.totalBurned
  {
    var b' := MintTokens(p, b, to, amount).value;
    var acc := AccountOf(b, to);
    PutAccountHoldings(b, to, acc.(balance := Add64(acc.balance, amount)));
    assert Balances(b') == Balances(AddBalance(b, to, amount)) && Stakes(b') == Stakes(AddBalance(b, to, amount));
  }

  /** From a conserved bank: when a mint succeeds, when it then conserves, and that it is exact as long as the cap check does not wrap. */
  lemma {:induction false} MintConserves(p: Params, b: Bank, to: Address, amount: uint64)
    requires Conserved(p, b)
    ensures MintTokens(p, b, to, amount).Ok? <==>
      b.totalSupply + amount <= p.maxSupply || U64_MOD <= b.totalSupply + amount <= p.maxSupply + U64_MOD
    ensures MintTokens(p, b, to, amount).Ok? ==>
      var b' := MintTokens(p, b, to, amount).value;
      && (Conserved(p, b') <==> b.totalSupply + amount < U64_MOD || U64_MOD <= AccountOf(b, to).balance + amount)
      && (b.totalSupply + amount < U64_MOD ==> Minted(b, b', amount))
  {
    HoldingsBound(b, to, to);
    if MintTokens(p, b, to, amount).Ok? {
      MintGap(p, b, to, amount);
    }
  }

  /** The second bank is the first with the amount added to the supply and to somebody's balance. */
  ghost predicate Minted(b: Bank, b': Bank, amount: nat) {
    && b'.totalSupply == b.totalSupply + amount && Holdings(b') == Holdings(b) + amount
    && b'.validators == b.validators && b'.totalBurned == b.totalBurned
  }

  lemma {:induction false} MintExact(p: Params, b: Bank, to: Address, amount: uint64)
    requires Holdings(b) + amount < U64_MOD && b.totalSupply + amount <= p.maxSupply
    ensures MintTokens(p, b, to, amount).Ok?
    ensures var b' := MintTokens(p, b, to, amount).value;
      && Minted(b, b', amount)
      && AccountOf(b', to).balance == AccountOf(b, to).balance + amount
      && forall a :: a != to ==> AccountOf(b', a) == AccountOf(b, a)
  {
    HoldingsBound(b, to, to);
    MintGap(p, b, to, amount);
  }

  ghost function PaidTotal(payouts: seq<Payout>): nat {
    if payouts == [] then 0 else payouts[0].amount + PaidTotal(payouts[1..])
  }

  /** Minting a list of shares that fits under the cap never fails half-way and pays everyone on the list their share. */
  lemma {:induction false} MintAllExact(p: Params, b: Bank, list: seq<Address>, shares: seq<uint64>)
    requires |list| == |shares| && NoDup(list)
    requires Holdings(b) + SumSeq(shares) < U64_MOD && b.totalSupply + SumSeq(shares) <= p.maxSupply
    ensures var r := MintAll(p, b, list, shares);
      && r.ok && Minted(b, r.bank, SumSeq(shares)) && PaidTotal(r.payouts) == SumSeq(shares)
      && (forall i :: 0 <= i < |list| ==> AccountOf(r.bank, list[i]).balance == AccountOf(b, list[i]).balance + shares[i])
      && (forall a :: a !in list ==> AccountOf(r.bank, a) == AccountOf(b, a))
    decreases |list|
  {
    hide MintTokens, Holdings, NoDup;
    if list != [] {
      var rest := list[1..];
      TailNoDup(list);
      if shares[0] == 0 {
        MintAllExact(p, b, rest, shares[1..]);
      } else {
        MintExact(p, b, list[0], shares[0]);
        MintAllExact(p, MintTokens(p, b, list[0], shares[0]).value, rest, shares[1..]);
      }
      assert forall i :: 0 < i < |list| ==> list[i] == rest[i - 1] && shares[i] == shares[1..][i - 1];
    }
  }

  lemma {:induction false} TailNoDup(list: seq<Address>)
    requires NoDup(list) && list != []
    ensures NoDup(list[1..]) && list[0] !in list[1..]
  {}

  // ---------------------------------------------------------------- what a distribution does to the gap

  ghost function MintAllDrift(p: Params, b: Bank, list: seq<Address>, shares: seq<uint64>): int
    requires |list| == |shares|
    decreases |list|
  {
    if list == [] then 0
    else if shares[0] == 0 then MintAllDrift(p, b, list[1..], shares[1..])
    else
      var minted := MintTokens(p, b, list[0], shares[0]);
      if minted.Err? then 0
      else MintDrift(b, list[0], shares[0]) + MintAllDrift(p, minted.value, list[1..], shares[1..])
  }

  /** Wraps of the supply minus wraps of the credited balances, over all mints of a distribution. */
  ghost function DistributionDrift(p: Params, b: Bank, fee: Fee, voters: seq<Address>): int {
    var total := VoterStake(b, voters);
    if fee.total == 0 || total == 0 || Add64(b.totalSupply, Add64(fee.reward, fee.treasury)) > p.maxSupply then 0
    else
      var list := SortedSeq(ActiveVoters(b, voters));
      var shares := Shares(StakeList(b, list), fee.reward, total, 0);
      MintAllDrift(p, b, list, shares) + TreasuryDrift(p, MintAll(p, b, list, shares), fee)
  }

  ghost function TreasuryDrift(p: Params, paid: Paid, fee: Fee): int {
    if paid.ok && fee.treasury > 0 && MintTokens(p, paid.bank, p.treasury, fee.treasury).Ok?
    then MintDrift(paid.bank, p.treasury, fee.treasury) else 0
  }

  /** The second bank differs from the first by mints that drifted this many words. */
  ghost predicate Drifted(p: Params, b: Bank, b': Bank, drift: int) {
    && Gap(b') == Gap(b) + U64_MOD * drift && b'.validators == b.validators
    && (b.totalSupply <= p.maxSupply ==> b'.totalSupply <= p.maxSupply)
  }

  lemma {:induction false} MintAllGap(p: Params, b: Bank, list: seq<Address>, shares: seq<uint64>)
    requires |list| == |shares|
    ensures Drifted(p, b, MintAll(p, b, list, shares).bank, MintAllDrift(p, b, list, shares))
    decreases |list|
  {
    hide MintTokens, Gap, MintDrift;
    if list != [] {
      if shares[0] == 0 {
        MintAllGap(p, b, list[1..], shares[1..]);
      } else if MintTokens(p, b, list[0], shares[0]).Ok? {
        MintGap(p, b, list[0], shares[0]);
        MintAllGap(p, MintTokens(p, b, list[0], shares[0]).value, list[1..], shares[1..]);
      }
    }
  }

  /** Whatever the bank, the fee and the outcome, a distribution moves the gap by its drift in words and leaves the stakes alone. */
  lemma {:induction false} DistributionGap(p: Params, b: Bank, fee: Fee, voters: seq<Address>)
    ensures Drifted(p, b, DistributeFees(p, b, fee, voters).bank, DistributionDrift(p, b, fee, voters))
  {
    hide MintAll, MintAllDrift, Shares, StakeList, VoterStake, MintTokens, ActiveVoters, Holdings, Balances, Stakes, MintDrift;
    var total := VoterStake(b, voters);
    if fee.total > 0 && total > 0 && Add64(b.totalSupply, Add64(fee.reward, fee.treasury)) <= p.maxSupply {
      var list := SortedSeq(ActiveVoters(b, voters));
      var shares := Shares(StakeList(b, list), fee.reward, total, 0);
      MintAllGap(p, b, list, shares);
      FinishGap(p, MintAll(p, b, list, shares), fee);
    }
  }

  lemma {:induction false} FinishGap(p: Params, paid: Paid, fee: Fee)
    ensures Drifted(p, paid.bank, FinishDistribution(p, paid, fee).bank, TreasuryDrift(p, paid, fee))
  {
    hide MintTokens, Holdings, MintDrift;
    if paid.ok {
      var credited := if fee.treasury > 0 then MintTokens(p, paid.bank, p.treasury, fee.treasury) else Ok(paid.bank);
      if credited.Ok? {
        if fee.treasury > 0 {
          MintGap(p, paid.bank, p.treasury, fee.treasury);
        }
        BurnHoldings(credited.value, fee.burn);
      }
    }
  }

  lemma {:induction false} BurnHoldings(b: Bank, amount: uint64)
    ensures Holdings(RecordBurn(b, amount)) == Holdings(b)
  {
    assert Balances(RecordBurn(b, amount)) == Balances(b) && Stakes(RecordBurn(b, amount)) == Stakes(b);
  }

  // ---------------------------------------------------------------- the voters' total stake

  ghost function StakeMap(b: Bank, s: set<Address>): map<nat, int> {
    map a | a in s :: StakeOf(b, a)
  }

  lemma {:induction false} SumDominated(m: map<nat, int>, n: map<nat, int>)
    requires forall k :: k in m ==> m[k] <= 0 || (k in n && m[k] <= n[k])
    requires forall k :: k in n ==> n[k] >= 0
    ensures Sum(m) <= Sum(n)
    decreases |m|
  {
    if m == map[] {
      SumNonNegative(n);
    } else {
      var k :| k in m;
      SumExtract(m, k);
      if k in n {
        SumExtract(n, k);
        SumDominated(m - {k}, n - {k});
      } else {
        SumDominated(m - {k}, n);
      }
    }
  }

  lemma {:induction false} StakeMapBound(b: Bank, s: set<Address>)
    ensures Sum(StakeMap(b, s)) <= Sum(Stakes(b))
  {
    SumDominated(StakeMap(b, s), Stakes(b));
  }

  lemma {:induction false} StakeMapAdd(b: Bank, s: set<Address>, a: Address)
    requires a !in s
    ensures Sum(StakeMap(b, s + {a})) == Sum(StakeMap(b, s)) + StakeOf(b, a)
  {
    SumUpdate(StakeMap(b, s), a, StakeOf(b, a));
    assert StakeMap(b, s + {a}) == StakeMap(b, s)[a := StakeOf(b, a)];
  }

  /** For distinct voters the running total is the true sum: it cannot wrap. */
  lemma {:induction false} VoterStakeExact(b: Bank, voters: seq<Address>)
    requires NoDup(voters) && Sum(Stakes(b)) < U64_MOD
    ensures VoterStake(b, voters) == Sum(StakeMap(b, Elements(voters)))
  {
    hide Stakes, StakeOf;
    if voters != [] {
      var n := |voters| - 1;
      var init, last := voters[..n], voters[n];
      VoterStakeExact(b, init);
      assert voters == init + [last];
      assert last !in init;
      assert Elements(voters) == Elements(init) + {last};
      StakeMapAdd(b, Elements(init), last);
      StakeMapBound(b, Elements(voters));
    } else {
      assert StakeMap(b, Elements(voters)) == map[];
    }
  }

  lemma {:induction false} StakeListSum(b: Bank, list: seq<Address>)
    requires NoDup(list)
    ensures SumSeq(StakeList(b, list)) == Sum(StakeMap(b, Elements(list)))
  {
    if list == [] {
      assert StakeMap(b, Elements(list)) == map[];
    } else {
      StakeListSum(b, list[1..]);
      assert StakeList(b, list)[1..] == StakeList(b, list[1..]);
      assert list == [list[0]] + list[1..];
      assert list[0] !in list[1..];
      assert Elements(list) == Elements(list[1..]) + {list[0]};
      StakeMapAdd(b, Elements(list[1..]), list[0]);
    }
  }

  /** The sorted active voters carry exactly the total stake the distribution divides by. */
  lemma {:induction false} ActiveStake(b: Bank, voters: seq<Address>)
    requires NoDup(voters) && Sum(Stakes(b)) < U64_MOD
    ensures SumSeq(StakeList(b, SortedSeq(ActiveVoters(b, voters)))) == VoterStake(b, voters)
  {
    var list := SortedSeq(ActiveVoters(b, voters));
    VoterStakeExact(b, voters);
    StakeListSum(b, list);
    SumDominated(StakeMap(b, Elements(voters)), StakeMap(b, Elements(list)));
    SumDominated(StakeMap(b, Elements(list)), StakeMap(b, Elements(voters)));
  }

  // ---------------------------------------------------------------- distribution as a whole

  /** The list and the shares a distribution pays. */
  ghost function PaidVoters(b: Bank, voters: seq<Address>): seq<Address> {
    SortedSeq(ActiveVoters(b, voters))
  }

  ghost function PaidShares(b: Bank, fee: Fee, voters: seq<Address>): (r: seq<uint64>)
    requires VoterStake(b, voters) > 0
    ensures |r| == |PaidVoters(b, voters)|
  {
    Shares(StakeList(b, PaidVoters(b, voters)), fee.reward, VoterStake(b, voters), 0)
  }

  /** The second bank pays every listed voter its share and the treasury its part, and nobody else anything. */
  ghost predicate Credited(b: Bank, b': Bank, list: seq<Address>, shares: seq<uint64>, treasury: Address, part: nat)
    requires |list| == |shares|
  {
    && (forall i :: 0 <= i < |list| ==>
          AccountOf(b', list[i]).balance == AccountOf(b, list[i]).balance + shares[i] + if list[i] == treasury then part else 0)
    && (forall a :: a !in list ==> AccountOf(b', a).balance == AccountOf(b, a).balance + if a == treasury then part else 0)
  }

  /**
   * As long as the cap check does not wrap, distribution is all or nothing: on failure the bank
   * is untouched; on success the payouts add up to the validators' reward, every voter's balance
   * grows by its share and the treasury's by its part, the supply grows by both, and only the burn
   * share is recorded as burned.
   */
  lemma {:induction false} FittingDistribution(p: Params, b: Bank, fee: Fee, voters: seq<Address>)
    requires NoDup(voters) && fee.total > 0
    requires Holdings(b) + fee.reward + fee.treasury < U64_MOD && b.totalSupply + fee.reward + fee.treasury < U64_MOD
    ensures var r := DistributeFees(p, b, fee, voters);
      && (r.ok <==> VoterStake(b, voters) > 0 && b.totalSupply + fee.reward + fee.treasury <= p.maxSupply)
      && (!r.ok ==> r.bank == b)
      && (r.ok ==>
            && PaidTotal(r.payouts) == fee.reward
            && Holdings(r.bank) == Holdings(b) + fee.reward + fee.treasury
            && r.bank.totalSupply == b.totalSupply + fee.reward + fee.treasury
            && r.bank.totalBurned == Add64(b.totalBurned, fee.burn)
            && r.bank.validators == b.validators
            && Credited(b, r.bank, PaidVoters(b, voters), PaidShares(b, fee, voters), p.treasury, fee.treasury))
  {
    hide MintAll, Shares, StakeList, VoterStake, Holdings, MintTokens, RecordBurn, ActiveVoters, SumSeq;
    if VoterStake(b, voters) > 0 && b.totalSupply + fee.reward + fee.treasury <= p.maxSupply {
      VotersPaid(p, b, fee, voters);
      FinishExact(p, MintAll(p, b, PaidVoters(b, voters), PaidShares(b, fee, voters)), fee);
    }
  }

  lemma {:induction false} StakesHeld(b: Bank)
    ensures Sum(Stakes(b)) <= Holdings(b)
  {
    SumNonNegative(Balances(b));
  }

  /** The payout loop under the cap: every voter is paid and the payouts add up to the reward. */
  lemma {:induction false} VotersPaid(p: Params, b: Bank, fee: Fee, voters: seq<Address>)
    requires NoDup(voters) && VoterStake(b, voters) > 0
    requires Holdings(b) + fee.reward < U64_MOD && b.totalSupply + fee.reward <= p.maxSupply
    ensures var list := PaidVoters(b, voters); var shares := PaidShares(b, fee, voters);
      var r := MintAll(p, b, list, shares);
      && r.ok && Minted(b, r.bank, fee.reward) && PaidTotal(r.payouts) == fee.reward
      && (forall i :: 0 <= i < |list| ==> AccountOf(r.bank, list[i]).balance == AccountOf(b, list[i]).balance + shares[i])
      && (forall a :: a !in list ==> AccountOf(r.bank, a) == AccountOf(b, a))
  {
    hide MintAll, Shares, VoterStake, ActiveVoters, PaidTotal, NoDup, Holdings, Stakes, StakeOf, Minted, AccountOf;
    var list := PaidVoters(b, voters);
    var stakes := StakeList(b, list);
    StakesHeld(b);
    ActiveStake(b, voters);
    assert stakes != [];
    SharesExact(stakes, fee.reward, VoterStake(b, voters), 0);
    SortedNoDup(list);
    MintAllExact(p, b, list, PaidShares(b, fee, voters));
  }

  /** The treasury mint under the cap succeeds, and the burn record leaves the equation alone. */
  lemma {:induction false} FinishExact(p: Params, paid: Paid, fee: Fee)
    requires paid.ok && Holdings(paid.bank) + fee.treasury < U64_MOD && paid.bank.totalSupply + fee.treasury <= p.maxSupply
    ensures var r := FinishDistribution(p, paid, fee);
      && r.ok && r.payouts == paid.payouts
      && Holdings(r.bank) == Holdings(paid.bank) + fee.treasury
      && r.bank.totalSupply == paid.bank.totalSupply + fee.treasury
      && r.bank.totalBurned == Add64(paid.bank.totalBurned, fee.burn)
      && r.bank.validators == paid.bank.validators
      && forall a :: AccountOf(r.bank, a).balance == AccountOf(paid.bank, a).balance + if a == p.treasury then fee.treasury else 0
  {
    hide Holdings, MintTokens;
    if fee.treasury > 0 {
      MintExact(p, paid.bank, p.treasury, fee.treasury);
      BurnHoldings(MintTokens(p, paid.bank, p.treasury, fee.treasury).value, fee.burn);
    } else {
      BurnHoldings(paid.bank, fee.burn);
    }
  }

  // ---------------------------------------------------------------- genesis

  ghost function InitialTotal(balances: seq<GenesisBalance>): nat {
    if balances == [] then 0 else balances[0].balance + InitialTotal(balances[1..])
  }

  /** Balances that a later genesis entry for the same address replaces. */
  ghost function Overwritten(b: Bank, balances: seq<GenesisBalance>): nat
    decreases |balances|
  {
    if balances == [] then 0
    else
      var g := balances[0];
      AccountOf(b, g.address).balance + Overwritten(PutAccount(b, g.address, Account(g.balance, 0)), balances[1..])
  }

  ghost predicate NothingReplaced(balances: seq<GenesisBalance>) {
    forall i, j :: 0 <= i < j < |balances| && balances[i].address == balances[j].address ==> balances[i].balance == 0
  }

  lemma {:induction false} OverwrittenZero(b: Bank, balances: seq<GenesisBalance>)
    ensures Overwritten(b, balances) == 0 <==>
      NothingReplaced(balances) && forall i :: 0 <= i < |balances| ==> AccountOf(b, balances[i].address).balance == 0
    decreases |balances|
  {
    if balances != [] {
      var g, rest := balances[0], balances[1..];
      var b' := PutAccount(b, g.address, Account(g.balance, 0));
      OverwrittenZero(b', rest);
      assert NothingReplaced(balances) <==>
        NothingReplaced(rest) && forall i :: 0 <= i < |rest| && rest[i].address == g.address ==> g.balance == 0 by {
        assert forall i :: 0 <= i < |rest| ==> rest[i] == balances[i + 1];
        assert forall i :: 0 < i < |balances| ==> balances[i] == rest[i - 1];
      }
      assert forall i :: 0 < i < |balances| ==> balances[i] == rest[i - 1];
      assert forall i :: 0 <= i < |rest| ==> rest[i] == balances[i + 1];
    }
  }

  /** Funding adds the balances to the supply modulo the word size, and to the holdings all but what it overwrote. */
  lemma {:induction false} FundGap(b: Bank, balances: seq<GenesisBalance>)
    ensures var f := Fund(b, balances);
      && f.totalSupply == (b.totalSupply + InitialTotal(balances)) % U64_MOD
      && Holdings(f) == Holdings(b) + InitialTotal(balances) - Overwritten(b, balances)
      && f.validators == b.validators && f.totalBurned == b.totalBurned
    decreases |balances|
  {
    hide Holdings, Add64, AccountOf;
    if balances != [] {
      var g := balances[0];
      var put := PutAccount(b, g.address, Account(g.balance, 0));
      PutAccountHoldings(b, g.address, Account(g.balance, 0));
      var b' := put.(totalSupply := Add64(b.totalSupply, g.balance));
      SupplyNotHeld(put, b'.totalSupply);
      FundGap(b', balances[1..]);
      AddWraps(b.totalSupply, g.balance);
      ModAdd(b.totalSupply + g.balance, InitialTotal(balances[1..]));
      SupplyIrrelevant(put, b', balances[1..]);
    }
  }

  lemma {:induction false} SupplyNotHeld(b: Bank, supply: uint64)
    ensures Holdings(b.(totalSupply := supply)) == Holdings(b)
  {
    var b' := b.(totalSupply := supply);
    assert Balances(b') == Balances(b) && Stakes(b') == Stakes(b);
  }

  lemma {:induction false} SupplyIrrelevant(b: Bank, b': Bank, balances: seq<GenesisBalance>)
    requires b.accounts == b'.accounts
    ensures Overwritten(b, balances) == Overwritten(b', balances)
    decreases |balances|
  {
    if balances != [] {
      var g := balances[0];
      SupplyIrrelevant(PutAccount(b, g.address, Account(g.balance, 0)), PutAccount(b', g.address, Account(g.balance, 0)), balances[1..]);
    }
  }

  lemma {:induction false} NothingLost(balances: seq<GenesisBalance>)
    ensures Overwritten(EmptyBank(), balances) == 0 <==> NothingReplaced(balances)
  {
    OverwrittenZero(EmptyBank(), balances);
  }

  lemma {:induction false} EmptyHoldings(b: Bank)
    requires b.accounts == map[] && b.validators == map[]
    ensures Holdings(b) == 0
  {
    assert Balances(b) == map[] && Stakes(b) == map[];
  }

  /** What a genesis file leaves: the books as far as they wrapped and were overwritten. */
  lemma {:induction false} GenesisBooks(balances: seq<GenesisBalance>)
    ensures var b := Genesis(balances).bank;
      && b.totalSupply == InitialTotal(balances) % U64_MOD
      && Holdings(b) == InitialTotal(balances) - Overwritten(EmptyBank(), balances)
      && b.validators == map[] && b.totalBurned == 0
  {
    hide Fund, Holdings, Overwritten, InitialTotal;
    EmptyHoldings(EmptyBank());
    FundGap(EmptyBank(), balances);
  }

  /**
   * The genesis state is conserved exactly when the overwritten balances are the whole words that
   * the supply lost to wrap-around and the rest fits under the cap.  For balances that sum to less
   * than a word: exactly when no entry replaces a non-zero balance and the sum fits under the cap.
   */
  lemma {:induction false} GenesisConservedIff(p: Params, balances: seq<GenesisBalance>)
    ensures Conserved(p, Genesis(balances).bank) <==>
      var total := InitialTotal(balances);
      Overwritten(EmptyBank(), balances) == total - total % U64_MOD && total % U64_MOD <= p.maxSupply
    ensures InitialTotal(balances) < U64_MOD ==>
      (Conserved(p, Genesis(balances).bank) <==> NothingReplaced(balances) && InitialTotal(balances) <= p.maxSupply)
  {
    hide Genesis, Holdings, Overwritten, InitialTotal, NothingReplaced;
    GenesisBooks(balances);
    NothingLost(balances);
  }

  const TWICE_LISTED := [GenesisBalance(1, 5), GenesisBalance(1, 7)]

  /** An address listed twice: the supply counts both balances and the account holds the second. */
  lemma {:induction false} TwiceListedExample()
    ensures var b := Genesis(TWICE_LISTED).bank; b.totalSupply == 12 && Holdings(b) == 7
    ensures forall p: Params :: !Conserved(p, Genesis(TWICE_LISTED).bank)
  {
    hide Genesis, Holdings;
    var b := EmptyBank();
    var b1 := PutAccount(b, 1, Account(5, 0));
    var rest := TWICE_LISTED[1..];
    assert rest == [GenesisBalance(1, 7)] && rest[1..] == [];
    assert InitialTotal(rest[1..]) == 0;
    assert InitialTotal(rest) == 7;
    assert InitialTotal(TWICE_LISTED) == 5 + InitialTotal(rest);
    assert Overwritten(PutAccount(b1, 1, Account(7, 0)), rest[1..]) == 0;
    assert Overwritten(b1, rest) == 5;
    assert Overwritten(b, TWICE_LISTED) == 0 + Overwritten(b1, rest);
    GenesisBooks(TWICE_LISTED);
  }
}
