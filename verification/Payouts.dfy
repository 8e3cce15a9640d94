/**
 * What a fee distribution does in every case.  The cap is checked once for the whole fee and again
 * by every mint; when the first check wraps, the mints can stop half-way.  The position where they
 * stop decides the outcome, the balances, the drift of the supply, and what is minted unannounced.
 */
module Payouts {
  import opened Numbers
  import opened Collections
  import opened Rules
  import opened ChainState
  import opened Fees
  import opened Supply

  // ---------------------------------------------------------------- where the mints stop

  /** The supply after the first k shares, as the counter holds it. */
  ghost function Running(b: Bank, shares: seq<uint64>, k: nat): (r: uint64)
    requires k <= |shares|
  {
    (b.totalSupply + SumSeq(shares[..k])) % U64_MOD
  }

  /** The mint of share k passes the cap check; a share of zero is not minted. */
  ghost predicate Affordable(p: Params, b: Bank, shares: seq<uint64>, k: nat)
    requires k < |shares|
  {
    shares[k] == 0 || Running(b, shares, k + 1) <= p.maxSupply
  }

  ghost predicate StopsAt(p: Params, b: Bank, shares: seq<uint64>, j: nat) {
    && j <= |shares| && (forall k: nat :: k < j ==> Affordable(p, b, shares, k))
    && (j < |shares| ==> !Affordable(p, b, shares, j))
  }

  /** The first share that is not affordable, or their number. */
  ghost function Stop(p: Params, b: Bank, shares: seq<uint64>): (j: nat)
    ensures StopsAt(p, b, shares, j)
  {
    StopFrom(p, b, shares, 0)
  }

  ghost function StopFrom(p: Params, b: Bank, shares: seq<uint64>, k: nat): (j: nat)
    requires k <= |shares| && forall i: nat :: i < k ==> Affordable(p, b, shares, i)
    ensures StopsAt(p, b, shares, j)
    decreases |shares| - k
  {
    if k < |shares| && Affordable(p, b, shares, k) then StopFrom(p, b, shares, k + 1) else k
  }

  /** What paying the first shares does to the accounts: each listed one is credited, with wrap-around, and no other. */
  ghost predicate Credits(b: Bank, b': Bank, list: seq<Address>, shares: seq<uint64>, j: nat)
    requires j <= |list| == |shares|
  {
    && (forall i :: 0 <= i < j ==> AccountOf(b', list[i]).balance == Add64(AccountOf(b, list[i]).balance, shares[i]))
    && (forall a :: a !in list[..j] ==> AccountOf(b', a) == AccountOf(b, a))
  }

  /** How many of the first j credits wrap a balance. */
  ghost function BalanceWraps(b: Bank, list: seq<Address>, shares: seq<uint64>, j: nat): nat
    requires j <= |list| == |shares|
  {
    if j == 0 then 0 else BalanceWraps(b, list, shares, j - 1) + Wraps(AccountOf(b, list[j - 1]).balance, shares[j - 1])
  }

  /** Taking off the first share shifts the running supplies by one. */
  lemma {:induction false} RunningTail(b: Bank, b': Bank, shares: seq<uint64>, k: nat)
    requires shares != [] && k < |shares| && b'.totalSupply == Add64(b.totalSupply, shares[0])
    ensures Running(b', shares[1..], k) == Running(b, shares, k + 1)
  {
    var tail := shares[1..];
    assert shares[..k + 1] == [shares[0]] + tail[..k];
    SumSeqConcat([shares[0]], tail[..k]);
    assert SumSeq([shares[0]]) == shares[0] by { assert [shares[0]][1..] == []; }
    AddWraps(b.totalSupply, shares[0]);
    ModAdd(b.totalSupply + shares[0], SumSeq(tail[..k]));
  }

  lemma {:induction false} StopsTail(p: Params, b: Bank, b': Bank, shares: seq<uint64>, j: nat)
    requires shares != [] && j > 0 && StopsAt(p, b, shares, j) && b'.totalSupply == Add64(b.totalSupply, shares[0])
    ensures StopsAt(p, b', shares[1..], j - 1)
  {
    hide Running;
    forall k: nat | k + 1 < |shares| ensures Affordable(p, b', shares[1..], k) == Affordable(p, b, shares, k + 1) {
      RunningTail(b, b', shares, k + 1);
    }
  }

  lemma {:induction false} RunningOne(b: Bank, shares: seq<uint64>)
    requires shares != []
    ensures Running(b, shares, 1) == Add64(b.totalSupply, shares[0]) && Running(b, shares, 0) == b.totalSupply
  {
    assert shares[..1] == [shares[0]] && shares[..0] == [];
    assert SumSeq([shares[0]]) == shares[0] by { assert [shares[0]][1..] == []; }
    AddWraps(b.totalSupply, shares[0]);
  }

  lemma {:induction false} CreditsTail(b: Bank, b1: Bank, b2: Bank, list: seq<Address>, shares: seq<uint64>, j: nat)
    requires 0 < j <= |list| == |shares| && NoDup(list)
    requires Credits(b, b1, list, shares, 1) && Credits(b1, b2, list[1..], shares[1..], j - 1)
    ensures Credits(b, b2, list, shares, j)
  {
    var tail, rest := list[1..], shares[1..];
    assert list[..j] == [list[0]] + tail[..j - 1] && list[..1] == [list[0]];
    assert list[0] !in tail;
    assert forall i :: 0 < i < j ==> list[i] == tail[i - 1] && shares[i] == rest[i - 1] && list[i] != list[0];
  }

  lemma {:induction false} WrapsTail(b: Bank, b1: Bank, list: seq<Address>, shares: seq<uint64>, j: nat)
    requires 0 < j <= |list| == |shares| && NoDup(list) && Credits(b, b1, list, shares, 1)
    ensures BalanceWraps(b, list, shares, j) ==
      Wraps(AccountOf(b, list[0]).balance, shares[0]) + BalanceWraps(b1, list[1..], shares[1..], j - 1)
    decreases j
  {
    if j > 1 {
      WrapsTail(b, b1, list, shares, j - 1);
      assert list[..1] == [list[0]];
      assert list[j - 1] == list[1..][j - 2] && shares[j - 1] == shares[1..][j - 2];
    } else {
      assert BalanceWraps(b, list, shares, 0) == 0 == BalanceWraps(b1, list[1..], shares[1..], 0);
    }
  }

  /** One mint, or none for a share of zero. */
  lemma {:induction false} FirstMint(p: Params, b: Bank, list: seq<Address>, shares: seq<uint64>)
    requires |list| == |shares| > 0 && shares[0] != 0
    ensures MintTokens(p, b, list[0], shares[0]).Ok? <==> Affordable(p, b, shares, 0)
    ensures MintTokens(p, b, list[0], shares[0]).Ok? ==>
      var b1 := MintTokens(p, b, list[0], shares[0]).value;
      && Credits(b, b1, list, shares, 1) && b1.totalSupply == Add64(b.totalSupply, shares[0])
      && b1 == b.(accounts := b1.accounts, totalSupply := b1.totalSupply)
  {
    RunningOne(b, shares);
    assert list[..1] == [list[0]];
  }

  lemma {:induction false} NoCredit(b: Bank, list: seq<Address>, shares: seq<uint64>)
    requires |list| == |shares| > 0 && shares[0] == 0
    ensures Credits(b, b, list, shares, 1) && Add64(b.totalSupply, shares[0]) == b.totalSupply && Wraps(AccountOf(b, list[0]).balance, 0) == 0
  {}

  /** The mints of a list reach exactly the stop: all shares before it are paid, and nothing else happens. */
  lemma {:induction false} MintAllStops(p: Params, b: Bank, list: seq<Address>, shares: seq<uint64>, j: nat)
    requires |list| == |shares| && NoDup(list) && StopsAt(p, b, shares, j)
    ensures var r := MintAll(p, b, list, shares);
      && (r.ok <==> j == |shares|)
      && r.bank == b.(accounts := r.bank.accounts, totalSupply := Running(b, shares, j))
      && Credits(b, r.bank, list, shares, j)
    decreases |list|
  {
    hide MintTokens, Running, StopsAt, Credits, Affordable, NoDup;
    if j == 0 {
      NothingMinted(p, b, list, shares);
    } else {
      StopWithin(p, b, shares, j);
      TailNoDup(list);
      var b1 := b;
      if shares[0] == 0 {
        NoCredit(b, list, shares);
      } else {
        FirstMint(p, b, list, shares);
        FirstAffordable(p, b, shares, j);
        b1 := MintTokens(p, b, list[0], shares[0]).value;
      }
      StopsTail(p, b, b1, shares, j);
      MintAllStops(p, b1, list[1..], shares[1..], j - 1);
      RunningTail(b, b1, shares, j - 1);
      CreditsTail(b, b1, MintAll(p, b1, list[1..], shares[1..]).bank, list, shares, j);
    }
  }

  lemma StopWithin(p: Params, b: Bank, shares: seq<uint64>, j: nat)
    requires StopsAt(p, b, shares, j)
    ensures j <= |shares|
  {}

  lemma FirstAffordable(p: Params, b: Bank, shares: seq<uint64>, j: nat)
    requires StopsAt(p, b, shares, j) && j > 0
    ensures j <= |shares| && Affordable(p, b, shares, 0)
  {}

  lemma {:induction false} NothingMinted(p: Params, b: Bank, list: seq<Address>, shares: seq<uint64>)
    requires |list| == |shares| && StopsAt(p, b, shares, 0)
    ensures var r := MintAll(p, b, list, shares);
      r.bank == b && (r.ok <==> shares == []) && Running(b, shares, 0) == b.totalSupply && Credits(b, b, list, shares, 0)
  {
    hide MintTokens;
    assert shares[..0] == [];
    if shares != [] {
      FirstMint(p, b, list, shares);
    }
  }

  /** If nothing before the stop is to be paid, nothing changes. */
  lemma {:induction false} NothingDue(p: Params, b: Bank, list: seq<Address>, shares: seq<uint64>, j: nat)
    requires |list| == |shares| && StopsAt(p, b, shares, j) && forall i :: 0 <= i < j ==> shares[i] == 0
    ensures MintAll(p, b, list, shares).bank == b
    decreases |list|
  {
    hide MintTokens, Running, StopsAt, Affordable;
    if j == 0 {
      NothingMinted(p, b, list, shares);
    } else {
      StopWithin(p, b, shares, j);
      StopsTail(p, b, b, shares, j);
      NothingDue(p, b, list[1..], shares[1..], j - 1);
    }
  }

  lemma {:induction false} PaidAll(p: Params, b: Bank, list: seq<Address>, shares: seq<uint64>)
    requires |list| == |shares| && MintAll(p, b, list, shares).ok
    ensures PaidTotal(MintAll(p, b, list, shares).payouts) == SumSeq(shares)
    decreases |list|
  {
    hide MintTokens;
    if list != [] {
      if shares[0] == 0 {
        PaidAll(p, b, list[1..], shares[1..]);
      } else {
        PaidAll(p, MintTokens(p, b, list[0], shares[0]).value, list[1..], shares[1..]);
      }
    }
  }

  // ---------------------------------------------------------------- the whole distribution

  /** Whatever wraps, the shares add up to the reward modulo the word size. */
  lemma {:induction false} SharesModular(stakes: seq<uint64>, reward: uint64, total: uint64, distributed: uint64)
    requires stakes != [] && total > 0
    ensures (distributed + SumSeq(Shares(stakes, reward, total, distributed))) % U64_MOD == reward
    decreases |stakes|
  {
    hide ShareOf;
    var share := NextShare(stakes, reward, total, distributed);
    var rest := Shares(stakes[1..], reward, total, Add64(distributed, share));
    assert Shares(stakes, reward, total, distributed) == [share] + rest;
    assert ([share] + rest)[1..] == rest;
    if |stakes| == 1 {
      LastTakesRest(stakes[0], reward, total, distributed);
      assert rest == [];
    } else {
      SharesModular(stakes[1..], reward, total, Add64(distributed, share));
      AddWraps(distributed, share);
      ModAdd(distributed + share, SumSeq(rest));
    }
  }

  lemma LastTakesRest(stake: uint64, reward: uint64, total: uint64, distributed: uint64)
    requires total > 0
    ensures (distributed + ShareOf(true, stake, reward, total, distributed)) % U64_MOD == reward
  {}

  /** The checks before the first mint: some active stake, and the whole fee under the cap as the counter would hold it. */
  ghost predicate Passes(p: Params, b: Bank, fee: Fee, voters: seq<Address>) {
    && fee.total > 0 && VoterStake(b, voters) > 0
    && Add64(b.totalSupply, Add64(fee.reward, fee.treasury)) <= p.maxSupply
  }

  /** The voter at which the mints stop, or the number of voters. */
  ghost function StopOf(p: Params, b: Bank, fee: Fee, voters: seq<Address>): (j: nat)
    requires VoterStake(b, voters) > 0
    ensures StopsAt(p, b, PaidShares(b, fee, voters), j)
  {
    Stop(p, b, PaidShares(b, fee, voters))
  }

  lemma {:induction false} SomebodyActive(b: Bank, voters: seq<Address>)
    requires VoterStake(b, voters) > 0
    ensures PaidVoters(b, voters) != []
    decreases |voters|
  {
    if voters != [] {
      var n := |voters| - 1;
      if VoterStake(b, voters[..n]) > 0 {
        SomebodyActive(b, voters[..n]);
        var a := PaidVoters(b, voters[..n])[0];
        assert a in ActiveVoters(b, voters[..n]);
        assert a in ActiveVoters(b, voters);
      } else {
        assert voters[n] in ActiveVoters(b, voters);
      }
    }
  }

  /** All voters' shares together are the reward, modulo the word size. */
  lemma {:induction false} AllRunning(b: Bank, fee: Fee, voters: seq<Address>)
    requires VoterStake(b, voters) > 0
    ensures var shares := PaidShares(b, fee, voters);
      && SumSeq(shares) % U64_MOD == fee.reward && Running(b, shares, |shares|) == (b.totalSupply + fee.reward) % U64_MOD
  {
    hide Shares, VoterStake, SumSeq, PaidVoters;
    SomebodyActive(b, voters);
    var shares := PaidShares(b, fee, voters);
    SharesModular(StakeList(b, PaidVoters(b, voters)), fee.reward, VoterStake(b, voters), 0);
    assert shares[..|shares|] == shares;
    ModAdd(SumSeq(shares), b.totalSupply);
  }

  /** After a full payout the treasury mint meets exactly the supply that the first check computed, so it cannot fail. */
  lemma {:induction false} TreasuryAffordable(p: Params, b: Bank, fee: Fee, supply: uint64)
    requires Add64(b.totalSupply, Add64(fee.reward, fee.treasury)) <= p.maxSupply
    requires supply == (b.totalSupply + fee.reward) % U64_MOD
    ensures Add64(supply, fee.treasury) == Add64(b.totalSupply, Add64(fee.reward, fee.treasury)) <= p.maxSupply
    ensures Add64(supply, fee.treasury) == (b.totalSupply + fee.reward + fee.treasury) % U64_MOD
  {}

  /** A later balance is an earlier one with the treasury's part. */
  ghost predicate TreasuryCredited(b: Bank, b': Bank, treasury: Address, part: uint64) {
    forall a :: AccountOf(b', a).balance == if a == treasury then Add64(AccountOf(b, a).balance, part) else AccountOf(b, a).balance
  }

  lemma {:induction false} FinishAffordable(p: Params, paid: Paid, fee: Fee)
    requires paid.ok && Add64(paid.bank.totalSupply, fee.treasury) <= p.maxSupply
    ensures var r := FinishDistribution(p, paid, fee);
      && r.ok && r.payouts == paid.payouts && TreasuryCredited(paid.bank, r.bank, p.treasury, fee.treasury)
      && r.bank == paid.bank.(accounts := r.bank.accounts, totalSupply := Add64(paid.bank.totalSupply, fee.treasury),
                              totalBurned := Add64(paid.bank.totalBurned, fee.burn))
  {}

  /** The voters' mints alone. */
  ghost function VotersOnly(p: Params, b: Bank, fee: Fee, voters: seq<Address>): Paid
    requires VoterStake(b, voters) > 0
  {
    MintAll(p, b, PaidVoters(b, voters), PaidShares(b, fee, voters))
  }

  /** The voters before the stop are credited and nothing else is. */
  lemma {:induction false} VotersStop(p: Params, b: Bank, fee: Fee, voters: seq<Address>)
    requires VoterStake(b, voters) > 0
    ensures var list, shares, j := PaidVoters(b, voters), PaidShares(b, fee, voters), StopOf(p, b, fee, voters);
      var r := VotersOnly(p, b, fee, voters);
      && j <= |shares| && (r.ok <==> j == |shares|) && Credits(b, r.bank, list, shares, j)
      && r.bank == b.(accounts := r.bank.accounts, totalSupply := Running(b, shares, j))
  {
    hide MintAll, Shares, Credits, Running, VoterStake, NoDup;
    SortedNoDup(PaidVoters(b, voters));
    MintAllStops(p, b, PaidVoters(b, voters), PaidShares(b, fee, voters), StopOf(p, b, fee, voters));
  }

  /**
   * What a distribution does, whatever the bank, the fee and the voters.  Without the first checks
   * nothing happens.  Otherwise the voters before the stop are paid their shares; if everybody is,
   * so is the treasury, the supply grows by reward and treasury part and the burn share is recorded;
   * if not, the distribution fails and what was paid stays paid.
   */
  lemma {:induction false} DistributionIff(p: Params, b: Bank, fee: Fee, voters: seq<Address>)
    ensures var r := DistributeFees(p, b, fee, voters);
      && (!Passes(p, b, fee, voters) ==> r.bank == b && (r.ok <==> fee.total == 0))
      && (Passes(p, b, fee, voters) ==>
            var list, shares, j := PaidVoters(b, voters), PaidShares(b, fee, voters), StopOf(p, b, fee, voters);
            var paid := VotersOnly(p, b, fee, voters).bank;
            && (r.ok <==> j == |shares|) && j <= |shares| && Credits(b, paid, list, shares, j)
            && (!r.ok ==> r.bank == paid == b.(accounts := paid.accounts, totalSupply := Running(b, shares, j)))
            && (r.ok ==> PaidTotal(r.payouts) == SumSeq(shares) && TreasuryCredited(paid, r.bank, p.treasury, fee.treasury)
                         && r.bank == b.(accounts := r.bank.accounts,
                                         totalSupply := (b.totalSupply + fee.reward + fee.treasury) % U64_MOD,
                                         totalBurned := Add64(b.totalBurned, fee.burn))))
  {
    hide MintAll, Shares, VoterStake, Credits, Running, TreasuryCredited, SumSeq, PaidVoters, StopOf, FinishDistribution, PaidTotal;
    if Passes(p, b, fee, voters) {
      var paid := VotersOnly(p, b, fee, voters);
      VotersStop(p, b, fee, voters);
      DistributesBy(p, b, fee, voters);
      if paid.ok {
        PaidAll(p, b, PaidVoters(b, voters), PaidShares(b, fee, voters));
        AllRunning(b, fee, voters);
        TreasuryAffordable(p, b, fee, paid.bank.totalSupply);
        FinishAffordable(p, paid, fee);
      } else {
        FinishFailed(p, paid, fee);
      }
    }
  }

  lemma {:induction false} DistributesBy(p: Params, b: Bank, fee: Fee, voters: seq<Address>)
    requires Passes(p, b, fee, voters)
    ensures DistributeFees(p, b, fee, voters) == FinishDistribution(p, VotersOnly(p, b, fee, voters), fee)
  {
    hide MintAll, Shares, VoterStake, FinishDistribution;
  }

  lemma FinishFailed(p: Params, paid: Paid, fee: Fee)
    requires !paid.ok
    ensures !FinishDistribution(p, paid, fee).ok && FinishDistribution(p, paid, fee).bank == paid.bank
  {}

  // ---------------------------------------------------------------- paid half-way

  /** The distribution fails after it has paid somebody. */
  ghost predicate Halfway(p: Params, b: Bank, fee: Fee, voters: seq<Address>) {
    var r := DistributeFees(p, b, fee, voters);
    !r.ok && r.bank != b
  }

  /**
   * A distribution is all or nothing exactly unless it passes the first checks, a voter's share
   * later takes the running supply over the cap, and a voter before that has something to get.
   */
  lemma {:induction false} HalfwayIff(p: Params, b: Bank, fee: Fee, voters: seq<Address>)
    ensures Halfway(p, b, fee, voters) <==>
      && Passes(p, b, fee, voters)
      && var shares, j := PaidShares(b, fee, voters), StopOf(p, b, fee, voters);
         j < |shares| && exists i :: 0 <= i < j && shares[i] != 0
  {
    hide DistributeFees, Shares, VoterStake, Running, StopOf, PaidVoters, MintAll, TreasuryCredited, SumSeq, PaidTotal;
    DistributionIff(p, b, fee, voters);
    if Passes(p, b, fee, voters) {
      var list, shares, j := PaidVoters(b, voters), PaidShares(b, fee, voters), StopOf(p, b, fee, voters);
      if i :| 0 <= i < j && shares[i] != 0 {
        assert AccountOf(VotersOnly(p, b, fee, voters).bank, list[i]).balance != AccountOf(b, list[i]).balance;
      } else {
        NothingDue(p, b, list, shares, j);
      }
    }
  }

  /** The first share that is not zero. */
  ghost function FirstShare(shares: seq<uint64>): uint64 {
    if shares == [] then 0 else if shares[0] != 0 then shares[0] else FirstShare(shares[1..])
  }

  lemma {:induction false} FirstShareAt(shares: seq<uint64>) returns (i: nat)
    ensures i <= |shares| && forall k :: 0 <= k < i ==> shares[k] == 0
    ensures i < |shares| ==> shares[i] != 0 && FirstShare(shares) == shares[i] && SumSeq(shares[..i + 1]) == FirstShare(shares)
    ensures i == |shares| ==> SumSeq(shares) == 0 == FirstShare(shares)
  {
    if shares == [] {
      i := 0;
    } else if shares[0] != 0 {
      i := 0;
      assert shares[..1] == [shares[0]] && [shares[0]][1..] == [];
    } else {
      var k := FirstShareAt(shares[1..]);
      i := k + 1;
      if k < |shares| - 1 {
        assert shares[..i + 1][1..] == shares[1..][..k + 1];
      }
    }
  }

  lemma {:induction false} PrefixBelow(shares: seq<uint64>, k: nat)
    requires k <= |shares|
    ensures SumSeq(shares[..k]) <= SumSeq(shares)
  {
    SumSeqConcat(shares[..k], shares[k..]);
    assert shares == shares[..k] + shares[k..];
  }

  /** Without wrap-around the running supply is the plain sum. */
  lemma {:induction false} RunningPlain(b: Bank, shares: seq<uint64>, k: nat)
    requires k <= |shares| && b.totalSupply + SumSeq(shares) < U64_MOD
    ensures Running(b, shares, k) == b.totalSupply + SumSeq(shares[..k]) <= b.totalSupply + SumSeq(shares)
  {
    PrefixBelow(shares, k);
  }

  /** While every share is affordable the running supply stays under the cap. */
  lemma {:induction false} AffordedBelow(p: Params, b: Bank, shares: seq<uint64>, k: nat)
    requires k <= |shares| && b.totalSupply <= p.maxSupply && b.totalSupply + SumSeq(shares) < U64_MOD
    requires forall i: nat :: i < k ==> Affordable(p, b, shares, i)
    ensures b.totalSupply + SumSeq(shares[..k]) <= p.maxSupply
    decreases k
  {
    if k == 0 {
      assert shares[..0] == [];
    } else {
      AffordedBelow(p, b, shares, k - 1);
      RunningPlain(b, shares, k);
      assert Affordable(p, b, shares, k - 1);
      assert shares[..k] == shares[..k - 1] + [shares[k - 1]];
      SumSeqConcat(shares[..k - 1], [shares[k - 1]]);
      assert SumSeq([shares[k - 1]]) == shares[k - 1] by { assert [shares[k - 1]][1..] == []; }
    }
  }

  lemma {:induction false} StopsPlain(p: Params, b: Bank, shares: seq<uint64>, j: nat)
    requires StopsAt(p, b, shares, j) && b.totalSupply <= p.maxSupply && b.totalSupply + SumSeq(shares) < U64_MOD
    ensures j < |shares| <==> b.totalSupply + SumSeq(shares) > p.maxSupply
    ensures (exists i :: 0 <= i < j && shares[i] != 0) <==> FirstShare(shares) != 0 && b.totalSupply + FirstShare(shares) <= p.maxSupply
  {
    hide SumSeq, Running, FirstShare;
    if j == |shares| {
      AffordedBelow(p, b, shares, j);
      assert shares[..j] == shares;
    } else {
      RunningPlain(b, shares, j + 1);
    }
    var i := FirstShareAt(shares);
    if i < |shares| {
      RunningPlain(b, shares, i + 1);
      assert Affordable(p, b, shares, i) <==> b.totalSupply + FirstShare(shares) <= p.maxSupply;
      assert j <= i ==> forall k :: 0 <= k < j ==> shares[k] == 0;
    }
  }

  /** The shares of distinct voters whose stakes fit the word add up to the reward. */
  lemma {:induction false} SharesWhole(b: Bank, fee: Fee, voters: seq<Address>)
    requires NoDup(voters) && Sum(Stakes(b)) < U64_MOD && VoterStake(b, voters) > 0
    ensures SumSeq(PaidShares(b, fee, voters)) == fee.reward
  {
    hide Shares, VoterStake, Stakes;
    SomebodyActive(b, voters);
    ActiveStake(b, voters);
    SharesExact(StakeList(b, PaidVoters(b, voters)), fee.reward, VoterStake(b, voters), 0);
  }

  /** The stake of each listed validator. */
  ghost function StakesHeld(b: Bank, list: seq<Address>): seq<uint64>
    requires forall a :: a in list ==> a in b.validators
  {
    seq(|list|, i requires 0 <= i < |list| => b.validators[list[i]].staked)
  }

  lemma {:induction false} PaidAreActive(b: Bank, voters: seq<Address>)
    ensures Sorted(PaidVoters(b, voters))
    ensures forall a :: a in PaidVoters(b, voters) <==> a in voters && a in b.validators && b.validators[a].active
  {
    hide SortedSeq;
    assert Elements(PaidVoters(b, voters)) == ActiveVoters(b, voters);
    forall a ensures a in PaidVoters(b, voters) <==> a in voters && a in b.validators && b.validators[a].active {
      assert a in PaidVoters(b, voters) <==> a in Elements(PaidVoters(b, voters));
    }
  }

  /**
   * Who gets what of a fee, for distinct voters whose stakes fit the word together: the voters that
   * are active validators, in order of address, each the floor of its part by stake (of the wrapped
   * product, where it wraps), and the last what is left of the reward.
   */
  lemma {:induction false} PaidByStake(b: Bank, fee: Fee, voters: seq<Address>)
    requires NoDup(voters) && Sum(Stakes(b)) < U64_MOD && VoterStake(b, voters) > 0
    ensures var list, shares := PaidVoters(b, voters), PaidShares(b, fee, voters);
      && Sorted(list) && (forall a :: a in list <==> a in voters && a in b.validators && b.validators[a].active)
      && SumSeq(StakesHeld(b, list)) > 0
      && (forall i :: 0 <= i < |list| - 1 ==> shares[i] == (fee.reward * b.validators[list[i]].staked) % U64_MOD / SumSeq(StakesHeld(b, list)))
      && SumSeq(shares) == fee.reward
  {
    hide Shares, VoterStake, Stakes, PaidVoters, SumSeq, Mul64;
    var list := PaidVoters(b, voters);
    PaidAreActive(b, voters);
    assert StakeList(b, list) == StakesHeld(b, list);
    PaidTotalStake(b, voters);
    SharesWhole(b, fee, voters);
    forall i | 0 <= i < |list| - 1
      ensures PaidShares(b, fee, voters)[i] == (fee.reward * b.validators[list[i]].staked) % U64_MOD / VoterStake(b, voters)
    {
      SharesBeforeLast(StakeList(b, list), fee.reward, VoterStake(b, voters), 0, i);
      MulIs(fee.reward, StakeList(b, list)[i]);
    }
  }

  lemma {:induction false} PaidTotalStake(b: Bank, voters: seq<Address>)
    requires NoDup(voters) && Sum(Stakes(b)) < U64_MOD
    ensures SumSeq(StakeList(b, PaidVoters(b, voters))) == VoterStake(b, voters)
  {
    hide VoterStake, Stakes, SumSeq, StakeList;
    ActiveStake(b, voters);
  }

  /**
   * For distinct voters with active stake, while supply and reward fit the word: a fee is paid
   * half-way exactly when the first check passes although the reward does not fit under the cap,
   * and the first share that is not zero does.
   */
  lemma {:induction false} PlainHalfwayIff(p: Params, b: Bank, fee: Fee, voters: seq<Address>)
    requires NoDup(voters) && Sum(Stakes(b)) < U64_MOD && VoterStake(b, voters) > 0
    requires fee.total > 0 && b.totalSupply <= p.maxSupply && b.totalSupply + fee.reward < U64_MOD
    ensures Halfway(p, b, fee, voters) <==>
      && Add64(b.totalSupply, Add64(fee.reward, fee.treasury)) <= p.maxSupply < b.totalSupply + fee.reward
      && b.totalSupply + FirstShare(PaidShares(b, fee, voters)) <= p.maxSupply
  {
    hide Halfway, PaidShares, VoterStake, StopsAt, SumSeq, Stakes;
    var shares := PaidShares(b, fee, voters);
    HalfwayIff(p, b, fee, voters);
    SharesWhole(b, fee, voters);
    StopsPlain(p, b, shares, StopOf(p, b, fee, voters));
    var i := FirstShareAt(shares);
  }

  /** With sound parameters no settlement fee is paid half-way, as long as all stakes together fit the word. */
  lemma {:induction false} SoundFeesWhole(p: Params, b: Bank, amount: uint64, voters: seq<Address>)
    requires SoundParams(p) && NoDup(voters) && Sum(Stakes(b)) < U64_MOD && b.totalSupply <= p.maxSupply
    ensures !Halfway(p, b, CalculateFee(p, 0, amount), voters)
  {
    hide CalculateFee, PaidShares, VoterStake, Stakes, DistributeFees, StopOf;
    var fee := CalculateFee(p, 0, amount);
    FeeSplitSound(p, amount);
    if VoterStake(b, voters) == 0 || fee.total == 0 {
      HalfwayIff(p, b, fee, voters);
    } else {
      PlainHalfwayIff(p, b, fee, voters);
    }
  }

  // ---------------------------------------------------------------- what is minted without an event

  /** The tokens a failed distribution has minted. */
  ghost function Leaked(p: Params, b: Bank, fee: Fee, voters: seq<Address>): nat {
    if !Passes(p, b, fee, voters) then 0
    else
      var shares, j := PaidShares(b, fee, voters), StopOf(p, b, fee, voters);
      if j < |shares| then SumSeq(shares[..j]) else 0
  }

  /** Whatever happens, the supply moves by reward and treasury part, or by what leaked, modulo the word size. */
  lemma {:induction false} DistributionBooks(p: Params, b: Bank, fee: Fee, voters: seq<Address>)
    ensures var r := DistributeFees(p, b, fee, voters);
      && r.bank.totalSupply == (b.totalSupply + if r.ok && fee.total > 0 then fee.reward + fee.treasury else Leaked(p, b, fee, voters)) % U64_MOD
      && r.bank.totalBurned == (if r.ok && fee.total > 0 then Add64(b.totalBurned, fee.burn) else b.totalBurned)
      && r.bank.validators == b.validators
      && (Halfway(p, b, fee, voters) <==> Leaked(p, b, fee, voters) > 0)
  {
    hide DistributeFees, VoterStake, Credits, TreasuryCredited, MintAll, PaidShares, PaidVoters, StopOf, PaidTotal, Halfway;
    DistributionIff(p, b, fee, voters);
    HalfwayIff(p, b, fee, voters);
    if Passes(p, b, fee, voters) {
      var shares, j := PaidShares(b, fee, voters), StopOf(p, b, fee, voters);
      SumPositive(shares, j);
    }
  }

  lemma {:induction false} SumPositive(shares: seq<uint64>, j: nat)
    requires j <= |shares|
    ensures SumSeq(shares[..j]) > 0 <==> exists i :: 0 <= i < j && shares[i] != 0
    decreases j
  {
    if j > 0 {
      SumPositive(shares, j - 1);
      assert shares[..j] == shares[..j - 1] + [shares[j - 1]];
      SumSeqConcat(shares[..j - 1], [shares[j - 1]]);
      assert SumSeq([shares[j - 1]]) == shares[j - 1] by { assert [shares[j - 1]][1..] == []; }
    }
  }

  // ---------------------------------------------------------------- the drift in closed form

  lemma {:induction false} DivAdd(a: nat, x: uint64)
    ensures (a + x) / U64_MOD == a / U64_MOD + Wraps(a % U64_MOD, x)
  {
    var q, r := a / U64_MOD, a % U64_MOD;
    assert a + x == q * U64_MOD + (r + x);
  }

  /** The mints drift by the words the supply loses minus the balances that wrap. */
  lemma {:induction false} MintAllDriftClosed(p: Params, b: Bank, list: seq<Address>, shares: seq<uint64>, j: nat)
    requires |list| == |shares| && NoDup(list) && StopsAt(p, b, shares, j)
    ensures j <= |shares| && MintAllDrift(p, b, list, shares) == (b.totalSupply + SumSeq(shares[..j])) / U64_MOD - BalanceWraps(b, list, shares, j)
    decreases |list|
  {
    hide MintTokens, StopsAt, Credits, Affordable, NoDup, Running, Add64, Wraps;
    StopWithin(p, b, shares, j);
    if j == 0 {
      NoDrift(p, b, list, shares);
    } else {
      TailNoDup(list);
      var b1 := b;
      if shares[0] == 0 {
        NoCredit(b, list, shares);
      } else {
        FirstMint(p, b, list, shares);
        FirstAffordable(p, b, shares, j);
        b1 := MintTokens(p, b, list[0], shares[0]).value;
      }
      StopsTail(p, b, b1, shares, j);
      MintAllDriftClosed(p, b1, list[1..], shares[1..], j - 1);
      WrapsTail(b, b1, list, shares, j);
      assert shares[..j][1..] == shares[1..][..j - 1];
      SupplyWraps(b.totalSupply, shares[0], SumSeq(shares[1..][..j - 1]));
    }
  }

  lemma {:induction false} SupplyWraps(s: uint64, x: uint64, rest: nat)
    ensures (s + x + rest) / U64_MOD == Wraps(s, x) + (Add64(s, x) + rest) / U64_MOD
  {
    var t := Add64(s, x) + rest;
    assert s + x + rest == t + Wraps(s, x) * U64_MOD;
  }

  lemma {:induction false} NoDrift(p: Params, b: Bank, list: seq<Address>, shares: seq<uint64>)
    requires |list| == |shares| && StopsAt(p, b, shares, 0)
    ensures MintAllDrift(p, b, list, shares) == 0 == BalanceWraps(b, list, shares, 0) && SumSeq(shares[..0]) == 0
  {
    hide MintTokens;
    if shares != [] {
      FirstMint(p, b, list, shares);
    }
  }

  /**
   * The drift of a distribution that passes the first checks: how often the supply wraps under what
   * is minted, minus how many receivers' balances do.
   */
  lemma {:induction false} DriftClosed(p: Params, b: Bank, fee: Fee, voters: seq<Address>)
    requires Passes(p, b, fee, voters)
    ensures var list, shares, j := PaidVoters(b, voters), PaidShares(b, fee, voters), StopOf(p, b, fee, voters);
      && j <= |shares|
      && DistributionDrift(p, b, fee, voters) ==
         if j < |shares| then (b.totalSupply + SumSeq(shares[..j])) / U64_MOD - BalanceWraps(b, list, shares, j)
         else (b.totalSupply + SumSeq(shares) + fee.treasury) / U64_MOD - BalanceWraps(b, list, shares, j)
              - Wraps(AccountOf(VotersOnly(p, b, fee, voters).bank, p.treasury).balance, fee.treasury)
  {
    hide DistributionDrift, MintAll, MintAllDrift, Shares, VoterStake, PaidVoters, PaidShares, StopOf, Credits, Wraps, NoDup, MintTokens,
      MintDrift, AccountOf, BalanceWraps, SumSeq;
    var list, shares, j := PaidVoters(b, voters), PaidShares(b, fee, voters), StopOf(p, b, fee, voters);
    var paid := VotersOnly(p, b, fee, voters);
    PaidAreActive(b, voters);
    SortedNoDup(list);
    DriftParts(p, b, fee, voters);
    VotersStop(p, b, fee, voters);
    MintAllDriftClosed(p, b, list, shares, j);
    if j == |shares| {
      assert shares[..j] == shares;
      AllRunning(b, fee, voters);
      TreasuryAffordable(p, b, fee, paid.bank.totalSupply);
      TreasuryDriftClosed(p, paid, fee);
      DivAdd(b.totalSupply + SumSeq(shares), fee.treasury);
    }
  }

  lemma {:induction false} DriftParts(p: Params, b: Bank, fee: Fee, voters: seq<Address>)
    requires Passes(p, b, fee, voters)
    ensures DistributionDrift(p, b, fee, voters) ==
      MintAllDrift(p, b, PaidVoters(b, voters), PaidShares(b, fee, voters)) + TreasuryDrift(p, VotersOnly(p, b, fee, voters), fee)
  {
    hide MintAll, MintAllDrift, Shares, VoterStake, SortedSeq, TreasuryDrift;
  }

  lemma TreasuryDriftClosed(p: Params, paid: Paid, fee: Fee)
    requires paid.ok && Add64(paid.bank.totalSupply, fee.treasury) <= p.maxSupply
    ensures TreasuryDrift(p, paid, fee) == Wraps(paid.bank.totalSupply, fee.treasury) - Wraps(AccountOf(paid.bank, p.treasury).balance, fee.treasury)
  {}
}
