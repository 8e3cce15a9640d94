/** Settlement fees: the split of a fee and its distribution among the voters by minting. */
module Fees {
  import opened Numbers
  import opened Collections
  import opened Rules
  import opened ChainState

  datatype Fee = Fee(total: uint64, reward: uint64, treasury: uint64, burn: uint64)

  datatype Payout = Payout(validator: Address, amount: uint64)

  /** CalculateFee: every product and difference wraps as it does in the source. */
  function CalculateFee(p: Params, minFee: uint64, amount: uint64): Fee {
    if amount == 0 then Fee(0, 0, 0, 0)
    else
      var scaled := Mul64(amount, p.feeRate) / 10000;
      var total := if scaled < minFee then minFee else scaled;
      var reward := Mul64(total, p.validatorShare) / 100;
      var burn := Mul64(total, p.burnShare) / 100;
      Fee(total, reward, Sub64(Sub64(total, reward), burn), burn)
  }

  // ---------------------------------------------------------------- distribution

  function StakeOf(b: Bank, a: Address): uint64 {
    if IsActive(b, a) then b.validators[a].staked else 0
  }

  /** Wrapping sum of the active voters' stakes, in list order. */
  function VoterStake(b: Bank, voters: seq<Address>): uint64 {
    if voters == [] then 0
    else Add64(VoterStake(b, voters[..|voters| - 1]), StakeOf(b, voters[|voters| - 1]))
  }

  ghost function ActiveVoters(b: Bank, voters: seq<Address>): set<Address> {
    set a | a in voters && IsActive(b, a)
  }

  function StakeList(b: Bank, list: seq<Address>): (r: seq<uint64>)
    ensures |r| == |list|
  {
    seq(|list|, i requires 0 <= i < |list| => StakeOf(b, list[i]))
  }

  /** Pro-rata shares by integer division; the last voter takes what is left. */
  function Shares(stakes: seq<uint64>, reward: uint64, total: uint64, distributed: uint64): (r: seq<uint64>)
    requires total > 0
    ensures |r| == |stakes|
  {
    if stakes == [] then []
    else
      var share := NextShare(stakes, reward, total, distributed);
      [share] + Shares(stakes[1..], reward, total, Add64(distributed, share))
  }

  function NextShare(stakes: seq<uint64>, reward: uint64, total: uint64, distributed: uint64): uint64
    requires total > 0 && stakes != []
  {
    ShareOf(|stakes| == 1, stakes[0], reward, total, distributed)
  }

  /** What one voter gets: the rest if it is the last, its wrapped product over the total otherwise. */
  function ShareOf(last: bool, stake: uint64, reward: uint64, total: uint64, distributed: uint64): uint64
    requires total > 0
  {
    if last then Sub64(reward, distributed)
    else
      var product := Mul64(reward, stake);
      assert product * 1 <= product * total;
      DivBelow(product, total, product);
      product / total
  }

  /** The outcome of minting: a failed mint leaves the bank as the earlier mints made it. */
  datatype Paid = Paid(ok: bool, bank: Bank, payouts: seq<Payout>)

  function MintAll(p: Params, b: Bank, list: seq<Address>, shares: seq<uint64>): Paid
    requires |list| == |shares|
    decreases |list|
  {
    if list == [] then Paid(true, b, [])
    else if shares[0] == 0 then MintAll(p, b, list[1..], shares[1..])
    else
      var minted := MintTokens(p, b, list[0], shares[0]);
      if minted.Err? then Paid(false, b, [])
      else
        var rest := MintAll(p, minted.value, list[1..], shares[1..]);
        rest.(payouts := [Payout(list[0], shares[0])] + rest.payouts)
  }

  /** The treasury mint and the burn record that follow the voters' payouts. */
  function FinishDistribution(p: Params, paid: Paid, fee: Fee): Paid {
    if !paid.ok then Paid(false, paid.bank, [])
    else
      var credited := if fee.treasury > 0 then MintTokens(p, paid.bank, p.treasury, fee.treasury) else Ok(paid.bank);
      if credited.Err? then Paid(false, paid.bank, [])
      else Paid(true, RecordBurn(credited.value, fee.burn), paid.payouts)
  }

  ghost function DistributeFees(p: Params, b: Bank, fee: Fee, voters: seq<Address>): Paid {
    if fee.total == 0 then Paid(true, b, [])
    else
      var total := VoterStake(b, voters);
      if total == 0 then Paid(false, b, [])
      else if Add64(b.totalSupply, Add64(fee.reward, fee.treasury)) > p.maxSupply then Paid(false, b, [])
      else
        var list := SortedSeq(ActiveVoters(b, voters));
        FinishDistribution(p, MintAll(p, b, list, Shares(StakeList(b, list), fee.reward, total, 0)), fee)
  }

  // ---------------------------------------------------------------- arithmetic of the shares

  ghost function SumSeq(s: seq<uint64>): nat {
    if s == [] then 0 else s[0] + SumSeq(s[1..])
  }

  lemma {:induction false} SumSeqConcat(s: seq<uint64>, t: seq<uint64>)
    ensures SumSeq(s + t) == SumSeq(s) + SumSeq(t)
  {
    if s == [] {
      assert s + t == t;
    } else {
      SumSeqConcat(s[1..], t);
      assert (s + t)[1..] == s[1..] + t;
    }
  }

  /** A share is at most the true pro-rata part, wrapped product or not. */
  lemma {:induction false} ShareBelow(reward: uint64, stake: uint64, total: uint64)
    requires total > 0
    ensures (Mul64(reward, stake) / total) * total <= reward * stake
  {
    MulWrapBelow(reward, stake);
    DivBounds(Mul64(reward, stake), total);
  }

  /**
   * The shares add up to exactly the reward, even when reward * stake wraps: a wrapped product
   * only makes a share smaller, and the last voter absorbs the difference.
   */
  lemma {:induction false} SharesExact(stakes: seq<uint64>, reward: uint64, total: uint64, distributed: uint64)
    requires stakes != [] && total > 0 && SumSeq(stakes) <= total
    requires distributed * total <= reward * (total - SumSeq(stakes))
    ensures distributed + SumSeq(Shares(stakes, reward, total, distributed)) == reward
    decreases |stakes|
  {
    var rest := SumSeq(stakes[1..]);
    var share := NextShare(stakes, reward, total, distributed);
    CancelFactor(distributed, reward, total, total - SumSeq(stakes));
    if |stakes| == 1 {
      assert stakes[1..] == [];
      assert Shares(stakes, reward, total, distributed) == [share];
    } else {
      ShareBelow(reward, stakes[0], total);
      calc {
        (distributed + share) * total;
        distributed * total + share * total;
      <=
        reward * (total - SumSeq(stakes)) + reward * stakes[0];
        { Distribute(reward, total - SumSeq(stakes), stakes[0]); }
        reward * (total - rest);
      }
      CancelFactor(distributed + share, reward, total, total - rest);
      SharesExact(stakes[1..], reward, total, distributed + share);
    }
  }

  lemma {:induction false} Distribute(a: int, x: int, y: int)
    ensures a * x + a * y == a * (x + y)
  {}

  lemma {:induction false} CancelFactor(d: int, reward: int, total: int, part: int)
    requires total > 0 && reward >= 0 && part <= total
    requires d * total <= reward * part
    ensures d <= reward
  {
    assert reward * part <= reward * total;
    assert (d - reward) * total <= 0;
  }

  // ---------------------------------------------------------------- floors and the remainder

  /** Every voter but the last gets its wrapped product divided by the total. */
  lemma {:induction false} SharesBeforeLast(stakes: seq<uint64>, reward: uint64, total: uint64, distributed: uint64, i: nat)
    requires total > 0 && i + 1 < |stakes|
    ensures Shares(stakes, reward, total, distributed)[i] == Mul64(reward, stakes[i]) / total
    decreases i
  {
    if i > 0 {
      var share := NextShare(stakes, reward, total, distributed);
      SharesBeforeLast(stakes[1..], reward, total, Add64(distributed, share), i - 1);
    }
  }

  /** Rounding down loses less than one unit per voter. */
  lemma {:induction false} FloorLoss(init: seq<uint64>, shares: seq<uint64>, reward: uint64, total: uint64)
    requires total > 0 && |init| == |shares|
    requires forall i :: 0 <= i < |init| ==> shares[i] == (reward * init[i]) / total
    ensures SumSeq(shares) * total <= reward * SumSeq(init)
    ensures reward * SumSeq(init) <= (SumSeq(shares) + |init|) * total
    ensures init != [] ==> reward * SumSeq(init) < (SumSeq(shares) + |init|) * total
  {
    if init != [] {
      forall i | 0 <= i < |init| - 1 ensures shares[1..][i] == (reward * init[1..][i]) / total {
        assert shares[i + 1] == (reward * init[i + 1]) / total;
      }
      FloorLoss(init[1..], shares[1..], reward, total);
      DivBounds(reward * init[0], total);
      FloorStep(shares[0], SumSeq(shares[1..]), total, reward, init[0], SumSeq(init[1..]), |init| - 1);
    }
  }

  lemma {:induction false} FloorStep(q: int, s: int, t: int, r: int, x: int, i: int, n: int)
    requires q * t <= r * x < (q + 1) * t
    requires s * t <= r * i <= (s + n) * t
    ensures (q + s) * t <= r * (x + i) < (q + s + (n + 1)) * t
  {
    Distribute(r, x, i);
    Distribute(t, q, s);
    Distribute(t, q + 1, s + n);
  }

  /**
   * Without wrapped products each voter but the last gets the floor of its pro-rata share, and
   * the last gets at least its own floor and at most that plus one unit per other voter.
   */
  lemma {:induction false} SharesProRata(stakes: seq<uint64>, reward: uint64, total: uint64)
    requires stakes != [] && total > 0 && SumSeq(stakes) == total
    requires forall i :: 0 <= i < |stakes| ==> reward * stakes[i] < U64_MOD
    ensures forall i :: 0 <= i < |stakes| - 1 ==> Shares(stakes, reward, total, 0)[i] == (reward * stakes[i]) / total
    ensures var n := |stakes|; var floor := (reward * stakes[n - 1]) / total;
      floor <= Shares(stakes, reward, total, 0)[n - 1] <= floor + (n - 1)
  {
    var n := |stakes|;
    var shares := Shares(stakes, reward, total, 0);
    var init, last := stakes[..n - 1], stakes[n - 1];
    forall i | 0 <= i < n - 1 ensures shares[i] == (reward * stakes[i]) / total {
      SharesBeforeLast(stakes, reward, total, 0, i);
      MulWrapBelow(reward, stakes[i]);
    }
    FloorLoss(init, shares[..n - 1], reward, total);
    SharesExact(stakes, reward, total, 0);
    assert stakes == init + [last] && shares == shares[..n - 1] + [shares[n - 1]];
    SumSeqConcat(init, [last]);
    SumSeqConcat(shares[..n - 1], [shares[n - 1]]);
    LastShare(reward, total, last, SumSeq(shares[..n - 1]), n - 1);
  }

  lemma {:induction false} LastShare(reward: int, total: int, last: int, before: int, others: int)
    requires total > 0
    requires before * total <= reward * (total - last)
    requires reward * (total - last) <= (before + others) * total
    ensures (reward * last) / total <= reward - before <= (reward * last) / total + others
  {
    Distribute(reward, total - last, last);
    Distribute(total, reward - before, before);
    DivBelow(reward * last, total, reward - before);
    Distribute(total, reward - before - others, before + others);
    DivAbove(reward * last, total, reward - before - others);
  }

  lemma OrderFactor(a: int, b: int, d: int)
    requires d > 0 && a * d < b * d
    ensures a < b
  {}

  lemma {:induction false} DivAbove(x: int, d: int, k: int)
    requires d > 0 && k * d <= x
    ensures k <= x / d
  {
    DivBounds(x, d);
    OrderFactor(k, x / d + 1, d);
  }

  // ---------------------------------------------------------------- the split of one fee

  ghost predicate SplitExact(p: Params, minFee: uint64, amount: uint64) {
    var f := CalculateFee(p, minFee, amount);
    f.reward + f.treasury + f.burn == f.total
  }

  /** Percentages that sum to at most 100 split every fee exactly, wrapped products or not. */
  lemma {:induction false} SoundSharesSplit(p: Params, minFee: uint64, amount: uint64)
    requires p.validatorShare + p.burnShare <= 100
    ensures SplitExact(p, minFee, amount)
  {
    var t := CalculateFee(p, minFee, amount).total;
    MulWrapBelow(t, p.validatorShare);
    MulWrapBelow(t, p.burnShare);
    PercentBelow(t, p.validatorShare, p.burnShare);
  }

  /** A fee of one or of a hundred shows that larger percentages do not. */
  lemma {:induction false} LargeSharesOverrun(p: Params)
    requires p.feeRate == 1 && p.validatorShare + p.burnShare > 100
    ensures exists minFee: uint64 :: !SplitExact(p, minFee, 1)
  {
    hide Mul64;
    MulWrapBelow(1, 1);
    if p.validatorShare >= 200 || p.burnShare >= 200 {
      MulWrapBelow(1, p.validatorShare);
      MulWrapBelow(1, p.burnShare);
      assert !SplitExact(p, 1, 1);
    } else {
      MulWrapBelow(100, p.validatorShare);
      MulWrapBelow(100, p.burnShare);
      assert !SplitExact(p, 100, 1);
    }
  }

  ghost predicate AlwaysSplitsExactly(p: Params) {
    forall rate: uint64, minFee: uint64, amount: uint64 :: SplitExact(p.(feeRate := rate), minFee, amount)
  }

  /** The parts sum to the fee at every rate, minimum and amount exactly when the two percentages sum to at most 100. */
  lemma {:induction false} FeeSplitExactIff(p: Params)
    ensures AlwaysSplitsExactly(p) <==> p.validatorShare + p.burnShare <= 100
  {
    hide SplitExact;
    if p.validatorShare + p.burnShare <= 100 {
      forall rate: uint64, minFee: uint64, amount: uint64 ensures SplitExact(p.(feeRate := rate), minFee, amount) {
        SoundSharesSplit(p.(feeRate := rate), minFee, amount);
      }
    } else {
      LargeSharesOverrun(p.(feeRate := 1));
    }
  }

  /** The parts add up to the fee up to the word size, whatever the configured percentages. */
  lemma {:induction false} FeeSplitModular(p: Params, minFee: uint64, amount: uint64)
    ensures var f := CalculateFee(p, minFee, amount);
      f.total == Add64(Add64(f.treasury, f.burn), f.reward)
  {}

  const MAX_FEE: uint64 := 1844674407370955

  /** Percentages of at most 100 together, as a genesis configuration should have, and a cap that leaves room for one fee. */
  predicate SoundParams(p: Params) {
    && p.validatorShare + p.burnShare <= 100
    && p.maxSupply + MAX_FEE < U64_MOD
  }

  /** Percentages of at most 100 together: no product of the split of a settlement fee wraps and the parts sum to the fee. */
  lemma {:induction false} FeeSplitSound(p: Params, amount: uint64)
    requires p.validatorShare + p.burnShare <= 100
    ensures var f := CalculateFee(p, 0, amount);
      && f.total <= MAX_FEE
      && f.reward == (f.total * p.validatorShare) / 100
      && f.burn == (f.total * p.burnShare) / 100
      && f.reward + f.treasury + f.burn == f.total
  {
    var f := CalculateFee(p, 0, amount);
    if amount > 0 {
      assert f.total == Mul64(amount, p.feeRate) / 10000;
      assert f.total <= MAX_FEE;
      PercentBelow(f.total, p.validatorShare, p.burnShare);
      MulWrapBelow(f.total, p.validatorShare);
      MulWrapBelow(f.total, p.burnShare);
    }
  }

  lemma {:induction false} PercentBelow(t: int, x: int, y: int)
    requires 0 <= t && 0 <= x && 0 <= y && x + y <= 100
    ensures t * x <= t * 100 && t * y <= t * 100
    ensures (t * x) / 100 + (t * y) / 100 <= t
  {
    assert t * x + t * y == t * (x + y) <= t * 100;
  }

  // ---------------------------------------------------------------- the rate and the defaults

  /** The fee is the rate in hundredths of a percent of the amount, rounded down, or the minimum if that is more; a product past the word size wraps. */
  lemma {:induction false} FeeAtRate(p: Params, minFee: uint64, amount: uint64)
    ensures var total, product := CalculateFee(p, minFee, amount).total, (amount * p.feeRate) % U64_MOD;
      && (amount == 0 ==> total == 0)
      && (amount > 0 ==> total >= minFee && product < (total + 1) * 10000 && (total > minFee ==> total * 10000 <= product))
      && (amount * p.feeRate < U64_MOD ==> product == amount * p.feeRate)
  {
    hide Mul64;
    MulIs(amount, p.feeRate);
    MulWrapBelow(amount, p.feeRate);
    DivBounds(Mul64(amount, p.feeRate), 10000);
  }

  lemma MulIs(a: uint64, b: uint64)
    ensures Mul64(a, b) == (a * b) % U64_MOD
  {}

  /** Every fee setting left at zero takes its default, every other one is kept, and nothing else is touched. */
  lemma {:induction false} DefaultsKeepSettings(g: Params)
    ensures var d := WithDefaults(g);
      && d.feeRate > 0 && (d.feeRate == g.feeRate || (g.feeRate == 0 && d.feeRate == 50))
      && d.validatorShare > 0 && (d.validatorShare == g.validatorShare || (g.validatorShare == 0 && d.validatorShare == 70))
      && d.treasuryShare > 0 && (d.treasuryShare == g.treasuryShare || (g.treasuryShare == 0 && d.treasuryShare == 20))
      && d.burnShare > 0 && (d.burnShare == g.burnShare || (g.burnShare == 0 && d.burnShare == 10))
      && WithDefaults(d) == d
      && g == d.(feeRate := g.feeRate, validatorShare := g.validatorShare, treasuryShare := g.treasuryShare, burnShare := g.burnShare)
  {}

  /** Without fee settings a settlement costs half a percent: seventy parts of a hundred to the voters, ten burned, the rest to the treasury. */
  lemma {:induction false} DefaultFee(g: Params, amount: uint64)
    requires g.feeRate == 0 && g.validatorShare == 0 && g.burnShare == 0
    ensures var f := CalculateFee(WithDefaults(g), 0, amount);
      && (amount * 50 < U64_MOD ==> f.total == amount / 200)
      && f.reward == f.total * 70 / 100 && f.burn == f.total / 10 && f.treasury == f.total - f.reward - f.burn
  {
    FeeSplitSound(WithDefaults(g), amount);
    assert amount * 50 / 10000 == amount / 200;
  }
}
