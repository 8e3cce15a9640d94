/** The fee distributor working on the state database, proved against the distribution function. */
module Distributor {
  import opened Numbers
  import opened Collections
  import opened Rules
  import opened ChainState
  import opened Fees
  import opened StateDb

  /** Payouts already made, followed by those of the remaining voters. */
  ghost function Resume(paid: seq<Payout>, rest: Paid): Paid {
    rest.(payouts := paid + rest.payouts)
  }

  lemma {:induction false} SharesTail(stakes: seq<uint64>, reward: uint64, total: uint64, distributed: uint64)
    requires total > 0 && stakes != []
    ensures Shares(stakes, reward, total, distributed)[1..] ==
            Shares(stakes[1..], reward, total, Add64(distributed, NextShare(stakes, reward, total, distributed)))
    ensures Shares(stakes, reward, total, distributed)[0] == NextShare(stakes, reward, total, distributed)
  {}

  /** Stake of the active voters and its wrapping total, collected in list order. */
  method CollectStakes(db: StateDB, voters: seq<Address>) returns (stakes: map<Address, uint64>, total: uint64)
    requires db.Valid()
    ensures total == VoterStake(db.View().bank, voters)
    ensures stakes.Keys == ActiveVoters(db.View().bank, voters)
    ensures forall a :: a in stakes ==> stakes[a] == StakeOf(db.View().bank, a)
  {
    hide StateDB.Valid, StateDB.View;
    ghost var b := db.View().bank;
    stakes, total := map[], 0;
    var i := 0;
    while i < |voters|
      invariant 0 <= i <= |voters|
      invariant total == VoterStake(b, voters[..i])
      invariant stakes.Keys == ActiveVoters(b, voters[..i])
      invariant forall a :: a in stakes ==> stakes[a] == StakeOf(b, a)
    {
      var v := db.GetValidator(voters[i]);
      if v.Some? && v.value.active {
        stakes := stakes[voters[i] := v.value.staked];
        total := Add64(total, v.value.staked);
      }
      assert voters[..i + 1][..i] == voters[..i];
      assert voters[..i + 1] == voters[..i] + [voters[i]];
      i := i + 1;
    }
    assert voters[..i] == voters;
  }

  /** The payout loop: pro-rata shares in address order, the remainder to the last voter. */
  method PayVoters(db: StateDB, list: seq<Address>, stakes: map<Address, uint64>, reward: uint64, total: uint64)
    returns (ok: bool, payouts: seq<Payout>)
    requires db.Valid() && total > 0
    requires forall a :: a in list ==> a in stakes && stakes[a] == StakeOf(db.View().bank, a)
    modifies db.Repr()
    ensures db.Valid() && fresh(db.Repr() - old(db.Repr())) && db.Saved == old(db.Saved)
    ensures var b := old(db.View()).bank;
      var paid := MintAll(db.params, b, list, Shares(StakeList(b, list), reward, total, 0));
      && ok == paid.ok && db.View() == old(db.View()).(bank := paid.bank) && (ok ==> payouts == paid.payouts)
  {
    hide StateDB.Valid, StateDB.View, Shares, NextShare, ShareOf, ChainState.MintTokens, StakeOf, MintAll, Add64;
    ghost var b := db.View().bank;
    ghost var all := StakeList(b, list);
    ghost var shares := Shares(all, reward, total, 0);
    var distributed: uint64 := 0;
    payouts := [];
    var i := 0;
    while i < |list|
      invariant 0 <= i <= |list|
      invariant db.Valid() && fresh(db.Repr() - old(db.Repr())) && db.Saved == old(db.Saved)
      invariant db.View() == old(db.View()).(bank := db.View().bank)
      invariant shares[i..] == Shares(all[i..], reward, total, distributed)
      invariant MintAll(db.params, b, list, shares) == Resume(payouts, MintAll(db.params, db.View().bank, list[i..], shares[i..]))
    {
      var a := list[i];
      SharesTail(all[i..], reward, total, distributed);
      assert all[i..][0] == stakes[a];
      NextShareIs(all[i..], reward, total, distributed);
      var share := ShareOf(i == |list| - 1, stakes[a], reward, total, distributed);
      assert all[i..][1..] == all[i + 1..] && list[i..][1..] == list[i + 1..] && shares[i..][1..] == shares[i + 1..];
      distributed := Add64(distributed, share);
      MintStep(db.params, db.View().bank, list[i..], shares[i..]);
      if share > 0 {
        var error := db.MintTokens(a, share);
        if error.Some? {
          return false, [];
        }
        payouts := payouts + [Payout(a, share)];
      }
      i := i + 1;
    }
    assert list[i..] == [] && shares[i..] == [];
    MintNone(db.params, db.View().bank);
    ok := true;
  }

  lemma NextShareIs(stakes: seq<uint64>, reward: uint64, total: uint64, distributed: uint64)
    requires total > 0 && stakes != []
    ensures NextShare(stakes, reward, total, distributed) == ShareOf(|stakes| == 1, stakes[0], reward, total, distributed)
  {
    hide ShareOf;
  }

  lemma MintNone(p: Params, b: Bank)
    ensures MintAll(p, b, [], []) == Paid(true, b, [])
  {}

  lemma {:induction false} MintStep(p: Params, b: Bank, list: seq<Address>, shares: seq<uint64>)
    requires |list| == |shares| > 0
    ensures MintAll(p, b, list, shares) ==
      if shares[0] == 0 then MintAll(p, b, list[1..], shares[1..])
      else if ChainState.MintTokens(p, b, list[0], shares[0]).Err? then Paid(false, b, [])
      else Resume([Payout(list[0], shares[0])], MintAll(p, ChainState.MintTokens(p, b, list[0], shares[0]).value, list[1..], shares[1..]))
  {}

  lemma FinishFailed(p: Params, fee: Fee)
    ensures forall paid: Paid :: !paid.ok ==> FinishDistribution(p, paid, fee) == Paid(false, paid.bank, [])
  {}

  /** DistributeFees: checks, the payout loop, the treasury mint and the burn record. */
  method Distribute(db: StateDB, fee: Fee, voters: seq<Address>) returns (ok: bool, payouts: seq<Payout>)
    requires db.Valid()
    modifies db.Repr()
    ensures db.Valid() && fresh(db.Repr() - old(db.Repr())) && db.Saved == old(db.Saved)
    ensures var paid := DistributeFees(db.params, old(db.View()).bank, fee, voters);
      && ok == paid.ok && db.View() == old(db.View()).(bank := paid.bank) && (ok ==> payouts == paid.payouts)
  {
    hide StateDB.Valid, StateDB.View, Shares, MintAll, VoterStake, ActiveVoters, StakeList, StakeOf, FinishDistribution;
    FinishFailed(db.params, fee);
    payouts := [];
    if fee.total == 0 {
      return true, [];
    }
    var stakes, total := CollectStakes(db, voters);
    if total == 0 {
      return false, [];
    }
    var totalMint := Add64(fee.reward, fee.treasury);
    var supply := db.TotalSupply();
    if Add64(supply, totalMint) > db.params.maxSupply {
      return false, [];
    }
    var list := Enumerate(stakes.Keys);
    ok, payouts := PayVoters(db, list, stakes, fee.reward, total);
    if !ok {
      return false, [];
    }
    ok := CreditTreasury(db, fee, payouts);
  }

  /** The treasury mint and the burn record after the voters have been paid. */
  method CreditTreasury(db: StateDB, fee: Fee, ghost payouts: seq<Payout>) returns (ok: bool)
    requires db.Valid()
    modifies db.Repr()
    ensures db.Valid() && fresh(db.Repr() - old(db.Repr())) && db.Saved == old(db.Saved)
    ensures var paid := FinishDistribution(db.params, Paid(true, old(db.View()).bank, payouts), fee);
      && ok == paid.ok && db.View() == old(db.View()).(bank := paid.bank) && (ok ==> payouts == paid.payouts)
  {
    hide StateDB.Valid, StateDB.View, ChainState.MintTokens;
    if fee.treasury > 0 {
      var error := db.MintTokens(db.params.treasury, fee.treasury);
      if error.Some? {
        return false;
      }
    }
    if fee.burn > 0 {
      db.RecordBurn(fee.burn);
    }
    ok := true;
  }
}
