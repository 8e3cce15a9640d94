/**
 * Two runs from genesis in which a settlement stands although its fee was paid half-way: one with
 * percentages above 100, and one with sound parameters after an overdrawn withdrawal.
 */
module HalfPaid {
  import opened Numbers
  import opened Collections
  import opened Rules
  import opened ChainState
  import opened Fees
  import opened Supply
  import opened Payouts
  import opened Executor
  import opened Demo
  import opened Conservation
  import opened Books

  function Staker(a: Address, staked: uint64, pending: uint64, slashed: uint64): Validator {
    Validator(a, staked, pending, 0, slashed, 0, true, 0, [])
  }

  /** The tables of one PayLink over 100, with these votes. */
  function OneLink(count: uint64, votes: set<(Hash, Address)>, proofs: map<Hash, Hash>): Links {
    Links(map[7 := PayLink(7, 1, 3, 1, 0, 100, 10, Created, 0, 0, count, 0, NoRules)], {}, proofs, votes,
          map[1 := [7]], map[3 := [7]], map[Created := [7]], map[1 := [7]], {})
  }

  lemma LinkCreated(l: Links)
    requires l == EmptyLinks()
    ensures AddPayLink(l, PayLink(7, 1, 3, 1, 0, 100, 10, Created, 0, 0, 0, 0, NoRules)) == Ok(OneLink(0, {}, map[]))
  {
    assert [] + [7 as Hash] == [7];
    assert Append(l.byCreator, 1, 7) == map[1 := [7]] && Append(l.byReceiver, 3, 7) == map[3 := [7]];
    assert Append(l.byStatus, Created, 7) == map[Created := [7]];
  }

  ghost predicate Settles(r: Outcome<Effect>, supply: uint64) {
    && r.Ok? && FeesIn(r.value.events) == 0 && r.value.state.bank.totalSupply == supply
    && 7 in r.value.state.links.paylinks && r.value.state.links.paylinks[7].status == Verified
  }

  /** The last vote of a run, when the distribution of the fee stops half-way. */
  lemma {:induction false} SettlesUnpaid(p: Params, s: State, tx: Tx)
    requires tx.body == SubmitValidation(7, 9) && tx.authentic && tx.nonce == AccountOf(s.bank, tx.from).nonce
    requires VoteError(s, tx.from, 7, 9, 0).None? && s.links.paylinks[7].rules == NoRules
    requires FeeDue(p, s, tx) && PaidHalfway(p, s, tx)
    ensures Settles(BlockStep(p, s, tx, 0), DistributeFees(p, s.bank, DueFee(p, s, tx), DueVoters(s, tx)).bank.totalSupply)
  {
    hide DistributeFees, CalculateFee, Append, Remove, VotersIn, SortedSeq, FeesIn;
    HalfwayPasses(p, s.bank, DueFee(p, s, tx), DueVoters(s, tx));
    QuietBooks(BlockStep(p, s, tx, 0).value.events);
  }

  lemma HalfwayPasses(p: Params, b: Bank, fee: Fee, voters: seq<Address>)
    requires Halfway(p, b, fee, voters)
    ensures fee.total > 0 && voters != []
  {}

  /** Active voters in address order are all paid, and their stakes are added up in that order. */
  lemma {:induction false} AllActive(b: Bank, voters: seq<Address>)
    requires Sorted(voters) && forall a :: a in voters ==> IsActive(b, a)
    ensures PaidVoters(b, voters) == voters
  {
    SortedUnique(PaidVoters(b, voters), voters);
  }

  lemma {:induction false} OneMoreVoter(b: Bank, voters: seq<Address>, a: Address)
    ensures VoterStake(b, voters + [a]) == Add64(VoterStake(b, voters), StakeOf(b, a))
  {
    assert (voters + [a])[..|voters|] == voters;
  }

  lemma NoStake(b: Bank)
    ensures VoterStake(b, []) == 0
  {}

  // ---------------------------------------------------------------- percentages above 100

  /** Shares of 90 and 20 percent, two votes to settle, and a cap just above the supply. */
  const TIGHT := Params(585, 10, 0, 2, 1, 2, 10000, 90, 0, 20)
  const TIGHT_BALANCES := [GenesisBalance(1, 450), GenesisBalance(3, 50)]
  const TIGHT_INPUTS :=
    [DemoInput(1, 0, StakeTokens(50)), DemoInput(3, 0, StakeTokens(50)), DemoInput(1, 1, CreatePayLink(7, 3, 100, 10, 0, NoRules)),
     DemoInput(1, 2, SubmitValidation(7, 9)), DemoInput(3, 1, SubmitValidation(7, 9))]

  function TightBank(nonce: uint64): Bank {
    Bank(map[1 := Account(400, nonce), 3 := Account(0, 1)], map[1 := Staker(1, 50, 0, 0), 3 := Staker(3, 50, 0, 0)], [1, 3], map[], 500, 0)
  }

  const TIGHT_0 := State(Bank(map[1 := Account(450, 0), 3 := Account(50, 0)], map[], [], map[], 500, 0), EmptyLinks(), {})
  const TIGHT_1 :=
    State(Bank(map[1 := Account(400, 1), 3 := Account(50, 0)], map[1 := Staker(1, 50, 0, 0)], [1], map[], 500, 0), EmptyLinks(), {})
  const TIGHT_2 := State(TightBank(1), EmptyLinks(), {})
  const TIGHT_3 := State(TightBank(2), OneLink(0, {}, map[]), {})
  const TIGHT_4 := State(TightBank(3), OneLink(1, {(7, 1)}, map[7 := 9]), {})

  lemma TightGenesis()
    ensures Genesis(TIGHT_BALANCES) == TIGHT_0
  {
    var one := PutAccount(EmptyBank(), 1, Account(450, 0)).(totalSupply := 450);
    var two := PutAccount(one, 3, Account(50, 0)).(totalSupply := 500);
    assert TIGHT_BALANCES[1..][1..] == [];
    assert Fund(EmptyBank(), TIGHT_BALANCES) == Fund(one, TIGHT_BALANCES[1..]) == Fund(two, []);
  }

  lemma TightStake()
    ensures After(TIGHT, TIGHT_0, TIGHT_INPUTS[0]) == TIGHT_1
  {}

  lemma TightStakes()
    ensures After(TIGHT, TIGHT_1, TIGHT_INPUTS[1]) == TIGHT_2
  {}

  lemma TightCreates()
    ensures After(TIGHT, TIGHT_2, TIGHT_INPUTS[2]) == TIGHT_3
  {
    hide AddPayLink;
    LinkCreated(EmptyLinks());
  }

  lemma TightVotes()
    ensures After(TIGHT, TIGHT_3, TIGHT_INPUTS[3]) == TIGHT_4
  {}

  lemma {:induction false} TightVoters()
    ensures DueVoters(TIGHT_4, TIGHT_INPUTS[4].tx) == [1, 3]
  {
    var voted := CastVote(TIGHT_4.links, 7, 3, 9);
    var votes := voted.votes;
    forall a ensures a in VotersIn(votes, 7) <==> a == 1 || a == 3 {
      assert a in VotersIn(votes, 7) <==> (7, a) in votes;
    }
    SortedUnique(SortedSeq(Voters(voted, 7)), [1, 3]);
  }

  lemma TightFee()
    ensures CalculateFee(TIGHT, 0, 100) == Fee(100, 90, U64_MOD - 10, 20)
  {
    hide Mul64;
    MulWrapBelow(100, 10000);
    MulWrapBelow(100, 90);
    MulWrapBelow(100, 20);
  }

  lemma {:induction false} TwoShares(x: uint64, y: uint64, reward: uint64, total: uint64)
    requires total > 0
    ensures Shares([x, y], reward, total, 0) == [ShareOf(false, x, reward, total, 0), Sub64(reward, ShareOf(false, x, reward, total, 0))]
  {
    hide ShareOf;
    var stakes := [x, y];
    var share := ShareOf(false, x, reward, total, 0);
    assert stakes[1..] == [y] && [y][1..] == [];
    var rest := NextShare([y], reward, total, share);
    assert Shares([y], reward, total, share) == [rest] + Shares([], reward, total, Add64(share, rest));
    LastIsRest(y, reward, total, share);
  }

  lemma LastIsRest(y: uint64, reward: uint64, total: uint64, share: uint64)
    requires total > 0
    ensures NextShare([y], reward, total, share) == Sub64(reward, share)
  {}

  lemma TightActive()
    ensures var b := TightBank(3); IsActive(b, 1) && IsActive(b, 3) && StakeOf(b, 1) == 50 && StakeOf(b, 3) == 50
  {}

  /** Both voters are active with 50 each, so each is due 45. */
  lemma {:induction false} TightShares()
    ensures var b := TightBank(3); var fee := Fee(100, 90, U64_MOD - 10, 20);
      VoterStake(b, [1, 3]) == 100 && PaidVoters(b, [1, 3]) == [1, 3] && PaidShares(b, fee, [1, 3]) == [45, 45]
  {
    hide Mul64, Shares, VoterStake, StakeOf, IsActive, TightBank, PaidVoters;
    var b := TightBank(3);
    TightActive();
    AllActive(b, [1, 3]);
    assert VoterStake(b, []) == 0 by { NoStake(b); }
    assert [] + [1 as Address] == [1] && [1 as Address] + [3] == [1, 3];
    OneMoreVoter(b, [], 1);
    OneMoreVoter(b, [1], 3);
    assert StakeList(b, [1, 3]) == [50, 50];
    MulWrapBelow(90, 50);
    TwoShares(50, 50, 90, 100);
  }

  /** 545 is under the cap of 585, 590 is not. */
  lemma {:induction false} TightStop()
    ensures var b := TightBank(3); var fee := Fee(100, 90, U64_MOD - 10, 20);
      Halfway(TIGHT, b, fee, [1, 3]) && DistributeFees(TIGHT, b, fee, [1, 3]).bank.totalSupply == 545
  {
    hide DistributeFees, VoterStake, PaidVoters, PaidShares, Credits, TreasuryCredited, MintAll;
    var b, fee := TightBank(3), Fee(100, 90, U64_MOD - 10, 20);
    TightShares();
    var shares := [45 as uint64, 45];
    assert shares[..1] == [45] && shares[..2] == shares && [45 as uint64][1..] == [] && shares[1..] == [45];
    assert SumSeq([45]) == 45 && SumSeq(shares) == 90;
    assert Affordable(TIGHT, b, shares, 0) && !Affordable(TIGHT, b, shares, 1);
    assert StopOf(TIGHT, b, fee, [1, 3]) == 1;
    HalfwayIff(TIGHT, b, fee, [1, 3]);
    DistributionIff(TIGHT, b, fee, [1, 3]);
    assert shares[0] != 0;
  }

  const TIGHT_STATES := [TIGHT_0, TIGHT_1, TIGHT_2, TIGHT_3, TIGHT_4]

  lemma {:induction false} TightTrace()
    ensures Run(TIGHT, Genesis(TIGHT_BALANCES), TIGHT_INPUTS[..4]) == TIGHT_4
  {
    hide After, Genesis;
    TightGenesis();
    TightStake();
    TightStakes();
    TightCreates();
    TightVotes();
    Traced(TIGHT, TIGHT_STATES, TIGHT_INPUTS, 4);
  }

  lemma {:induction false} TightSettles()
    ensures var tx := TIGHT_INPUTS[4].tx; PaidHalfway(TIGHT, TIGHT_4, tx) && Settles(BlockStep(TIGHT, TIGHT_4, tx, 0), 545)
  {
    hide Halfway, DistributeFees, CalculateFee, DueVoters, BlockStep, Settles;
    var tx := TIGHT_INPUTS[4].tx;
    TightVoters();
    TightFee();
    TightStop();
    SettlesUnpaid(TIGHT, TIGHT_4, tx);
  }

  /**
   * From a conserved genesis: two validators stake, a PayLink of 100 is created and both vote.  The
   * settlement commits without a fee event, the first voter has its 45 and the second has not.
   */
  lemma {:induction false} HalfwayExample()
    ensures Conserved(TIGHT, Genesis(TIGHT_BALANCES).bank)
    ensures HalfwayAt(TIGHT, Genesis(TIGHT_BALANCES), TIGHT_INPUTS, 4)
    ensures Settles(BlockStep(TIGHT, Run(TIGHT, Genesis(TIGHT_BALANCES), TIGHT_INPUTS[..4]), TIGHT_INPUTS[4].tx, 0), 545)
  {
    hide Run, Genesis, PaidHalfway, BlockStep, Conserved;
    TightConserved();
    TightTrace();
    TightSettles();
  }

  lemma {:induction false} TightConserved()
    ensures Conserved(TIGHT, Genesis(TIGHT_BALANCES).bank)
  {
    hide Conserved, Genesis;
    assert TIGHT_BALANCES[1..] == [GenesisBalance(3, 50)] && TIGHT_BALANCES[1..][1..] == [];
    assert InitialTotal(TIGHT_BALANCES) == 500;
    GenesisConservedIff(TIGHT, TIGHT_BALANCES);
  }

  // ---------------------------------------------------------------- sound parameters after an overdraft

  /** Shares of 70 and 10 percent, three votes to settle, and a wide cap. */
  const WIDE := Params(100000, 10, 0, 3, 1, 2, 10000, 70, 20, 10)
  const WIDE_BALANCES := [GenesisBalance(1, 500), GenesisBalance(3, 100), GenesisBalance(5, 10)]
  const WIDE_INPUTS :=
    [DemoInput(3, 0, StakeTokens(100)), DemoInput(3, 1, InitiateUnstake(90)), DemoInput(1, 0, SlashValidator(3, 60)),
     DemoInput(3, 2, CompleteUnstake), DemoInput(1, 1, StakeTokens(61)), DemoInput(5, 0, StakeTokens(10)),
     DemoInput(1, 2, CreatePayLink(7, 3, 100, 10, 0, NoRules)), DemoInput(1, 3, SubmitValidation(7, 9)),
     DemoInput(3, 3, SubmitValidation(7, 9)), DemoInput(5, 1, SubmitValidation(7, 9))]

  function WideAccounts(a: Account, b: Account, c: Account): map<Address, Account> {
    map[1 := a, 3 := b, 5 := c]
  }

  /** The bank while validator 3 is still the only one. */
  function EarlyBank(a: Account, b: Account, v: Validator, supply: uint64, burned: uint64): Bank {
    Bank(WideAccounts(a, b, Account(10, 0)), map[3 := v], [3], map[], supply, burned)
  }

  /** The bank with all three validators, the stake of one of them wrapped. */
  function LateBank(a: uint64, b: uint64): Bank {
    Bank(WideAccounts(Account(439, a), Account(90, b), Account(0, 1)),
         map[3 := Staker(3, U64_MOD - 50, 0, 60), 1 := Staker(1, 61, 0, 0), 5 := Staker(5, 10, 0, 0)], [3, 1, 5], map[], 550, 60)
  }

  const WIDE_0 := State(Bank(WideAccounts(Account(500, 0), Account(100, 0), Account(10, 0)), map[], [], map[], 610, 0), EmptyLinks(), {})
  const WIDE_1 := State(EarlyBank(Account(500, 0), Account(0, 1), Staker(3, 100, 0, 0), 610, 0), EmptyLinks(), {})
  const WIDE_2 := State(EarlyBank(Account(500, 0), Account(0, 2), Staker(3, 100, 90, 0), 610, 0), EmptyLinks(), {})
  const WIDE_3 := State(EarlyBank(Account(500, 1), Account(0, 2), Staker(3, 40, 90, 60), 550, 60), EmptyLinks(), {})
  const WIDE_4 := State(EarlyBank(Account(500, 1), Account(90, 3), Staker(3, U64_MOD - 50, 0, 60), 550, 60), EmptyLinks(), {})
  const WIDE_5 :=
    State(Bank(WideAccounts(Account(439, 2), Account(90, 3), Account(10, 0)),
               map[3 := Staker(3, U64_MOD - 50, 0, 60), 1 := Staker(1, 61, 0, 0)], [3, 1], map[], 550, 60), EmptyLinks(), {})
  const WIDE_6 := State(LateBank(2, 3), EmptyLinks(), {})
  const WIDE_7 := State(LateBank(3, 3), OneLink(0, {}, map[]), {})
  const WIDE_8 := State(LateBank(4, 3), OneLink(1, {(7, 1)}, map[7 := 9]), {})
  const WIDE_9 := State(LateBank(4, 4), OneLink(2, {(7, 1), (7, 3)}, map[7 := 9]), {})
  const WIDE_STATES := [WIDE_0, WIDE_1, WIDE_2, WIDE_3, WIDE_4, WIDE_5, WIDE_6, WIDE_7, WIDE_8, WIDE_9]

  lemma WideGenesis()
    ensures Genesis(WIDE_BALANCES) == WIDE_0
  {
    var one := PutAccount(EmptyBank(), 1, Account(500, 0)).(totalSupply := 500);
    var two := PutAccount(one, 3, Account(100, 0)).(totalSupply := 600);
    var all := PutAccount(two, 5, Account(10, 0)).(totalSupply := 610);
    var rest := WIDE_BALANCES[1..];
    assert rest == [GenesisBalance(3, 100), GenesisBalance(5, 10)] && rest[1..] == [GenesisBalance(5, 10)] && rest[1..][1..] == [];
    assert Fund(EmptyBank(), WIDE_BALANCES) == Fund(one, rest) == Fund(two, rest[1..]) == Fund(all, []);
  }

  lemma WideStakes()
    ensures After(WIDE, WIDE_0, DemoInput(3, 0, StakeTokens(100))) == WIDE_1
  {}

  lemma WideWithdraws()
    ensures After(WIDE, WIDE_1, DemoInput(3, 1, InitiateUnstake(90))) == WIDE_2
  {}

  lemma WideSlashed()
    ensures After(WIDE, WIDE_2, DemoInput(1, 0, SlashValidator(3, 60))) == WIDE_3
  {}

  lemma WideOverdrawn()
    ensures After(WIDE, WIDE_3, DemoInput(3, 2, CompleteUnstake)) == WIDE_4
    ensures Overdraws(WIDE_3, DemoInput(3, 2, CompleteUnstake).tx)
  {}

  lemma WideStakesAgain()
    ensures After(WIDE, WIDE_4, DemoInput(1, 1, StakeTokens(61))) == WIDE_5
  {}

  lemma WideAllStake()
    ensures After(WIDE, WIDE_5, DemoInput(5, 0, StakeTokens(10))) == WIDE_6
  {}

  lemma WideCreates()
    ensures After(WIDE, WIDE_6, DemoInput(1, 2, CreatePayLink(7, 3, 100, 10, 0, NoRules))) == WIDE_7
  {
    hide AddPayLink;
    LinkCreated(EmptyLinks());
  }

  lemma WideVotes()
    ensures After(WIDE, WIDE_7, DemoInput(1, 3, SubmitValidation(7, 9))) == WIDE_8
  {}

  lemma WideVotesTwice()
    ensures After(WIDE, WIDE_8, DemoInput(3, 3, SubmitValidation(7, 9))) == WIDE_9
  {}

  lemma {:induction false} WideTrace()
    ensures Run(WIDE, Genesis(WIDE_BALANCES), WIDE_INPUTS[..3]) == WIDE_3 && Run(WIDE, Genesis(WIDE_BALANCES), WIDE_INPUTS[..9]) == WIDE_9
  {
    hide After, Genesis, Run;
    WideGenesis();
    WideSteps();
    Traced(WIDE, WIDE_STATES, WIDE_INPUTS, 3);
    Traced(WIDE, WIDE_STATES, WIDE_INPUTS, 9);
  }

  lemma {:induction false} WideSteps()
    ensures forall k: nat :: k < 9 ==> After(WIDE, WIDE_STATES[k], WIDE_INPUTS[k]) == WIDE_STATES[k + 1]
  {
    hide After;
    WideStakes();
    WideWithdraws();
    WideSlashed();
    WideOverdrawn();
    WideStakesAgain();
    WideAllStake();
    WideCreates();
    WideVotes();
    WideVotesTwice();
    forall k: nat | k < 9 ensures After(WIDE, WIDE_STATES[k], WIDE_INPUTS[k]) == WIDE_STATES[k + 1] {
      assert k == 0 || k == 1 || k == 2 || k == 3 || k == 4 || k == 5 || k == 6 || k == 7 || k == 8;
    }
  }

  lemma {:induction false} WideVoters()
    ensures DueVoters(WIDE_9, WIDE_INPUTS[9].tx) == [1, 3, 5]
  {
    var voted := CastVote(WIDE_9.links, 7, 5, 9);
    var votes := voted.votes;
    forall a ensures a in VotersIn(votes, 7) <==> a == 1 || a == 3 || a == 5 {
      assert a in VotersIn(votes, 7) <==> (7, a) in votes;
    }
    SortedUnique(SortedSeq(Voters(voted, 7)), [1, 3, 5]);
  }

  lemma WideFee()
    ensures CalculateFee(WIDE, 0, 100) == Fee(100, 70, 20, 10)
  {
    hide Mul64;
    MulWrapBelow(100, 10000);
    MulWrapBelow(100, 70);
    MulWrapBelow(100, 10);
  }

  lemma WideActive()
    ensures var b := LateBank(4, 4); IsActive(b, 1) && IsActive(b, 3) && IsActive(b, 5)
    ensures var b := LateBank(4, 4); StakeOf(b, 1) == 61 && StakeOf(b, 3) == U64_MOD - 50 && StakeOf(b, 5) == 10
  {}

  /** The stakes of 61, a word less 50, and 10 add up to 21 as the counter holds them. */
  lemma {:induction false} WideStake()
    ensures var b := LateBank(4, 4); VoterStake(b, [1, 3, 5]) == 21 && PaidVoters(b, [1, 3, 5]) == [1, 3, 5]
    ensures StakeList(LateBank(4, 4), [1, 3, 5]) == [61, U64_MOD - 50, 10]
  {
    hide VoterStake, StakeOf, IsActive, LateBank, PaidVoters;
    var b := LateBank(4, 4);
    WideActive();
    AllActive(b, [1, 3, 5]);
    assert VoterStake(b, []) == 0 by { NoStake(b); }
    assert [] + [1 as Address] == [1] && [1 as Address] + [3] == [1, 3] && [1 as Address, 3] + [5] == [1, 3, 5];
    OneMoreVoter(b, [], 1);
    OneMoreVoter(b, [1], 3);
    OneMoreVoter(b, [1, 3], 5);
  }

  lemma {:induction false} ThreeShares(stakes: seq<uint64>, reward: uint64, total: uint64)
    requires total > 0 && |stakes| == 3
    ensures var shares := Shares(stakes, reward, total, 0);
      |shares| == 3 && shares[0] == ShareOf(false, stakes[0], reward, total, 0) && shares[1] == ShareOf(false, stakes[1], reward, total, shares[0])
  {
    hide ShareOf;
    var first := ShareOf(false, stakes[0], reward, total, 0);
    assert Shares(stakes, reward, total, 0)[1] == Shares(stakes[1..], reward, total, Add64(0, first))[0];
  }

  /** 70 times 61 over 21 is 203, and 70 times the wrapped stake is still far above the cap. */
  lemma {:induction false} WideShares()
    ensures ShareOf(false, 61, 70, 21, 0) == 203 && 1000000 < ShareOf(false, U64_MOD - 50, 70, 21, 203) < 1000000000000000000
  {
    MulWrapBelow(70, 61);
    assert 70 * (U64_MOD - 50) == 69 * U64_MOD + (U64_MOD - 3500);
    assert Mul64(70, U64_MOD - 50) == U64_MOD - 3500;
  }

  /** The first voter is paid 203, nearly three times the reward, and the second share is over the cap. */
  lemma {:induction false} WideStop()
    ensures var b := LateBank(4, 4); var fee := Fee(100, 70, 20, 10);
      Halfway(WIDE, b, fee, [1, 3, 5]) && DistributeFees(WIDE, b, fee, [1, 3, 5]).bank.totalSupply == 753
  {
    hide DistributeFees, VoterStake, PaidVoters, StakeList, Shares, ShareOf, Credits, TreasuryCredited, MintAll;
    var b, fee := LateBank(4, 4), Fee(100, 70, 20, 10);
    WideStake();
    WideShares();
    ThreeShares([61, U64_MOD - 50, 10], 70, 21);
    var shares := PaidShares(b, fee, [1, 3, 5]);
    assert shares == Shares([61, U64_MOD - 50, 10], 70, 21, 0);
    StopsAfterOne(WIDE, b, shares, StopOf(WIDE, b, fee, [1, 3, 5]));
    HalfwayIff(WIDE, b, fee, [1, 3, 5]);
    DistributionIff(WIDE, b, fee, [1, 3, 5]);
  }

  lemma {:induction false} StopsAfterOne(p: Params, b: Bank, shares: seq<uint64>, j: nat)
    requires |shares| >= 2 && StopsAt(p, b, shares, j) && 0 < shares[0] && b.totalSupply + shares[0] <= p.maxSupply
    requires p.maxSupply < b.totalSupply + shares[0] + shares[1] < U64_MOD
    ensures j == 1 && Running(b, shares, 1) == b.totalSupply + shares[0]
  {
    assert shares[..1] == [shares[0]] && shares[..2] == [shares[0], shares[1]];
    assert [shares[0], shares[1]][1..] == [shares[1]] && [shares[1]][1..] == [] && [shares[0]][1..] == [];
    assert SumSeq([shares[0]]) == shares[0] && SumSeq([shares[0], shares[1]]) == shares[0] + shares[1];
    assert Affordable(p, b, shares, 0) && !Affordable(p, b, shares, 1);
  }

  lemma {:induction false} WideSettles()
    ensures var tx := WIDE_INPUTS[9].tx; PaidHalfway(WIDE, WIDE_9, tx) && Settles(BlockStep(WIDE, WIDE_9, tx, 0), 753)
  {
    hide Halfway, DistributeFees, CalculateFee, DueVoters, BlockStep, Settles;
    WideVoters();
    WideFee();
    WideStop();
    SettlesUnpaid(WIDE, WIDE_9, WIDE_INPUTS[9].tx);
  }

  lemma {:induction false} WideConserved()
    ensures SoundParams(WIDE) && Conserved(WIDE, Genesis(WIDE_BALANCES).bank)
  {
    hide Conserved, Genesis;
    var rest := WIDE_BALANCES[1..];
    assert rest == [GenesisBalance(3, 100), GenesisBalance(5, 10)] && rest[1..] == [GenesisBalance(5, 10)] && rest[1..][1..] == [];
    assert InitialTotal(WIDE_BALANCES) == 610;
    GenesisConservedIff(WIDE, WIDE_BALANCES);
  }

  /**
   * With sound parameters and a conserved genesis a half-way payment takes an overdrawn withdrawal
   * first: here a validator slashed while it withdraws is left with a stake of a word less 50.
   */
  lemma {:induction false} OverdraftHalfwayExample()
    ensures SoundParams(WIDE) && Conserved(WIDE, Genesis(WIDE_BALANCES).bank)
    ensures Overdraws(Run(WIDE, Genesis(WIDE_BALANCES), WIDE_INPUTS[..3]), WIDE_INPUTS[3].tx)
    ensures HalfwayAt(WIDE, Genesis(WIDE_BALANCES), WIDE_INPUTS, 9)
    ensures Settles(BlockStep(WIDE, Run(WIDE, Genesis(WIDE_BALANCES), WIDE_INPUTS[..9]), WIDE_INPUTS[9].tx, 0), 753)
  {
    hide Run, Genesis, PaidHalfway, BlockStep, Conserved, After, Overdraws;
    WideConserved();
    WideTrace();
    WideOverdrawn();
    WideSettles();
  }
}
