/**
 * From genesis to any act the rules can let through: fund and stake a quorum, create the PayLink,
 * vote.  With it the condition of meeting the rules is exact for runs of the chain.
 */
module Reachable {
  import opened Numbers
  import opened Collections
  import opened Rules
  import opened ChainState
  import opened Executor
  import opened Demo
  import opened Lifecycle
  import opened Meetable

  // ---------------------------------------------------------------- one more transaction

  /** The next transaction of a sender. */
  function NextInput(s: State, from: Address, body: Body, now: int64): Input {
    Input(Tx(0, from, AccountOf(s.bank, from).nonce, body, true), now)
  }

  /** A state that some run from another reaches. */
  ghost predicate Reached(p: Params, g: State, s: State) {
    exists inputs: seq<Input> :: Run(p, g, inputs) == s
  }

  /** The state after a committed transaction: what the handler made of it, with the nonce advanced. */
  ghost function Committed(s: State, from: Address, r: Effect): State {
    r.state.(bank := IncrementNonce(r.state.bank, from))
  }

  lemma {:induction false} Extend(p: Params, g: State, s: State, from: Address, body: Body, now: int64)
    requires Reached(p, g, s) && Dispatch(p, s, NextInput(s, from, body, now).tx, now).Ok?
    ensures Reached(p, g, Committed(s, from, Dispatch(p, s, NextInput(s, from, body, now).tx, now).value))
  {
    hide Dispatch, IncrementNonce;
    var inputs: seq<Input> :| Run(p, g, inputs) == s;
    var i := NextInput(s, from, body, now);
    var longer := inputs + [i];
    assert longer[..|inputs|] == inputs && longer[..|inputs| + 1] == longer;
    RunGrows(p, g, longer, |inputs|);
    assert Run(p, g, longer) == Committed(s, from, Dispatch(p, s, i.tx, now).value);
  }

  lemma Starts(p: Params, g: State)
    ensures Reached(p, g, g)
  {
    assert Run(p, g, []) == g;
  }

  // ---------------------------------------------------------------- a staked quorum

  /** Enough to be active. */
  function Deposit(p: Params): (x: uint64)
    ensures x > 0 && x >= p.minimumStake
  {
    if p.minimumStake == 0 then 1 else p.minimumStake
  }

  ghost function Funding(p: Params, voters: seq<Address>): seq<GenesisBalance> {
    if voters == [] then [] else [GenesisBalance(voters[0], Deposit(p))] + Funding(p, voters[1..])
  }

  lemma {:induction false} Funded(p: Params, b: Bank, voters: seq<Address>)
    requires NoDup(voters)
    ensures var f := Fund(b, Funding(p, voters));
      && f.validators == b.validators
      && (forall a :: a in voters ==> a in f.accounts && f.accounts[a].balance == Deposit(p))
      && (forall a :: a !in voters && a in b.accounts ==> a in f.accounts && f.accounts[a] == b.accounts[a])
    decreases |voters|
  {
    hide Deposit;
    if voters != [] {
      var g, rest := GenesisBalance(voters[0], Deposit(p)), voters[1..];
      assert Funding(p, voters)[1..] == Funding(p, rest) && Funding(p, voters)[0] == g;
      assert voters[0] !in rest && (forall a :: a in voters <==> a == voters[0] || a in rest);
      Funded(p, PutAccount(b, g.address, Account(g.balance, 0)).(totalSupply := Add64(b.totalSupply, g.balance)), rest);
    }
  }

  /** Voters not yet staked hold their deposit; the others are active. */
  ghost predicate Staking(p: Params, s: State, done: seq<Address>, rest: seq<Address>) {
    && s.links == EmptyLinks()
    && (forall a :: a in done ==> IsActive(s.bank, a))
    && (forall a :: a in rest ==> a !in s.bank.validators && a in s.bank.accounts && s.bank.accounts[a].balance >= Deposit(p))
  }

  lemma {:induction false} StakeNext(p: Params, s: State, done: seq<Address>, rest: seq<Address>)
    requires rest != [] && NoDup(rest) && Staking(p, s, done, rest)
    ensures var tx := NextInput(s, rest[0], StakeTokens(Deposit(p)), 0).tx;
      && Dispatch(p, s, tx, 0).Ok?
      && Staking(p, Committed(s, rest[0], Dispatch(p, s, tx, 0).value), done + [rest[0]], rest[1..])
  {
    hide Deposit;
    assert rest[0] in rest;
    assert forall a :: a in rest[1..] ==> a in rest && a != rest[0];
    assert forall a :: a in done + [rest[0]] <==> a in done || a == rest[0];
  }

  lemma {:induction false} StakeAll(p: Params, g: State, s: State, done: seq<Address>, rest: seq<Address>) returns (t: State)
    requires Reached(p, g, s) && NoDup(rest) && Staking(p, s, done, rest)
    ensures Reached(p, g, t) && Staking(p, t, done + rest, [])
    decreases |rest|
  {
    hide Reached, Staking, Dispatch;
    if rest == [] {
      t := s;
      assert done + rest == done;
    } else {
      var body := StakeTokens(Deposit(p));
      StakeNext(p, s, done, rest);
      Extend(p, g, s, rest[0], body, 0);
      t := StakeAll(p, g, Committed(s, rest[0], Dispatch(p, s, NextInput(s, rest[0], body, 0).tx, 0).value), done + [rest[0]], rest[1..]);
      assert (done + [rest[0]]) + rest[1..] == done + rest;
    }
  }

  /** Some run stakes all of the voters. */
  lemma {:induction false} QuorumStaked(p: Params, voters: seq<Address>) returns (s: State)
    requires NoDup(voters)
    ensures Reached(p, Genesis(Funding(p, voters)), s) && Staking(p, s, voters, [])
  {
    hide Deposit;
    var g := Genesis(Funding(p, voters));
    Funded(p, EmptyBank(), voters);
    Starts(p, g);
    assert Staking(p, g, [], voters);
    s := StakeAll(p, g, g, [], voters);
    assert [] + voters == voters;
  }

  // ---------------------------------------------------------------- creation

  /** A record as creation writes it, of a PayLink that creation accepts. */
  predicate Creatable(pl: PayLink) {
    && pl.owner == pl.creator && pl.approved == ZERO_ADDRESS && pl.status == Created && pl.voteCount == 0 && pl.transferCount == 0
    && pl.receiver != ZERO_ADDRESS && pl.amount != 0 && pl.createdAt < pl.expiry && ValidateField(pl.rules).None?
  }

  function CreationOf(pl: PayLink): Body {
    CreatePayLink(pl.id, pl.receiver, pl.amount, pl.expiry, pl.metadata, pl.rules)
  }

  /** The PayLink has been created and voted on by the first voters; the quorum is active. */
  ghost predicate Voting(s: State, pl: PayLink, voters: seq<Address>, done: seq<Address>) {
    && |done| < U64_MOD && pl.id in s.links.paylinks && s.links.paylinks[pl.id] == pl.(voteCount := |done|)
    && Voters(s.links, pl.id) == Elements(done) && s.links.usedProofs == {}
    && (pl.id in s.links.submittedProofs ==> s.links.submittedProofs[pl.id] == 0)
    && (forall a :: a in voters ==> IsActive(s.bank, a))
  }

  lemma {:induction false} Creates(p: Params, s: State, pl: PayLink, voters: seq<Address>)
    requires Creatable(pl) && Staking(p, s, voters, [])
    ensures var tx := NextInput(s, pl.creator, CreationOf(pl), pl.createdAt).tx;
      && Dispatch(p, s, tx, pl.createdAt).Ok?
      && Voting(Committed(s, pl.creator, Dispatch(p, s, tx, pl.createdAt).value), pl, voters, [])
  {
    hide ValidateField, Append;
    assert Elements<Address>([]) == {};
  }

  /** Some run stakes the voters and commits the creation. */
  lemma {:induction false} CreationReached(p: Params, pl: PayLink, voters: seq<Address>) returns (s: State)
    requires Creatable(pl) && NoDup(voters)
    ensures Reached(p, Genesis(Funding(p, voters)), s) && Voting(s, pl, voters, [])
  {
    hide Reached, Staking, Voting, Dispatch, Creatable;
    var staked := QuorumStaked(p, voters);
    Creates(p, staked, pl, voters);
    Extend(p, Genesis(Funding(p, voters)), staked, pl.creator, CreationOf(pl), pl.createdAt);
    s := Committed(staked, pl.creator, Dispatch(p, staked, NextInput(staked, pl.creator, CreationOf(pl), pl.createdAt).tx, pl.createdAt).value);
  }

  // ---------------------------------------------------------------- votes short of the quorum

  lemma {:induction false} VoteNext(p: Params, s: State, pl: PayLink, voters: seq<Address>, done: seq<Address>, a: Address, now: int64)
    requires pl.status == Created && Voting(s, pl, voters, done) && a in voters && a !in done && now <= pl.expiry && |done| + 1 < p.required
    ensures var tx := NextInput(s, a, SubmitValidation(pl.id, 0), now).tx;
      && Dispatch(p, s, tx, now).Ok? && Voting(Committed(s, a, Dispatch(p, s, tx, now).value), pl, voters, done + [a])
  {
    hide CollectFees, EvaluateField, VotersIn;
    VotersAre(s.links, pl.id, a, 0);
    NotVoted(s.links, pl.id, a);
    assert Elements(done + [a]) == Elements(done) + {a};
  }

  lemma {:induction false} NotVoted(l: Links, id: Hash, a: Address)
    ensures (id, a) in l.votes <==> a in Voters(l, id)
  {}

  lemma {:induction false} VoteAll(p: Params, g: State, s: State, pl: PayLink, voters: seq<Address>, done: seq<Address>,
                                   rest: seq<Address>, now: int64) returns (t: State)
    requires Reached(p, g, s) && pl.status == Created && Voting(s, pl, voters, done) && now <= pl.expiry
    requires NoDup(done + rest) && (forall a :: a in rest ==> a in voters) && (rest == [] || |done| + |rest| < p.required)
    ensures Reached(p, g, t) && Voting(t, pl, voters, done + rest)
    decreases |rest|
  {
    hide Reached, Voting, Dispatch;
    if rest == [] {
      t := s;
      assert done + rest == done;
    } else {
      var a, body := rest[0], SubmitValidation(pl.id, 0);
      FirstOfRest(done, rest);
      VoteNext(p, s, pl, voters, done, a, now);
      Extend(p, g, s, a, body, now);
      t := VoteAll(p, g, Committed(s, a, Dispatch(p, s, NextInput(s, a, body, now).tx, now).value), pl, voters, done + [a], rest[1..], now);
      assert (done + [a]) + rest[1..] == done + rest;
    }
  }

  lemma {:induction false} FirstOfRest(done: seq<Address>, rest: seq<Address>)
    requires NoDup(done + rest) && rest != []
    ensures rest[0] !in done && NoDup((done + [rest[0]]) + rest[1..])
  {
    var all := done + rest;
    assert (done + [rest[0]]) + rest[1..] == all;
    assert all[|done|] == rest[0];
    forall i | 0 <= i < |done| ensures done[i] != rest[0] {
      assert all[i] == done[i];
    }
  }

  // ---------------------------------------------------------------- every act that can be

  lemma {:induction false} ReachedConsistent(p: Params, balances: seq<GenesisBalance>, s: State)
    requires Reached(p, Genesis(balances), s)
    ensures LinksOk(p, s.links)
  {
    hide LinksOk, Run, Genesis;
    var inputs: seq<Input> :| Run(p, Genesis(balances), inputs) == s;
    GenesisLinks(p, balances);
    RunKeepsLinks(p, Genesis(balances), inputs);
  }

  lemma {:induction false} ReachedOn(p: Params, g: State, s: State, t: State)
    requires Reached(p, g, s) && Reached(p, s, t)
    ensures Reached(p, g, t)
  {
    hide After;
    var x: seq<Input> :| Run(p, g, x) == s;
    var y: seq<Input> :| Run(p, s, y) == t;
    RunOn(p, g, x, y);
  }

  lemma {:induction false} RunOn(p: Params, g: State, x: seq<Input>, y: seq<Input>)
    ensures Run(p, g, x + y) == Run(p, Run(p, g, x), y)
    decreases |y|
  {
    hide After;
    if y == [] {
      assert x + y == x;
    } else {
      var n := |y| - 1;
      RunOn(p, g, x, y[..n]);
      assert (x + y)[..|x + y| - 1] == x + y[..n] && (x + y)[|x + y| - 1] == y[n];
    }
  }

  /** All voters but the sender. */
  lemma {:induction false} OthersOf(voters: seq<Address>, sender: Address)
    requires Sorted(voters) && sender in voters
    ensures var others := Without(voters, sender);
      NoDup(others) && |others| == |voters| - 1 && Elements(others) == Elements(voters) - {sender} && forall a :: a in others ==> a in voters
  {
    SortedNoDup(voters);
    WithoutExact(voters, sender);
    NoDupCard(voters);
    NoDupCard(Without(voters, sender));
    assert Elements(Without(voters, sender)) == Elements(voters) - {sender};
    assert Elements(voters) == (Elements(voters) - {sender}) + {sender};
  }

  lemma {:induction false} SettlementContext(p: Params, pl: PayLink, c: Context)
    requires c.action == Settle && Possible(p, pl, c)
    ensures Sorted(c.approvals) && NoDup(c.approvals) && |c.approvals| == Quorum(p) && c.sender in c.approvals && c.now <= pl.expiry
    ensures |c.approvals| == 1 || |c.approvals| == p.required
  {
    SortedNoDup(c.approvals);
    NoDupCard(c.approvals);
  }

  lemma {:induction false} ShortOfOne(p: Params, pl: PayLink, c: Context, s: State, voters: seq<Address>, others: seq<Address>)
    requires Voting(s, pl, voters, others) && voters == c.approvals && c.sender in voters && |others| == Quorum(p) - 1
    requires Elements(others) == Elements(voters) - {c.sender}
    ensures OneVoteShort(p, pl, c, s)
  {
    hide VotersIn;
    NotVoted(s.links, pl.id, c.sender);
  }

  lemma CreatableOpen(pl: PayLink)
    requires Creatable(pl)
    ensures pl.status == Created && TransfersBound(pl) && ValidateField(pl.rules).None? && pl.voteCount == 0
  {}

  /** From the created PayLink all but the last vote of a possible settlement. */
  lemma {:induction false} ReachLastVote(p: Params, pl: PayLink, c: Context) returns (created: State, s: State)
    requires Creatable(pl) && c.action == Settle && Possible(p, pl, c)
    ensures Reached(p, Genesis(Funding(p, c.approvals)), created) && Voting(created, pl, c.approvals, [])
    ensures Reached(p, created, s) && OneVoteShort(p, pl, c, s)
  {
    hide Reached, Voting, Creatable, Dispatch, SortedSeq, Without, Sorted, Possible, TransfersBound, ValidateField;
    CreatableOpen(pl);
    var voters := c.approvals;
    SettlementContext(p, pl, c);
    OthersOf(voters, c.sender);
    var others := Without(voters, c.sender);
    created := CreationReached(p, pl, voters);
    Starts(p, created);
    assert [] + others == others;
    s := VoteAll(p, created, created, pl, voters, [], others, c.now);
    ShortOfOne(p, pl, c, s, voters, others);
  }

  /** Some run from genesis reaches a state that holds this PayLink, up to its votes, and commits an act of this kind on it. */
  ghost predicate CanBeReached(p: Params, pl: PayLink, action: Action) {
    exists balances: seq<GenesisBalance>, s: State, tx: Tx, c: Context :: Reached(p, Genesis(balances), s) && ActsIn(p, pl, action, s, tx, c)
  }

  lemma {:induction false} ReachSettlement(p: Params, pl: PayLink, c: Context)
    requires Creatable(pl) && c.action == Settle && Possible(p, pl, c) && EvaluateField(pl.rules, c).None?
    ensures CanBeReached(p, pl, Settle)
  {
    hide Reached, Voting, Creatable, EvaluateField, LinksOk, Dispatch, RuledAct, Possible, TransfersBound, ValidateField, Genesis;
    CreatableOpen(pl);
    var created, s := ReachLastVote(p, pl, c);
    var balances := Funding(p, c.approvals);
    LastVoteSettles(p, pl, c, s);
    ReachedOn(p, Genesis(balances), created, s);
    ReachedConsistent(p, balances, s);
    assert ActsIn(p, pl, Settle, s, ActOf(pl, c), c);
  }

  lemma {:induction false} CancelCommits(p: Params, pl: PayLink, c: Context, s: State)
    requires c.action == Cancel && Possible(p, pl, c) && EvaluateField(pl.rules, c).None? && Creatable(pl) && Voting(s, pl, [], [])
    ensures var tx := ActOf(pl, c); Dispatch(p, s, tx, c.now).Ok? && RuledAct(p, s, tx, c.now) == Some((pl.id, c))
    ensures s.links.paylinks[pl.id] == pl
  {
    hide EvaluateField, ValidateField, Append, Remove;
  }

  lemma {:induction false} TransferCommits(p: Params, pl: PayLink, c: Context, s: State)
    requires c.action == Transfer && Possible(p, pl, c) && EvaluateField(pl.rules, c).None? && Creatable(pl) && Voting(s, pl, [], [])
    requires c.sender in {pl.owner, ZERO_ADDRESS} || (pl.owner, c.sender) in s.links.operators
    ensures var tx := ActOf(pl, c); Dispatch(p, s, tx, c.now).Ok? && RuledAct(p, s, tx, c.now) == Some((pl.id, c))
    ensures s.links.paylinks[pl.id] == pl
  {
    hide EvaluateField, ValidateField, Append, Remove;
  }

  /** The owner appoints the sender of a transfer. */
  lemma {:induction false} Appoints(p: Params, pl: PayLink, operator: Address, s: State)
    requires operator != pl.owner && operator != ZERO_ADDRESS && Voting(s, pl, [], [])
    ensures var tx := NextInput(s, pl.owner, SetApprovalForAll(operator, true), 0).tx;
      && Dispatch(p, s, tx, 0).Ok?
      && var t := Committed(s, pl.owner, Dispatch(p, s, tx, 0).value); Voting(t, pl, [], []) && (pl.owner, operator) in t.links.operators
  {}

  lemma {:induction false} ReachCancel(p: Params, pl: PayLink, c: Context)
    requires Creatable(pl) && c.action == Cancel && Possible(p, pl, c) && EvaluateField(pl.rules, c).None?
    ensures CanBeReached(p, pl, Cancel)
  {
    hide Reached, Voting, Creatable, EvaluateField, LinksOk, Dispatch, RuledAct, Possible, Genesis;
    var s := CreationReached(p, pl, []);
    ReachedConsistent(p, Funding(p, []), s);
    CancelCommits(p, pl, c, s);
    HoldsLink(s, pl);
    assert ActsIn(p, pl, Cancel, s, ActOf(pl, c), c);
  }

  lemma HoldsLink(s: State, pl: PayLink)
    requires Voting(s, pl, [], [])
    ensures pl.id in s.links.paylinks
  {}

  lemma {:induction false} ReachTransfer(p: Params, pl: PayLink, c: Context)
    requires Creatable(pl) && c.action == Transfer && Possible(p, pl, c) && EvaluateField(pl.rules, c).None?
    ensures CanBeReached(p, pl, Transfer)
  {
    hide Reached, Voting, Creatable, EvaluateField, LinksOk, Dispatch, RuledAct, Possible, Genesis;
    var s := CreationReached(p, pl, []);
    if c.sender !in {pl.owner, ZERO_ADDRESS} {
      var body := SetApprovalForAll(c.sender, true);
      Appoints(p, pl, c.sender, s);
      Extend(p, Genesis(Funding(p, [])), s, pl.owner, body, 0);
      s := Committed(s, pl.owner, Dispatch(p, s, NextInput(s, pl.owner, body, 0).tx, 0).value);
    }
    ReachedConsistent(p, Funding(p, []), s);
    TransferCommits(p, pl, c, s);
    HoldsLink(s, pl);
    assert ActsIn(p, pl, Transfer, s, ActOf(pl, c), c);
  }

  /**
   * For every record that creation can write: some run from genesis commits a settlement, a
   * cancellation or a transfer of it if and only if a possible context passes all its rules.
   */
  lemma {:induction false} ReachableIff(p: Params, pl: PayLink, action: Action)
    requires Creatable(pl)
    ensures CanBeReached(p, pl, action) <==> Passable(p, pl, action)
  {
    hide Reached, ActsIn, Possible, EvaluateField, Creatable, TransfersBound, ValidateField, Genesis;
    CreatableOpen(pl);
    CanHappenIff(p, pl, action);
    if Passable(p, pl, action) {
      var c: Context :| c.action == action && Possible(p, pl, c) && EvaluateField(pl.rules, c).None?;
      match action
      case Settle => ReachSettlement(p, pl, c);
      case Cancel => ReachCancel(p, pl, c);
      case Transfer => ReachTransfer(p, pl, c);
      case OtherAction(_) => NoOtherAct(p, pl, c);
    }
  }

  lemma NoOtherAct(p: Params, pl: PayLink, c: Context)
    requires c.action.OtherAction?
    ensures !Possible(p, pl, c)
  {}

  // ---------------------------------------------------------------- created and later verified

  /** Some run from genesis commits the creation of this record and verifies it later. */
  ghost predicate GetsVerified(p: Params, pl: PayLink) {
    exists balances: seq<GenesisBalance>, s: State, t: State ::
      && Reached(p, Genesis(balances), s) && Reached(p, s, t)
      && pl.id in s.links.paylinks && s.links.paylinks[pl.id] == pl
      && pl.id in t.links.paylinks && t.links.paylinks[pl.id].status == Verified
  }

  /** A record that creation can write gets verified in some run if and only if a possible settlement passes all its rules. */
  lemma {:induction false} GetsVerifiedIff(p: Params, pl: PayLink)
    requires Creatable(pl)
    ensures GetsVerified(p, pl) <==> Passable(p, pl, Settle)
  {
    hide Reached, Creatable, Possible, EvaluateField, TransfersBound, ValidateField, Genesis, Passable;
    CreatableOpen(pl);
    if GetsVerified(p, pl) && !Passable(p, pl, Settle) {
      var balances: seq<GenesisBalance>, s: State, t: State :|
        && Reached(p, Genesis(balances), s) && Reached(p, s, t)
        && pl.id in s.links.paylinks && s.links.paylinks[pl.id] == pl
        && pl.id in t.links.paylinks && t.links.paylinks[pl.id].status == Verified;
      NeverVerified(p, balances, s, t, pl);
    }
    if Passable(p, pl, Settle) {
      VerifiedOnce(p, pl);
    }
  }

  lemma {:induction false} NeverVerified(p: Params, balances: seq<GenesisBalance>, s: State, t: State, pl: PayLink)
    requires Reached(p, Genesis(balances), s) && Reached(p, s, t) && pl.status == Created && !Passable(p, pl, Settle)
    requires pl.id in s.links.paylinks && s.links.paylinks[pl.id] == pl
    ensures pl.id in t.links.paylinks && t.links.paylinks[pl.id].status != Verified
  {
    hide LinksOk, Passable, Run, Genesis;
    ReachedConsistent(p, balances, s);
    var inputs: seq<Input> :| Run(p, s, inputs) == t;
    UnmeetableNeverVerifies(p, s, inputs, pl.id);
  }

  lemma {:induction false} VerifiedOnce(p: Params, pl: PayLink)
    requires Creatable(pl) && Passable(p, pl, Settle)
    ensures GetsVerified(p, pl)
  {
    hide Reached, Voting, Creatable, EvaluateField, Dispatch, RuledAct, Possible, TransfersBound, ValidateField, Genesis;
    CreatableOpen(pl);
    var c: Context :| c.action == Settle && Possible(p, pl, c) && EvaluateField(pl.rules, c).None?;
    var created, s := ReachLastVote(p, pl, c);
    LastVoteSettles(p, pl, c, s);
    VoteByNext(p, pl, c, s);
    var body := SubmitValidation(pl.id, 0);
    Extend(p, created, s, c.sender, body, c.now);
    var t := Committed(s, c.sender, Dispatch(p, s, NextInput(s, c.sender, body, c.now).tx, c.now).value);
    HoldsNew(created, pl, c.approvals);
    assert Reached(p, Genesis(Funding(p, c.approvals)), created) && Reached(p, created, t);
    assert pl.id in t.links.paylinks && t.links.paylinks[pl.id].status == Verified;
  }

  /** What a handler does depends on the sender and the body of a transaction. */
  lemma {:induction false} VoteByNext(p: Params, pl: PayLink, c: Context, s: State)
    requires c.action == Settle
    ensures Dispatch(p, s, NextInput(s, c.sender, SubmitValidation(pl.id, 0), c.now).tx, c.now) == Dispatch(p, s, ActOf(pl, c), c.now)
  {
    hide DoVote;
  }

  lemma HoldsNew(s: State, pl: PayLink, voters: seq<Address>)
    requires Voting(s, pl, voters, []) && pl.voteCount == 0
    ensures pl.id in s.links.paylinks && s.links.paylinks[pl.id] == pl
  {}

  // ---------------------------------------------------------------- created, never verified

  /** Some run from genesis commits the creation of this record. */
  ghost predicate GetsCreated(p: Params, pl: PayLink) {
    exists balances: seq<GenesisBalance>, s: State ::
      Reached(p, Genesis(balances), s) && pl.id in s.links.paylinks && s.links.paylinks[pl.id] == pl
  }

  /** A record with a rule that cannot be met at settlement is created in some run and verified in none. */
  lemma {:induction false} BlockedForGood(p: Params, pl: PayLink)
    requires Creatable(pl) && Blocked(p, pl)
    ensures GetsCreated(p, pl) && !GetsVerified(p, pl)
  {
    hide Reached, Voting, Creatable, Blocked, Genesis, Passable, GetsVerified, TransfersBound, ValidateField;
    CreatableOpen(pl);
    var s := CreationReached(p, pl, []);
    HoldsNew(s, pl, []);
    BlockedUnmeetable(p, pl);
    GetsVerifiedIff(p, pl);
    assert Reached(p, Genesis(Funding(p, [])), s) && pl.id in s.links.paylinks && s.links.paylinks[pl.id] == pl;
  }

  const PARAMS_OF_THREE := DEMO_PARAMS.(required := 3)

  function LinkOfHundred(r: Rule): PayLink {
    PayLink(7, 1, 3, 1, 0, 100, 50, Created, 0, 0, 0, 0, RuleList([r]))
  }

  lemma {:induction false} BlockedBy(p: Params, r: Rule)
    requires ValidateOne(r).None? && !CanBeMet(p, LinkOfHundred(r), r, Settle)
    ensures var pl := LinkOfHundred(r); Blocked(p, pl) && GetsCreated(p, pl) && !GetsVerified(p, pl)
  {
    hide GetsCreated, GetsVerified, CanBeMet;
    var pl := LinkOfHundred(r);
    assert r in RulesOf(pl.rules);
    ValidateAll([r]);
    BlockedForGood(p, pl);
  }

  /** An approver listed twice: no set of voters holds two distinct approvers. */
  lemma {:induction false} RepeatedApproverExample()
    ensures var r := MultiApproval(Some(ApprovalParams(2, [7, 7])));
      var pl := LinkOfHundred(r); Blocked(PARAMS_OF_THREE, pl) && GetsCreated(PARAMS_OF_THREE, pl) && !GetsVerified(PARAMS_OF_THREE, pl)
  {
    hide GetsCreated, GetsVerified;
    var approvers: seq<Address> := [7, 7];
    var r := MultiApproval(Some(ApprovalParams(2, approvers)));
    assert Elements(approvers) == {7};
    BlockedBy(PARAMS_OF_THREE, r);
  }

  /** Five approvals where three votes settle. */
  lemma {:induction false} AboveQuorumExample()
    ensures var r := MultiApproval(Some(ApprovalParams(5, [1, 2, 3, 4, 5])));
      var pl := LinkOfHundred(r); Blocked(PARAMS_OF_THREE, pl) && GetsCreated(PARAMS_OF_THREE, pl) && !GetsVerified(PARAMS_OF_THREE, pl)
  {
    hide GetsCreated, GetsVerified;
    var r := MultiApproval(Some(ApprovalParams(5, [1, 2, 3, 4, 5])));
    BlockedBy(PARAMS_OF_THREE, r);
  }

  /** A bound that excludes the PayLink's own amount blocks its cancellation and transfer as well. */
  lemma {:induction false} OwnAmountExample()
    ensures var r := AmountThreshold(Some(AmountParams(0, 99))); var pl := LinkOfHundred(r);
      && Blocked(PARAMS_OF_THREE, pl) && GetsCreated(PARAMS_OF_THREE, pl) && !GetsVerified(PARAMS_OF_THREE, pl)
      && !Passable(PARAMS_OF_THREE, pl, Cancel) && !Passable(PARAMS_OF_THREE, pl, Transfer)
  {
    hide Passable, RuleMeetable, GetsCreated, GetsVerified;
    var r := AmountThreshold(Some(AmountParams(0, 99)));
    var pl := LinkOfHundred(r);
    BlockedBy(PARAMS_OF_THREE, r);
    RuleMeetableIff(PARAMS_OF_THREE, pl, r, Cancel);
    RuleMeetableIff(PARAMS_OF_THREE, pl, r, Transfer);
    assert r in RulesOf(pl.rules);
    if Passable(PARAMS_OF_THREE, pl, Cancel) { EachMeetable(PARAMS_OF_THREE, pl, Cancel, r); }
    if Passable(PARAMS_OF_THREE, pl, Transfer) { EachMeetable(PARAMS_OF_THREE, pl, Transfer, r); }
  }

  /** A settlement window that opens after the PayLink has expired. */
  lemma {:induction false} LateWindowExample()
    ensures var r := TimeLock(Some(TimeLockParams(60, 0, [Settle])));
      var pl := LinkOfHundred(r); Blocked(PARAMS_OF_THREE, pl) && GetsCreated(PARAMS_OF_THREE, pl) && !GetsVerified(PARAMS_OF_THREE, pl)
  {
    hide GetsCreated, GetsVerified;
    var r := TimeLock(Some(TimeLockParams(60, 0, [Settle])));
    BlockedBy(PARAMS_OF_THREE, r);
  }
}
