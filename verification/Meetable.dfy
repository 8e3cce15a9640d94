/**
 * Which rules a PayLink can ever meet.  Creation checks the shape of a rule; whether it can be met
 * depends on the record it is attached to and on the validator quorum.  The exact condition per
 * rule, and what follows for every run when a rule cannot be met.
 */
module Meetable {
  import opened Numbers
  import opened Collections
  import opened Rules
  import opened ChainState
  import opened Executor
  import opened Lifecycle
  import Settlement

  // ---------------------------------------------------------------- the contexts the executor builds

  /** A context the executor can hand to the rule engine for this PayLink. */
  ghost predicate Possible(p: Params, pl: PayLink, c: Context) {
    && c.amount == pl.amount
    && match c.action
       case Settle =>
         && c.approvals == SortedSeq(Elements(c.approvals)) && |Elements(c.approvals)| == Quorum(p)
         && c.sender in c.approvals && c.now <= pl.expiry && c.receiver == ZERO_ADDRESS && c.transferCount == 0
       case Cancel =>
         c.sender in {pl.creator, pl.owner} && c.receiver == ZERO_ADDRESS && c.transferCount == 0 && c.approvals == []
       case Transfer =>
         c.receiver != ZERO_ADDRESS && c.receiver != pl.owner && c.transferCount == pl.transferCount && c.approvals == []
       case OtherAction(_) => false
  }

  ghost predicate Passable(p: Params, pl: PayLink, action: Action) {
    exists c: Context :: c.action == action && Possible(p, pl, c) && EvaluateField(pl.rules, c).None?
  }

  ghost predicate RuleMeetable(p: Params, pl: PayLink, r: Rule, action: Action) {
    exists c: Context :: c.action == action && Possible(p, pl, c) && EvaluateOne(r, c).None?
  }

  /** A PayLink whose rules can all be met together has no rule that cannot be met. */
  lemma {:induction false} EachMeetable(p: Params, pl: PayLink, action: Action, r: Rule)
    requires Passable(p, pl, action) && r in RulesOf(pl.rules)
    ensures RuleMeetable(p, pl, r, action)
  {
    hide EvaluateOne, Possible;
    var c: Context :| c.action == action && Possible(p, pl, c) && EvaluateField(pl.rules, c).None?;
    EvaluateAll(RulesOf(pl.rules), c);
  }

  /** In a consistent state every committed act on a PayLink has a possible context that passes its rules. */
  lemma {:induction false} ActsPossible(p: Params, s: State, tx: Tx, now: int64)
    requires LinksOk(p, s.links) && Dispatch(p, s, tx, now).Ok? && RuledAct(p, s, tx, now).Some?
    ensures var (id, c) := RuledAct(p, s, tx, now).value;
      id in s.links.paylinks && Possible(p, s.links.paylinks[id], c) && EvaluateField(s.links.paylinks[id].rules, c).None?
  {
    hide LinksOk, EvaluateField, SetStatus, SetOwner, MayTransfer, CollectFees, Settled, SortedSeq, IsActive, VotersIn, CastVote;
    if tx.body.SubmitValidation? {
      VotePossible(p, s, tx, now);
    }
  }

  lemma {:induction false} VotePossible(p: Params, s: State, tx: Tx, now: int64)
    requires LinksOk(p, s.links) && Dispatch(p, s, tx, now).Ok? && RuledAct(p, s, tx, now).Some? && tx.body.SubmitValidation?
    ensures var (id, c) := RuledAct(p, s, tx, now).value;
      id in s.links.paylinks && Possible(p, s.links.paylinks[id], c) && EvaluateField(s.links.paylinks[id].rules, c).None?
  {
    hide LinksOk, EvaluateField, CollectFees, Settled, SortedSeq, IsActive, VotersIn, Quorum;
    var (id, c) := RuledAct(p, s, tx, now).value;
    var voters := Voters(s.links, id) + {tx.from};
    VotedOnCreated(s, tx.from, id, tx.body.proof, now);
    VoteAddsVoter(s.links.votes, id, tx.from);
    VotersAre(s.links, id, tx.from, tx.body.proof);
    FillsQuorum(p, s.links, id, tx.from);
    SortedElements(voters);
  }

  lemma SortedElements(v: set<Address>)
    ensures Elements(SortedSeq(v)) == v
  {}

  lemma {:induction false} FillsQuorum(p: Params, l: Links, id: Hash, voter: Address)
    requires LinksOk(p, l) && id in l.paylinks && l.paylinks[id].status == Created && voter !in Voters(l, id)
    requires Add64(l.paylinks[id].voteCount, 1) >= p.required
    ensures |Voters(l, id) + {voter}| == Quorum(p)
  {
    hide SettlementBound, TransfersBound, ValidateField;
    RecordOf(p, l, id);
  }

  // ---------------------------------------------------------------- possible contexts happen

  /** A consistent state in which the act of the context is one transaction away. */
  ghost function Stage(p: Params, pl: PayLink, c: Context): State {
    var votes := set a | a in c.approvals && a != c.sender :: (pl.id, a);
    State(EmptyBank().(validators := map[c.sender := NewValidator(c.sender, 0).(active := true)]),
          EmptyLinks().(paylinks := map[pl.id := pl.(voteCount := if c.action == Settle then Quorum(p) - 1 else 0)],
                        votes := votes, operators := {(pl.owner, c.sender)}),
          {})
  }

  ghost function ActOf(pl: PayLink, c: Context): Tx {
    Tx(0, c.sender, 0,
       match c.action
       case Cancel => CancelPayLink(pl.id)
       case Transfer => TransferPayLink(pl.id, c.receiver)
       case _ => SubmitValidation(pl.id, 0),
       true)
  }

  /** The votes of the stage: all approvals but the sender's. */
  lemma {:induction false} StageVoters(p: Params, pl: PayLink, c: Context)
    requires c.action == Settle ==> c.sender in c.approvals
    ensures Voters(Stage(p, pl, c).links, pl.id) == Elements(c.approvals) - {c.sender}
    ensures c.action == Settle ==> |Voters(Stage(p, pl, c).links, pl.id)| == |Elements(c.approvals)| - 1
  {
    var votes := Stage(p, pl, c).links.votes;
    forall a ensures a in VotersIn(votes, pl.id) <==> a in Elements(c.approvals) - {c.sender} {
      assert a in VotersIn(votes, pl.id) <==> (pl.id, a) in votes;
    }
    if c.action == Settle {
      assert Elements(c.approvals) == (Elements(c.approvals) - {c.sender}) + {c.sender};
    }
  }

  lemma {:induction false} StageConsistent(p: Params, pl: PayLink, c: Context)
    requires Possible(p, pl, c) && pl.status == Created && ValidateField(pl.rules).None? && TransfersBound(pl)
    ensures LinksOk(p, Stage(p, pl, c).links)
  {
    hide ValidateField, TransfersBound, SettlementBound, VotersIn, SortedSeq;
    var l := Stage(p, pl, c).links;
    StageVoters(p, pl, c);
    SameTransfers(pl, l.paylinks[pl.id]);
    assert c.action != Settle ==> Voters(l, pl.id) == {};
    assert RecordsOk(p, l);
    assert forall id :: !HasSettled(p, l, id);
  }

  /** The PayLink is one vote short of its quorum, and the sender of the context may cast it. */
  ghost predicate OneVoteShort(p: Params, pl: PayLink, c: Context, s: State) {
    && pl.id in s.links.paylinks && s.links.paylinks[pl.id] == pl.(voteCount := Quorum(p) - 1)
    && Voters(s.links, pl.id) == Elements(c.approvals) - {c.sender} && (pl.id, c.sender) !in s.links.votes
    && IsActive(s.bank, c.sender) && 0 !in s.links.usedProofs
    && (pl.id in s.links.submittedProofs ==> s.links.submittedProofs[pl.id] == 0)
  }

  /** That vote commits, and settles the PayLink if its context passes the rules. */
  lemma {:induction false} LastVoteSettles(p: Params, pl: PayLink, c: Context, s: State)
    requires c.action == Settle && Possible(p, pl, c) && pl.status == Created && EvaluateField(pl.rules, c).None?
    requires OneVoteShort(p, pl, c, s)
    ensures var tx := ActOf(pl, c);
      && Dispatch(p, s, tx, c.now).Ok? && RuledAct(p, s, tx, c.now) == Some((pl.id, c))
      && pl.id in Dispatch(p, s, tx, c.now).value.state.links.paylinks
      && Dispatch(p, s, tx, c.now).value.state.links.paylinks[pl.id].status == Verified
  {
    hide EvaluateField, CollectFees, Append, Remove, VotersIn, SortedSeq;
    VotersAre(s.links, pl.id, c.sender, 0);
    assert Voters(s.links, pl.id) + {c.sender} == Elements(c.approvals);
  }

  /** Whatever context is possible and passes the rules: the act commits in that state, and a vote settles the PayLink. */
  lemma {:induction false} PossibleHappens(p: Params, pl: PayLink, c: Context)
    requires Possible(p, pl, c) && pl.status == Created && EvaluateField(pl.rules, c).None?
    ensures var s := Stage(p, pl, c); var tx := ActOf(pl, c);
      && Dispatch(p, s, tx, c.now).Ok? && RuledAct(p, s, tx, c.now) == Some((pl.id, c))
      && (c.action == Settle ==> Dispatch(p, s, tx, c.now).value.state.links.paylinks[pl.id].status == Verified)
  {
    hide EvaluateField, DoVote, Append, Remove, VotersIn, SortedSeq;
    if c.action == Settle {
      StageVoters(p, pl, c);
      assert (pl.id, c.sender) !in Stage(p, pl, c).links.votes;
      LastVoteSettles(p, pl, c, Stage(p, pl, c));
    }
  }

  // ---------------------------------------------------------------- sets of voters

  lemma {:induction false} Above(b: set<Address>) returns (x: Address)
    ensures forall y :: y in b ==> y < x
  {
    if b == {} {
      x := 0;
    } else {
      var y :| y in b;
      var z := Above(b - {y});
      x := if z <= y then y + 1 else z;
      assert forall w :: w in b ==> w == y || w in b - {y};
    }
  }

  lemma {:induction false} Grow(b: set<Address>, n: nat) returns (v: set<Address>)
    requires |b| <= n
    ensures b <= v && |v| == n
    decreases n - |b|
  {
    if |b| == n {
      v := b;
    } else {
      var x := Above(b);
      v := Grow(b + {x}, n);
    }
  }

  lemma {:induction false} Shrink(b: set<Address>, n: nat) returns (v: set<Address>)
    requires n <= |b|
    ensures v <= b && |v| == n
    decreases |b|
  {
    if |b| == n {
      v := b;
    } else {
      var x :| x in b;
      v := Shrink(b - {x}, n);
    }
  }

  lemma {:induction false} SubsetCard(a: set<Address>, b: set<Address>)
    requires a <= b
    ensures |a| <= |b|
  {
    assert b == a + (b - a);
  }

  // ---------------------------------------------------------------- one rule

  /** A quorum of validators can hold the required number of distinct approvers. */
  ghost predicate QuotaFits(p: Params, a: ApprovalParams) {
    a.required <= |Elements(a.approvers)| && a.required <= Quorum(p)
  }

  /** When a rule that creation accepts can be met by some act of this kind on this PayLink. */
  ghost predicate CanBeMet(p: Params, pl: PayLink, r: Rule, action: Action) {
    match r
    case TimeLock(Some(w)) =>
      || action !in w.actions || w.notBefore <= 0
      || ((w.notAfter <= 0 || w.notBefore <= w.notAfter) && (action == Settle ==> w.notBefore <= pl.expiry))
    case MultiApproval(Some(a)) => action == Settle ==> QuotaFits(p, a)
    case AmountThreshold(Some(t)) => AmountWithin(t, pl.amount)
    case AddressWhitelist(Some(w)) => action == Cancel && action in w.actions ==> pl.creator in w.addresses || pl.owner in w.addresses
    case ReceiverWhitelist(Some(list)) => action == Transfer ==> exists a :: a in list && a != ZERO_ADDRESS && a != pl.owner
    case MaxTransfers(Some(n)) => action == Transfer ==> pl.transferCount < n
    case _ => false
  }

  /** The context of an act at this time by this sender, with these voters or to this receiver. */
  ghost function ContextOf(pl: PayLink, action: Action, now: int64, sender: Address, receiver: Address, voters: set<Address>): Context {
    match action
    case Settle => Context(action, now, sender, ZERO_ADDRESS, pl.amount, 0, SortedSeq(voters))
    case Transfer => Context(action, now, sender, receiver, pl.amount, pl.transferCount, [])
    case _ => Context(action, now, sender, ZERO_ADDRESS, pl.amount, 0, [])
  }

  lemma {:induction false} ContextPossible(p: Params, pl: PayLink, action: Action, now: int64, sender: Address, receiver: Address, voters: set<Address>)
    requires action in {Settle, Cancel, Transfer}
    requires action == Settle ==> now <= pl.expiry && sender in voters && |voters| == Quorum(p)
    requires action == Cancel ==> sender in {pl.creator, pl.owner}
    requires action == Transfer ==> receiver != ZERO_ADDRESS && receiver != pl.owner
    ensures Possible(p, pl, ContextOf(pl, action, now, sender, receiver, voters))
  {
    hide SortedSeq;
    SortedElements(voters);
  }

  /** A time at which the window is open, if there is one. */
  function Moment(pl: PayLink, r: Rule, action: Action): int64 {
    var latest: int64 := if action == Settle then pl.expiry else 0x7fff_ffff_ffff_ffff;
    match r
    case TimeLock(Some(w)) =>
      if w.notBefore > 0 then (if action == Settle && latest < w.notBefore then latest else w.notBefore)
      else if w.notAfter > 0 && w.notAfter < latest then w.notAfter else latest
    case _ => latest
  }

  /** A sender the rule lists, if it asks for one. */
  function Sender(pl: PayLink, r: Rule, action: Action): Address {
    match r
    case AddressWhitelist(Some(w)) =>
      if action == Cancel then (if pl.creator in w.addresses then pl.creator else pl.owner)
      else if w.addresses == [] then pl.owner else w.addresses[0]
    case _ => pl.owner
  }

  /** A new owner, from the rule's list if it has a usable one. */
  lemma {:induction false} Receiver(pl: PayLink, r: Rule) returns (a: Address)
    ensures a != ZERO_ADDRESS && a != pl.owner
    ensures r.ReceiverWhitelist? && r.receivers.Some? && (exists x :: x in r.receivers.value && x != ZERO_ADDRESS && x != pl.owner) ==>
      a in r.receivers.value
  {
    if r.ReceiverWhitelist? && r.receivers.Some? && exists x :: x in r.receivers.value && x != ZERO_ADDRESS && x != pl.owner {
      a :| a in r.receivers.value && a != ZERO_ADDRESS && a != pl.owner;
    } else {
      a := pl.owner + 1;
    }
  }

  /** A quorum that contains the sender and, where the rule asks for approvals, enough approvers. */
  lemma {:induction false} Assembly(p: Params, r: Rule, sender: Address) returns (from: Address, voters: set<Address>)
    ensures |voters| == Quorum(p) && from in voters
    ensures !r.MultiApproval? ==> from == sender
    ensures r.MultiApproval? && r.approval.Some? && QuotaFits(p, r.approval.value) ==>
      CountApprovals(SortedSeq(voters), r.approval.value.approvers) >= r.approval.value.required
  {
    hide Quorum, CountApprovals, SortedSeq;
    if r.MultiApproval? && r.approval.Some? && QuotaFits(p, r.approval.value) {
      var approvers := r.approval.value.approvers;
      var some := Shrink(Elements(approvers), r.approval.value.required);
      voters := Grow(some, Quorum(p));
      SortedElements(voters);
      SortedNoDup(SortedSeq(voters));
      CountDistinct(SortedSeq(voters), approvers);
      SubsetCard(some, voters * Elements(approvers));
      from :| from in voters;
    } else {
      voters := Grow({sender}, Quorum(p));
      from := sender;
    }
  }

  lemma {:induction false} MetByContext(p: Params, pl: PayLink, r: Rule, action: Action)
    requires ValidateOne(r).None? && action in {Settle, Cancel, Transfer} && CanBeMet(p, pl, r, action)
    ensures RuleMeetable(p, pl, r, action)
  {
    hide SortedSeq, CountApprovals, Possible;
    var from, voters := Assembly(p, r, Sender(pl, r, action));
    var receiver := Receiver(pl, r);
    var sender := if action == Settle then from else Sender(pl, r, action);
    var c := ContextOf(pl, action, Moment(pl, r, action), sender, receiver, voters);
    ContextPossible(p, pl, action, Moment(pl, r, action), sender, receiver, voters);
    assert EvaluateOne(r, c).None?;
  }

  lemma {:induction false} OnlyIfMet(p: Params, pl: PayLink, r: Rule, c: Context)
    requires ValidateOne(r).None? && Possible(p, pl, c) && EvaluateOne(r, c).None?
    ensures CanBeMet(p, pl, r, c.action)
  {
    hide SortedSeq, CountApprovals;
    if r.MultiApproval? && c.action == Settle {
      var approvers := Elements(r.approval.value.approvers);
      SortedNoDup(c.approvals);
      CountDistinct(c.approvals, r.approval.value.approvers);
      SubsetCard(Elements(c.approvals) * approvers, approvers);
      SubsetCard(Elements(c.approvals) * approvers, Elements(c.approvals));
    }
  }

  /**
   * A rule accepted at creation can be met exactly when: its window opens, for settlement no later
   * than the PayLink expires; its quota exceeds neither its distinct approvers nor the validator
   * quorum; its bounds admit the PayLink's own amount; it lists the creator or owner where it
   * guards cancellation; it lists a receiver other than the owner; and transfers are left.
   */
  lemma {:induction false} RuleMeetableIff(p: Params, pl: PayLink, r: Rule, action: Action)
    requires ValidateOne(r).None? && action in {Settle, Cancel, Transfer}
    ensures RuleMeetable(p, pl, r, action) <==> CanBeMet(p, pl, r, action)
  {
    hide CanBeMet, Possible, EvaluateOne, ValidateOne;
    if CanBeMet(p, pl, r, action) {
      MetByContext(p, pl, r, action);
    }
    forall c: Context | c.action == action && Possible(p, pl, c) && EvaluateOne(r, c).None? ensures CanBeMet(p, pl, r, action) {
      OnlyIfMet(p, pl, r, c);
    }
  }

  // ---------------------------------------------------------------- whole PayLinks

  /** Some consistent state holds this PayLink, up to its vote count, and commits an act of this kind on it. */
  ghost predicate CanHappen(p: Params, pl: PayLink, action: Action) {
    exists s: State, tx: Tx, c: Context :: ActsIn(p, pl, action, s, tx, c)
  }

  ghost predicate ActsIn(p: Params, pl: PayLink, action: Action, s: State, tx: Tx, c: Context) {
    && LinksOk(p, s.links) && pl.id in s.links.paylinks && s.links.paylinks[pl.id] == pl.(voteCount := s.links.paylinks[pl.id].voteCount)
    && RuledAct(p, s, tx, c.now) == Some((pl.id, c)) && c.action == action && Dispatch(p, s, tx, c.now).Ok?
  }

  /** An open PayLink can be settled, cancelled or transferred in some state exactly when a possible context passes all its rules. */
  lemma {:induction false} CanHappenIff(p: Params, pl: PayLink, action: Action)
    requires pl.status == Created && ValidateField(pl.rules).None? && TransfersBound(pl)
    ensures CanHappen(p, pl, action) <==> Passable(p, pl, action)
  {
    hide LinksOk, Dispatch, RuledAct, EvaluateField, ValidateField, TransfersBound, Possible, Stage, ActOf;
    forall s: State, tx: Tx, c: Context | ActsIn(p, pl, action, s, tx, c) ensures Passable(p, pl, action) {
      ActsPossible(p, s, tx, c.now);
      SamePossible(p, s.links.paylinks[pl.id], pl, c);
    }
    if Passable(p, pl, action) {
      var c: Context :| c.action == action && Possible(p, pl, c) && EvaluateField(pl.rules, c).None?;
      StageConsistent(p, pl, c);
      PossibleHappens(p, pl, c);
      StageHolds(p, pl, c);
      assert ActsIn(p, pl, action, Stage(p, pl, c), ActOf(pl, c), c);
    }
  }

  lemma StageHolds(p: Params, pl: PayLink, c: Context)
    ensures var l := Stage(p, pl, c).links;
      pl.id in l.paylinks && l.paylinks[pl.id] == pl.(voteCount := l.paylinks[pl.id].voteCount)
  {}

  lemma SamePossible(p: Params, pl: PayLink, pl': PayLink, c: Context)
    requires pl == pl'.(voteCount := pl.voteCount) && Possible(p, pl, c)
    ensures Possible(p, pl', c)
  {
    hide SortedSeq;
  }

  // ---------------------------------------------------------------- what follows for runs

  lemma {:induction false} HandlersVerifyNothing(p: Params, s: State, tx: Tx, now: int64, id: Hash)
    requires !tx.body.SubmitValidation? && Dispatch(p, s, tx, now).Ok? && id in s.links.paylinks
    ensures var l' := Dispatch(p, s, tx, now).value.state.links;
      id in l'.paylinks && (l'.paylinks[id].status == Verified ==> s.links.paylinks[id].status == Verified)
  {
    hide DoVote, DoCreate, DoCancel, DoFail, DoTransferPayLink, DoApprove, DoSend, DoStake, DoInitiateUnstake,
      DoCompleteUnstake, DoSlash, DoReward, DoRegisterKey, ProcessEvidence, Settlement.Extends;
    match tx.body
    case CreatePayLink(_, _, _, _, _, _) => Settlement.CreateExtends(s.links, tx.from, tx.body, now);
    case CancelPayLink(i) => Settlement.CancelRewrites(s.links, tx.from, i, now);
    case FailPayLink(i) => Settlement.FailRewrites(p, s.links, tx.from, i);
    case TransferPayLink(i, to) => Settlement.TransferRewrites(s.links, tx.from, i, to, now);
    case ApprovePayLink(i, approved) => Settlement.ApproveRewrites(s.links, tx.from, i, approved);
    case _ =>
  }

  /** A vote that verifies a PayLink brings its rules to be evaluated. */
  lemma {:induction false} VotesVerifyByRules(p: Params, s: State, tx: Tx, now: int64, id: Hash)
    requires tx.body.SubmitValidation? && Dispatch(p, s, tx, now).Ok? && id in s.links.paylinks && s.links.paylinks[id].status != Verified
    ensures var l' := Dispatch(p, s, tx, now).value.state.links;
      id in l'.paylinks && (l'.paylinks[id].status == Verified ==>
        RuledAct(p, s, tx, now).Some? && RuledAct(p, s, tx, now).value.0 == id && RuledAct(p, s, tx, now).value.1.action == Settle)
  {
    hide EvaluateField, CollectFees, Append, Remove, VotersIn, SortedSeq, IsActive;
  }

  /** A rule that the PayLink's terms keep from ever being met at settlement. */
  ghost predicate Blocked(p: Params, pl: PayLink) {
    exists r :: r in RulesOf(pl.rules) && !CanBeMet(p, pl, r, Settle)
  }

  /** The terms that decide about settlement never change. */
  lemma {:induction false} UnmeetableStays(p: Params, pl: PayLink, pl': PayLink)
    requires !Passable(p, pl, Settle) && Settlement.Ages(pl, pl')
    ensures !Passable(p, pl', Settle)
  {
    hide EvaluateField, SortedSeq;
    forall c: Context | c.action == Settle && Possible(p, pl', c) ensures EvaluateField(pl'.rules, c).Some? {
      assert Possible(p, pl, c);
    }
  }

  lemma {:induction false} BlockedUnmeetable(p: Params, pl: PayLink)
    requires Blocked(p, pl) && ValidateField(pl.rules).None?
    ensures !Passable(p, pl, Settle)
  {
    hide CanBeMet, Passable, RuleMeetable, ValidateOne;
    if Passable(p, pl, Settle) {
      var r :| r in RulesOf(pl.rules) && !CanBeMet(p, pl, r, Settle);
      ValidateAll(RulesOf(pl.rules));
      EachMeetable(p, pl, Settle, r);
      RuleMeetableIff(p, pl, r, Settle);
    }
  }

  lemma {:induction false} StepKeepsUnverified(p: Params, s: State, i: Input, id: Hash)
    requires LinksOk(p, s.links) && id in s.links.paylinks && s.links.paylinks[id].status != Verified && !Passable(p, s.links.paylinks[id], Settle)
    ensures var l' := After(p, s, i).links;
      id in l'.paylinks && l'.paylinks[id].status != Verified && !Passable(p, l'.paylinks[id], Settle)
  {
    hide LinksOk, Passable, Dispatch, RuledAct;
    Settlement.AfterExtends(p, s, i);
    UnmeetableStays(p, s.links.paylinks[id], After(p, s, i).links.paylinks[id]);
    if BlockStep(p, s, i.tx, i.now).Ok? {
      if i.tx.body.SubmitValidation? {
        VotesVerifyByRules(p, s, i.tx, i.now, id);
        if RuledAct(p, s, i.tx, i.now).Some? && RuledAct(p, s, i.tx, i.now).value.0 == id && RuledAct(p, s, i.tx, i.now).value.1.action == Settle {
          SettlesMeetable(p, s, i, id);
        }
      } else {
        HandlersVerifyNothing(p, s, i.tx, i.now, id);
      }
    }
  }

  lemma {:induction false} SettlesMeetable(p: Params, s: State, i: Input, id: Hash)
    requires LinksOk(p, s.links) && Dispatch(p, s, i.tx, i.now).Ok? && RuledAct(p, s, i.tx, i.now).Some?
    requires RuledAct(p, s, i.tx, i.now).value.0 == id && RuledAct(p, s, i.tx, i.now).value.1.action == Settle && id in s.links.paylinks
    ensures Passable(p, s.links.paylinks[id], Settle)
  {
    hide LinksOk, Dispatch, RuledAct, Possible, EvaluateField;
    ActsPossible(p, s, i.tx, i.now);
  }

  lemma {:induction false} RecordValid(p: Params, l: Links, id: Hash)
    requires LinksOk(p, l) && id in l.paylinks
    ensures ValidateField(l.paylinks[id].rules).None?
  {
    hide ValidateField;
    RecordOf(p, l, id);
  }

  /** A PayLink whose rules no possible settlement passes is not verified in any state of any run. */
  lemma {:induction false} UnmeetableNeverVerifies(p: Params, s: State, inputs: seq<Input>, id: Hash)
    requires LinksOk(p, s.links) && id in s.links.paylinks && s.links.paylinks[id].status != Verified && !Passable(p, s.links.paylinks[id], Settle)
    ensures var l' := Run(p, s, inputs).links;
      id in l'.paylinks && l'.paylinks[id].status != Verified && !Passable(p, l'.paylinks[id], Settle)
    decreases |inputs|
  {
    hide LinksOk, Passable, After;
    if inputs != [] {
      var n := |inputs| - 1;
      UnmeetableNeverVerifies(p, s, inputs[..n], id);
      RunKeepsLinks(p, s, inputs[..n]);
      StepKeepsUnverified(p, Run(p, s, inputs[..n]), inputs[n], id);
    }
  }

  /** In particular one with a rule that cannot be met at settlement. */
  lemma {:induction false} BlockedNeverVerifies(p: Params, s: State, inputs: seq<Input>, id: Hash)
    requires LinksOk(p, s.links) && id in s.links.paylinks && s.links.paylinks[id].status != Verified && Blocked(p, s.links.paylinks[id])
    ensures var l' := Run(p, s, inputs).links;
      id in l'.paylinks && l'.paylinks[id].status != Verified && Blocked(p, l'.paylinks[id])
  {
    hide LinksOk, Passable, Run, Blocked;
    RecordValid(p, s.links, id);
    BlockedUnmeetable(p, s.links.paylinks[id]);
    UnmeetableNeverVerifies(p, s, inputs, id);
    assert inputs[..0] == [] && inputs[..|inputs|] == inputs;
    NoSteps(p, s);
    Settlement.RunExtends(p, s, inputs, 0, |inputs|);
    BlockedStays(p, s.links.paylinks[id], Run(p, s, inputs).links.paylinks[id]);
  }

  lemma NoSteps(p: Params, s: State)
    ensures Run(p, s, []) == s
  {}

  lemma {:induction false} BlockedStays(p: Params, pl: PayLink, pl': PayLink)
    requires Blocked(p, pl) && Settlement.Ages(pl, pl')
    ensures Blocked(p, pl')
  {
    var r :| r in RulesOf(pl.rules) && !CanBeMet(p, pl, r, Settle);
    assert !CanBeMet(p, pl', r, Settle);
  }
}
