/**
 * The documented state machine of a PayLink beside the transitions the executor announces: every
 * announcement is true, every status change is announced, and which one the machine does not have.
 */
module Machine {
  import opened Numbers
  import opened Collections
  import opened Rules
  import opened ChainState
  import opened Fees
  import opened Executor
  import opened Demo
  import opened Lifecycle
  import Settlement

  datatype Kind = Creation | Settling | Cancelling | Failing | Transferring

  /** An announced transition; a PayLink that does not exist yet has no status. */
  datatype Move = Move(id: Hash, from: Option<Status>, to: Status, kind: Kind)

  /** The registered transitions: where one leads from a status, if there is one. */
  function Apply(from: Option<Status>, kind: Kind): Option<Status> {
    match (from, kind)
    case (None, Creation) => Some(Created)
    case (None, Failing) => Some(Failed)
    case (Some(Created), Settling) => Some(Verified)
    case (Some(Created), Cancelling) => Some(Cancelled)
    case (Some(Created), Failing) => Some(Failed)
    case (Some(Created), Transferring) => Some(Created)
    case _ => None
  }

  predicate Legal(m: Move) {
    Apply(m.from, m.kind) == Some(m.to)
  }

  /** The transition an event carries. */
  function MoveOf(e: Event): Option<Move> {
    match e
    case PayLinkCreated(id, _, _, _, _, _) => Some(Move(id, None, Created, Creation))
    case PayLinkVerified(id, _, _) => Some(Move(id, Some(Created), Verified, Settling))
    case PayLinkCancelled(id) => Some(Move(id, Some(Created), Cancelled, Cancelling))
    case PayLinkFailed(id, was) => Some(Move(id, Some(was), Failed, Failing))
    case PayLinkTransferred(id, _, _, _, _) => Some(Move(id, Some(Created), Created, Transferring))
    case _ => None
  }

  function Moves(events: seq<Event>): seq<Move> {
    if events == [] then []
    else MovesOf(events[0]) + Moves(events[1..])
  }

  function MovesOf(e: Event): seq<Move> {
    if MoveOf(e).Some? then [MoveOf(e).value] else []
  }

  lemma {:induction false} MovesConcat(x: seq<Event>, y: seq<Event>)
    ensures Moves(x + y) == Moves(x) + Moves(y)
  {
    hide MovesOf;
    if x == [] {
      assert x + y == y;
    } else {
      MovesConcat(x[1..], y);
      assert (x + y)[1..] == x[1..] + y && (x + y)[0] == x[0];
      assert Moves(x + y) == MovesOf(x[0]) + (Moves(x[1..]) + Moves(y));
    }
  }

  lemma {:induction false} NoMoves(events: seq<Event>)
    requires forall e :: e in events ==> MoveOf(e).None?
    ensures Moves(events) == []
  {
    if events != [] {
      NoMoves(events[1..]);
    }
  }

  lemma OneMove(e: Event)
    requires MoveOf(e).Some?
    ensures Moves([e]) == [MoveOf(e).value]
  {
    assert [e][1..] == [];
  }

  lemma {:induction false} PayoutsMoveNothing(payouts: seq<Payout>)
    ensures forall e :: e in PayoutEvents(payouts) ==> MoveOf(e).None?
  {
    if payouts != [] {
      PayoutsMoveNothing(payouts[1..]);
    }
  }

  lemma {:induction false} FeesMoveNothing(p: Params, b: Bank, id: Hash, amount: uint64, voters: seq<Address>)
    ensures Moves(CollectFees(p, b, id, amount, voters).1) == []
  {
    hide DistributeFees, CalculateFee, PayoutEvents;
    var fee := CalculateFee(p, 0, amount);
    PayoutsMoveNothing(DistributeFees(p, b, fee, voters).payouts);
    NoMoves(CollectFees(p, b, id, amount, voters).1);
  }

  // ---------------------------------------------------------------- announcements are true and complete

  function StatusIn(table: map<Hash, Status>, id: Hash): Option<Status> {
    if id in table then Some(table[id]) else None
  }

  /** What somebody who follows the announcements believes. */
  function Track(table: map<Hash, Status>, moves: seq<Move>): map<Hash, Status> {
    if moves == [] then table
    else Track(table, moves[..|moves| - 1])[moves[|moves| - 1].id := moves[|moves| - 1].to]
  }

  /** A step announces at most one transition, from the status before it, and nothing else changes status. */
  ghost predicate Honest(l: Links, l': Links, moves: seq<Move>) {
    || (moves == [] && Statuses(l') == Statuses(l))
    || (&& |moves| == 1 && StatusIn(Statuses(l), moves[0].id) == moves[0].from
        && Statuses(l') == Statuses(l)[moves[0].id := moves[0].to])
  }

  lemma RewriteStatuses(l: Links, l': Links, id: Hash, pl': PayLink)
    requires Rewrites(l, l', id, pl')
    ensures Statuses(l') == Statuses(l)[id := pl'.status]
    ensures pl'.status == l.paylinks[id].status ==> Statuses(l') == Statuses(l)
  {}

  lemma {:induction false} VoteHonest(p: Params, s: State, from: Address, id: Hash, proof: Hash, now: int64)
    requires DoVote(p, s, from, id, proof, now).Ok?
    ensures var r := DoVote(p, s, from, id, proof, now).value;
      Honest(s.links, r.state.links, Moves(r.events)) && forall m :: m in Moves(r.events) ==> Legal(m)
  {
    hide CollectFees, EvaluateField, Append, Remove, Moves, VotersIn;
    var voted := CastVote(s.links, id, from, proof);
    var count := voted.paylinks[id].voteCount;
    var vote, verified := PayLinkVoted(id, from, proof, count, p.required), PayLinkVerified(id, proof, count);
    NoMoves([vote]);
    if count >= p.required {
      var fees := CollectFees(p, s.bank, id, s.links.paylinks[id].amount, SortedSeq(Voters(voted, id))).1;
      FeesMoveNothing(p, s.bank, id, s.links.paylinks[id].amount, SortedSeq(Voters(voted, id)));
      OneMove(verified);
      MovesConcat([vote], [verified]);
      MovesConcat([vote, verified], fees);
      assert [vote] + [verified] == [vote, verified];
      assert Statuses(Settled(voted, id, proof)) == Statuses(s.links)[id := Verified];
    } else {
      assert Statuses(voted) == Statuses(s.links);
    }
  }

  lemma {:induction false} CreateHonest(l: Links, from: Address, t: Body, now: int64)
    requires t.CreatePayLink? && DoCreate(l, from, t, now).Ok?
    ensures var r := DoCreate(l, from, t, now).value; Honest(l, r.links, Moves(r.events)) && forall m :: m in Moves(r.events) ==> Legal(m)
  {
    hide ValidateField, Append, Moves;
    var r := DoCreate(l, from, t, now).value;
    OneMove(r.events[0]);
    assert Statuses(r.links) == Statuses(l)[t.id := Created];
  }

  lemma {:induction false} CancelHonest(l: Links, from: Address, id: Hash, now: int64)
    requires DoCancel(l, from, id, now).Ok?
    ensures var r := DoCancel(l, from, id, now).value; Honest(l, r.links, Moves(r.events)) && forall m :: m in Moves(r.events) ==> Legal(m)
  {
    hide EvaluateField, Append, Remove, Moves;
    Settlement.CancelRewrites(l, from, id, now);
    RewriteStatuses(l, DoCancel(l, from, id, now).value.links, id, l.paylinks[id].(status := Cancelled));
    OneMove(PayLinkCancelled(id));
  }

  /** A fail announces the status it found, and the machine has the transition exactly from CREATED. */
  lemma {:induction false} FailHonest(p: Params, l: Links, from: Address, id: Hash)
    requires DoFail(p, l, from, id).Ok?
    ensures var r := DoFail(p, l, from, id).value;
      Honest(l, r.links, Moves(r.events)) && ((forall m :: m in Moves(r.events) ==> Legal(m)) <==> l.paylinks[id].status == Created)
  {
    hide Append, Remove, Moves;
    Settlement.FailRewrites(p, l, from, id);
    RewriteStatuses(l, DoFail(p, l, from, id).value.links, id, l.paylinks[id].(status := Failed));
    OneMove(PayLinkFailed(id, l.paylinks[id].status));
    assert Moves(DoFail(p, l, from, id).value.events)[0] in Moves(DoFail(p, l, from, id).value.events);
  }

  lemma {:induction false} TransferHonest(l: Links, from: Address, id: Hash, to: Address, now: int64)
    requires DoTransferPayLink(l, from, id, to, now).Ok?
    ensures var r := DoTransferPayLink(l, from, id, to, now).value;
      Honest(l, r.links, Moves(r.events)) && forall m :: m in Moves(r.events) ==> Legal(m)
  {
    hide EvaluateField, MayTransfer, Append, Remove, Moves;
    Settlement.TransferRewrites(l, from, id, to, now);
    var pl, r := l.paylinks[id], DoTransferPayLink(l, from, id, to, now).value;
    RewriteStatuses(l, r.links, id, pl.(owner := to, approved := ZERO_ADDRESS, transferCount := Add64(pl.transferCount, 1)));
    OneMove(r.events[0]);
  }

  lemma {:induction false} ApproveHonest(l: Links, from: Address, id: Hash, approved: Address)
    requires DoApprove(l, from, id, approved).Ok?
    ensures var r := DoApprove(l, from, id, approved).value; Honest(l, r.links, Moves(r.events)) && Moves(r.events) == []
  {
    hide Moves;
    Settlement.ApproveRewrites(l, from, id, approved);
    RewriteStatuses(l, DoApprove(l, from, id, approved).value.links, id, l.paylinks[id].(approved := approved));
    NoMoves(DoApprove(l, from, id, approved).value.events);
  }

  /** The administrator fails a PayLink that is no longer open. */
  predicate FailsClosed(l: Links, tx: Tx) {
    tx.body.FailPayLink? && tx.body.id in l.paylinks && l.paylinks[tx.body.id].status != Created
  }

  lemma {:induction false} BankMovesNothing(p: Params, s: State, tx: Tx, now: int64)
    requires Dispatch(p, s, tx, now).Ok?
    requires tx.body.SendTokens? || tx.body.StakeTokens? || tx.body.InitiateUnstake? || tx.body.CompleteUnstake? || tx.body.SlashValidator?
             || tx.body.RewardValidator? || tx.body.RegisterVrfKey? || tx.body.SubmitEvidence? || tx.body.SetApprovalForAll?
    ensures var r := Dispatch(p, s, tx, now).value; Statuses(r.state.links) == Statuses(s.links) && Moves(r.events) == []
  {
    hide Moves, Statuses, ProcessEvidence, TransferTokens, SubBalance, AddBalance, Stake, InitiateWithdrawal, CompleteWithdrawal, Slash,
      RecordReward, RegisterKey, IsActive;
    var r := Dispatch(p, s, tx, now).value;
    SameStatuses(s.links, r.state.links);
    NoMoves(r.events);
  }

  lemma SameStatuses(l: Links, l': Links)
    requires l'.paylinks == l.paylinks
    ensures Statuses(l') == Statuses(l)
  {}

  /**
   * A committed step announces its transition truly and changes no other status, and the machine
   * has the transition exactly when the step does not fail a closed PayLink.
   */
  lemma {:induction false} FsmIff(p: Params, s: State, tx: Tx, now: int64)
    requires Step(p, s, tx, now).Ok?
    ensures var r := Step(p, s, tx, now).value;
      && Honest(s.links, r.state.links, Moves(r.events))
      && ((forall m :: m in Moves(r.events) ==> Legal(m)) <==> !FailsClosed(s.links, tx))
  {
    hide Honest, Moves, Legal, DoVote, DoCreate, DoCancel, DoFail, DoTransferPayLink, DoApprove, DoSetOperator, DoSend, DoStake,
      DoInitiateUnstake, DoCompleteUnstake, DoSlash, DoReward, DoRegisterKey, DoEvidence, IncrementNonce;
    match tx.body
    case CreatePayLink(_, _, _, _, _, _) => CreateHonest(s.links, tx.from, tx.body, now);
    case SubmitValidation(i, proof) => VoteHonest(p, s, tx.from, i, proof, now);
    case CancelPayLink(i) => CancelHonest(s.links, tx.from, i, now);
    case FailPayLink(i) =>
      Failable(p, s.links, tx.from, i);
      FailHonest(p, s.links, tx.from, i);
    case TransferPayLink(i, to) => TransferHonest(s.links, tx.from, i, to, now);
    case ApprovePayLink(i, approved) => ApproveHonest(s.links, tx.from, i, approved);
    case Undecodable(_) =>
    case UnknownBody =>
    case _ =>
      BankMovesNothing(p, s, tx, now);
      StillHonest(s.links, Dispatch(p, s, tx, now).value.state.links);
  }

  lemma Failable(p: Params, l: Links, from: Address, id: Hash)
    requires DoFail(p, l, from, id).Ok?
    ensures id in l.paylinks
  {}

  lemma StillHonest(l: Links, l': Links)
    requires Statuses(l') == Statuses(l)
    ensures Honest(l, l', [])
  {}

  // ---------------------------------------------------------------- whole runs

  ghost predicate FailsClosedAt(p: Params, s: State, inputs: seq<Input>, k: nat)
    requires k < |inputs|
  {
    Succeeds(p, s, inputs, k) && FailsClosed(Run(p, s, inputs[..k]).links, inputs[k].tx)
  }

  /**
   * Over every run, following the announced transitions gives exactly the statuses of all PayLinks,
   * and the machine has every one of them if and only if no committed step fails a closed PayLink.
   */
  lemma {:induction false} RunTracked(p: Params, s: State, inputs: seq<Input>)
    ensures Statuses(Run(p, s, inputs).links) == Track(Statuses(s.links), Moves(RunEvents(p, s, inputs)))
    ensures (forall m :: m in Moves(RunEvents(p, s, inputs)) ==> Legal(m)) <==>
            (forall k: nat :: k < |inputs| ==> !FailsClosedAt(p, s, inputs, k))
    decreases |inputs|
  {
    hide Step, Moves, Legal, FailsClosed, Statuses, Track, Honest;
    if inputs == [] {
      Untracked(Statuses(s.links));
      NoMoves([]);
    } else {
      var n := |inputs| - 1;
      var init, t := inputs[..n], Run(p, s, inputs[..n]);
      RunTracked(p, s, init);
      forall k: nat | k < n ensures FailsClosedAt(p, s, init, k) == FailsClosedAt(p, s, inputs, k) {
        assert init[..k] == inputs[..k];
      }
      var r := BlockStep(p, t, inputs[n].tx, inputs[n].now);
      var events, before := if r.Ok? then r.value.events else [], RunEvents(p, s, init);
      MovesConcat(before, events);
      if r.Ok? {
        FsmIff(p, t, inputs[n].tx, inputs[n].now);
        TrackOne(Statuses(s.links), t.links, r.value.state.links, Moves(before), Moves(events));
      } else {
        assert before + [] == before;
      }
      assert FailsClosedAt(p, s, inputs, n) <==> r.Ok? && FailsClosed(t.links, inputs[n].tx);
    }
  }

  lemma Untracked(table: map<Hash, Status>)
    ensures Track(table, []) == table
  {}

  lemma {:induction false} TrackOne(table: map<Hash, Status>, l: Links, l': Links, moves: seq<Move>, more: seq<Move>)
    requires Statuses(l) == Track(table, moves) && Honest(l, l', more)
    ensures Statuses(l') == Track(table, moves + more)
  {
    if more == [] {
      assert moves + more == moves;
    } else {
      assert (moves + more)[..|moves|] == moves;
    }
  }

  // ---------------------------------------------------------------- the missing transition is taken

  const TWICE_INPUTS := [DemoInput(1, 0, CreatePayLink(7, 3, 100, 10, 0, NoRules)), DemoInput(1, 1, FailPayLink(7)), DemoInput(1, 2, FailPayLink(7))]

  lemma {:induction false} TwiceStep(s: State, nonce: uint64)
    requires AccountOf(s.bank, 1).nonce == nonce && 7 in s.links.paylinks && nonce + 1 < U64_MOD
    ensures var r := BlockStep(DEMO_PARAMS, s, DemoInput(1, nonce, FailPayLink(7)).tx, 0);
      && r.Ok? && r.value.events == [PayLinkFailed(7, s.links.paylinks[7].status)]
      && 7 in r.value.state.links.paylinks && r.value.state.links.paylinks[7].status == Failed
      && AccountOf(r.value.state.bank, 1).nonce == nonce + 1
  {
    hide Append, Remove;
  }

  lemma {:induction false} TwiceCreated(s: State)
    requires s == Genesis([])
    ensures var t := After(DEMO_PARAMS, s, TWICE_INPUTS[0]);
      7 in t.links.paylinks && AccountOf(t.bank, 1).nonce == 1
  {
    hide Append, Remove;
    assert s == State(EmptyBank(), EmptyLinks(), {});
  }

  /** From an empty genesis: create a PayLink, fail it, fail it again.  The third step commits and announces FAILED to FAILED. */
  lemma {:induction false} FailedTwiceExample()
    ensures FailsClosedAt(DEMO_PARAMS, Genesis([]), TWICE_INPUTS, 2)
    ensures exists m :: m in Moves(RunEvents(DEMO_PARAMS, Genesis([]), TWICE_INPUTS)) && !Legal(m)
  {
    hide BlockStep, Genesis, Moves, Legal;
    var s := Genesis([]);
    assert TWICE_INPUTS[..0] == [] && TWICE_INPUTS[..3] == TWICE_INPUTS;
    RunGrows(DEMO_PARAMS, s, TWICE_INPUTS, 0);
    RunGrows(DEMO_PARAMS, s, TWICE_INPUTS, 1);
    TwiceCreated(s);
    TwiceStep(Run(DEMO_PARAMS, s, TWICE_INPUTS[..1]), 1);
    TwiceStep(Run(DEMO_PARAMS, s, TWICE_INPUTS[..2]), 2);
    RunTracked(DEMO_PARAMS, s, TWICE_INPUTS);
    assert FailsClosedAt(DEMO_PARAMS, s, TWICE_INPUTS, 2);
  }
}
