/**
 * Settlements over whole runs: no PayLink settles twice, no proof settles two PayLinks, and
 * statuses only move forward.
 */
module Settlement {
  import opened Numbers
  import opened Collections
  import opened Rules
  import opened ChainState
  import opened Fees
  import opened Executor
  import opened Lifecycle

  // ---------------------------------------------------------------- the settlements of a run

  datatype Settlement = Settlement(id: Hash, proof: Hash)

  /** The settlements announced by a list of events, in order. */
  ghost function Settlements(events: seq<Event>): seq<Settlement> {
    if events == [] then []
    else Announced(events[0]) + Settlements(events[1..])
  }

  ghost function Announced(e: Event): seq<Settlement> {
    if e.PayLinkVerified? then [Settlement(e.id, e.proof)] else []
  }

  lemma {:induction false} SettlementsConcat(x: seq<Event>, y: seq<Event>)
    ensures Settlements(x + y) == Settlements(x) + Settlements(y)
  {
    hide Announced;
    if x == [] {
      assert x + y == y;
    } else {
      SettlementsConcat(x[1..], y);
      assert (x + y)[1..] == x[1..] + y && (x + y)[0] == x[0];
      assert Settlements(x + y) == Announced(x[0]) + (Settlements(x[1..]) + Settlements(y));
    }
  }

  lemma {:induction false} NoneAnnounced(events: seq<Event>)
    requires forall e :: e in events ==> !e.PayLinkVerified?
    ensures Settlements(events) == []
  {
    if events != [] {
      NoneAnnounced(events[1..]);
    }
  }

  lemma {:induction false} PayoutsAnnounceNone(payouts: seq<Payout>)
    ensures forall e :: e in PayoutEvents(payouts) ==> !e.PayLinkVerified?
  {
    if payouts != [] {
      PayoutsAnnounceNone(payouts[1..]);
    }
  }

  lemma {:induction false} FeesAnnounceNone(p: Params, b: Bank, id: Hash, amount: uint64, voters: seq<Address>)
    ensures Settlements(CollectFees(p, b, id, amount, voters).1) == []
  {
    hide DistributeFees, CalculateFee, PayoutEvents;
    var fee := CalculateFee(p, 0, amount);
    PayoutsAnnounceNone(DistributeFees(p, b, fee, voters).payouts);
    NoneAnnounced(CollectFees(p, b, id, amount, voters).1);
  }

  // ---------------------------------------------------------------- what one step settles

  ghost predicate KeepsSettled(p: Params, l: Links, l': Links) {
    forall i :: HasSettled(p, l, i) ==>
      && HasSettled(p, l', i)
      && (i in l.submittedProofs ==> i in l'.submittedProofs && l'.submittedProofs[i] == l.submittedProofs[i])
  }

  ghost predicate SettlesNothing(p: Params, l: Links, l': Links) {
    KeepsSettled(p, l, l') && forall i :: HasSettled(p, l', i) ==> HasSettled(p, l, i)
  }

  ghost predicate SettlesOne(p: Params, l: Links, l': Links, x: Settlement) {
    && KeepsSettled(p, l, l')
    && !HasSettled(p, l, x.id) && HasSettled(p, l', x.id)
    && (forall i :: HasSettled(p, l', i) ==> HasSettled(p, l, i) || i == x.id)
    && x.id in l'.submittedProofs && l'.submittedProofs[x.id] == x.proof
  }

  lemma {:induction false} CancelRewrites(l: Links, from: Address, id: Hash, now: int64)
    requires DoCancel(l, from, id, now).Ok?
    ensures id in l.paylinks
    ensures Rewrites(l, DoCancel(l, from, id, now).value.links, id, l.paylinks[id].(status := Cancelled))
    ensures l.paylinks[id].status == Created
  {
    hide EvaluateField, Append, Remove;
  }

  lemma {:induction false} FailRewrites(p: Params, l: Links, from: Address, id: Hash)
    requires DoFail(p, l, from, id).Ok?
    ensures id in l.paylinks
    ensures Rewrites(l, DoFail(p, l, from, id).value.links, id, l.paylinks[id].(status := Failed))
  {
    hide Append, Remove;
  }

  lemma {:induction false} TransferRewrites(l: Links, from: Address, id: Hash, to: Address, now: int64)
    requires DoTransferPayLink(l, from, id, to, now).Ok?
    ensures id in l.paylinks
    ensures var pl := l.paylinks[id];
      Rewrites(l, DoTransferPayLink(l, from, id, to, now).value.links, id,
               pl.(owner := to, approved := ZERO_ADDRESS, transferCount := Add64(pl.transferCount, 1)))
  {
    hide EvaluateField, MayTransfer, Append, Remove;
  }

  lemma {:induction false} ApproveRewrites(l: Links, from: Address, id: Hash, approved: Address)
    requires DoApprove(l, from, id, approved).Ok?
    ensures id in l.paylinks
    ensures Rewrites(l, DoApprove(l, from, id, approved).value.links, id, l.paylinks[id].(approved := approved))
  {}

  /** The announced settlements of a step are exactly what it settled. */
  ghost predicate Announces(p: Params, l: Links, l': Links, list: seq<Settlement>) {
    (list == [] && SettlesNothing(p, l, l')) || (|list| == 1 && SettlesOne(p, l, l', list[0]))
  }

  lemma {:induction false} VoteAnnounces(p: Params, s: State, from: Address, id: Hash, proof: Hash, now: int64)
    requires LinksOk(p, s.links) && DoVote(p, s, from, id, proof, now).Ok?
    ensures var r := DoVote(p, s, from, id, proof, now).value; Announces(p, s.links, r.state.links, Settlements(r.events))
  {
    hide LinksOk, CollectFees, EvaluateField, VoteError, Settled, SettlesOne, SettlesNothing, Settlements, Voters, SortedSeq;
    VotedOnCreated(s, from, id, proof, now);
    var voted := CastVote(s.links, id, from, proof);
    var pl := s.links.paylinks[id];
    var count := voted.paylinks[id].voteCount;
    var fees := CollectFees(p, s.bank, id, pl.amount, SortedSeq(Voters(voted, id)));
    var head := [PayLinkVoted(id, from, proof, count, p.required)];
    NoneAnnounced(head);
    if count < p.required {
      OpenVoteSettlesNothing(p, s, from, id, proof, now);
    } else {
      SettlementKeeps(p, s, from, id, proof, now, Context(Settle, now, from, ZERO_ADDRESS, pl.amount, 0, SortedSeq(Voters(voted, id))));
      QuorumVoteSettlesOne(p, s, from, id, proof, now);
      FeesAnnounceNone(p, s.bank, id, pl.amount, SortedSeq(Voters(voted, id)));
      OneAnnounced(head, id, proof, count, fees.1);
      assert head + [PayLinkVerified(id, proof, count)] + fees.1 == [head[0], PayLinkVerified(id, proof, count)] + fees.1;
    }
  }

  lemma {:induction false} OneAnnounced(head: seq<Event>, id: Hash, proof: Hash, count: uint64, tail: seq<Event>)
    requires Settlements(head) == [] && Settlements(tail) == []
    ensures Settlements(head + [PayLinkVerified(id, proof, count)] + tail) == [Settlement(id, proof)]
  {
    var verified := [PayLinkVerified(id, proof, count)];
    assert Settlements(verified) == [Settlement(id, proof)] by { assert verified[1..] == []; }
    SettlementsConcat(head, verified);
    SettlementsConcat(head + verified, tail);
  }

  lemma {:induction false} OpenVoteSettlesNothing(p: Params, s: State, from: Address, id: Hash, proof: Hash, now: int64)
    requires LinksOk(p, s.links) && VoteError(s, from, id, proof, now).None?
    requires id in s.links.paylinks && CastVote(s.links, id, from, proof).paylinks[id].voteCount < p.required
    ensures SettlesNothing(p, s.links, CastVote(s.links, id, from, proof))
  {
    hide LinksOk, VoteError;
    VotedOnCreated(s, from, id, proof, now);
    OpenCount(p, s.links, id);
  }

  lemma {:induction false} QuorumVoteSettlesOne(p: Params, s: State, from: Address, id: Hash, proof: Hash, now: int64)
    requires LinksOk(p, s.links) && VoteError(s, from, id, proof, now).None?
    requires id in s.links.paylinks && CastVote(s.links, id, from, proof).paylinks[id].voteCount == Quorum(p)
    ensures SettlesOne(p, s.links, Settled(CastVote(s.links, id, from, proof), id, proof), Settlement(id, proof))
  {
    hide LinksOk, VoteError, Append, Remove, Quorum;
    VotedOnCreated(s, from, id, proof, now);
    OpenCount(p, s.links, id);
    SubmittedProof(s, from, id, proof, now);
  }

  lemma {:induction false} OpenCount(p: Params, l: Links, id: Hash)
    requires LinksOk(p, l) && id in l.paylinks && l.paylinks[id].status == Created
    ensures l.paylinks[id].voteCount < Quorum(p) && !HasSettled(p, l, id)
    ensures Add64(l.paylinks[id].voteCount, 1) < p.required ==> Add64(l.paylinks[id].voteCount, 1) < Quorum(p)
  {
    RecordOf(p, l, id);
  }

  lemma {:induction false} SubmittedProof(s: State, from: Address, id: Hash, proof: Hash, now: int64)
    requires VoteError(s, from, id, proof, now).None? && id in s.links.paylinks
    ensures id in CastVote(s.links, id, from, proof).submittedProofs
    ensures CastVote(s.links, id, from, proof).submittedProofs[id] == proof
  {}

  lemma {:induction false} QuietHandlers(p: Params, s: State, tx: Tx, now: int64)
    requires !tx.body.SubmitValidation? && Dispatch(p, s, tx, now).Ok?
    ensures forall e :: e in Dispatch(p, s, tx, now).value.events ==> !e.PayLinkVerified?
  {
    hide EvaluateField, ValidateField, MayTransfer, SetStatus, SetOwner, SetApproved, AddPayLink, SetOperator,
      ProcessEvidence, TransferTokens, SubBalance, AddBalance, Stake,
      InitiateWithdrawal, CompleteWithdrawal, Slash, RecordReward, RegisterKey, IsActive;
  }

  lemma {:induction false} RewriteSettlesNothing(p: Params, l: Links, l': Links, id: Hash, pl': PayLink)
    requires Rewrites(l, l', id, pl')
    ensures SettlesNothing(p, l, l')
  {}

  lemma {:induction false} CreateSettlesNothing(p: Params, l: Links, from: Address, t: Body, now: int64)
    requires t.CreatePayLink? && DoCreate(l, from, t, now).Ok?
    ensures SettlesNothing(p, l, DoCreate(l, from, t, now).value.links)
  {
    hide ValidateField, Append;
  }

  lemma {:induction false} HandlersSettleNothing(p: Params, s: State, tx: Tx, now: int64)
    requires !tx.body.SubmitValidation? && Dispatch(p, s, tx, now).Ok?
    ensures SettlesNothing(p, s.links, Dispatch(p, s, tx, now).value.state.links)
  {
    hide DoVote, DoCreate, DoCancel, DoFail, DoTransferPayLink, DoApprove, Rewrites, DoSend, DoStake, DoInitiateUnstake,
      DoCompleteUnstake, DoSlash, DoReward, DoRegisterKey, ProcessEvidence;
    var l := s.links;
    match tx.body
    case CreatePayLink(_, _, _, _, _, _) => CreateSettlesNothing(p, l, tx.from, tx.body, now);
    case CancelPayLink(id) =>
      CancelRewrites(l, tx.from, id, now);
      RewriteSettlesNothing(p, l, DoCancel(l, tx.from, id, now).value.links, id, l.paylinks[id].(status := Cancelled));
    case FailPayLink(id) =>
      FailRewrites(p, l, tx.from, id);
      RewriteSettlesNothing(p, l, DoFail(p, l, tx.from, id).value.links, id, l.paylinks[id].(status := Failed));
    case TransferPayLink(id, to) =>
      TransferRewrites(l, tx.from, id, to, now);
      var pl := l.paylinks[id];
      RewriteSettlesNothing(p, l, DoTransferPayLink(l, tx.from, id, to, now).value.links, id,
                            pl.(owner := to, approved := ZERO_ADDRESS, transferCount := Add64(pl.transferCount, 1)));
    case ApprovePayLink(id, approved) =>
      ApproveRewrites(l, tx.from, id, approved);
      RewriteSettlesNothing(p, l, DoApprove(l, tx.from, id, approved).value.links, id, l.paylinks[id].(approved := approved));
    case _ =>
  }

  lemma {:induction false} StepAnnounces(p: Params, s: State, tx: Tx, now: int64)
    requires LinksOk(p, s.links) && Step(p, s, tx, now).Ok?
    ensures var r := Step(p, s, tx, now).value; Announces(p, s.links, r.state.links, Settlements(r.events))
  {
    hide LinksOk, DoVote, IncrementNonce, HasSettled;
    if tx.body.SubmitValidation? {
      VoteAnnounces(p, s, tx.from, tx.body.id, tx.body.proof, now);
    } else {
      hide Dispatch;
      HandlersSettleNothing(p, s, tx, now);
      QuietHandlers(p, s, tx, now);
      NoneAnnounced(Dispatch(p, s, tx, now).value.events);
    }
  }

  // ---------------------------------------------------------------- the record of settlements

  ghost predicate DistinctIds(list: seq<Settlement>) {
    forall i, j :: 0 <= i < j < |list| ==> list[i].id != list[j].id
  }

  /** The list names every settled PayLink once, with the proof that settled it. */
  ghost predicate RecordsAll(p: Params, l: Links, list: seq<Settlement>) {
    && DistinctIds(list)
    && (forall i :: 0 <= i < |list| ==> HasSettled(p, l, list[i].id) && list[i].id in l.submittedProofs
                                        && l.submittedProofs[list[i].id] == list[i].proof)
    && (forall id :: HasSettled(p, l, id) ==> exists i :: 0 <= i < |list| && list[i].id == id)
  }

  lemma {:induction false} RecordGrows(p: Params, l: Links, l': Links, list: seq<Settlement>, more: seq<Settlement>)
    requires RecordsAll(p, l, list) && Announces(p, l, l', more)
    ensures RecordsAll(p, l', list + more)
  {
    hide HasSettled;
    forall id | HasSettled(p, l', id) ensures exists i :: 0 <= i < |list + more| && (list + more)[i].id == id {
      if HasSettled(p, l, id) {
        var i :| 0 <= i < |list| && list[i].id == id;
        assert (list + more)[i].id == id;
      } else {
        assert (list + more)[|list|].id == id;
      }
    }
  }

  lemma {:induction false} AfterAnnounces(p: Params, s: State, i: Input)
    requires LinksOk(p, s.links)
    ensures var r := BlockStep(p, s, i.tx, i.now);
      Announces(p, s.links, After(p, s, i).links, Settlements(if r.Ok? then r.value.events else []))
  {
    hide LinksOk, Step;
    if BlockStep(p, s, i.tx, i.now).Ok? {
      StepAnnounces(p, s, i.tx, i.now);
    }
  }

  lemma {:induction false} RunRecords(p: Params, s: State, inputs: seq<Input>)
    requires LinksOk(p, s.links) && (forall id :: !HasSettled(p, s.links, id))
    ensures RecordsAll(p, Run(p, s, inputs).links, Settlements(RunEvents(p, s, inputs)))
    decreases |inputs|
  {
    hide LinksOk, After, BlockStep, HasSettled, Announces;
    if inputs != [] {
      var n := |inputs| - 1;
      var init := inputs[..n];
      RunRecords(p, s, init);
      RunKeepsLinks(p, s, init);
      AfterAnnounces(p, Run(p, s, init), inputs[n]);
      var r := BlockStep(p, Run(p, s, init), inputs[n].tx, inputs[n].now);
      var events := if r.Ok? then r.value.events else [];
      SettlementsConcat(RunEvents(p, s, init), events);
      RecordGrows(p, Run(p, s, init).links, Run(p, s, inputs).links, Settlements(RunEvents(p, s, init)), Settlements(events));
    }
  }

  /**
   * Over every run from genesis: no PayLink settles twice, no two settlements share a proof, and
   * the used proofs are exactly the proofs of the settlements that took place.
   */
  lemma {:induction false} SettledOnce(p: Params, balances: seq<GenesisBalance>, inputs: seq<Input>)
    ensures var s := Genesis(balances); var list := Settlements(RunEvents(p, s, inputs)); var l := Run(p, s, inputs).links;
      && (forall i, j :: 0 <= i < j < |list| ==> list[i].id != list[j].id && list[i].proof != list[j].proof)
      && (forall proof :: proof in l.usedProofs <==> exists i :: 0 <= i < |list| && list[i].proof == proof)
  {
    hide RecordsOk, Run, RunEvents, Settlements, Fund;
    var s := Genesis(balances);
    GenesisOpen(p, balances);
    RunRecords(p, s, inputs);
    RunKeepsLinks(p, s, inputs);
    ProofsMatch(p, Run(p, s, inputs).links, Settlements(RunEvents(p, s, inputs)));
  }

  lemma {:induction false} GenesisOpen(p: Params, balances: seq<GenesisBalance>)
    ensures LinksOk(p, Genesis(balances).links)
    ensures forall id :: !HasSettled(p, Genesis(balances).links, id)
  {
    GenesisLinks(p, balances);
  }

  lemma {:induction false} ProofsMatch(p: Params, l: Links, list: seq<Settlement>)
    requires ProofsOk(p, l) && RecordsAll(p, l, list)
    ensures forall i, j :: 0 <= i < j < |list| ==> list[i].id != list[j].id && list[i].proof != list[j].proof
    ensures forall proof :: proof in l.usedProofs <==> exists i :: 0 <= i < |list| && list[i].proof == proof
  {
    hide HasSettled;
    forall proof | proof in l.usedProofs ensures exists i :: 0 <= i < |list| && list[i].proof == proof {
      var id :| HasSettled(p, l, id) && l.submittedProofs[id] == proof;
      var i :| 0 <= i < |list| && list[i].id == id;
      assert list[i].proof == proof;
    }
  }

  // ---------------------------------------------------------------- nothing is rewritten

  /** The fields fixed at creation are unchanged and the status has not moved backwards. */
  predicate Ages(pl: PayLink, pl': PayLink) {
    && pl'.id == pl.id && pl'.creator == pl.creator && pl'.receiver == pl.receiver && pl'.amount == pl.amount
    && pl'.expiry == pl.expiry && pl'.metadata == pl.metadata && pl'.createdAt == pl.createdAt && pl'.rules == pl.rules
    && (pl'.status == pl.status || pl'.status == Failed || pl.status == Created)
  }

  /** Later tables extend earlier ones: proofs and votes only grow, records only age. */
  ghost predicate Extends(l: Links, l': Links) {
    && l.usedProofs <= l'.usedProofs && l.votes <= l'.votes
    && (forall id :: id in l.submittedProofs ==> id in l'.submittedProofs && l'.submittedProofs[id] == l.submittedProofs[id])
    && (forall id :: id in l.paylinks ==> id in l'.paylinks && Ages(l.paylinks[id], l'.paylinks[id]))
  }

  lemma {:induction false} VoteExtends(p: Params, s: State, from: Address, id: Hash, proof: Hash, now: int64)
    requires DoVote(p, s, from, id, proof, now).Ok?
    ensures Extends(s.links, DoVote(p, s, from, id, proof, now).value.state.links)
  {
    hide CollectFees, EvaluateField, Append, Remove, VotersIn;
  }

  lemma {:induction false} RewriteExtends(l: Links, l': Links, id: Hash, pl': PayLink)
    requires Rewrites(l, l', id, pl') && Ages(l.paylinks[id], pl')
    ensures Extends(l, l')
  {}

  lemma {:induction false} CreateExtends(l: Links, from: Address, t: Body, now: int64)
    requires t.CreatePayLink? && DoCreate(l, from, t, now).Ok?
    ensures Extends(l, DoCreate(l, from, t, now).value.links)
    ensures var l' := DoCreate(l, from, t, now).value.links;
      forall id :: id in l.paylinks ==> id in l'.paylinks && l'.paylinks[id] == l.paylinks[id]
  {
    hide ValidateField, Append;
  }

  lemma {:induction false} DispatchExtends(p: Params, s: State, tx: Tx, now: int64)
    requires !tx.body.SubmitValidation? && Dispatch(p, s, tx, now).Ok?
    ensures Extends(s.links, Dispatch(p, s, tx, now).value.state.links)
  {
    hide DoVote, DoCreate, DoCancel, DoFail, DoTransferPayLink, DoApprove, Rewrites, DoSend, DoStake, DoInitiateUnstake,
      DoCompleteUnstake, DoSlash, DoReward, DoRegisterKey, ProcessEvidence;
    var l := s.links;
    match tx.body
    case CreatePayLink(_, _, _, _, _, _) => CreateExtends(l, tx.from, tx.body, now);
    case CancelPayLink(id) =>
      CancelRewrites(l, tx.from, id, now);
      RewriteExtends(l, DoCancel(l, tx.from, id, now).value.links, id, l.paylinks[id].(status := Cancelled));
    case FailPayLink(id) =>
      FailRewrites(p, l, tx.from, id);
      RewriteExtends(l, DoFail(p, l, tx.from, id).value.links, id, l.paylinks[id].(status := Failed));
    case TransferPayLink(id, to) =>
      TransferRewrites(l, tx.from, id, to, now);
      var pl := l.paylinks[id];
      RewriteExtends(l, DoTransferPayLink(l, tx.from, id, to, now).value.links, id,
                     pl.(owner := to, approved := ZERO_ADDRESS, transferCount := Add64(pl.transferCount, 1)));
    case ApprovePayLink(id, approved) =>
      ApproveRewrites(l, tx.from, id, approved);
      RewriteExtends(l, DoApprove(l, tx.from, id, approved).value.links, id, l.paylinks[id].(approved := approved));
    case _ =>
  }

  lemma {:induction false} AfterExtends(p: Params, s: State, i: Input)
    ensures Extends(s.links, After(p, s, i).links)
  {
    hide DoVote;
    if BlockStep(p, s, i.tx, i.now).Ok? {
      if i.tx.body.SubmitValidation? {
        VoteExtends(p, s, i.tx.from, i.tx.body.id, i.tx.body.proof, i.now);
      } else {
        hide Dispatch;
        DispatchExtends(p, s, i.tx, i.now);
      }
    }
  }

  lemma {:induction false} ExtendsTransitive(l0: Links, l1: Links, l2: Links)
    requires Extends(l0, l1) && Extends(l1, l2)
    ensures Extends(l0, l2)
  {
    forall id | id in l0.paylinks ensures id in l2.paylinks && Ages(l0.paylinks[id], l2.paylinks[id]) {
      assert Ages(l0.paylinks[id], l1.paylinks[id]) && Ages(l1.paylinks[id], l2.paylinks[id]);
    }
  }

  /** Along every run a PayLink never returns to CREATED, and proofs, votes and terms are never lost. */
  lemma {:induction false} RunExtends(p: Params, s: State, inputs: seq<Input>, j: nat, k: nat)
    requires j <= k <= |inputs|
    ensures Extends(Run(p, s, inputs[..j]).links, Run(p, s, inputs[..k]).links)
    ensures forall id :: id in Run(p, s, inputs[..j]).links.paylinks && Run(p, s, inputs[..j]).links.paylinks[id].status != Created ==>
      Run(p, s, inputs[..k]).links.paylinks[id].status != Created
    decreases k
  {
    hide Run, After;
    if j < k {
      RunExtends(p, s, inputs, j, k - 1);
      RunGrows(p, s, inputs, k - 1);
      AfterExtends(p, Run(p, s, inputs[..k - 1]), inputs[k - 1]);
      ExtendsTransitive(Run(p, s, inputs[..j]).links, Run(p, s, inputs[..k - 1]).links, Run(p, s, inputs[..k]).links);
    }
  }
}
