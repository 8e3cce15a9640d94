/**
 * The life of a PayLink: exact vote counts, proofs that settle once, and attached rules that
 * bind from creation to the end.  One invariant over the PayLink tables, kept by every step.
 */
module Lifecycle {
  import opened Numbers
  import opened Collections
  import opened Rules
  import opened ChainState
  import opened Executor

  /** Votes that settle a PayLink; a configured zero still needs one vote. */
  function Quorum(p: Params): (q: uint64)
    ensures q > 0
  {
    if p.required == 0 then 1 else p.required
  }

  // ---------------------------------------------------------------- one record

  /** The count is the number of distinct voters, and the status agrees with it. */
  ghost predicate VotesExact(p: Params, pl: PayLink, voters: set<Address>) {
    && pl.voteCount == |voters| <= Quorum(p)
    && (pl.status in {Created, Cancelled} ==> pl.voteCount < Quorum(p))
    && (pl.status == Verified ==> pl.voteCount == Quorum(p))
  }

  /** The owner and the number of transfers respect every transfer rule. */
  ghost predicate TransfersBound(pl: PayLink) {
    forall r :: r in RulesOf(pl.rules) ==>
      && (r.MaxTransfers? && r.limit.Some? ==> pl.transferCount <= r.limit.value)
      && (r.ReceiverWhitelist? && r.receivers.Some? ==> pl.owner == pl.creator || pl.owner in r.receivers.value)
  }

  /** The recorded voters meet every approval quota, and the amount every bound. */
  ghost predicate SettlementBound(pl: PayLink, voters: set<Address>) {
    forall r :: r in RulesOf(pl.rules) ==>
      && (r.MultiApproval? && r.approval.Some? ==> |voters * Elements(r.approval.value.approvers)| >= r.approval.value.required)
      && (r.AmountThreshold? && r.amount.Some? ==> AmountWithin(r.amount.value, pl.amount))
  }

  ghost predicate RecordOk(p: Params, id: Hash, pl: PayLink, voters: set<Address>) {
    && pl.id == id
    && VotesExact(p, pl, voters)
    && ValidateField(pl.rules).None?
    && TransfersBound(pl)
    && (pl.voteCount == Quorum(p) ==> SettlementBound(pl, voters))
  }

  // ---------------------------------------------------------------- all records and proofs

  /** Settled now or before an administrator failed it: only settlement fills the quorum. */
  ghost predicate HasSettled(p: Params, l: Links, id: Hash) {
    id in l.paylinks && l.paylinks[id].voteCount == Quorum(p)
  }

  ghost predicate RecordsOk(p: Params, l: Links) {
    && (forall v :: v in l.votes ==> v.0 in l.paylinks)
    && (forall id :: id in l.paylinks ==> RecordOk(p, id, l.paylinks[id], Voters(l, id)))
  }

  /** Used proofs are exactly the submitted proofs of settled PayLinks, one PayLink each. */
  ghost predicate ProofsOk(p: Params, l: Links) {
    && (forall id :: id in l.submittedProofs ==> id in l.paylinks)
    && (forall id :: HasSettled(p, l, id) ==> id in l.submittedProofs && l.submittedProofs[id] in l.usedProofs)
    && (forall id, id' :: HasSettled(p, l, id) && HasSettled(p, l, id') && l.submittedProofs[id] == l.submittedProofs[id'] ==> id == id')
    && (forall proof :: proof in l.usedProofs ==> exists id :: HasSettled(p, l, id) && l.submittedProofs[id] == proof)
  }

  ghost predicate LinksOk(p: Params, l: Links) {
    RecordsOk(p, l) && ProofsOk(p, l)
  }

  // ---------------------------------------------------------------- changing one record

  /** A change of one record that leaves votes and proofs alone. */
  predicate Rewrites(l: Links, l': Links, id: Hash, pl': PayLink) {
    && id in l.paylinks
    && l'.paylinks == l.paylinks[id := pl']
    && l'.votes == l.votes && l'.usedProofs == l.usedProofs && l'.submittedProofs == l.submittedProofs
    && pl'.voteCount == l.paylinks[id].voteCount
  }

  lemma {:induction false} RewriteKeeps(p: Params, l: Links, l': Links, id: Hash, pl': PayLink)
    requires LinksOk(p, l) && Rewrites(l, l', id, pl') && RecordOk(p, id, pl', Voters(l, id))
    ensures LinksOk(p, l')
  {
    hide RecordOk;
    assert RecordsOk(p, l');
    assert forall i :: HasSettled(p, l', i) <==> HasSettled(p, l, i);
    assert forall proof :: proof in l'.usedProofs ==> exists i :: HasSettled(p, l, i) && l.submittedProofs[i] == proof;
    assert forall proof :: proof in l'.usedProofs ==> exists i :: HasSettled(p, l', i) && l'.submittedProofs[i] == proof;
  }

  lemma {:induction false} RecordOf(p: Params, l: Links, id: Hash)
    requires LinksOk(p, l) && id in l.paylinks
    ensures RecordOk(p, id, l.paylinks[id], Voters(l, id))
  {}

  /** A new status that is no settlement and does not reopen the record keeps the record right. */
  lemma {:induction false} StatusKeepsRecord(p: Params, id: Hash, pl: PayLink, voters: set<Address>, status: Status)
    requires RecordOk(p, id, pl, voters)
    requires status == Failed || (status == Cancelled && pl.status == Created)
    ensures RecordOk(p, id, pl.(status := status), voters)
  {}

  lemma {:induction false} CancelKeeps(p: Params, l: Links, from: Address, id: Hash, now: int64)
    requires LinksOk(p, l) && DoCancel(l, from, id, now).Ok?
    ensures LinksOk(p, DoCancel(l, from, id, now).value.links)
  {
    hide LinksOk, RecordOk, EvaluateField;
    RecordOf(p, l, id);
    StatusKeepsRecord(p, id, l.paylinks[id], Voters(l, id), Cancelled);
    RewriteKeeps(p, l, SetStatus(l, id, Cancelled), id, l.paylinks[id].(status := Cancelled));
  }

  lemma {:induction false} FailKeeps(p: Params, l: Links, from: Address, id: Hash)
    requires LinksOk(p, l) && DoFail(p, l, from, id).Ok?
    ensures LinksOk(p, DoFail(p, l, from, id).value.links)
  {
    hide LinksOk, RecordOk;
    RecordOf(p, l, id);
    StatusKeepsRecord(p, id, l.paylinks[id], Voters(l, id), Failed);
    RewriteKeeps(p, l, SetStatus(l, id, Failed), id, l.paylinks[id].(status := Failed));
  }

  lemma {:induction false} ApproveKeeps(p: Params, l: Links, id: Hash, approved: Address)
    requires LinksOk(p, l) && id in l.paylinks
    ensures LinksOk(p, SetApproved(l, id, approved))
  {
    hide LinksOk;
    RecordOf(p, l, id);
    RewriteKeeps(p, l, SetApproved(l, id, approved), id, l.paylinks[id].(approved := approved));
  }

  lemma {:induction false} OperatorKeeps(p: Params, l: Links, owner: Address, operator: Address, grant: bool)
    requires LinksOk(p, l)
    ensures LinksOk(p, SetOperator(l, owner, operator, grant))
  {
    hide RecordOk;
    var l' := SetOperator(l, owner, operator, grant);
    assert forall i :: HasSettled(p, l', i) <==> HasSettled(p, l, i);
    assert forall proof :: proof in l'.usedProofs ==> exists i :: HasSettled(p, l, i) && l.submittedProofs[i] == proof;
    assert forall proof :: proof in l'.usedProofs ==> exists i :: HasSettled(p, l', i) && l'.submittedProofs[i] == proof;
  }

  /** A transfer the rules allow leaves the new owner and the new count within the rules. */
  lemma {:induction false} TransferKeepsRecord(p: Params, id: Hash, pl: PayLink, voters: set<Address>, c: Context)
    requires RecordOk(p, id, pl, voters)
    requires c.action == Transfer && c.transferCount == pl.transferCount && EvaluateField(pl.rules, c).None?
    ensures RecordOk(p, id, pl.(owner := c.receiver, approved := ZERO_ADDRESS, transferCount := Add64(pl.transferCount, 1)), voters)
  {
    hide EvaluateField, ValidateField;
    TransferMeetsRules(pl.rules, c);
  }

  lemma {:induction false} TransferKeeps(p: Params, l: Links, from: Address, id: Hash, to: Address, now: int64)
    requires LinksOk(p, l) && DoTransferPayLink(l, from, id, to, now).Ok?
    ensures LinksOk(p, DoTransferPayLink(l, from, id, to, now).value.links)
  {
    hide LinksOk, RecordOk, EvaluateField;
    RecordOf(p, l, id);
    var pl := l.paylinks[id];
    TransferKeepsRecord(p, id, pl, Voters(l, id), Context(Transfer, now, from, to, pl.amount, pl.transferCount, []));
    RewriteKeeps(p, l, SetOwner(l, id, to), id, SetOwner(l, id, to).paylinks[id]);
  }

  // ---------------------------------------------------------------- creation

  lemma {:induction false} NoVotersYet(p: Params, l: Links, id: Hash)
    requires RecordsOk(p, l) && id !in l.paylinks
    ensures Voters(l, id) == {}
  {}

  lemma {:induction false} CreateKeeps(p: Params, l: Links, from: Address, t: Body, now: int64)
    requires LinksOk(p, l) && t.CreatePayLink? && DoCreate(l, from, t, now).Ok?
    ensures LinksOk(p, DoCreate(l, from, t, now).value.links)
  {
    var l' := DoCreate(l, from, t, now).value.links;
    var pl := l'.paylinks[t.id];
    NoVotersYet(p, l, t.id);
    assert RecordOk(p, t.id, pl, {}) by { hide ValidateField; }
    AddKeeps(p, l, l', pl);
  }

  lemma {:induction false} AddKeeps(p: Params, l: Links, l': Links, pl: PayLink)
    requires LinksOk(p, l) && pl.id !in l.paylinks && pl.voteCount == 0 && RecordOk(p, pl.id, pl, {})
    requires l'.paylinks == l.paylinks[pl.id := pl] && l'.votes == l.votes
    requires l'.usedProofs == l.usedProofs && l'.submittedProofs == l.submittedProofs
    ensures LinksOk(p, l')
  {
    hide RecordOk;
    NoVotersYet(p, l, pl.id);
    assert RecordsOk(p, l');
    assert forall i :: HasSettled(p, l', i) <==> HasSettled(p, l, i);
    assert forall proof :: proof in l'.usedProofs ==> exists i :: HasSettled(p, l, i) && l.submittedProofs[i] == proof;
    assert forall proof :: proof in l'.usedProofs ==> exists i :: HasSettled(p, l', i) && l'.submittedProofs[i] == proof;
  }

  // ---------------------------------------------------------------- votes and settlement

  lemma {:induction false} VoteAddsVoter(votes: set<(Hash, Address)>, id: Hash, voter: Address)
    ensures VotersIn(votes + {(id, voter)}, id) == VotersIn(votes, id) + {voter}
    ensures (id, voter) !in votes ==> voter !in VotersIn(votes, id)
    ensures forall other :: other != id ==> VotersIn(votes + {(id, voter)}, other) == VotersIn(votes, other)
  {
    var votes' := votes + {(id, voter)};
    forall a ensures a in VotersIn(votes', id) <==> a in VotersIn(votes, id) + {voter} {
      assert a in VotersIn(votes', id) <==> (id, a) in votes';
    }
    forall other, a | other != id ensures a in VotersIn(votes', other) <==> a in VotersIn(votes, other) {
      assert a in VotersIn(votes', other) <==> (other, a) in votes';
      assert a in VotersIn(votes, other) <==> (other, a) in votes;
    }
  }

  /** A vote short of the quorum adds exactly one to an exact count. */
  lemma {:induction false} VoteKeepsRecord(p: Params, id: Hash, pl: PayLink, voters: set<Address>, voter: Address)
    requires RecordOk(p, id, pl, voters) && pl.status == Created && voter !in voters
    requires pl.voteCount + 1 < p.required
    ensures pl.voteCount + 1 == Add64(pl.voteCount, 1) < Quorum(p)
    ensures RecordOk(p, id, pl.(voteCount := pl.voteCount + 1), voters + {voter})
  {}

  /** The vote that reaches the requirement fills the quorum exactly and satisfies the rules. */
  lemma {:induction false} SettleKeepsRecord(p: Params, id: Hash, pl: PayLink, voters: set<Address>, voter: Address, c: Context)
    requires RecordOk(p, id, pl, voters) && pl.status == Created && voter !in voters
    requires pl.voteCount + 1 >= p.required
    requires c.action == Settle && c.amount == pl.amount && c.approvals == SortedSeq(voters + {voter})
    requires EvaluateField(pl.rules, c).None?
    ensures pl.voteCount + 1 == Add64(pl.voteCount, 1) == Quorum(p)
    ensures RecordOk(p, id, pl.(voteCount := pl.voteCount + 1, status := Verified), voters + {voter})
  {
    hide EvaluateField, ValidateField, TransfersBound, SettlementBound;
    var pl' := pl.(voteCount := pl.voteCount + 1, status := Verified);
    RulesMetBy(pl, voters + {voter}, c);
    SameTransfers(pl, pl');
    SameSettlement(pl, pl', voters + {voter});
  }

  lemma {:induction false} RulesMetBy(pl: PayLink, voters: set<Address>, c: Context)
    requires c.action == Settle && c.amount == pl.amount && c.approvals == SortedSeq(voters)
    requires EvaluateField(pl.rules, c).None?
    ensures SettlementBound(pl, voters)
  {
    hide EvaluateField;
    SortedNoDup(c.approvals);
    SettlementMeetsRules(pl.rules, c);
    assert Elements(c.approvals) == voters;
  }

  lemma {:induction false} SameSettlement(pl: PayLink, pl': PayLink, voters: set<Address>)
    requires SettlementBound(pl, voters) && pl'.rules == pl.rules && pl'.amount == pl.amount
    ensures SettlementBound(pl', voters)
  {}

  lemma {:induction false} SameTransfers(pl: PayLink, pl': PayLink)
    requires TransfersBound(pl)
    requires pl'.rules == pl.rules && pl'.owner == pl.owner && pl'.creator == pl.creator && pl'.transferCount == pl.transferCount
    ensures TransfersBound(pl')
  {}

  /** The tables after a vote, whether or not it settles. */
  ghost predicate Votes(l: Links, l': Links, id: Hash, voter: Address, proof: Hash, pl': PayLink) {
    && id in l.paylinks && (id, voter) !in l.votes
    && l'.paylinks == l.paylinks[id := pl']
    && l'.votes == l.votes + {(id, voter)}
    && l'.submittedProofs == l.submittedProofs[id := proof]
    && (id in l.submittedProofs ==> l.submittedProofs[id] == proof)
  }

  lemma {:induction false} VoteKeepsRecords(p: Params, l: Links, l': Links, id: Hash, voter: Address, proof: Hash, pl': PayLink)
    requires RecordsOk(p, l) && Votes(l, l', id, voter, proof, pl')
    requires RecordOk(p, id, pl', Voters(l, id) + {voter})
    ensures RecordsOk(p, l')
  {
    hide RecordOk, VotersIn;
    VoteAddsVoter(l.votes, id, voter);
  }

  /** A vote short of the quorum settles nothing. */
  lemma {:induction false} OpenVoteKeepsProofs(p: Params, l: Links, l': Links, id: Hash, voter: Address, proof: Hash, pl': PayLink)
    requires ProofsOk(p, l) && Votes(l, l', id, voter, proof, pl') && l'.usedProofs == l.usedProofs
    requires l.paylinks[id].voteCount < Quorum(p) && pl'.voteCount < Quorum(p)
    ensures ProofsOk(p, l')
  {
    assert forall i :: HasSettled(p, l', i) <==> HasSettled(p, l, i);
    assert forall i :: HasSettled(p, l', i) ==> l'.submittedProofs[i] == l.submittedProofs[i];
    assert forall proof :: proof in l'.usedProofs ==> exists i :: HasSettled(p, l, i) && l.submittedProofs[i] == proof;
    assert forall proof :: proof in l'.usedProofs ==> exists i :: HasSettled(p, l', i) && l'.submittedProofs[i] == proof;
  }

  /** A settlement uses one fresh proof for one PayLink that had not settled. */
  lemma {:induction false} SettleKeepsProofs(p: Params, l: Links, l': Links, id: Hash, voter: Address, proof: Hash, pl': PayLink)
    requires ProofsOk(p, l) && Votes(l, l', id, voter, proof, pl') && l'.usedProofs == l.usedProofs + {proof}
    requires proof !in l.usedProofs
    requires l.paylinks[id].voteCount < Quorum(p) == pl'.voteCount
    ensures ProofsOk(p, l')
  {
    assert forall i :: HasSettled(p, l', i) <==> HasSettled(p, l, i) || i == id;
    assert forall i :: HasSettled(p, l, i) ==> i != id && l'.submittedProofs[i] == l.submittedProofs[i];
    assert HasSettled(p, l', id) && l'.submittedProofs[id] == proof;
    assert forall q :: q in l.usedProofs ==> exists i :: HasSettled(p, l, i) && l.submittedProofs[i] == q;
    assert forall q :: q in l'.usedProofs ==> exists i :: HasSettled(p, l', i) && l'.submittedProofs[i] == q;
  }

  lemma {:induction false} OpenVoteKeeps(p: Params, s: State, from: Address, id: Hash, proof: Hash, now: int64)
    requires LinksOk(p, s.links) && VoteError(s, from, id, proof, now).None?
    requires Add64(s.links.paylinks[id].voteCount, 1) < p.required
    ensures LinksOk(p, CastVote(s.links, id, from, proof))
  {
    hide RecordsOk, ProofsOk, IsActive;
    var l, l' := s.links, CastVote(s.links, id, from, proof);
    var pl := l.paylinks[id];
    RecordOf(p, l, id);
    VoteAddsVoter(l.votes, id, from);
    VoteKeepsRecord(p, id, pl, Voters(l, id), from);
    VoteKeepsRecords(p, l, l', id, from, proof, l'.paylinks[id]);
    OpenVoteKeepsProofs(p, l, l', id, from, proof, l'.paylinks[id]);
  }

  lemma {:induction false} SettlementKeeps(p: Params, s: State, from: Address, id: Hash, proof: Hash, now: int64, c: Context)
    requires LinksOk(p, s.links) && VoteError(s, from, id, proof, now).None?
    requires Add64(s.links.paylinks[id].voteCount, 1) >= p.required
    requires c.action == Settle && c.amount == s.links.paylinks[id].amount
    requires c.approvals == SortedSeq(Voters(CastVote(s.links, id, from, proof), id))
    requires EvaluateField(s.links.paylinks[id].rules, c).None?
    ensures LinksOk(p, Settled(CastVote(s.links, id, from, proof), id, proof))
    ensures CastVote(s.links, id, from, proof).paylinks[id].voteCount == Quorum(p)
  {
    hide RecordsOk, ProofsOk, RecordOk, IsActive, EvaluateField, Append, Remove, VotersIn, SortedSeq, Quorum, HasSettled;
    var l, l' := s.links, Settled(CastVote(s.links, id, from, proof), id, proof);
    var pl := l.paylinks[id];
    RecordOf(p, l, id);
    VoteAddsVoter(l.votes, id, from);
    SettleKeepsRecord(p, id, pl, Voters(l, id), from, c);
    VoteKeepsRecords(p, l, l', id, from, proof, l'.paylinks[id]);
    SettleKeepsProofs(p, l, l', id, from, proof, l'.paylinks[id]);
  }

  lemma {:induction false} VoteKeeps(p: Params, s: State, from: Address, id: Hash, proof: Hash, now: int64)
    requires LinksOk(p, s.links) && DoVote(p, s, from, id, proof, now).Ok?
    ensures LinksOk(p, DoVote(p, s, from, id, proof, now).value.state.links)
  {
    hide LinksOk, CollectFees, EvaluateField, Settled, VoteError;
    assert VoteError(s, from, id, proof, now).None?;
    VotedOnCreated(s, from, id, proof, now);
    var voted := CastVote(s.links, id, from, proof);
    var pl := s.links.paylinks[id];
    if voted.paylinks[id].voteCount < p.required {
      OpenVoteKeeps(p, s, from, id, proof, now);
    } else {
      SettlementKeeps(p, s, from, id, proof, now, Context(Settle, now, from, ZERO_ADDRESS, pl.amount, 0, SortedSeq(Voters(voted, id))));
    }
  }

  lemma {:induction false} VotedOnCreated(s: State, from: Address, id: Hash, proof: Hash, now: int64)
    requires VoteError(s, from, id, proof, now).None?
    ensures id in s.links.paylinks && s.links.paylinks[id].status == Created
    ensures proof !in s.links.usedProofs && (id, from) !in s.links.votes && IsActive(s.bank, from)
  {}

  // ---------------------------------------------------------------- every step, every run

  lemma {:induction false} StepKeepsLinks(p: Params, s: State, tx: Tx, now: int64)
    requires LinksOk(p, s.links) && Step(p, s, tx, now).Ok?
    ensures LinksOk(p, Step(p, s, tx, now).value.state.links)
  {
    hide LinksOk, DoVote, DoCreate, DoCancel, DoFail, DoTransferPayLink,
      DoSend, DoStake, DoInitiateUnstake, DoCompleteUnstake, DoSlash, DoReward, DoRegisterKey, ProcessEvidence, IncrementNonce;
    match tx.body
    case CreatePayLink(_, _, _, _, _, _) => CreateKeeps(p, s.links, tx.from, tx.body, now);
    case SubmitValidation(id, proof) => VoteKeeps(p, s, tx.from, id, proof, now);
    case CancelPayLink(id) => CancelKeeps(p, s.links, tx.from, id, now);
    case FailPayLink(id) => FailKeeps(p, s.links, tx.from, id);
    case TransferPayLink(id, to) => TransferKeeps(p, s.links, tx.from, id, to, now);
    case ApprovePayLink(id, approved) => ApproveKeeps(p, s.links, id, approved);
    case SetApprovalForAll(operator, grant) => OperatorKeeps(p, s.links, tx.from, operator, grant);
    case _ =>
  }

  lemma {:induction false} AfterKeepsLinks(p: Params, s: State, i: Input)
    requires LinksOk(p, s.links)
    ensures LinksOk(p, After(p, s, i).links)
  {
    hide LinksOk, Step;
    if BlockStep(p, s, i.tx, i.now).Ok? {
      StepKeepsLinks(p, s, i.tx, i.now);
    }
  }

  /** The lifecycle invariant holds in every state of every run that starts with it. */
  lemma {:induction false} RunKeepsLinks(p: Params, s: State, inputs: seq<Input>)
    requires LinksOk(p, s.links)
    ensures LinksOk(p, Run(p, s, inputs).links)
    decreases |inputs|
  {
    hide LinksOk, After;
    if inputs != [] {
      var n := |inputs| - 1;
      RunKeepsLinks(p, s, inputs[..n]);
      AfterKeepsLinks(p, Run(p, s, inputs[..n]), inputs[n]);
    }
  }

  lemma {:induction false} GenesisLinks(p: Params, balances: seq<GenesisBalance>)
    ensures LinksOk(p, Genesis(balances).links)
  {}

  // ---------------------------------------------------------------- rules are obeyed

  /** The act a committed transaction performs on a PayLink under its rules. */
  ghost function RuledAct(p: Params, s: State, tx: Tx, now: int64): Option<(Hash, Context)> {
    match tx.body
    case CancelPayLink(id) =>
      if id !in s.links.paylinks then None
      else Some((id, Context(Cancel, now, tx.from, ZERO_ADDRESS, s.links.paylinks[id].amount, 0, [])))
    case TransferPayLink(id, to) =>
      if id !in s.links.paylinks then None
      else Some((id, Context(Transfer, now, tx.from, to, s.links.paylinks[id].amount, s.links.paylinks[id].transferCount, [])))
    case SubmitValidation(id, proof) =>
      if id !in s.links.paylinks || Add64(s.links.paylinks[id].voteCount, 1) < p.required then None
      else
        var voters := SortedSeq(Voters(s.links, id) + {tx.from});
        Some((id, Context(Settle, now, tx.from, ZERO_ADDRESS, s.links.paylinks[id].amount, 0, voters)))
    case _ => None
  }

  lemma {:induction false} FieldObeyed(f: RuleField, c: Context)
    requires EvaluateField(f, c).None? && NoDup(c.approvals)
    ensures Obeys(RulesOf(f), c)
  {
    hide Obeys;
    PassedObeys(RulesOf(f), c);
  }

  /** Every committed cancellation, transfer and settlement obeys all rules attached to the PayLink. */
  lemma {:induction false} ActsObeyRules(p: Params, s: State, tx: Tx, now: int64)
    requires Dispatch(p, s, tx, now).Ok? && RuledAct(p, s, tx, now).Some?
    ensures var (id, c) := RuledAct(p, s, tx, now).value; id in s.links.paylinks && Obeys(RulesOf(s.links.paylinks[id].rules), c)
  {
    hide Obeys, EvaluateField, SetStatus, SetOwner, MayTransfer, CollectFees, Settled, SortedSeq, IsActive, Voters;
    var (id, c) := RuledAct(p, s, tx, now).value;
    if tx.body.SubmitValidation? {
      VoteAddsVoter(s.links.votes, id, tx.from);
      VotersAre(s.links, id, tx.from, tx.body.proof);
      SortedNoDup(c.approvals);
    }
    FieldObeyed(s.links.paylinks[id].rules, c);
  }

  lemma {:induction false} VotersAre(l: Links, id: Hash, from: Address, proof: Hash)
    requires id in l.paylinks
    ensures Voters(CastVote(l, id, from, proof), id) == Voters(l, id) + {from}
  {
    VoteAddsVoter(l.votes, id, from);
  }
}
