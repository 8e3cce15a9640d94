/**
 * Who may change what about a PayLink: the record of every PayLink after a committed transaction,
 * field by field, with the votes, proofs and operators, and who can move an owner along a run.
 */
module Ownership {
  import opened Numbers
  import opened Collections
  import opened Rules
  import opened ChainState
  import opened Executor
  import opened Laws

  // ---------------------------------------------------------------- one committed transaction

  /** The PayLink that a transaction is about. */
  function About(tx: Tx): Option<Hash> {
    match tx.body
    case SubmitValidation(id, _) => Some(id)
    case CancelPayLink(id) => Some(id)
    case FailPayLink(id) => Some(id)
    case TransferPayLink(id, _) => Some(id)
    case ApprovePayLink(id, _) => Some(id)
    case _ => None
  }

  /** The vote of the transaction fills the quorum of the PayLink. */
  predicate Fills(p: Params, pl: PayLink, tx: Tx) {
    tx.body.SubmitValidation? && (pl.voteCount + 1) % U64_MOD >= p.required
  }

  /** The PayLink after a transaction about it. */
  ghost predicate LinkMoves(p: Params, tx: Tx, before: PayLink, after: PayLink) {
    && after.id == before.id && after.creator == before.creator && after.receiver == before.receiver
    && after.amount == before.amount && after.expiry == before.expiry && after.metadata == before.metadata
    && after.createdAt == before.createdAt && after.rules == before.rules
    && after.owner == (if tx.body.TransferPayLink? then tx.body.to else before.owner)
    && after.approved == (if tx.body.TransferPayLink? then ZERO_ADDRESS else if tx.body.ApprovePayLink? then tx.body.approved else before.approved)
    && after.transferCount == (before.transferCount + if tx.body.TransferPayLink? then 1 else 0) % U64_MOD
    && after.voteCount == (before.voteCount + if tx.body.SubmitValidation? then 1 else 0) % U64_MOD
    && after.status == (if tx.body.CancelPayLink? then Cancelled else if tx.body.FailPayLink? then Failed
                        else if Fills(p, before, tx) then Verified else before.status)
  }

  /** The new PayLink: its sender creates and owns it, nobody is approved, and it has no votes or transfers. */
  ghost predicate Opens(tx: Tx, now: int64, pl: PayLink)
    requires tx.body.CreatePayLink?
  {
    && pl.id == tx.body.id && pl.creator == tx.from && pl.owner == tx.from && pl.receiver == tx.body.receiver
    && pl.amount == tx.body.amount && pl.expiry == tx.body.expiry && pl.metadata == tx.body.metadata && pl.rules == tx.body.rules
    && pl.status == Created && pl.approved == ZERO_ADDRESS && pl.voteCount == 0 && pl.transferCount == 0 && pl.createdAt == now
  }

  /** The PayLinks, votes, proofs and operators after a transaction. */
  ghost predicate LinksMove(p: Params, s: State, tx: Tx, now: int64, after: Links) {
    var l, vote := s.links, tx.body.SubmitValidation?;
    && (forall id :: id in after.paylinks <==> id in l.paylinks || (tx.body.CreatePayLink? && id == tx.body.id))
    && (forall id :: id in l.paylinks && About(tx) != Some(id) ==> after.paylinks[id] == l.paylinks[id])
    && (forall id :: id in l.paylinks && About(tx) == Some(id) ==> LinkMoves(p, tx, l.paylinks[id], after.paylinks[id]))
    && (tx.body.CreatePayLink? ==> tx.body.id !in l.paylinks && Opens(tx, now, after.paylinks[tx.body.id]))
    && after.votes == l.votes + (if vote then {(tx.body.id, tx.from)} else {})
    && after.submittedProofs == (if vote then l.submittedProofs[tx.body.id := tx.body.proof] else l.submittedProofs)
    && after.usedProofs == l.usedProofs + (if vote && tx.body.id in l.paylinks && Fills(p, l.paylinks[tx.body.id], tx) then {tx.body.proof} else {})
    && OperatorsMove(tx, l.operators, after.operators)
  }

  /** Only an owner grants or takes back its own operators. */
  ghost predicate OperatorsMove(tx: Tx, before: set<(Address, Address)>, after: set<(Address, Address)>) {
    forall owner, operator ::
      (owner, operator) in after <==>
        if tx.body.SetApprovalForAll? && tx.from == owner && tx.body.operator == operator then tx.body.grant else (owner, operator) in before
  }

  /** Rewriting the one PayLink a transaction is about, as that PayLink moves, moves the tables. */
  lemma {:induction false} OneLink(p: Params, s: State, tx: Tx, now: int64, id: Hash, after: Links)
    requires About(tx) == Some(id) && id in s.links.paylinks && id in after.paylinks
    requires after.paylinks == s.links.paylinks[id := after.paylinks[id]] && LinkMoves(p, tx, s.links.paylinks[id], after.paylinks[id])
    requires after.operators == s.links.operators
    requires if tx.body.SubmitValidation? then
               && after.votes == s.links.votes + {(id, tx.from)} && after.submittedProofs == s.links.submittedProofs[id := tx.body.proof]
               && after.usedProofs == s.links.usedProofs + (if Fills(p, s.links.paylinks[id], tx) then {tx.body.proof} else {})
             else
               after.votes == s.links.votes && after.submittedProofs == s.links.submittedProofs && after.usedProofs == s.links.usedProofs
    ensures LinksMove(p, s, tx, now, after)
  {
    hide LinkMoves, Fills;
  }

  lemma {:induction false} VoteLeaves(p: Params, s: State, from: Address, id: Hash, proof: Hash, now: int64)
    requires DoVote(p, s, from, id, proof, now).Ok?
    ensures id in s.links.paylinks && (id in s.links.submittedProofs ==> s.links.submittedProofs[id] == proof)
    ensures var voted := CastVote(s.links, id, from, proof);
      DoVote(p, s, from, id, proof, now).value.state.links == if voted.paylinks[id].voteCount < p.required then voted else Settled(voted, id, proof)
  {
    hide CollectFees, EvaluateField, SortedSeq, Settled;
  }

  lemma {:induction false} VoteLinks(p: Params, s: State, tx: Tx, now: int64)
    requires tx.body.SubmitValidation? && DoVote(p, s, tx.from, tx.body.id, tx.body.proof, now).Ok?
    ensures LinksMove(p, s, tx, now, DoVote(p, s, tx.from, tx.body.id, tx.body.proof, now).value.state.links)
  {
    hide LinksMove, DoVote, SortedSeq, Append, Remove;
    VoteLeaves(p, s, tx.from, tx.body.id, tx.body.proof, now);
    AddWraps(s.links.paylinks[tx.body.id].voteCount, 1);
    OneLink(p, s, tx, now, tx.body.id, DoVote(p, s, tx.from, tx.body.id, tx.body.proof, now).value.state.links);
  }

  lemma {:induction false} CreateLinks(p: Params, s: State, tx: Tx, now: int64)
    requires tx.body.CreatePayLink? && DoCreate(s.links, tx.from, tx.body, now).Ok?
    ensures LinksMove(p, s, tx, now, DoCreate(s.links, tx.from, tx.body, now).value.links)
  {
    hide ValidateField, Append;
  }

  lemma {:induction false} CancelLinks(p: Params, s: State, tx: Tx, now: int64)
    requires tx.body.CancelPayLink? && DoCancel(s.links, tx.from, tx.body.id, now).Ok?
    ensures LinksMove(p, s, tx, now, DoCancel(s.links, tx.from, tx.body.id, now).value.links)
  {
    hide LinksMove, EvaluateField, Append, Remove;
    var after := DoCancel(s.links, tx.from, tx.body.id, now).value.links;
    OneLink(p, s, tx, now, tx.body.id, after);
  }

  lemma {:induction false} FailLinks(p: Params, s: State, tx: Tx, now: int64)
    requires tx.body.FailPayLink? && DoFail(p, s.links, tx.from, tx.body.id).Ok?
    ensures LinksMove(p, s, tx, now, DoFail(p, s.links, tx.from, tx.body.id).value.links)
  {
    hide LinksMove, Append, Remove;
    var after := DoFail(p, s.links, tx.from, tx.body.id).value.links;
    OneLink(p, s, tx, now, tx.body.id, after);
  }

  lemma {:induction false} TransferLinks(p: Params, s: State, tx: Tx, now: int64)
    requires tx.body.TransferPayLink? && DoTransferPayLink(s.links, tx.from, tx.body.id, tx.body.to, now).Ok?
    ensures LinksMove(p, s, tx, now, DoTransferPayLink(s.links, tx.from, tx.body.id, tx.body.to, now).value.links)
  {
    hide LinksMove, EvaluateField, Append, Remove;
    var after := DoTransferPayLink(s.links, tx.from, tx.body.id, tx.body.to, now).value.links;
    AddWraps(s.links.paylinks[tx.body.id].transferCount, 1);
    OneLink(p, s, tx, now, tx.body.id, after);
  }

  lemma {:induction false} ApproveLinks(p: Params, s: State, tx: Tx, now: int64)
    requires tx.body.ApprovePayLink? && DoApprove(s.links, tx.from, tx.body.id, tx.body.approved).Ok?
    ensures LinksMove(p, s, tx, now, DoApprove(s.links, tx.from, tx.body.id, tx.body.approved).value.links)
  {
    hide LinksMove;
    var after := DoApprove(s.links, tx.from, tx.body.id, tx.body.approved).value.links;
    OneLink(p, s, tx, now, tx.body.id, after);
  }

  lemma {:induction false} OperatorLinks(p: Params, s: State, tx: Tx, now: int64)
    requires tx.body.SetApprovalForAll? && DoSetOperator(s.links, tx.from, tx.body.operator, tx.body.grant).Ok?
    ensures LinksMove(p, s, tx, now, DoSetOperator(s.links, tx.from, tx.body.operator, tx.body.grant).value.links)
  {}

  /** Transactions on the bank leave the PayLinks alone. */
  lemma {:induction false} BankLinks(p: Params, s: State, tx: Tx, now: int64)
    requires Dispatch(p, s, tx, now).Ok? && About(tx).None? && !tx.body.CreatePayLink? && !tx.body.SetApprovalForAll?
    ensures Dispatch(p, s, tx, now).value.state.links == s.links && LinksMove(p, s, tx, now, s.links)
  {
    hide DoVote, DoCreate, DoCancel, DoFail, DoTransferPayLink, DoApprove, DoSetOperator, DoSend, DoStake, DoInitiateUnstake,
      DoCompleteUnstake, DoSlash, DoReward, DoRegisterKey, ProcessEvidence;
  }

  /** Every PayLink, vote, proof and operator after a committed transaction. */
  lemma {:induction false} LinkLaw(p: Params, s: State, tx: Tx, now: int64)
    requires Step(p, s, tx, now).Ok?
    ensures LinksMove(p, s, tx, now, Step(p, s, tx, now).value.state.links)
  {
    hide DoVote, DoCreate, DoCancel, DoFail, DoTransferPayLink, DoApprove, DoSetOperator, DoSend, DoStake, DoInitiateUnstake,
      DoCompleteUnstake, DoSlash, DoReward, DoRegisterKey, DoEvidence, LinksMove;
    match tx.body
    case SubmitValidation(_, _) => VoteLinks(p, s, tx, now);
    case CreatePayLink(_, _, _, _, _, _) => CreateLinks(p, s, tx, now);
    case CancelPayLink(_) => CancelLinks(p, s, tx, now);
    case FailPayLink(_) => FailLinks(p, s, tx, now);
    case TransferPayLink(_, _) => TransferLinks(p, s, tx, now);
    case ApprovePayLink(_, _) => ApproveLinks(p, s, tx, now);
    case SetApprovalForAll(_, _) => OperatorLinks(p, s, tx, now);
    case _ => BankLinks(p, s, tx, now);
  }

  // ---------------------------------------------------------------- who moves an owner

  /** The input moves the PayLink to a new owner, and its sender may. */
  ghost predicate Conveys(p: Params, s: State, i: Input, id: Hash, to: Address)
    requires id in s.links.paylinks
  {
    var pl := s.links.paylinks[id];
    && BlockStep(p, s, i.tx, i.now).Ok? && i.tx.body == TransferPayLink(id, to)
    && pl.status == Created && to != ZERO_ADDRESS && to != pl.owner
    && (i.tx.from == pl.owner || i.tx.from == pl.approved || (pl.owner, i.tx.from) in s.links.operators)
  }

  /** An owner changes exactly by such a transfer, which also clears the approved address. */
  lemma {:induction false} OwnerMovesIff(p: Params, s: State, i: Input, id: Hash, to: Address)
    requires id in s.links.paylinks && to != s.links.paylinks[id].owner
    ensures id in After(p, s, i).links.paylinks
    ensures After(p, s, i).links.paylinks[id].owner == to <==> Conveys(p, s, i, id, to)
    ensures Conveys(p, s, i, id, to) ==> After(p, s, i).links.paylinks[id].approved == ZERO_ADDRESS
  {
    hide Step, RulesPass, OperatorsMove;
    if BlockStep(p, s, i.tx, i.now).Ok? {
      CommitsIff(p, s, i.tx, i.now);
      LinkLaw(p, s, i.tx, i.now);
    }
  }
}
