/**
 * The law of every transaction, in the fields it reads: exactly when each kind commits, whoever
 * sends it.  Nothing here goes through the handlers' own tests; the theorems say that the handlers
 * agree.
 */
module Laws {
  import opened Numbers
  import opened Collections
  import opened Rules
  import opened ChainState
  import opened Executor

  // ---------------------------------------------------------------- what evidence shows

  /** The evidence shows the offence in its own fields: two blocks signed with the validator's key, or two VRF proofs under it. */
  predicate Shows(b: Bank, v: Address, e: Evidence) {
    match e
    case DoubleSign(_, block1, block2, keyOwner, sig1, sig2) => block1 != block2 && keyOwner == Some(v) && sig1 && sig2
    case Equivocation(_, proof1, proof2) =>
      && proof1.valid && proof2.valid && proof1.bytes != proof2.bytes
      && v in b.vrfKeys && proof1.key == Some(b.vrfKeys[v]) && proof2.key == Some(b.vrfKeys[v])
    case _ => false
  }

  /** The offence that evidence of these two kinds is about. */
  function Offence(v: Address, e: Evidence): EvidenceId
    requires e.DoubleSign? || e.Equivocation?
  {
    match e
    case DoubleSign(height, _, _, _, _, _) => DoubleSignAt(v, height)
    case Equivocation(seed, _, _) => EquivocationOn(v, seed)
  }

  /** Half of the stake for a double sign, a quarter for an equivocation, and all of it where that part is nothing. */
  function Penalty(staked: uint64, e: Evidence): nat {
    var part := (staked * (if e.DoubleSign? then 50 else 25)) % U64_MOD / 100;
    if part == 0 then staked else part
  }

  lemma {:induction false} PenaltyIs(staked: uint64, e: Evidence)
    requires staked > 0
    ensures 0 < Penalty(staked, e) <= staked
    ensures e.DoubleSign? && staked * 50 < U64_MOD ==> Penalty(staked, e) == if staked < 2 then staked else staked / 2
    ensures e.Equivocation? && staked * 25 < U64_MOD ==> Penalty(staked, e) == if staked < 4 then staked else staked / 4
  {}

  lemma {:induction false} EvidenceIff(b: Bank, v: Address, e: Evidence)
    ensures ProcessEvidence(b, v, e).Some? <==> v in b.validators && b.validators[v].staked > 0 && Shows(b, v, e)
    ensures ProcessEvidence(b, v, e).Some? ==>
      ProcessEvidence(b, v, e).value.id == Offence(v, e) && ProcessEvidence(b, v, e).value.amount == Penalty(b.validators[v].staked, e)
  {}

  // ---------------------------------------------------------------- when a transaction commits

  /** The transaction may take effect in this state at this time. */
  ghost predicate Allowed(p: Params, s: State, tx: Tx, now: int64) {
    var from, b, l := tx.from, s.bank, s.links;
    match tx.body
    case CreatePayLink(id, receiver, amount, expiry, _, rules) =>
      receiver != ZERO_ADDRESS && amount > 0 && now < expiry && (rules.NoRules? || (rules.RuleList? && WellFormed(rules.rules))) && id !in l.paylinks
    case SubmitValidation(id, proof) =>
      && from in b.validators && b.validators[from].active
      && id in l.paylinks && l.paylinks[id].status == Created && now <= l.paylinks[id].expiry
      && (id, from) !in l.votes && proof !in l.usedProofs && (id in l.submittedProofs ==> l.submittedProofs[id] == proof)
      && ((l.paylinks[id].voteCount + 1) % U64_MOD >= p.required ==> RulesPass(s, Settle, id, now, from, ZERO_ADDRESS))
    case CancelPayLink(id) =>
      && id in l.paylinks && l.paylinks[id].status == Created && from in {l.paylinks[id].creator, l.paylinks[id].owner}
      && RulesPass(s, Cancel, id, now, from, ZERO_ADDRESS)
    case FailPayLink(id) => from == p.admin && id in l.paylinks
    case SendTokens(to, amount) => amount > 0 && to != ZERO_ADDRESS && from in b.accounts && b.accounts[from].balance >= amount
    case StakeTokens(amount) => amount > 0 && from in b.accounts && b.accounts[from].balance >= amount
    case InitiateUnstake(amount) =>
      && from in b.validators && b.validators[from].pending == 0 && 0 < amount <= b.validators[from].staked
      && (amount == b.validators[from].staked || b.validators[from].staked - amount >= p.minimumStake)
    case CompleteUnstake => from in b.validators && b.validators[from].pending > 0 && b.validators[from].withdrawableAt <= now
    case SlashValidator(v, amount) => from == p.admin && v in b.validators && amount <= b.validators[v].staked
    case RewardValidator(v, amount) =>
      && from == p.admin && from in b.accounts && b.accounts[from].balance >= amount
      && v in b.validators && b.validators[v].active
    case RegisterVrfKey(key) => |key| == 32 && from in b.validators && b.validators[from].active
    case SubmitEvidence(v, e) =>
      v in b.validators && b.validators[v].staked > 0 && Shows(b, v, e) && Offence(v, e) !in s.evidence
    case TransferPayLink(id, to) =>
      && to != ZERO_ADDRESS && id in l.paylinks && l.paylinks[id].status == Created && to != l.paylinks[id].owner
      && MayMove(l, id, from) && RulesPass(s, Transfer, id, now, from, to)
    case ApprovePayLink(id, approved) => id in l.paylinks && from == l.paylinks[id].owner && approved != from
    case SetApprovalForAll(operator, _) => operator != from && operator != ZERO_ADDRESS
    case Undecodable(_) => false
    case UnknownBody => false
  }

  /** The owner, the approved address of the record, or an operator of the owner. */
  predicate MayMove(l: Links, id: Hash, a: Address)
    requires id in l.paylinks
  {
    a == l.paylinks[id].owner || a == l.paylinks[id].approved || (l.paylinks[id].owner, a) in l.operators
  }

  /** The rules of the PayLink let the act through, with its own amount, and for settlement with all its voters. */
  ghost predicate RulesPass(s: State, action: Action, id: Hash, now: int64, sender: Address, receiver: Address)
    requires id in s.links.paylinks
  {
    var pl := s.links.paylinks[id];
    var count := if action == Transfer then pl.transferCount else 0;
    var voters := if action == Settle then SortedSeq((set v | v in s.links.votes && v.0 == id :: v.1) + {sender}) else [];
    || pl.rules.NoRules?
    || (&& pl.rules.RuleList? && (forall r :: r in pl.rules.rules ==> Legible(r))
        && Obeys(pl.rules.rules, Context(action, now, sender, receiver, pl.amount, count, voters)))
  }

  /** The engine agrees. */
  lemma {:induction false} RulesPassIff(s: State, action: Action, id: Hash, now: int64, sender: Address, receiver: Address)
    requires id in s.links.paylinks
    ensures var pl := s.links.paylinks[id];
      var count := if action == Transfer then pl.transferCount else 0;
      var voters := if action == Settle then SortedSeq((set v | v in s.links.votes && v.0 == id :: v.1) + {sender}) else [];
      RulesPass(s, action, id, now, sender, receiver) <==>
        EvaluateField(pl.rules, Context(action, now, sender, receiver, pl.amount, count, voters)).None?
  {
    hide EvaluateField, Obeys, Legible, SortedSeq;
    var pl := s.links.paylinks[id];
    var count := if action == Transfer then pl.transferCount else 0;
    var voters := if action == Settle then SortedSeq((set v | v in s.links.votes && v.0 == id :: v.1) + {sender}) else [];
    SortedNoDup(voters);
    EvaluateFieldIff(pl.rules, Context(action, now, sender, receiver, pl.amount, count, voters));
  }

  lemma {:induction false} VoteIff(p: Params, s: State, tx: Tx, now: int64)
    requires tx.body.SubmitValidation?
    ensures DoVote(p, s, tx.from, tx.body.id, tx.body.proof, now).Ok? <==> Allowed(p, s, tx, now)
  {
    hide EvaluateField, CollectFees, Settled, SortedSeq, RulesPass;
    var id, proof := tx.body.id, tx.body.proof;
    if VoteError(s, tx.from, id, proof, now).None? {
      RulesPassIff(s, Settle, id, now, tx.from, ZERO_ADDRESS);
      VotersWith(s.links, id, tx.from, proof);
    }
  }

  lemma {:induction false} VotersWith(l: Links, id: Hash, from: Address, proof: Hash)
    requires id in l.paylinks
    ensures Voters(CastVote(l, id, from, proof), id) == (set v | v in l.votes && v.0 == id :: v.1) + {from}
  {
    var voted := CastVote(l, id, from, proof);
    forall a ensures a in Voters(voted, id) <==> a in (set v | v in l.votes && v.0 == id :: v.1) + {from} {
      assert a in Voters(voted, id) <==> (id, a) in voted.votes;
      assert a in (set v | v in l.votes && v.0 == id :: v.1) <==> (id, a) in l.votes;
    }
  }

  lemma {:induction false} CreateIff(p: Params, s: State, tx: Tx, now: int64)
    requires tx.body.CreatePayLink?
    ensures DoCreate(s.links, tx.from, tx.body, now).Ok? <==> Allowed(p, s, tx, now)
  {
    hide ValidateField, Append, WellFormed;
    ValidateIff(tx.body.rules);
  }

  lemma {:induction false} CancelIff(p: Params, s: State, tx: Tx, now: int64)
    requires tx.body.CancelPayLink?
    ensures DoCancel(s.links, tx.from, tx.body.id, now).Ok? <==> Allowed(p, s, tx, now)
  {
    hide EvaluateField, SetStatus, SortedSeq, RulesPass;
    if tx.body.id in s.links.paylinks {
      RulesPassIff(s, Cancel, tx.body.id, now, tx.from, ZERO_ADDRESS);
    }
  }

  lemma {:induction false} TransferIff(p: Params, s: State, tx: Tx, now: int64)
    requires tx.body.TransferPayLink?
    ensures DoTransferPayLink(s.links, tx.from, tx.body.id, tx.body.to, now).Ok? <==> Allowed(p, s, tx, now)
  {
    hide EvaluateField, SetOwner, SortedSeq, RulesPass;
    if tx.body.id in s.links.paylinks {
      RulesPassIff(s, Transfer, tx.body.id, now, tx.from, tx.body.to);
    }
  }

  lemma {:induction false} EvidenceTxIff(p: Params, s: State, tx: Tx, now: int64)
    requires tx.body.SubmitEvidence?
    ensures DoEvidence(p, s, tx.body.validator, tx.body.evidence).Ok? <==> Allowed(p, s, tx, now)
  {
    hide ProcessEvidence, Penalty, Shows;
    EvidenceIff(s.bank, tx.body.validator, tx.body.evidence);
    if tx.body.validator in s.bank.validators && s.bank.validators[tx.body.validator].staked > 0 {
      PenaltyIs(s.bank.validators[tx.body.validator].staked, tx.body.evidence);
    }
    ShownKinds(s.bank, tx.body.validator, tx.body.evidence);
  }

  lemma ShownKinds(b: Bank, v: Address, e: Evidence)
    ensures Shows(b, v, e) ==> e.DoubleSign? || e.Equivocation?
  {}

  lemma {:induction false} BankIff(p: Params, s: State, tx: Tx, now: int64)
    requires tx.body.SendTokens? || tx.body.StakeTokens? || tx.body.InitiateUnstake? || tx.body.CompleteUnstake? || tx.body.SlashValidator?
             || tx.body.RewardValidator? || tx.body.RegisterVrfKey?
    ensures Dispatch(p, s, tx, now).Ok? <==> Allowed(p, s, tx, now)
  {
    hide DoVote, DoCreate, DoCancel, DoFail, DoTransferPayLink, DoApprove, DoSetOperator, DoEvidence, RulesPass, WellFormed;
  }

  // ---------------------------------------------------------------- what the handlers mean

  lemma {:induction false} SendMeans(b: Bank, from: Address, to: Address, amount: uint64)
    ensures DoSend(b, from, to, amount).Ok? <==> amount > 0 && to != ZERO_ADDRESS && amount <= AccountOf(b, from).balance
    ensures DoSend(b, from, to, amount).Ok? && to != from ==>
      var after := DoSend(b, from, to, amount).value.bank;
      && AccountOf(after, from).balance == AccountOf(b, from).balance - amount
      && AccountOf(after, to).balance == (AccountOf(b, to).balance + amount) % U64_MOD
  {
    AddWraps(AccountOf(b, to).balance, amount);
  }

  lemma {:induction false} SlashMeans(p: Params, b: Bank, v: Address, amount: uint64)
    ensures DoSlash(p, b, v, amount).Ok? <==> v in b.validators && amount <= b.validators[v].staked
    ensures DoSlash(p, b, v, amount).Ok? ==>
      var after := DoSlash(p, b, v, amount).value.bank;
      v in after.validators && after.validators[v].staked == b.validators[v].staked - amount
  {}

  lemma {:induction false} TransferMeans(l: Links, from: Address, id: Hash, to: Address, now: int64)
    requires DoTransferPayLink(l, from, id, to, now).Ok?
    ensures id in l.paylinks && l.paylinks[id].status == Created && to !in {ZERO_ADDRESS, l.paylinks[id].owner} && MayMove(l, id, from)
    ensures var after := DoTransferPayLink(l, from, id, to, now).value.links; id in after.paylinks && after.paylinks[id].owner == to
  {
    hide EvaluateField, Append, Remove;
  }

  /** A transaction commits exactly when it carries its sender's nonce and is allowed. */
  lemma {:induction false} CommitsIff(p: Params, s: State, tx: Tx, now: int64)
    ensures Dispatch(p, s, tx, now).Ok? <==> Allowed(p, s, tx, now)
    ensures Step(p, s, tx, now).Ok? <==> tx.nonce == AccountOf(s.bank, tx.from).nonce && Allowed(p, s, tx, now)
    ensures BlockStep(p, s, tx, now).Ok? <==> tx.authentic && tx.nonce == AccountOf(s.bank, tx.from).nonce && Allowed(p, s, tx, now)
  {
    hide DoVote, DoCreate, DoCancel, DoTransferPayLink, DoEvidence, DoSend, DoStake, DoInitiateUnstake, DoCompleteUnstake, DoSlash,
      DoReward, DoRegisterKey, RulesPass, WellFormed, SetStatus, SetApproved, SetOperator;
    match tx.body
    case CreatePayLink(_, _, _, _, _, _) => CreateIff(p, s, tx, now);
    case SubmitValidation(_, _) => VoteIff(p, s, tx, now);
    case CancelPayLink(_) => CancelIff(p, s, tx, now);
    case TransferPayLink(_, _) => TransferIff(p, s, tx, now);
    case SubmitEvidence(_, _) => EvidenceTxIff(p, s, tx, now);
    case FailPayLink(_) =>
    case ApprovePayLink(_, _) =>
    case SetApprovalForAll(_, _) =>
    case Undecodable(_) =>
    case UnknownBody =>
    case _ => BankIff(p, s, tx, now);
  }
}
