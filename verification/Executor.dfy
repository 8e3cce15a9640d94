/**
 * The transaction executor as a function: one handler per transaction type, the dispatcher with
 * its nonce check, and blocks and runs as folds.  A transaction either takes effect as a whole
 * or not at all; the heap executor reaches the same outcome by snapshot and revert.
 */
module Executor {
  import opened Numbers
  import opened Collections
  import opened Rules
  import opened ChainState
  import opened Fees

  // ---------------------------------------------------------------- transactions

  /** A VRF proof with the outcome of verifying it against the claimed seed and its embedded key. */
  datatype VrfProof = VrfProof(bytes: Bytes, valid: bool, key: Option<Bytes>)

  /** Evidence with the outcomes of the signature checks, which depend on its bytes alone. */
  datatype Evidence =
    | DoubleSign(height: uint64, block1: Hash, block2: Hash, keyOwner: Option<Address>, sig1: bool, sig2: bool)
    | Equivocation(seed: Hash, proof1: VrfProof, proof2: VrfProof)
    | Liveness
    | UndecodableEvidence
    | UnknownEvidence

  datatype Body =
    | CreatePayLink(id: Hash, receiver: Address, amount: uint64, expiry: int64, metadata: Hash, rules: RuleField)
    | SubmitValidation(id: Hash, proof: Hash)
    | CancelPayLink(id: Hash)
    | FailPayLink(id: Hash)
    | SendTokens(to: Address, amount: uint64)
    | StakeTokens(amount: uint64)
    | InitiateUnstake(amount: uint64)
    | CompleteUnstake
    | SlashValidator(validator: Address, amount: uint64)
    | RewardValidator(validator: Address, amount: uint64)
    | RegisterVrfKey(key: Bytes)
    | SubmitEvidence(validator: Address, evidence: Evidence)
    | TransferPayLink(id: Hash, to: Address)
    | ApprovePayLink(id: Hash, approved: Address)
    | SetApprovalForAll(operator: Address, grant: bool)
    | Undecodable(adminOnly: bool)
    | UnknownBody

  /** `authentic` is the verdict of signature verification, a property of the transaction alone. */
  datatype Tx = Tx(hash: Hash, from: Address, nonce: uint64, body: Body, authentic: bool)

  datatype Event =
    | PayLinkCreated(id: Hash, creator: Address, receiver: Address, amount: uint64, expiry: int64, metadata: Hash)
    | PayLinkVoted(id: Hash, validator: Address, proof: Hash, voteCount: uint64, required: uint64)
    | PayLinkVerified(id: Hash, proof: Hash, voteCount: uint64)
    | PayLinkCancelled(id: Hash)
    | PayLinkFailed(id: Hash, was: Status)
    | PayLinkTransferred(id: Hash, from: Address, to: Address, via: Option<Address>, transferCount: uint64)
    | PayLinkApproved(id: Hash, owner: Address, approved: Address)
    | ApprovalForAll(owner: Address, operator: Address, grant: bool)
    | TokensSent(from: Address, to: Address, amount: uint64)
    | ValidatorStaked(validator: Address, amount: uint64, totalStaked: uint64, active: bool)
    | ValidatorActivated(validator: Address)
    | ValidatorDeactivated(validator: Address)
    | UnstakeStarted(validator: Address, amount: uint64, withdrawableAt: int64)
    | UnstakeCompleted(validator: Address, amount: uint64)
    | ValidatorSlashed(validator: Address, amount: uint64, remaining: uint64)
    | ValidatorRewarded(validator: Address, amount: uint64, totalRewards: uint64)
    | VrfKeyRegistered(validator: Address)
    | FeeCollected(id: Hash, amount: uint64, fee: Fee)
    | FeeDistributed(validator: Address, amount: uint64)
    | TokenBurned(amount: uint64, totalBurned: uint64)

  datatype Effect = Effect(state: State, events: seq<Event>)

  // ---------------------------------------------------------------- PayLink handlers

  /** The result of a handler that touches only the PayLink tables. */
  datatype LinkEffect = LinkEffect(links: Links, events: seq<Event>)

  function DoCreate(l: Links, from: Address, t: Body, now: int64): Outcome<LinkEffect>
    requires t.CreatePayLink?
  {
    if t.receiver == ZERO_ADDRESS then Err(ZeroAddress)
    else if t.amount == 0 then Err(ZeroAmount)
    else if t.expiry <= now then Err(Expired)
    else if ValidateField(t.rules).Some? then Err(BadRules(ValidateField(t.rules).value))
    else
      var pl := PayLink(t.id, from, t.receiver, from, ZERO_ADDRESS, t.amount, t.expiry, Created,
                        t.metadata, now, 0, 0, t.rules);
      var added := AddPayLink(l, pl);
      if added.Err? then Err(added.error)
      else Ok(LinkEffect(added.value, [PayLinkCreated(t.id, from, t.receiver, t.amount, t.expiry, t.metadata)]))
  }

  function DoCancel(l: Links, from: Address, id: Hash, now: int64): Outcome<LinkEffect> {
    if id !in l.paylinks then Err(PayLinkNotFound)
    else
      var pl := l.paylinks[id];
      if pl.status != Created then Err(NotCreated)
      else if pl.creator != from && pl.owner != from then Err(NotAuthorized)
      else
        var verdict := EvaluateField(pl.rules, Context(Cancel, now, from, ZERO_ADDRESS, pl.amount, 0, []));
        if verdict.Some? then Err(RulesRejected(verdict.value))
        else Ok(LinkEffect(SetStatus(l, id, Cancelled), [PayLinkCancelled(id)]))
  }

  /** The administrator may fail a PayLink whatever its status. */
  function DoFail(p: Params, l: Links, from: Address, id: Hash): Outcome<LinkEffect> {
    if from != p.admin then Err(NotAdmin)
    else if id !in l.paylinks then Err(PayLinkNotFound)
    else Ok(LinkEffect(SetStatus(l, id, Failed), [PayLinkFailed(id, l.paylinks[id].status)]))
  }

  function DoTransferPayLink(l: Links, from: Address, id: Hash, to: Address, now: int64): Outcome<LinkEffect> {
    if to == ZERO_ADDRESS then Err(ZeroAddress)
    else if id !in l.paylinks then Err(PayLinkNotFound)
    else
      var pl := l.paylinks[id];
      if pl.status != Created then Err(NotCreated)
      else if to == pl.owner then Err(SelfTarget)
      else if !MayTransfer(l, id, from) then Err(NotAuthorized)
      else
        var verdict := EvaluateField(pl.rules, Context(Transfer, now, from, to, pl.amount, pl.transferCount, []));
        if verdict.Some? then Err(RulesRejected(verdict.value))
        else
          Ok(LinkEffect(SetOwner(l, id, to),
                        [PayLinkTransferred(id, pl.owner, to, if from == pl.owner then None else Some(from), Add64(pl.transferCount, 1))]))
  }

  function DoApprove(l: Links, from: Address, id: Hash, approved: Address): Outcome<LinkEffect> {
    if id !in l.paylinks then Err(PayLinkNotFound)
    else
      var pl := l.paylinks[id];
      if from != pl.owner then Err(NotAuthorized)
      else if approved == pl.owner then Err(SelfTarget)
      else Ok(LinkEffect(SetApproved(l, id, approved), [PayLinkApproved(id, pl.owner, approved)]))
  }

  function DoSetOperator(l: Links, from: Address, operator: Address, grant: bool): Outcome<LinkEffect> {
    if operator == from then Err(SelfTarget)
    else if operator == ZERO_ADDRESS then Err(ZeroAddress)
    else Ok(LinkEffect(SetOperator(l, from, operator, grant), [ApprovalForAll(from, operator, grant)]))
  }

  /** The checks a vote must pass before it is recorded. */
  function VoteError(s: State, from: Address, id: Hash, proof: Hash, now: int64): Option<TxError> {
    if !IsActive(s.bank, from) then Some(NotActive)
    else if proof in s.links.usedProofs then Some(ProofUsed)
    else if id !in s.links.paylinks then Some(PayLinkNotFound)
    else if s.links.paylinks[id].status != Created then Some(NotCreated)
    else if now > s.links.paylinks[id].expiry then Some(Expired)
    else if (id, from) in s.links.votes then Some(AlreadyVoted)
    else if id in s.links.submittedProofs && s.links.submittedProofs[id] != proof then Some(ProofMismatch)
    else None
  }

  ghost function DoVote(p: Params, s: State, from: Address, id: Hash, proof: Hash, now: int64): Outcome<Effect> {
    var error := VoteError(s, from, id, proof, now);
    if error.Some? then Err(error.value)
    else
      var pl := s.links.paylinks[id];
      var voted := CastVote(s.links, id, from, proof);
      var count := voted.paylinks[id].voteCount;
      var event := PayLinkVoted(id, from, proof, count, p.required);
      if count < p.required then Ok(Effect(s.(links := voted), [event]))
      else
        var verdict := EvaluateField(pl.rules, Context(Settle, now, from, ZERO_ADDRESS, pl.amount, 0, SortedSeq(Voters(voted, id))));
        if verdict.Some? then Err(RulesRejected(verdict.value))
        else
          var fees := CollectFees(p, s.bank, id, pl.amount, SortedSeq(Voters(voted, id)));
          Ok(Effect(s.(links := Settled(voted, id, proof), bank := fees.0),
                    [event, PayLinkVerified(id, proof, count)] + fees.1))
  }

  function PayoutEvents(payouts: seq<Payout>): seq<Event> {
    if payouts == [] then []
    else [FeeDistributed(payouts[0].validator, payouts[0].amount)] + PayoutEvents(payouts[1..])
  }

  /** Fees of a settlement; a failed distribution does not undo the settlement. */
  ghost function CollectFees(p: Params, b: Bank, id: Hash, amount: uint64, voters: seq<Address>): (Bank, seq<Event>) {
    var fee := CalculateFee(p, 0, amount);
    if fee.total == 0 || voters == [] then (b, [])
    else
      var paid := DistributeFees(p, b, fee, voters);
      (paid.bank, if paid.ok then FeeEvents(id, amount, fee, paid.payouts, paid.bank.totalBurned) else [])
  }

  function FeeEvents(id: Hash, amount: uint64, fee: Fee, payouts: seq<Payout>, totalBurned: uint64): seq<Event> {
    [FeeCollected(id, amount, fee)] + PayoutEvents(payouts) + (if fee.burn > 0 then [TokenBurned(fee.burn, totalBurned)] else [])
  }

  // ---------------------------------------------------------------- bank handlers

  datatype BankEffect = BankEffect(bank: Bank, events: seq<Event>)

  function DoSend(b: Bank, from: Address, to: Address, amount: uint64): Outcome<BankEffect> {
    if amount == 0 then Err(ZeroAmount)
    else if to == ZERO_ADDRESS then Err(ZeroAddress)
    else
      var moved := TransferTokens(b, from, to, amount);
      if moved.Err? then Err(moved.error) else Ok(BankEffect(moved.value, [TokensSent(from, to, amount)]))
  }

  function DoStake(p: Params, b: Bank, from: Address, amount: uint64, now: int64): Outcome<BankEffect> {
    if amount == 0 then Err(ZeroAmount)
    else
      var debited := SubBalance(b, from, amount);
      if debited.Err? then Err(debited.error)
      else
        var after := Stake(p, debited.value, from, amount, now);
        var v := after.validators[from];
        Ok(BankEffect(after,
                      [ValidatorStaked(from, amount, v.staked, v.active)] +
                      (if !IsActive(b, from) && v.active then [ValidatorActivated(from)] else [])))
  }

  function Deactivation(before: Bank, after: Bank, a: Address): seq<Event> {
    if IsActive(before, a) && !IsActive(after, a) then [ValidatorDeactivated(a)] else []
  }

  function DoInitiateUnstake(p: Params, b: Bank, from: Address, amount: uint64, now: int64): Outcome<BankEffect> {
    if amount == 0 then Err(ZeroAmount)
    else
      var begun := InitiateWithdrawal(p, b, from, amount, now);
      if begun.Err? then Err(begun.error)
      else
        Ok(BankEffect(begun.value,
                      [UnstakeStarted(from, amount, begun.value.validators[from].withdrawableAt)] + Deactivation(b, begun.value, from)))
  }

  function DoCompleteUnstake(b: Bank, from: Address, now: int64): Outcome<BankEffect> {
    var done := CompleteWithdrawal(b, from, now);
    if done.Err? then Err(done.error)
    else
      var amount := b.validators[from].pending;
      Ok(BankEffect(AddBalance(done.value, from, amount), [UnstakeCompleted(from, amount)]))
  }

  /** Slashing common to the administrator's transaction and to accepted evidence. */
  function DoSlash(p: Params, b: Bank, validator: Address, amount: uint64): Outcome<BankEffect> {
    var slashed := Slash(p, b, validator, amount);
    if slashed.Err? then Err(slashed.error)
    else
      Ok(BankEffect(slashed.value,
                    [ValidatorSlashed(validator, amount, slashed.value.validators[validator].staked)] +
                    Deactivation(b, slashed.value, validator)))
  }

  function DoReward(p: Params, b: Bank, from: Address, validator: Address, amount: uint64): Outcome<BankEffect> {
    if from != p.admin then Err(NotAdmin)
    else
      var debited := SubBalance(b, from, amount);
      if debited.Err? then Err(debited.error)
      else
        var recorded := RecordReward(AddBalance(debited.value, validator, amount), validator, amount);
        if recorded.Err? then Err(recorded.error)
        else
          Ok(BankEffect(recorded.value, [ValidatorRewarded(validator, amount, recorded.value.validators[validator].totalRewards)]))
  }

  function DoRegisterKey(b: Bank, from: Address, key: Bytes): Outcome<BankEffect> {
    if |key| != 32 then Err(BadKeyLength)
    else
      var registered := RegisterKey(b, from, key);
      if registered.Err? then Err(registered.error) else Ok(BankEffect(registered.value, [VrfKeyRegistered(from)]))
  }

  // ---------------------------------------------------------------- evidence

  datatype SlashAction = SlashAction(amount: uint64, id: EvidenceId)

  /** A percentage of the stake, or all of it when the percentage rounds to nothing. */
  function SlashAmount(staked: uint64, percent: uint64): uint64
    requires percent <= 100
  {
    var part := Mul64(staked, percent) / 100;
    if part == 0 then staked else part
  }

  function ProcessEvidence(b: Bank, validator: Address, e: Evidence): Option<SlashAction> {
    if validator !in b.validators || b.validators[validator].staked == 0 then None
    else
      var staked := b.validators[validator].staked;
      match e
      case DoubleSign(height, block1, block2, keyOwner, sig1, sig2) =>
        if block1 == block2 || keyOwner != Some(validator) || !sig1 || !sig2 then None
        else Some(SlashAction(SlashAmount(staked, 50), DoubleSignAt(validator, height)))
      case Equivocation(seed, proof1, proof2) =>
        if !proof1.valid || !proof2.valid || validator !in b.vrfKeys then None
        else if proof1.key != Some(b.vrfKeys[validator]) || proof2.key != Some(b.vrfKeys[validator]) then None
        else if proof1.bytes == proof2.bytes then None
        else Some(SlashAction(SlashAmount(staked, 25), EquivocationOn(validator, seed)))
      case _ => None
  }

  function DoEvidence(p: Params, s: State, validator: Address, e: Evidence): Outcome<Effect> {
    var action := ProcessEvidence(s.bank, validator, e);
    if action.None? then Err(BadEvidence)
    else if action.value.id in s.evidence then Err(EvidenceReplayed)
    else
      var slashed := DoSlash(p, s.bank, validator, action.value.amount);
      if slashed.Err? then Err(slashed.error)
      else Ok(Effect(s.(bank := slashed.value.bank, evidence := s.evidence + {action.value.id}), slashed.value.events))
  }

  // ---------------------------------------------------------------- dispatch

  function OnLinks(s: State, r: Outcome<LinkEffect>): Outcome<Effect> {
    if r.Err? then Err(r.error) else Ok(Effect(s.(links := r.value.links), r.value.events))
  }

  function OnBank(s: State, r: Outcome<BankEffect>): Outcome<Effect> {
    if r.Err? then Err(r.error) else Ok(Effect(s.(bank := r.value.bank), r.value.events))
  }

  ghost function Dispatch(p: Params, s: State, tx: Tx, now: int64): Outcome<Effect> {
    var from := tx.from;
    match tx.body
    case CreatePayLink(_, _, _, _, _, _) => OnLinks(s, DoCreate(s.links, from, tx.body, now))
    case SubmitValidation(id, proof) => DoVote(p, s, from, id, proof, now)
    case CancelPayLink(id) => OnLinks(s, DoCancel(s.links, from, id, now))
    case FailPayLink(id) => OnLinks(s, DoFail(p, s.links, from, id))
    case SendTokens(to, amount) => OnBank(s, DoSend(s.bank, from, to, amount))
    case StakeTokens(amount) => OnBank(s, DoStake(p, s.bank, from, amount, now))
    case InitiateUnstake(amount) => OnBank(s, DoInitiateUnstake(p, s.bank, from, amount, now))
    case CompleteUnstake => OnBank(s, DoCompleteUnstake(s.bank, from, now))
    case SlashValidator(validator, amount) =>
      if from != p.admin then Err(NotAdmin) else OnBank(s, DoSlash(p, s.bank, validator, amount))
    case RewardValidator(validator, amount) => OnBank(s, DoReward(p, s.bank, from, validator, amount))
    case RegisterVrfKey(key) => OnBank(s, DoRegisterKey(s.bank, from, key))
    case SubmitEvidence(validator, e) => DoEvidence(p, s, validator, e)
    case TransferPayLink(id, to) => OnLinks(s, DoTransferPayLink(s.links, from, id, to, now))
    case ApprovePayLink(id, approved) => OnLinks(s, DoApprove(s.links, from, id, approved))
    case SetApprovalForAll(operator, grant) => OnLinks(s, DoSetOperator(s.links, from, operator, grant))
    case Undecodable(adminOnly) => if adminOnly && from != p.admin then Err(NotAdmin) else Err(InvalidPayload)
    case UnknownBody => Err(UnknownTxType)
  }

  /** ExecuteTx: the nonce must match, and advances only when the handler succeeds. */
  ghost function Step(p: Params, s: State, tx: Tx, now: int64): Outcome<Effect> {
    if tx.nonce != AccountOf(s.bank, tx.from).nonce then Err(BadNonce)
    else
      var r := Dispatch(p, s, tx, now);
      if r.Err? then r
      else Ok(r.value.(state := r.value.state.(bank := IncrementNonce(r.value.state.bank, tx.from))))
  }

  /** A transaction inside a block: forged ones fail before they touch the state. */
  ghost function BlockStep(p: Params, s: State, tx: Tx, now: int64): Outcome<Effect> {
    if !tx.authentic then Err(BadSignature) else Step(p, s, tx, now)
  }

  // ---------------------------------------------------------------- blocks and runs

  /** What executing a list of transactions yields: final state, one verdict each, committed events. */
  datatype Executed = Executed(state: State, verdicts: seq<bool>, events: seq<Event>)

  ghost function ExecuteBlock(p: Params, s: State, txs: seq<Tx>, now: int64): (r: Executed)
    ensures |r.verdicts| == |txs|
  {
    if txs == [] then Executed(s, [], [])
    else
      var before := ExecuteBlock(p, s, txs[..|txs| - 1], now);
      var r := BlockStep(p, before.state, txs[|txs| - 1], now);
      if r.Err? then before.(verdicts := before.verdicts + [false])
      else Executed(r.value.state, before.verdicts + [true], before.events + r.value.events)
  }

  /** One more transaction at the end of a block. */
  lemma {:induction false} ExecuteAppend(p: Params, s: State, txs: seq<Tx>, tx: Tx, now: int64)
    ensures var before := ExecuteBlock(p, s, txs, now); var r := BlockStep(p, before.state, tx, now);
      ExecuteBlock(p, s, txs + [tx], now) ==
        if r.Err? then before.(verdicts := before.verdicts + [false])
        else Executed(r.value.state, before.verdicts + [true], before.events + r.value.events)
  {
    hide BlockStep;
    assert (txs + [tx])[..|txs|] == txs;
  }

  /** One input of a run: a transaction with the timestamp of the block that holds it. */
  datatype Input = Input(tx: Tx, now: int64)

  ghost function After(p: Params, s: State, i: Input): State {
    var r := BlockStep(p, s, i.tx, i.now);
    if r.Ok? then r.value.state else s
  }

  ghost function Run(p: Params, s: State, inputs: seq<Input>): State {
    if inputs == [] then s else After(p, Run(p, s, inputs[..|inputs| - 1]), inputs[|inputs| - 1])
  }

  /** The events committed along a run, in order. */
  ghost function RunEvents(p: Params, s: State, inputs: seq<Input>): seq<Event> {
    if inputs == [] then []
    else
      var n := |inputs| - 1;
      var r := BlockStep(p, Run(p, s, inputs[..n]), inputs[n].tx, inputs[n].now);
      RunEvents(p, s, inputs[..n]) + (if r.Ok? then r.value.events else [])
  }

  /** The transaction at position k of a run succeeds. */
  ghost predicate Succeeds(p: Params, s: State, inputs: seq<Input>, k: nat)
    requires k < |inputs|
  {
    BlockStep(p, Run(p, s, inputs[..k]), inputs[k].tx, inputs[k].now).Ok?
  }

  /** A run grows one input at a time. */
  lemma RunGrows(p: Params, s: State, inputs: seq<Input>, k: nat)
    requires k < |inputs|
    ensures Run(p, s, inputs[..k + 1]) == After(p, Run(p, s, inputs[..k]), inputs[k])
  {
    var longer := inputs[..k + 1];
    assert longer[..|longer| - 1] == inputs[..k];
    assert longer[|longer| - 1] == inputs[k];
  }
}
