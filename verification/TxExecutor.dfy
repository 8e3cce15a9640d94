/**
 * The executor working on the state database: handlers mutate the database step by step and may
 * leave it half-changed when they fail; ExecuteBlock wraps each transaction in a snapshot, so
 * that the block as a whole does exactly what the value-level executor says.
 */
module TxExecutor {
  import opened Numbers
  import opened Collections
  import opened Rules
  import opened ChainState
  import opened Fees
  import opened Executor
  import opened Laws
  import opened History
  import opened StateDb
  import Distributor

  /** A handler outcome: same verdict, and on success the state and the events of the specification. */
  ghost predicate Matches(bus: bool, r: Outcome<Effect>, error: Option<TxError>, view: State, events: seq<Event>) {
    && error == ErrorOf(r)
    && (r.Ok? ==> view == r.value.state && events == if bus then r.value.events else [])
  }

  datatype Published = Published(height: nat, event: Event)

  ghost function Publish(height: nat, events: seq<Event>): seq<Published> {
    seq(|events|, i requires 0 <= i < |events| => Published(height, events[i]))
  }

  datatype Receipt = Receipt(tx: Hash, error: Option<TxError>)

  /** One receipt per transaction, in order, with the given verdicts. */
  ghost predicate Judged(txs: seq<Tx>, verdicts: seq<bool>, receipts: seq<Receipt>) {
    && |txs| == |verdicts| == |receipts|
    && forall i :: 0 <= i < |txs| ==> receipts[i].tx == txs[i].hash && receipts[i].error.None? == verdicts[i]
  }

  class TxExecutor {
    const db: StateDB
    /** Without a bus no events are emitted (replay runs that way). */
    const hasBus: bool
    /** Events of the transaction being executed, of the committed transactions of the block, and on the bus. */
    var pending: seq<Event>
    var buffered: seq<Event>
    var published: seq<Published>

    ghost predicate Valid()
      reads this, db, db.Repr()
    {
      db.Valid() && this !in db.Repr()
    }

    constructor (db: StateDB, hasBus: bool)
      requires db.Valid()
      ensures Valid() && this.db == db && this.hasBus == hasBus && pending == [] && buffered == [] && published == []
    {
      hide StateDB.Valid;
      this.db, this.hasBus := db, hasBus;
      pending, buffered, published := [], [], [];
    }

    method Emit(e: Event)
      modifies this`pending
      ensures pending == old(pending) + (if hasBus then [e] else [])
    {
      if hasBus {
        pending := pending + [e];
      }
    }

    // -------------------------------------------------------------- bank handlers

    method ExecuteSend(from: Address, to: Address, amount: uint64) returns (error: Option<TxError>)
      requires Valid() && pending == []
      modifies this`pending, db.Repr()
      ensures Valid() && fresh(db.Repr() - old(db.Repr())) && db.Saved == old(db.Saved)
      ensures Matches(hasBus, OnBank(old(db.View()), DoSend(old(db.View()).bank, from, to, amount)), error, db.View(), pending)
      ensures error.None? <==> amount > 0 && to != ZERO_ADDRESS && amount <= AccountOf(old(db.View()).bank, from).balance
      ensures error.None? && to != from ==>
        && AccountOf(db.View().bank, from).balance == AccountOf(old(db.View()).bank, from).balance - amount
        && AccountOf(db.View().bank, to).balance == (AccountOf(old(db.View()).bank, to).balance + amount) % U64_MOD
    {
      hide StateDB.Valid, StateDB.View, TransferTokens;
      SendMeans(db.View().bank, from, to, amount);
      if amount == 0 {
        return Some(ZeroAmount);
      }
      if to == ZERO_ADDRESS {
        return Some(ZeroAddress);
      }
      error := db.Transfer(from, to, amount);
      if error.Some? {
        return;
      }
      Emit(TokensSent(from, to, amount));
    }

    method ExecuteStake(from: Address, amount: uint64, now: int64) returns (error: Option<TxError>)
      requires Valid() && pending == []
      modifies this`pending, db.Repr()
      ensures Valid() && fresh(db.Repr() - old(db.Repr())) && db.Saved == old(db.Saved)
      ensures Matches(hasBus, OnBank(old(db.View()), DoStake(db.params, old(db.View()).bank, from, amount, now)), error, db.View(), pending)
    {
      hide StateDB.Valid, StateDB.View, ChainState.SubBalance, ChainState.Stake, IsActive;
      if amount == 0 {
        return Some(ZeroAmount);
      }
      var wasActive := db.IsActiveValidator(from);
      error := db.SubBalance(from, amount);
      if error.Some? {
        return;
      }
      error := db.Stake(from, amount, now);
      if error.Some? {
        return;
      }
      var updated := db.GetValidator(from);
      var after := updated.value;
      EmitStaked(from, amount, after, wasActive);
    }

    method EmitStaked(from: Address, amount: uint64, after: Validator, wasActive: bool)
      modifies this`pending
      ensures pending == old(pending) +
        if hasBus then [ValidatorStaked(from, amount, after.staked, after.active)] + (if !wasActive && after.active then [ValidatorActivated(from)] else [])
        else []
    {
      Emit(ValidatorStaked(from, amount, after.staked, after.active));
      if !wasActive && after.active {
        Emit(ValidatorActivated(from));
      }
    }

    method ExecuteInitiateUnstake(from: Address, amount: uint64, now: int64) returns (error: Option<TxError>)
      requires Valid() && pending == []
      modifies this`pending, db.Repr()
      ensures Valid() && fresh(db.Repr() - old(db.Repr())) && db.Saved == old(db.Saved)
      ensures Matches(hasBus, OnBank(old(db.View()), DoInitiateUnstake(db.params, old(db.View()).bank, from, amount, now)), error, db.View(), pending)
      ensures error.None? ==>
        && from in db.View().bank.validators && db.View().bank.validators[from].pending == amount > 0
        && db.View().bank.validators[from].withdrawableAt - (now + db.params.cooldown) in {-U64_MOD, 0, U64_MOD}
    {
      hide StateDB.Valid, StateDB.View, ChainState.InitiateWithdrawal;
      if amount == 0 {
        return Some(ZeroAmount);
      }
      var wasActive := db.IsActiveValidator(from);
      error := db.InitiateWithdrawal(from, amount, now);
      if error.Some? {
        return;
      }
      var updated := db.GetValidator(from);
      var after := updated.value;
      Emit(UnstakeStarted(from, amount, after.withdrawableAt));
      if wasActive && !after.active {
        Emit(ValidatorDeactivated(from));
      }
    }

    method ExecuteCompleteUnstake(from: Address, now: int64) returns (error: Option<TxError>)
      requires Valid() && pending == []
      modifies this`pending, db.Repr()
      ensures Valid() && fresh(db.Repr() - old(db.Repr())) && db.Saved == old(db.Saved)
      ensures Matches(hasBus, OnBank(old(db.View()), DoCompleteUnstake(old(db.View()).bank, from, now)), error, db.View(), pending)
    {
      hide StateDB.Valid, StateDB.View, ChainState.AddBalance;
      var amount: uint64;
      error, amount := db.CompleteWithdrawal(from, now);
      if error.Some? {
        return;
      }
      db.AddBalance(from, amount);
      Emit(UnstakeCompleted(from, amount));
    }

    /** The slash itself and its events, shared by the administrator and by evidence. */
    method Punish(validator: Address, amount: uint64) returns (error: Option<TxError>)
      requires Valid() && pending == []
      modifies this`pending, db.Repr()
      ensures Valid() && fresh(db.Repr() - old(db.Repr())) && db.Saved == old(db.Saved)
      ensures Matches(hasBus, OnBank(old(db.View()), DoSlash(db.params, old(db.View()).bank, validator, amount)), error, db.View(), pending)
      ensures error.None? <==> validator in old(db.View()).bank.validators && amount <= old(db.View()).bank.validators[validator].staked
      ensures error.None? ==>
        && validator in db.View().bank.validators
        && db.View().bank.validators[validator].staked == old(db.View()).bank.validators[validator].staked - amount
    {
      hide StateDB.Valid, StateDB.View, ChainState.Slash;
      SlashMeans(db.params, db.View().bank, validator, amount);
      var wasActive := db.IsActiveValidator(validator);
      error := db.Slash(validator, amount);
      if error.Some? {
        return;
      }
      var updated := db.GetValidator(validator);
      var after := updated.value;
      Emit(ValidatorSlashed(validator, amount, after.staked));
      if wasActive && !after.active {
        Emit(ValidatorDeactivated(validator));
      }
    }

    method ExecuteReward(from: Address, validator: Address, amount: uint64) returns (error: Option<TxError>)
      requires Valid() && pending == []
      modifies this`pending, db.Repr()
      ensures Valid() && fresh(db.Repr() - old(db.Repr())) && db.Saved == old(db.Saved)
      ensures Matches(hasBus, OnBank(old(db.View()), DoReward(db.params, old(db.View()).bank, from, validator, amount)), error, db.View(), pending)
    {
      hide StateDB.Valid, StateDB.View, ChainState.SubBalance, ChainState.AddBalance, RecordReward;
      if from != db.params.admin {
        return Some(NotAdmin);
      }
      error := db.SubBalance(from, amount);
      if error.Some? {
        return;
      }
      db.AddBalance(validator, amount);
      error := db.DistributeReward(validator, amount);
      if error.Some? {
        return;
      }
      var updated := db.GetValidator(validator);
      var after := updated.value;
      Emit(ValidatorRewarded(validator, amount, after.totalRewards));
    }

    method ExecuteRegisterKey(from: Address, key: Bytes) returns (error: Option<TxError>)
      requires Valid() && pending == []
      modifies this`pending, db.Repr()
      ensures Valid() && fresh(db.Repr() - old(db.Repr())) && db.Saved == old(db.Saved)
      ensures Matches(hasBus, OnBank(old(db.View()), DoRegisterKey(old(db.View()).bank, from, key)), error, db.View(), pending)
    {
      hide StateDB.Valid, StateDB.View;
      if |key| != 32 {
        return Some(BadKeyLength);
      }
      var active := db.IsActiveValidator(from);
      if !active {
        return Some(NotActive);
      }
      error := db.SetVrfPublicKey(from, key);
      if error.Some? {
        return;
      }
      Emit(VrfKeyRegistered(from));
    }

    // -------------------------------------------------------------- PayLink handlers

    method ExecuteCreate(from: Address, t: Body, now: int64) returns (error: Option<TxError>)
      requires t.CreatePayLink? && Valid() && pending == []
      modifies this`pending, db.Repr()
      ensures Valid() && fresh(db.Repr() - old(db.Repr())) && db.Saved == old(db.Saved)
      ensures Matches(hasBus, OnLinks(old(db.View()), DoCreate(old(db.View()).links, from, t, now)), error, db.View(), pending)
    {
      hide StateDB.Valid, StateDB.View, AddPayLink, ValidateRules;
      if t.receiver == ZERO_ADDRESS {
        return Some(ZeroAddress);
      }
      if t.amount == 0 {
        return Some(ZeroAmount);
      }
      if t.expiry <= now {
        return Some(Expired);
      }
      var verdict := ValidateField(t.rules);
      if verdict.Some? {
        return Some(BadRules(verdict.value));
      }
      error := db.CreatePayLink(PayLink(t.id, from, t.receiver, from, ZERO_ADDRESS, t.amount, t.expiry, Created, t.metadata, now, 0, 0, t.rules));
      if error.Some? {
        return;
      }
      Emit(PayLinkCreated(t.id, from, t.receiver, t.amount, t.expiry, t.metadata));
    }

    method ExecuteCancel(from: Address, id: Hash, now: int64) returns (error: Option<TxError>)
      requires Valid() && pending == []
      modifies this`pending, db.Repr()
      ensures Valid() && fresh(db.Repr() - old(db.Repr())) && db.Saved == old(db.Saved)
      ensures Matches(hasBus, OnLinks(old(db.View()), DoCancel(old(db.View()).links, from, id, now)), error, db.View(), pending)
    {
      hide StateDB.Valid, StateDB.View, SetStatus, Evaluate;
      var found := db.GetPayLink(id);
      if found.None? {
        return Some(PayLinkNotFound);
      }
      var pl := found.value;
      if pl.status != Created {
        return Some(NotCreated);
      }
      if pl.creator != from && pl.owner != from {
        return Some(NotAuthorized);
      }
      var verdict := EvaluateField(pl.rules, Context(Cancel, now, from, ZERO_ADDRESS, pl.amount, 0, []));
      if verdict.Some? {
        return Some(RulesRejected(verdict.value));
      }
      error := db.SetPayLinkStatus(id, Cancelled);
      if error.Some? {
        return;
      }
      Emit(PayLinkCancelled(id));
    }

    method ExecuteFail(from: Address, id: Hash) returns (error: Option<TxError>)
      requires Valid() && pending == []
      modifies this`pending, db.Repr()
      ensures Valid() && fresh(db.Repr() - old(db.Repr())) && db.Saved == old(db.Saved)
      ensures Matches(hasBus, OnLinks(old(db.View()), DoFail(db.params, old(db.View()).links, from, id)), error, db.View(), pending)
    {
      hide StateDB.Valid, StateDB.View, SetStatus;
      if from != db.params.admin {
        return Some(NotAdmin);
      }
      var found := db.GetPayLink(id);
      if found.None? {
        return Some(PayLinkNotFound);
      }
      error := db.SetPayLinkStatus(id, Failed);
      if error.Some? {
        return;
      }
      Emit(PayLinkFailed(id, found.value.status));
    }

    method ExecuteTransferPayLink(from: Address, id: Hash, to: Address, now: int64) returns (error: Option<TxError>)
      requires Valid() && pending == []
      modifies this`pending, db.Repr()
      ensures Valid() && fresh(db.Repr() - old(db.Repr())) && db.Saved == old(db.Saved)
      ensures Matches(hasBus, OnLinks(old(db.View()), DoTransferPayLink(old(db.View()).links, from, id, to, now)), error, db.View(), pending)
      ensures error.None? ==>
        && id in old(db.View()).links.paylinks && old(db.View()).links.paylinks[id].status == Created
        && to !in {ZERO_ADDRESS, old(db.View()).links.paylinks[id].owner} && MayMove(old(db.View()).links, id, from)
        && id in db.View().links.paylinks && db.View().links.paylinks[id].owner == to
    {
      hide StateDB.Valid, StateDB.View, SetOwner, Evaluate, MayTransfer;
      if DoTransferPayLink(db.View().links, from, id, to, now).Ok? {
        TransferMeans(db.View().links, from, id, to, now);
      }
      if to == ZERO_ADDRESS {
        return Some(ZeroAddress);
      }
      var found := db.GetPayLink(id);
      if found.None? {
        return Some(PayLinkNotFound);
      }
      var pl := found.value;
      if pl.status != Created {
        return Some(NotCreated);
      }
      if to == pl.owner {
        return Some(SelfTarget);
      }
      var authorized := db.IsApprovedOrOwner(id, from);
      if !authorized {
        return Some(NotAuthorized);
      }
      var verdict := EvaluateField(pl.rules, Context(Transfer, now, from, to, pl.amount, pl.transferCount, []));
      if verdict.Some? {
        return Some(RulesRejected(verdict.value));
      }
      error := db.SetPayLinkOwner(id, to);
      if error.Some? {
        return;
      }
      Emit(PayLinkTransferred(id, pl.owner, to, if from == pl.owner then None else Some(from), Add64(pl.transferCount, 1)));
    }

    method ExecuteApprove(from: Address, id: Hash, approved: Address) returns (error: Option<TxError>)
      requires Valid() && pending == []
      modifies this`pending, db.Repr()
      ensures Valid() && fresh(db.Repr() - old(db.Repr())) && db.Saved == old(db.Saved)
      ensures Matches(hasBus, OnLinks(old(db.View()), DoApprove(old(db.View()).links, from, id, approved)), error, db.View(), pending)
    {
      hide StateDB.Valid, StateDB.View, SetApproved;
      var found := db.GetPayLink(id);
      if found.None? {
        return Some(PayLinkNotFound);
      }
      if from != found.value.owner {
        return Some(NotAuthorized);
      }
      if approved == found.value.owner {
        return Some(SelfTarget);
      }
      error := db.SetPayLinkApproval(id, approved);
      if error.Some? {
        return;
      }
      Emit(PayLinkApproved(id, found.value.owner, approved));
    }

    method ExecuteSetOperator(from: Address, operator: Address, grant: bool) returns (error: Option<TxError>)
      requires Valid() && pending == []
      modifies this`pending, db.Repr()
      ensures Valid() && fresh(db.Repr() - old(db.Repr())) && db.Saved == old(db.Saved)
      ensures Matches(hasBus, OnLinks(old(db.View()), DoSetOperator(old(db.View()).links, from, operator, grant)), error, db.View(), pending)
    {
      hide StateDB.Valid, StateDB.View, SetOperator;
      if operator == from {
        return Some(SelfTarget);
      }
      if operator == ZERO_ADDRESS {
        return Some(ZeroAddress);
      }
      db.SetOperatorApproval(from, operator, grant);
      Emit(ApprovalForAll(from, operator, grant));
      error := None;
    }

    // -------------------------------------------------------------- votes

    /** Record a vote: first proof, voter, count. */
    method CastVote(from: Address, id: Hash, proof: Hash) returns (count: uint64)
      requires Valid() && id in db.View().links.paylinks
      requires id in db.View().links.submittedProofs ==> db.View().links.submittedProofs[id] == proof
      modifies db.Repr()
      ensures Valid() && fresh(db.Repr() - old(db.Repr())) && db.Saved == old(db.Saved)
      ensures db.View() == old(db.View()).(links := ChainState.CastVote(old(db.View()).links, id, from, proof))
      ensures count == db.View().links.paylinks[id].voteCount
    {
      hide StateDB.Valid, StateDB.View;
      var submitted := db.GetSubmittedProof(id);
      if submitted.None? {
        db.SetSubmittedProof(id, proof);
      }
      db.RecordVote(id, from);
      var error;
      error, count := db.IncrementVoteCount(id);
    }

    /** Fees of a settlement; a failed distribution is not fatal. */
    method CollectAndDistribute(id: Hash, amount: uint64)
      requires Valid()
      modifies this`pending, db.Repr()
      ensures Valid() && fresh(db.Repr() - old(db.Repr())) && db.Saved == old(db.Saved)
      ensures var r := CollectFees(db.params, old(db.View()).bank, id, amount, SortedSeq(Voters(old(db.View()).links, id)));
        && db.View() == old(db.View()).(bank := r.0)
        && pending == old(pending) + (if hasBus then r.1 else [])
    {
      hide StateDB.Valid, StateDB.View, DistributeFees, CalculateFee, FeeEvents, Voters, SortedSeq;
      var fee := CalculateFee(db.params, 0, amount);
      if fee.total == 0 {
        return;
      }
      var voters := db.GetVoters(id);
      if voters == [] {
        return;
      }
      var ok, payouts := Distributor.Distribute(db, fee, voters);
      if !ok {
        return;
      }
      var burned := db.TotalBurned();
      EmitFees(id, amount, fee, payouts, burned);
    }

    method EmitFees(id: Hash, amount: uint64, fee: Fee, payouts: seq<Payout>, totalBurned: uint64)
      modifies this`pending
      ensures pending == old(pending) + (if hasBus then FeeEvents(id, amount, fee, payouts, totalBurned) else [])
    {
      hide PayoutEvents;
      ghost var burned := if fee.burn > 0 then [TokenBurned(fee.burn, totalBurned)] else [];
      Regroup(pending, [FeeCollected(id, amount, fee)], PayoutEvents(payouts), burned);
      Emit(FeeCollected(id, amount, fee));
      EmitPayouts(payouts);
      if fee.burn > 0 {
        Emit(TokenBurned(fee.burn, totalBurned));
      }
    }

    lemma Regroup(before: seq<Event>, x: seq<Event>, y: seq<Event>, z: seq<Event>)
      ensures before + x + y + z == before + (x + y + z)
    {}

    method EmitPayouts(payouts: seq<Payout>)
      modifies this`pending
      ensures pending == old(pending) + (if hasBus then PayoutEvents(payouts) else [])
    {
      hide PayoutEvents;
      var i := 0;
      assert payouts[0..] == payouts;
      while i < |payouts|
        invariant 0 <= i <= |payouts|
        invariant pending + (if hasBus then PayoutEvents(payouts[i..]) else []) == old(pending) + (if hasBus then PayoutEvents(payouts) else [])
      {
        PayoutStep(payouts, i);
        Emit(FeeDistributed(payouts[i].validator, payouts[i].amount));
        i := i + 1;
      }
      NoPayouts(payouts[i..]);
    }

    lemma PayoutStep(payouts: seq<Payout>, i: nat)
      requires i < |payouts|
      ensures PayoutEvents(payouts[i..]) == [FeeDistributed(payouts[i].validator, payouts[i].amount)] + PayoutEvents(payouts[i + 1..])
    {
      assert payouts[i..][1..] == payouts[i + 1..];
    }

    lemma NoPayouts(payouts: seq<Payout>)
      requires |payouts| == 0
      ensures PayoutEvents(payouts) == []
    {}

    method CheckVote(from: Address, id: Hash, proof: Hash, now: int64) returns (error: Option<TxError>)
      requires Valid()
      ensures error == VoteError(db.View(), from, id, proof, now)
    {
      hide StateDB.Valid, StateDB.View;
      var active := db.IsActiveValidator(from);
      if !active {
        return Some(NotActive);
      }
      var used := db.IsProofUsed(proof);
      if used {
        return Some(ProofUsed);
      }
      var found := db.GetPayLink(id);
      if found.None? {
        return Some(PayLinkNotFound);
      }
      if found.value.status != Created {
        return Some(NotCreated);
      }
      if now > found.value.expiry {
        return Some(Expired);
      }
      var voted := db.HasVoted(id, from);
      if voted {
        return Some(AlreadyVoted);
      }
      var existing := db.GetSubmittedProof(id);
      if existing.Some? && existing.value != proof {
        return Some(ProofMismatch);
      }
      error := None;
    }

    method ExecuteVote(from: Address, id: Hash, proof: Hash, now: int64) returns (error: Option<TxError>)
      requires Valid() && pending == []
      modifies this`pending, db.Repr()
      ensures Valid() && fresh(db.Repr() - old(db.Repr())) && db.Saved == old(db.Saved)
      ensures Matches(hasBus, DoVote(db.params, old(db.View()), from, id, proof, now), error, db.View(), pending)
    {
      hide StateDB.Valid, StateDB.View, VoteError, DoVote;
      VoteRefused(db.params, db.View(), from, id, proof, now);
      error := CheckVote(from, id, proof, now);
      if error.Some? {
        return;
      }
      Votable(db.View(), from, id, proof, now);
      var found := db.GetPayLink(id);
      error := CountVote(from, id, proof, now, found.value);
    }

    /** Record a vote that passed the checks, and settle if it completes the quorum. */
    method CountVote(from: Address, id: Hash, proof: Hash, now: int64, pl: PayLink) returns (error: Option<TxError>)
      requires Valid() && pending == [] && VoteError(db.View(), from, id, proof, now).None?
      requires id in db.View().links.paylinks && pl == db.View().links.paylinks[id]
      modifies this`pending, db.Repr()
      ensures Valid() && fresh(db.Repr() - old(db.Repr())) && db.Saved == old(db.Saved)
      ensures Matches(hasBus, DoVote(db.params, old(db.View()), from, id, proof, now), error, db.View(), pending)
    {
      hide StateDB.Valid, StateDB.View, EvaluateField, CollectFees, Settled, ChainState.CastVote, VoteError, Voters, SortedSeq, DoVote;
      VoteCases(db.params, db.View(), from, id, proof, now);
      Votable(db.View(), from, id, proof, now);
      var count := CastVote(from, id, proof);
      Emit(PayLinkVoted(id, from, proof, count, db.params.required));
      error := None;
      if count >= db.params.required {
        error := TrySettle(from, id, proof, now, pl, count);
      }
    }

    /** The rules decide about the settlement of a PayLink whose quorum is reached. */
    method TrySettle(from: Address, id: Hash, proof: Hash, now: int64, pl: PayLink, count: uint64) returns (error: Option<TxError>)
      requires Valid() && id in db.View().links.paylinks
      modifies this`pending, db.Repr()
      ensures Valid() && fresh(db.Repr() - old(db.Repr())) && db.Saved == old(db.Saved)
      ensures var s := old(db.View());
        var voters := SortedSeq(Voters(s.links, id));
        var verdict := EvaluateField(pl.rules, Context(Settle, now, from, ZERO_ADDRESS, pl.amount, 0, voters));
        var fees := CollectFees(db.params, s.bank, id, pl.amount, voters);
        && error == (if verdict.Some? then Some(RulesRejected(verdict.value)) else None)
        && (error.None? ==>
              && db.View() == s.(links := Settled(s.links, id, proof), bank := fees.0)
              && pending == old(pending) + (if hasBus then [PayLinkVerified(id, proof, count)] + fees.1 else []))
    {
      hide StateDB.Valid, StateDB.View, EvaluateField, CollectFees, Settled, Voters, SortedSeq;
      var voters := db.GetVoters(id);
      var verdict := EvaluateField(pl.rules, Context(Settle, now, from, ZERO_ADDRESS, pl.amount, 0, voters));
      if verdict.Some? {
        return Some(RulesRejected(verdict.value));
      }
      SettlePayLink(id, proof, count, pl.amount);
      error := None;
    }

    /** Mark as VERIFIED, use up the proof, then the fees. */
    method SettlePayLink(id: Hash, proof: Hash, count: uint64, amount: uint64)
      requires Valid() && id in db.View().links.paylinks
      modifies this`pending, db.Repr()
      ensures Valid() && fresh(db.Repr() - old(db.Repr())) && db.Saved == old(db.Saved)
      ensures var fees := CollectFees(db.params, old(db.View()).bank, id, amount, SortedSeq(Voters(old(db.View()).links, id)));
        && db.View() == old(db.View()).(links := Settled(old(db.View()).links, id, proof), bank := fees.0)
        && pending == old(pending) + (if hasBus then [PayLinkVerified(id, proof, count)] + fees.1 else [])
    {
      hide StateDB.Valid, StateDB.View, CollectFees, SetStatus, Settled, SortedSeq, Voters;
      SettledParts(db.View().links, id, proof);
      var error := db.SetPayLinkStatus(id, Verified);
      db.MarkProofUsed(proof);
      Emit(PayLinkVerified(id, proof, count));
      CollectAndDistribute(id, amount);
    }

    lemma VoteRefused(p: Params, s: State, from: Address, id: Hash, proof: Hash, now: int64)
      ensures VoteError(s, from, id, proof, now).Some? ==> DoVote(p, s, from, id, proof, now) == Err(VoteError(s, from, id, proof, now).value)
    {
      hide CollectFees, EvaluateField, Settled, Voters, VoteError, SortedSeq;
    }

    /** The ways a counted vote can go, with the events of a settlement in emission order. */
    lemma VoteCases(p: Params, s: State, from: Address, id: Hash, proof: Hash, now: int64)
      requires VoteError(s, from, id, proof, now).None?
      ensures id in s.links.paylinks && id in ChainState.CastVote(s.links, id, from, proof).paylinks
      ensures var pl := s.links.paylinks[id];
           var voted := ChainState.CastVote(s.links, id, from, proof);
           var count := voted.paylinks[id].voteCount;
           var event := PayLinkVoted(id, from, proof, count, p.required);
           var voters := SortedSeq(Voters(voted, id));
           var verdict := EvaluateField(pl.rules, Context(Settle, now, from, ZERO_ADDRESS, pl.amount, 0, voters));
           var fees := CollectFees(p, s.bank, id, pl.amount, voters);
           DoVote(p, s, from, id, proof, now) ==
             if count < p.required then Ok(Effect(s.(links := voted), [event]))
             else if verdict.Some? then Err(RulesRejected(verdict.value))
             else Ok(Effect(s.(links := Settled(voted, id, proof), bank := fees.0), [event] + ([PayLinkVerified(id, proof, count)] + fees.1)))
    {
      hide CollectFees, EvaluateField, Settled, Voters, SortedSeq;
      var voted := ChainState.CastVote(s.links, id, from, proof);
      var count := voted.paylinks[id].voteCount;
      var event := PayLinkVoted(id, from, proof, count, p.required);
      var fees := CollectFees(p, s.bank, id, s.links.paylinks[id].amount, SortedSeq(Voters(voted, id)));
      assert [event, PayLinkVerified(id, proof, count)] + fees.1 == [event] + ([PayLinkVerified(id, proof, count)] + fees.1);
    }

    lemma SettledParts(l: Links, id: Hash, proof: Hash)
      requires id in l.paylinks
      ensures var verified := SetStatus(l, id, Verified);
        Settled(l, id, proof) == verified.(usedProofs := verified.usedProofs + {proof}) && Voters(Settled(l, id, proof), id) == Voters(l, id)
    {}

    lemma Votable(s: State, from: Address, id: Hash, proof: Hash, now: int64)
      requires VoteError(s, from, id, proof, now).None?
      ensures id in s.links.paylinks
      ensures id in s.links.submittedProofs ==> s.links.submittedProofs[id] == proof
      ensures id in ChainState.CastVote(s.links, id, from, proof).paylinks
    {}

    // -------------------------------------------------------------- evidence

    /** The slashing detector: checks the evidence against the recorded stake and keys. */
    method CheckEvidence(validator: Address, e: Evidence) returns (action: Option<SlashAction>)
      requires Valid()
      ensures action == ProcessEvidence(db.View().bank, validator, e)
    {
      hide StateDB.Valid, StateDB.View, SlashAmount;
      var v := db.GetValidator(validator);
      if v.None? || v.value.staked == 0 {
        return None;
      }
      match e
      case DoubleSign(height, block1, block2, keyOwner, sig1, sig2) =>
        if block1 == block2 || keyOwner != Some(validator) || !sig1 || !sig2 {
          return None;
        }
        action := Some(SlashAction(SlashAmount(v.value.staked, 50), DoubleSignAt(validator, height)));
      case Equivocation(seed, proof1, proof2) =>
        var key := db.GetVrfPublicKey(validator);
        if !proof1.valid || !proof2.valid || key.None? || proof1.key != key || proof2.key != key || proof1.bytes == proof2.bytes {
          return None;
        }
        action := Some(SlashAction(SlashAmount(v.value.staked, 25), EquivocationOn(validator, seed)));
      case _ =>
        action := None;
    }

    method ExecuteEvidence(validator: Address, e: Evidence) returns (error: Option<TxError>)
      requires Valid() && pending == []
      modifies this`pending, db.Repr()
      ensures Valid() && fresh(db.Repr() - old(db.Repr())) && db.Saved == old(db.Saved)
      ensures Matches(hasBus, DoEvidence(db.params, old(db.View()), validator, e), error, db.View(), pending)
      ensures error.None? <==>
        && validator in old(db.View()).bank.validators && old(db.View()).bank.validators[validator].staked > 0
        && Shows(old(db.View()).bank, validator, e) && Offence(validator, e) !in old(db.View()).evidence
      ensures error.None? ==>
        var staked := old(db.View()).bank.validators[validator].staked;
        && validator in db.View().bank.validators && db.View().bank.validators[validator].staked == staked - Penalty(staked, e)
        && db.View().evidence == old(db.View()).evidence + {Offence(validator, e)}
    {
      hide StateDB.Valid, StateDB.View, ProcessEvidence, DoSlash, Shows, Penalty;
      EvidencePunishes(db.params, db.View(), validator, e);
      var action := CheckEvidence(validator, e);
      if action.None? {
        return Some(BadEvidence);
      }
      var processed := db.IsEvidenceProcessed(action.value.id);
      if processed {
        return Some(EvidenceReplayed);
      }
      db.MarkEvidenceProcessed(action.value.id);
      error := Punish(validator, action.value.amount);
    }

    // -------------------------------------------------------------- one transaction

    method Dispatch(tx: Tx, now: int64) returns (error: Option<TxError>)
      requires Valid() && pending == []
      modifies this`pending, db.Repr()
      ensures Valid() && fresh(db.Repr() - old(db.Repr())) && db.Saved == old(db.Saved)
      ensures Matches(hasBus, Executor.Dispatch(db.params, old(db.View()), tx, now), error, db.View(), pending)
    {
      hide StateDB.Valid, StateDB.View, DoVote, DoCreate, DoCancel, DoFail, DoTransferPayLink, DoApprove, DoSetOperator,
        DoSend, DoStake, DoInitiateUnstake, DoCompleteUnstake, DoSlash, DoReward, DoRegisterKey, DoEvidence, Matches, OnBank, OnLinks;
      FailureMatches(hasBus, db.View());
      match tx.body
      case CreatePayLink(_, _, _, _, _, _) => error := ExecuteCreate(tx.from, tx.body, now);
      case SubmitValidation(id, proof) => error := ExecuteVote(tx.from, id, proof, now);
      case CancelPayLink(id) => error := ExecuteCancel(tx.from, id, now);
      case FailPayLink(id) => error := ExecuteFail(tx.from, id);
      case SubmitEvidence(validator, e) => error := ExecuteEvidence(validator, e);
      case TransferPayLink(id, to) => error := ExecuteTransferPayLink(tx.from, id, to, now);
      case ApprovePayLink(id, approved) => error := ExecuteApprove(tx.from, id, approved);
      case SetApprovalForAll(operator, grant) => error := ExecuteSetOperator(tx.from, operator, grant);
      case Undecodable(adminOnly) => error := Some(if adminOnly && tx.from != db.params.admin then NotAdmin else InvalidPayload);
      case UnknownBody => error := Some(UnknownTxType);
      case _ => error := DispatchBank(tx, now);
    }

    /** Transactions about tokens and validators. */
    method DispatchBank(tx: Tx, now: int64) returns (error: Option<TxError>)
      requires Valid() && pending == [] && MovesTokens(tx.body)
      modifies this`pending, db.Repr()
      ensures Valid() && fresh(db.Repr() - old(db.Repr())) && db.Saved == old(db.Saved)
      ensures Matches(hasBus, Executor.Dispatch(db.params, old(db.View()), tx, now), error, db.View(), pending)
    {
      hide StateDB.Valid, StateDB.View, DoSend, DoStake, DoInitiateUnstake, DoCompleteUnstake, DoSlash, DoReward, DoRegisterKey, Matches, OnBank;
      FailureMatches(hasBus, db.View());
      match tx.body
      case SendTokens(to, amount) => error := ExecuteSend(tx.from, to, amount);
      case StakeTokens(amount) => error := ExecuteStake(tx.from, amount, now);
      case InitiateUnstake(amount) => error := ExecuteInitiateUnstake(tx.from, amount, now);
      case CompleteUnstake => error := ExecuteCompleteUnstake(tx.from, now);
      case SlashValidator(validator, amount) =>
        if tx.from != db.params.admin {
          return Some(NotAdmin);
        }
        error := Punish(validator, amount);
      case RewardValidator(validator, amount) => error := ExecuteReward(tx.from, validator, amount);
      case RegisterVrfKey(key) => error := ExecuteRegisterKey(tx.from, key);
    }

    predicate MovesTokens(body: Body) {
      || body.SendTokens? || body.StakeTokens? || body.InitiateUnstake? || body.CompleteUnstake?
      || body.SlashValidator? || body.RewardValidator? || body.RegisterVrfKey?
    }

    lemma FailureMatches(bus: bool, s: State)
      ensures forall e: TxError, events: seq<Event> :: Matches(bus, Err(e), Some(e), s, events)
    {}

    /** ExecuteTx: on success exactly the specified step; on failure the database may be left half-changed. */
    method ExecuteTx(tx: Tx, now: int64) returns (receipt: Receipt)
      requires Valid() && pending == []
      modifies this`pending, db.Repr()
      ensures Valid() && fresh(db.Repr() - old(db.Repr())) && db.Saved == old(db.Saved)
      ensures receipt.tx == tx.hash
      ensures Matches(hasBus, Step(db.params, old(db.View()), tx, now), receipt.error, db.View(), pending)
    {
      hide StateDB.Valid, StateDB.View, Executor.Dispatch, ChainState.IncrementNonce;
      var account := db.GetAccount(tx.from);
      if tx.nonce != account.nonce {
        return Receipt(tx.hash, Some(BadNonce));
      }
      var error := Dispatch(tx, now);
      if error.Some? {
        return Receipt(tx.hash, error);
      }
      db.IncrementNonce(tx.from);
      receipt := Receipt(tx.hash, None);
    }

    // -------------------------------------------------------------- blocks

    /** One transaction of a block: forged ones are refused, failed ones rolled back, the rest committed. */
    method ExecuteOne(tx: Tx, now: int64) returns (receipt: Receipt)
      requires Valid()
      modifies this`pending, this`buffered, db.Repr()
      ensures Valid() && fresh(db.Repr() - old(db.Repr())) && db.Saved == old(db.Saved)
      ensures receipt.tx == tx.hash
      ensures var r := BlockStep(db.params, old(db.View()), tx, now);
        && receipt.error == ErrorOf(r)
        && db.View() == (if r.Ok? then r.value.state else old(db.View()))
        && buffered == old(buffered) + (if r.Ok? && hasBus then r.value.events else [])
    {
      hide StateDB.Valid, StateDB.View, Step;
      if !tx.authentic {
        return Receipt(tx.hash, Some(BadSignature));
      }
      var snapshot := db.Snapshot();
      pending := [];
      receipt := ExecuteTx(tx, now);
      if receipt.error.Some? {
        var ok := db.Revert(snapshot);
        pending := [];
      } else {
        db.DiscardSnapshot(snapshot);
        buffered := buffered + pending;
        pending := [];
      }
    }

    /** ExecuteBlock does to the database exactly what the value-level fold does to the state. */
    method ExecuteBlock(txs: seq<Tx>, now: int64) returns (receipts: seq<Receipt>)
      requires Valid()
      modifies this`pending, this`buffered, db.Repr()
      ensures Valid() && fresh(db.Repr() - old(db.Repr())) && db.Saved == old(db.Saved)
      ensures |receipts| == |txs|
      ensures var r := Executor.ExecuteBlock(db.params, old(db.View()), txs, now);
        && db.View() == r.state
        && Judged(txs, r.verdicts, receipts)
        && buffered == old(buffered) + (if hasBus then r.events else [])
    {
      hide StateDB.Valid, StateDB.View, BlockStep, Executor.ExecuteBlock;
      receipts := [];
      var i := 0;
      ghost var r := ExecuteNothing(db.params, db.View(), now);
      while i < |txs|
        invariant 0 <= i == |receipts| <= |txs|
        invariant Valid() && fresh(db.Repr() - old(db.Repr())) && db.Saved == old(db.Saved)
        invariant r == Executor.ExecuteBlock(db.params, old(db.View()), txs[..i], now) && db.View() == r.state
        invariant Judged(txs[..i], r.verdicts, receipts)
        invariant buffered == old(buffered) + (if hasBus then r.events else [])
      {
        ExecuteAppend(db.params, old(db.View()), txs[..i], txs[i], now);
        assert txs[..i + 1] == txs[..i] + [txs[i]];
        var receipt := ExecuteOne(txs[i], now);
        receipts := receipts + [receipt];
        i := i + 1;
        r := Executor.ExecuteBlock(db.params, old(db.View()), txs[..i], now);
      }
      assert txs[..i] == txs;
    }

    ghost function ExecuteNothing(p: Params, s: State, now: int64): (r: Executed)
      ensures r == Executor.ExecuteBlock(p, s, [], now) == Executed(s, [], [])
    {
      Executed(s, [], [])
    }

    /** Publish the buffered events of a committed block, in order. */
    method FlushEvents(height: nat)
      modifies this
      ensures buffered == [] && pending == old(pending)
      ensures published == old(published) + (if hasBus then Publish(height, old(buffered)) else [])
    {
      if !hasBus {
        buffered := [];
        return;
      }
      var i := 0;
      while i < |buffered|
        invariant 0 <= i <= |buffered|
        invariant buffered == old(buffered) && pending == old(pending)
        invariant published == old(published) + Publish(height, buffered[..i])
      {
        published := published + [Published(height, buffered[i])];
        assert Publish(height, buffered[..i + 1]) == Publish(height, buffered[..i]) + [Published(height, buffered[i])];
        i := i + 1;
      }
      assert buffered[..i] == buffered;
      buffered := [];
    }

    /** Forget all buffered events of a block that did not commit. */
    method DiscardEvents()
      modifies this`pending, this`buffered
      ensures pending == [] && buffered == []
    {
      pending, buffered := [], [];
    }
  }
}
