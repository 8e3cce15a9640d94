/**
 * Where the rights and claims of a state come from.  In every run from genesis each of them was set
 * by the last committed transaction that could set it: an approval by the owner at the time, an
 * operator by the owner itself, a pending withdrawal by its validator, with the time and the amount.
 */
module Provenance {
  import opened Numbers
  import opened Collections
  import opened Rules
  import opened ChainState
  import opened Executor
  import opened Supply
  import opened Laws
  import opened Accounts
  import opened Staking
  import opened Ownership

  /** Something a state holds that transactions set. */
  datatype Claim =
    | OwnerOf(id: Hash)
    | ApprovalOf(id: Hash)
    | OperatorOf(owner: Address, operator: Address)
    | WithdrawalOf(validator: Address)
    | KeyOf(validator: Address)
    | VoteOf(id: Hash, voter: Address)
    | RecordOfOffence(offence: EvidenceId)

  /** The transaction is of a kind that sets, changes or clears the claim. */
  predicate Sets(c: Claim, tx: Tx) {
    match c
    case OwnerOf(id) => (tx.body.CreatePayLink? || tx.body.TransferPayLink?) && tx.body.id == id
    case ApprovalOf(id) => (tx.body.CreatePayLink? || tx.body.TransferPayLink? || tx.body.ApprovePayLink?) && tx.body.id == id
    case OperatorOf(owner, operator) => tx.body.SetApprovalForAll? && tx.from == owner && tx.body.operator == operator
    case WithdrawalOf(v) => (tx.body.InitiateUnstake? || tx.body.CompleteUnstake?) && tx.from == v
    case KeyOf(v) => tx.body.RegisterVrfKey? && tx.from == v
    case VoteOf(id, voter) => tx.body.SubmitValidation? && tx.body.id == id && tx.from == voter
    case RecordOfOffence(o) =>
      && tx.body.SubmitEvidence? && (tx.body.evidence.DoubleSign? || tx.body.evidence.Equivocation?)
      && Offence(tx.body.validator, tx.body.evidence) == o
  }

  /** The last committed transaction of the run that sets the claim. */
  ghost function Last(p: Params, s: State, inputs: seq<Input>, c: Claim): (k: Option<nat>)
    ensures k.Some? ==> k.value < |inputs| && Sets(c, inputs[k.value].tx)
  {
    if inputs == [] then None
    else
      var n := |inputs| - 1;
      if Succeeds(p, s, inputs, n) && Sets(c, inputs[n].tx) then Some(n) else Last(p, s, inputs[..n], c)
  }

  /** It is committed and sets the claim, and no later committed transaction does. */
  lemma {:induction false} LastIs(p: Params, s: State, inputs: seq<Input>, c: Claim)
    ensures var k := Last(p, s, inputs, c);
      && (k.Some? ==> Succeeds(p, s, inputs, k.value) && Sets(c, inputs[k.value].tx))
      && (forall j :: 0 <= j < |inputs| && Succeeds(p, s, inputs, j) && Sets(c, inputs[j].tx) ==> k.Some? && j <= k.value)
    decreases |inputs|
  {
    hide Run, BlockStep, Sets;
    if inputs != [] {
      var n := |inputs| - 1;
      LastIs(p, s, inputs[..n], c);
      forall j | 0 <= j < n ensures Succeeds(p, s, inputs[..n], j) == Succeeds(p, s, inputs, j) {
        assert inputs[..n][..j] == inputs[..j];
      }
    }
  }

  // ---------------------------------------------------------------- owners, approvals and operators

  lemma {:induction false} AfterOperator(p: Params, s: State, i: Input, owner: Address, operator: Address)
    ensures (owner, operator) in After(p, s, i).links.operators <==>
      if BlockStep(p, s, i.tx, i.now).Ok? && Sets(OperatorOf(owner, operator), i.tx) then i.tx.body.grant else (owner, operator) in s.links.operators
  {
    hide Step, LinkMoves;
    if BlockStep(p, s, i.tx, i.now).Ok? {
      LinkLaw(p, s, i.tx, i.now);
    }
  }

  /** An operator is in force exactly when the owner's last word about it was a grant. */
  lemma {:induction false} OperatorTraced(p: Params, balances: seq<GenesisBalance>, inputs: seq<Input>, owner: Address, operator: Address)
    ensures (owner, operator) in Run(p, Genesis(balances), inputs).links.operators <==>
      var k := Last(p, Genesis(balances), inputs, OperatorOf(owner, operator));
      k.Some? && inputs[k.value].tx.body.grant
    decreases |inputs|
  {
    hide Sets, BlockStep, Fund, After;
    if inputs != [] {
      var n := |inputs| - 1;
      OperatorTraced(p, balances, inputs[..n], owner, operator);
      AfterOperator(p, Run(p, Genesis(balances), inputs[..n]), inputs[n], owner, operator);
    }
  }

  /** What the last transaction about the approval left: the approved address, and its owner still owns the PayLink. */
  ghost predicate ApprovedBy(s: State, id: Hash, last: Option<Tx>) {
    && (id in s.links.paylinks <==> last.Some?)
    && (last.Some? ==>
          if last.value.body.ApprovePayLink? then s.links.paylinks[id].approved == last.value.body.approved && s.links.paylinks[id].owner == last.value.from
          else s.links.paylinks[id].approved == ZERO_ADDRESS)
  }

  ghost predicate OwnedBy(s: State, id: Hash, last: Option<Tx>) {
    && (id in s.links.paylinks <==> last.Some?)
    && (last.Some? ==> s.links.paylinks[id].owner == (if last.value.body.TransferPayLink? then last.value.body.to else last.value.from))
  }

  ghost function LastTx(p: Params, s: State, inputs: seq<Input>, c: Claim): Option<Tx> {
    var k := Last(p, s, inputs, c);
    if k.Some? then Some(inputs[k.value].tx) else None
  }

  lemma {:induction false} LastTxGrows(p: Params, s: State, inputs: seq<Input>, c: Claim)
    requires inputs != []
    ensures var n := |inputs| - 1; var t := Run(p, s, inputs[..n]);
      && LastTx(p, s, inputs, c) == (if BlockStep(p, t, inputs[n].tx, inputs[n].now).Ok? && Sets(c, inputs[n].tx) then Some(inputs[n].tx)
                                     else LastTx(p, s, inputs[..n], c))
      && Run(p, s, inputs) == After(p, t, inputs[n])
  {
    hide BlockStep, Sets, After;
  }

  lemma {:induction false} AfterApproved(p: Params, s: State, i: Input, id: Hash, last: Option<Tx>)
    requires ApprovedBy(s, id, last)
    ensures ApprovedBy(After(p, s, i), id, if BlockStep(p, s, i.tx, i.now).Ok? && Sets(ApprovalOf(id), i.tx) then Some(i.tx) else last)
  {
    hide Step, RulesPass, OperatorsMove, Fills;
    if BlockStep(p, s, i.tx, i.now).Ok? {
      CommitsIff(p, s, i.tx, i.now);
      LinkLaw(p, s, i.tx, i.now);
    }
  }

  lemma {:induction false} AfterOwned(p: Params, s: State, i: Input, id: Hash, last: Option<Tx>)
    requires OwnedBy(s, id, last)
    ensures OwnedBy(After(p, s, i), id, if BlockStep(p, s, i.tx, i.now).Ok? && Sets(OwnerOf(id), i.tx) then Some(i.tx) else last)
  {
    hide Step, RulesPass, OperatorsMove, Fills;
    if BlockStep(p, s, i.tx, i.now).Ok? {
      CommitsIff(p, s, i.tx, i.now);
      LinkLaw(p, s, i.tx, i.now);
    }
  }

  /** An approved address was set by the one who owns the PayLink still, and nothing has cleared it since. */
  lemma {:induction false} ApprovalTraced(p: Params, balances: seq<GenesisBalance>, inputs: seq<Input>, id: Hash)
    ensures ApprovedBy(Run(p, Genesis(balances), inputs), id, LastTx(p, Genesis(balances), inputs, ApprovalOf(id)))
    decreases |inputs|
  {
    hide Sets, BlockStep, Fund, After, Last;
    var s := Genesis(balances);
    if inputs == [] {
      assert Last(p, s, inputs, ApprovalOf(id)).None?;
    } else {
      var n := |inputs| - 1;
      ApprovalTraced(p, balances, inputs[..n], id);
      LastTxGrows(p, s, inputs, ApprovalOf(id));
      AfterApproved(p, Run(p, s, inputs[..n]), inputs[n], id, LastTx(p, s, inputs[..n], ApprovalOf(id)));
    }
  }

  /** A PayLink belongs to whom it was last transferred to, or else to its creator. */
  lemma {:induction false} OwnerTraced(p: Params, balances: seq<GenesisBalance>, inputs: seq<Input>, id: Hash)
    ensures OwnedBy(Run(p, Genesis(balances), inputs), id, LastTx(p, Genesis(balances), inputs, OwnerOf(id)))
    decreases |inputs|
  {
    hide Sets, BlockStep, Fund, After, Last;
    var s := Genesis(balances);
    if inputs == [] {
      assert Last(p, s, inputs, OwnerOf(id)).None?;
    } else {
      var n := |inputs| - 1;
      OwnerTraced(p, balances, inputs[..n], id);
      LastTxGrows(p, s, inputs, OwnerOf(id));
      AfterOwned(p, Run(p, s, inputs[..n]), inputs[n], id, LastTx(p, s, inputs[..n], OwnerOf(id)));
    }
  }

  /**
   * The history entitles an address to move the PayLink: it was the last to receive it, or created
   * it and nobody has; or that owner approved the address and has not replaced it; or that owner's
   * last word about it as an operator was a grant.  The zero address passes while nobody is approved.
   */
  ghost predicate Entitled(p: Params, s: State, inputs: seq<Input>, id: Hash, a: Address) {
    var own, approval := LastTx(p, s, inputs, OwnerOf(id)), LastTx(p, s, inputs, ApprovalOf(id));
    && own.Some? && approval.Some?
    && var owner := if own.value.body.TransferPayLink? then own.value.body.to else own.value.from;
       var operator := LastTx(p, s, inputs, OperatorOf(owner, a));
       || a == owner
       || (approval.value.body.ApprovePayLink? && approval.value.body.approved == a && approval.value.from == owner)
       || (operator.Some? && operator.value.body.SetApprovalForAll? && operator.value.body.grant)
       || (a == ZERO_ADDRESS && !approval.value.body.ApprovePayLink?)
  }

  /**
   * In every run from genesis a transfer commits exactly when the history entitles its sender, the
   * PayLink is still open, it goes to somebody else, and its rules let it through.
   */
  lemma {:induction false} TransferTraced(p: Params, balances: seq<GenesisBalance>, inputs: seq<Input>, i: Input)
    requires i.tx.body.TransferPayLink?
    ensures var s, id := Genesis(balances), i.tx.body.id;
      var t := Run(p, s, inputs);
      BlockStep(p, t, i.tx, i.now).Ok? <==>
        && i.tx.authentic && i.tx.nonce == AccountOf(t.bank, i.tx.from).nonce && Entitled(p, s, inputs, id, i.tx.from)
        && id in t.links.paylinks && t.links.paylinks[id].status == Created && i.tx.body.to !in {ZERO_ADDRESS, t.links.paylinks[id].owner}
        && RulesPass(t, Transfer, id, i.now, i.tx.from, i.tx.body.to)
  {
    hide BlockStep, Step, Run, Fund, Last, RulesPass;
    var s, id := Genesis(balances), i.tx.body.id;
    var t := Run(p, s, inputs);
    CommitsIff(p, t, i.tx, i.now);
    OwnerTraced(p, balances, inputs, id);
    ApprovalTraced(p, balances, inputs, id);
    if id in t.links.paylinks {
      OperatorTraced(p, balances, inputs, t.links.paylinks[id].owner, i.tx.from);
    }
  }

  const OPENED := Input(Tx(0, 1, 0, CreatePayLink(7, 3, 1, 10, 0, NoRules), true), 0)
  const TAKEN := Input(Tx(1, ZERO_ADDRESS, 0, TransferPayLink(7, 5), true), 0)

  /** Nobody approved anyone, yet the zero address moves the PayLink: only the impossibility of signing for it stands in the way. */
  lemma {:induction false} ZeroAddressExample(p: Params)
    ensures BlockStep(p, Run(p, Genesis([]), [OPENED]), TAKEN.tx, TAKEN.now).Ok?
  {
    hide Fund, DoVote, RulesPass;
    var s := Genesis([]);
    assert [OPENED][..0] == [] && [OPENED][..1] == [OPENED];
    RunGrows(p, s, [OPENED], 0);
    assert AccountOf(s.bank, 1) == Account(0, 0) && AccountOf(s.bank, ZERO_ADDRESS) == Account(0, 0) by {
      GenesisBalances([], 1);
      GenesisBalances([], ZERO_ADDRESS);
    }
    CommitsIff(p, s, OPENED.tx, OPENED.now);
    LinkLaw(p, s, OPENED.tx, OPENED.now);
    var t := Run(p, s, [OPENED]);
    assert t == After(p, s, OPENED);
    assert Opens(OPENED.tx, 0, t.links.paylinks[7]);
    assert RulesPass(t, Transfer, 7, 0, ZERO_ADDRESS, 5) by { FreeOfRules(t); }
    CommitsIff(p, t, TAKEN.tx, TAKEN.now);
  }

  lemma FreeOfRules(t: State)
    requires 7 in t.links.paylinks && t.links.paylinks[7].rules.NoRules?
    ensures RulesPass(t, Transfer, 7, 0, ZERO_ADDRESS, 5)
  {}

  // ---------------------------------------------------------------- withdrawals

  /** What the last transaction about the withdrawal left: the amount and the end of the cooldown, or nothing. */
  ghost predicate PendingSince(p: Params, s: State, v: Address, last: Option<Input>) {
    var asked := last.Some? && last.value.tx.body.InitiateUnstake?;
    && (asked ==> v in s.bank.validators && last.value.tx.body.amount > 0)
    && (v in s.bank.validators ==>
          && s.bank.validators[v].pending == (if asked then last.value.tx.body.amount else 0)
          && s.bank.validators[v].withdrawableAt == (if asked then CooldownEnd(p, last.value.now) else 0))
  }

  ghost function LastInput(p: Params, s: State, inputs: seq<Input>, c: Claim): Option<Input> {
    var k := Last(p, s, inputs, c);
    if k.Some? then Some(inputs[k.value]) else None
  }

  lemma {:induction false} AfterPending(p: Params, s: State, i: Input, v: Address, last: Option<Input>)
    requires PendingSince(p, s, v, last)
    ensures PendingSince(p, After(p, s, i), v, if BlockStep(p, s, i.tx, i.now).Ok? && Sets(WithdrawalOf(v), i.tx) then Some(i) else last)
  {
    hide Step, RulesPass, StakeIn, Slashed, Withdrawn, ActiveAfter, CooldownEnd;
    if BlockStep(p, s, i.tx, i.now).Ok? {
      CommitsIff(p, s, i.tx, i.now);
      StakeLaw(p, s, i.tx, i.now);
      var after := Step(p, s, i.tx, i.now).value.state.bank;
      if v in after.validators {
        assert RecordMoves(p, s, i.tx, i.now, v, after.validators[v]);
      }
    }
  }

  /** A pending withdrawal is the one its validator last asked for and has not completed, at the time it asked plus the cooldown. */
  lemma {:induction false} WithdrawalTraced(p: Params, balances: seq<GenesisBalance>, inputs: seq<Input>, v: Address)
    ensures PendingSince(p, Run(p, Genesis(balances), inputs), v, LastInput(p, Genesis(balances), inputs, WithdrawalOf(v)))
    decreases |inputs|
  {
    hide Sets, BlockStep, Fund, After, CooldownEnd;
    var s := Genesis(balances);
    if inputs == [] {
      GenesisBooks(balances);
    } else {
      var n := |inputs| - 1;
      WithdrawalTraced(p, balances, inputs[..n], v);
      AfterPending(p, Run(p, s, inputs[..n]), inputs[n], v, LastInput(p, s, inputs[..n], WithdrawalOf(v)));
    }
  }

  /**
   * In every run from genesis a validator completes a withdrawal exactly when the last thing it did
   * about withdrawals was to ask for one, and the cooldown counted from that request is over.  It is
   * paid exactly the amount it asked for.
   */
  lemma {:induction false} CompletionTraced(p: Params, balances: seq<GenesisBalance>, inputs: seq<Input>, i: Input)
    requires i.tx.body.CompleteUnstake?
    ensures var s, v := Genesis(balances), i.tx.from;
      var t, last := Run(p, s, inputs), LastInput(p, s, inputs, WithdrawalOf(v));
      && (BlockStep(p, t, i.tx, i.now).Ok? <==>
            && i.tx.authentic && i.tx.nonce == AccountOf(t.bank, v).nonce
            && last.Some? && last.value.tx.body.InitiateUnstake? && CooldownEnd(p, last.value.now) <= i.now)
      && (BlockStep(p, t, i.tx, i.now).Ok? ==>
            AccountOf(After(p, t, i).bank, v).balance == (AccountOf(t.bank, v).balance + last.value.tx.body.amount) % U64_MOD)
  {
    hide Step, Run, Fund, RulesPass, CooldownEnd;
    var s, v := Genesis(balances), i.tx.from;
    var t := Run(p, s, inputs);
    CommitsIff(p, t, i.tx, i.now);
    WithdrawalTraced(p, balances, inputs, v);
    if BlockStep(p, t, i.tx, i.now).Ok? {
      BalanceLaw(p, t, i.tx, i.now, v);
    }
  }

  /**
   * Seen from the completion: it has a request of the same validator before it, committed, with the
   * cooldown between the two and neither a request nor a completion in between.
   */
  lemma {:induction false} CooldownKept(p: Params, balances: seq<GenesisBalance>, inputs: seq<Input>, t: nat) returns (k: nat)
    requires t < |inputs| && Succeeds(p, Genesis(balances), inputs, t) && inputs[t].tx.body.CompleteUnstake?
    ensures k < t && Succeeds(p, Genesis(balances), inputs, k)
    ensures inputs[k].tx.body.InitiateUnstake? && inputs[k].tx.from == inputs[t].tx.from
    ensures -0x8000_0000_0000_0000 <= inputs[k].now + p.cooldown < 0x8000_0000_0000_0000 ==> inputs[t].now >= inputs[k].now + p.cooldown
    ensures forall j :: k < j < t && Succeeds(p, Genesis(balances), inputs, j) ==> !Sets(WithdrawalOf(inputs[t].tx.from), inputs[j].tx)
  {
    hide Run, BlockStep, After;
    var s, before, c := Genesis(balances), inputs[..t], WithdrawalOf(inputs[t].tx.from);
    CompletionTraced(p, balances, before, inputs[t]);
    LastIs(p, s, before, c);
    k := Last(p, s, before, c).value;
    forall j | 0 <= j < t ensures Succeeds(p, s, before, j) == Succeeds(p, s, inputs, j) && before[j] == inputs[j] {
      assert before[..j] == inputs[..j];
    }
  }

  // ---------------------------------------------------------------- keys, votes and offences

  ghost predicate Keyed(s: State, v: Address, last: Option<Tx>) {
    && (v in s.bank.vrfKeys <==> last.Some?)
    && (last.Some? && last.value.body.RegisterVrfKey? ==> s.bank.vrfKeys[v] == last.value.body.key)
  }

  lemma {:induction false} AfterKeyed(p: Params, s: State, i: Input, v: Address, last: Option<Tx>)
    requires Keyed(s, v, last)
    ensures Keyed(After(p, s, i), v, if BlockStep(p, s, i.tx, i.now).Ok? && Sets(KeyOf(v), i.tx) then Some(i.tx) else last)
  {
    hide Step, RecordMoves;
    if BlockStep(p, s, i.tx, i.now).Ok? {
      StakeLaw(p, s, i.tx, i.now);
    }
  }

  lemma {:induction false} FundKeys(b: Bank, balances: seq<GenesisBalance>)
    ensures Fund(b, balances).vrfKeys == b.vrfKeys
    decreases |balances|
  {
    if balances != [] {
      var g := balances[0];
      FundKeys(PutAccount(b, g.address, Account(g.balance, 0)).(totalSupply := Add64(b.totalSupply, g.balance)), balances[1..]);
    }
  }

  /** The key of a validator is the one it registered last. */
  lemma {:induction false} KeyTraced(p: Params, balances: seq<GenesisBalance>, inputs: seq<Input>, v: Address)
    ensures Keyed(Run(p, Genesis(balances), inputs), v, LastTx(p, Genesis(balances), inputs, KeyOf(v)))
    decreases |inputs|
  {
    hide Sets, BlockStep, Fund, After;
    var s := Genesis(balances);
    if inputs == [] {
      FundKeys(EmptyBank(), balances);
    } else {
      var n := |inputs| - 1;
      KeyTraced(p, balances, inputs[..n], v);
      LastTxGrows(p, s, inputs, KeyOf(v));
      AfterKeyed(p, Run(p, s, inputs[..n]), inputs[n], v, LastTx(p, s, inputs[..n], KeyOf(v)));
    }
  }

  lemma {:induction false} AfterVote(p: Params, s: State, i: Input, id: Hash, voter: Address)
    ensures (id, voter) in After(p, s, i).links.votes <==>
      (id, voter) in s.links.votes || (BlockStep(p, s, i.tx, i.now).Ok? && Sets(VoteOf(id, voter), i.tx))
  {
    hide Step, OperatorsMove, LinkMoves;
    if BlockStep(p, s, i.tx, i.now).Ok? {
      LinkLaw(p, s, i.tx, i.now);
    }
  }

  lemma {:induction false} AfterOffence(p: Params, s: State, i: Input, o: EvidenceId)
    ensures o in After(p, s, i).evidence <==> o in s.evidence || (BlockStep(p, s, i.tx, i.now).Ok? && Sets(RecordOfOffence(o), i.tx))
  {
    hide Step, RulesPass, RosterMoves, Shows;
    if BlockStep(p, s, i.tx, i.now).Ok? {
      StakeLaw(p, s, i.tx, i.now);
      if i.tx.body.SubmitEvidence? {
        CommitsIff(p, s, i.tx, i.now);
        ShownKinds(s.bank, i.tx.body.validator, i.tx.body.evidence);
      }
    }
  }

  /** A vote is on record exactly when its voter cast it, and an offence exactly when evidence of it was accepted. */
  lemma {:induction false} RecordTraced(p: Params, balances: seq<GenesisBalance>, inputs: seq<Input>, id: Hash, voter: Address, o: EvidenceId)
    ensures (id, voter) in Run(p, Genesis(balances), inputs).links.votes <==> Last(p, Genesis(balances), inputs, VoteOf(id, voter)).Some?
    ensures o in Run(p, Genesis(balances), inputs).evidence <==> Last(p, Genesis(balances), inputs, RecordOfOffence(o)).Some?
    decreases |inputs|
  {
    hide Sets, BlockStep, Fund, After;
    if inputs != [] {
      var n := |inputs| - 1;
      RecordTraced(p, balances, inputs[..n], id, voter, o);
      AfterVote(p, Run(p, Genesis(balances), inputs[..n]), inputs[n], id, voter);
      AfterOffence(p, Run(p, Genesis(balances), inputs[..n]), inputs[n], o);
    }
  }
}
