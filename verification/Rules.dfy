/**
 * The rule engine: conditions attached to a PayLink at creation and checked before it is
 * settled, cancelled or transferred.  A rule whose parameters do not decode carries `None`;
 * creation and evaluation decode the same bytes, so both see the same `None`.
 */
module Rules {
  import opened Numbers
  import opened Collections

  type Address = nat

  datatype Action = Settle | Cancel | Transfer | OtherAction(name: string)

  datatype TimeLockParams = TimeLockParams(notBefore: int64, notAfter: int64, actions: seq<Action>)
  datatype ApprovalParams = ApprovalParams(required: uint64, approvers: seq<Address>)
  datatype AmountParams = AmountParams(minAmount: uint64, maxAmount: uint64)
  datatype SenderParams = SenderParams(addresses: seq<Address>, actions: seq<Action>)

  datatype Rule =
    | TimeLock(lock: Option<TimeLockParams>)
    | MultiApproval(approval: Option<ApprovalParams>)
    | AmountThreshold(amount: Option<AmountParams>)
    | AddressWhitelist(senders: Option<SenderParams>)
    | ReceiverWhitelist(receivers: Option<seq<Address>>)
    | MaxTransfers(limit: Option<uint64>)
    | UnknownRule(name: string)

  /** The raw `rules` field: absent or null, undecodable, or a rule list. */
  datatype RuleField = NoRules | CorruptRules | RuleList(rules: seq<Rule>)

  datatype RuleError = Malformed | UnknownType | IllFormed | Violated

  datatype Context = Context(
    action: Action, now: int64, sender: Address, receiver: Address,
    amount: uint64, transferCount: uint64, approvals: seq<Address>)

  // ---------------------------------------------------------------- well-formedness gate

  function ValidateOne(r: Rule): Option<RuleError> {
    match r
    case TimeLock(None) => Some(Malformed)
    case TimeLock(Some(p)) => if p.actions == [] then Some(IllFormed) else None
    case MultiApproval(None) => Some(Malformed)
    case MultiApproval(Some(p)) =>
      if p.required == 0 || |p.approvers| < p.required then Some(IllFormed) else None
    case AmountThreshold(None) => Some(Malformed)
    case AmountThreshold(Some(p)) =>
      if p.minAmount > 0 && p.maxAmount > 0 && p.minAmount > p.maxAmount then Some(IllFormed) else None
    case AddressWhitelist(None) => Some(Malformed)
    case AddressWhitelist(Some(p)) =>
      if p.addresses == [] || p.actions == [] then Some(IllFormed) else None
    case ReceiverWhitelist(None) => Some(Malformed)
    case ReceiverWhitelist(Some(p)) => if p == [] then Some(IllFormed) else None
    case MaxTransfers(None) => Some(Malformed)
    case MaxTransfers(Some(p)) => if p == 0 then Some(IllFormed) else None
    case UnknownRule(_) => Some(UnknownType)
  }

  /** First error of the list, in list order. */
  function ValidateRules(rs: seq<Rule>): Option<RuleError> {
    if rs == [] then None
    else if ValidateOne(rs[0]).Some? then ValidateOne(rs[0])
    else ValidateRules(rs[1..])
  }

  // ---------------------------------------------------------------- evaluation

  /** How many of the approvals, counted with their position, come from an approver. */
  function CountApprovals(approvals: seq<Address>, approvers: seq<Address>): nat {
    if approvals == [] then 0
    else (if approvals[0] in approvers then 1 else 0) + CountApprovals(approvals[1..], approvers)
  }

  function EvaluateOne(r: Rule, c: Context): Option<RuleError> {
    match r
    case TimeLock(None) => Some(Malformed)
    case TimeLock(Some(p)) =>
      if c.action !in p.actions then None
      else if p.notBefore > 0 && c.now < p.notBefore then Some(Violated)
      else if p.notAfter > 0 && c.now > p.notAfter then Some(Violated)
      else None
    case MultiApproval(None) => Some(Malformed)
    case MultiApproval(Some(p)) =>
      if c.action != Settle then None
      else if CountApprovals(c.approvals, p.approvers) < p.required then Some(Violated)
      else None
    case AmountThreshold(None) => Some(Malformed)
    case AmountThreshold(Some(p)) => if !AmountWithin(p, c.amount) then Some(Violated) else None
    case AddressWhitelist(None) => Some(Malformed)
    case AddressWhitelist(Some(p)) =>
      if c.action !in p.actions then None
      else if c.sender in p.addresses then None
      else Some(Violated)
    case ReceiverWhitelist(None) => Some(Malformed)
    case ReceiverWhitelist(Some(p)) =>
      if c.action != Transfer then None
      else if c.receiver in p then None
      else Some(Violated)
    case MaxTransfers(None) => Some(Malformed)
    case MaxTransfers(Some(p)) =>
      if c.action != Transfer then None
      else if c.transferCount >= p then Some(Violated)
      else None
    case UnknownRule(_) => Some(UnknownType)
  }

  predicate AmountWithin(p: AmountParams, amount: uint64) {
    && (p.minAmount > 0 ==> p.minAmount <= amount)
    && (p.maxAmount > 0 ==> amount <= p.maxAmount)
  }

  function Evaluate(rs: seq<Rule>, c: Context): Option<RuleError> {
    if rs == [] then None
    else if EvaluateOne(rs[0], c).Some? then EvaluateOne(rs[0], c)
    else Evaluate(rs[1..], c)
  }

  /** evaluateRules of the executor: an absent field passes, an undecodable one fails. */
  function EvaluateField(f: RuleField, c: Context): Option<RuleError> {
    match f
    case NoRules => None
    case CorruptRules => Some(Malformed)
    case RuleList(rs) => Evaluate(rs, c)
  }

  /** The creation gate of the executor. */
  function ValidateField(f: RuleField): Option<RuleError> {
    match f
    case NoRules => None
    case CorruptRules => Some(Malformed)
    case RuleList(rs) => ValidateRules(rs)
  }

  function RulesOf(f: RuleField): seq<Rule> {
    if f.RuleList? then f.rules else []
  }

  // ---------------------------------------------------------------- what the engine guarantees

  /** An accepted list is one in which every rule is accepted. */
  lemma {:induction false} ValidateAll(rs: seq<Rule>)
    ensures ValidateRules(rs).None? <==> forall r :: r in rs ==> ValidateOne(r).None?
  {
    if rs != [] {
      ValidateAll(rs[1..]);
      assert rs == [rs[0]] + rs[1..];
    }
  }

  /** A context passes a list exactly when it passes every rule of it. */
  lemma {:induction false} EvaluateAll(rs: seq<Rule>, c: Context)
    ensures Evaluate(rs, c).None? <==> forall r :: r in rs ==> EvaluateOne(r, c).None?
  {
    if rs != [] {
      EvaluateAll(rs[1..], c);
      assert rs == [rs[0]] + rs[1..];
    }
  }

  /** A rule list that passed the creation gate can only fail later by being violated. */
  lemma {:induction false} ValidRulesOnlyViolate(rs: seq<Rule>, c: Context)
    requires ValidateRules(rs).None?
    ensures Evaluate(rs, c) in {None, Some(Violated)}
  {
    if rs != [] {
      ValidRulesOnlyViolate(rs[1..], c);
    }
  }

  /** For distinct approvals the count is the size of the common part with the approvers. */
  lemma {:induction false} CountDistinct(approvals: seq<Address>, approvers: seq<Address>)
    requires NoDup(approvals)
    ensures CountApprovals(approvals, approvers) == |Elements(approvals) * Elements(approvers)|
  {
    if approvals == [] {
      assert Elements(approvals) * Elements(approvers) == {};
    } else {
      CountDistinct(approvals[1..], approvers);
      HeadElements(approvals);
      CommonPart(Elements(approvals[1..]), approvals[0], Elements(approvers));
    }
  }

  lemma {:induction false} HeadElements(s: seq<Address>)
    requires s != [] && NoDup(s)
    ensures Elements(s) == Elements(s[1..]) + {s[0]} && s[0] !in Elements(s[1..])
  {
    assert s == [s[0]] + s[1..];
  }

  lemma {:induction false} CommonPart(rest: set<Address>, x: Address, other: set<Address>)
    requires x !in rest
    ensures |(rest + {x}) * other| == |rest * other| + (if x in other then 1 else 0)
  {
    if x in other {
      assert (rest + {x}) * other == rest * other + {x};
    } else {
      assert (rest + {x}) * other == rest * other;
    }
  }

  /** The nested counting loops of evalMultiApproval. */
  method CountApprovalsLoop(approvals: seq<Address>, approvers: seq<Address>) returns (count: nat)
    ensures count == CountApprovals(approvals, approvers)
  {
    count := 0;
    var i := 0;
    while i < |approvals|
      invariant 0 <= i <= |approvals|
      invariant count + CountApprovals(approvals[i..], approvers) == CountApprovals(approvals, approvers)
    {
      var j := 0;
      while j < |approvers| && approvers[j] != approvals[i]
        invariant 0 <= j <= |approvers|
        invariant approvals[i] !in approvers[..j]
      {
        j := j + 1;
      }
      if j < |approvers| {
        count := count + 1;
      }
      assert approvals[i] in approvers <==> j < |approvers| by { assert approvers == approvers[..j] + approvers[j..]; }
      assert approvals[i..][1..] == approvals[i + 1..];
      i := i + 1;
    }
  }

  /** A settlement that the rules let through meets every approval quota and amount bound. */
  lemma {:induction false} SettlementMeetsRules(f: RuleField, c: Context)
    requires EvaluateField(f, c).None? && c.action == Settle && NoDup(c.approvals)
    ensures forall r :: r in RulesOf(f) && r.MultiApproval? && r.approval.Some? ==>
      |Elements(c.approvals) * Elements(r.approval.value.approvers)| >= r.approval.value.required
    ensures forall r :: r in RulesOf(f) && r.AmountThreshold? && r.amount.Some? ==>
      AmountWithin(r.amount.value, c.amount)
  {
    EvaluateAll(RulesOf(f), c);
    forall r | r in RulesOf(f) && r.MultiApproval? && r.approval.Some?
      ensures |Elements(c.approvals) * Elements(r.approval.value.approvers)| >= r.approval.value.required
    {
      CountDistinct(c.approvals, r.approval.value.approvers);
      assert EvaluateOne(r, c).None?;
    }
    forall r | r in RulesOf(f) && r.AmountThreshold? && r.amount.Some?
      ensures AmountWithin(r.amount.value, c.amount)
    {
      assert EvaluateOne(r, c).None?;
    }
  }

  /** A transfer that the rules let through is under every limit and goes to a listed receiver. */
  lemma {:induction false} TransferMeetsRules(f: RuleField, c: Context)
    requires EvaluateField(f, c).None? && c.action == Transfer
    ensures forall r :: r in RulesOf(f) && r.MaxTransfers? && r.limit.Some? ==> c.transferCount < r.limit.value
    ensures forall r :: r in RulesOf(f) && r.ReceiverWhitelist? && r.receivers.Some? ==> c.receiver in r.receivers.value
  {
    EvaluateAll(RulesOf(f), c);
    forall r | r in RulesOf(f)
      ensures r.MaxTransfers? && r.limit.Some? ==> c.transferCount < r.limit.value
      ensures r.ReceiverWhitelist? && r.receivers.Some? ==> c.receiver in r.receivers.value
    {
      assert EvaluateOne(r, c).None?;
    }
  }

  // ---------------------------------------------------------------- what a rule list asks for

  /** The context is inside every window, has every quota of distinct approvals, and is within every list and limit. */
  ghost predicate Obeys(rs: seq<Rule>, c: Context) {
    && (forall p :: TimeLock(Some(p)) in rs && c.action in p.actions ==>
          (p.notBefore > 0 ==> p.notBefore <= c.now) && (p.notAfter > 0 ==> c.now <= p.notAfter))
    && (forall p :: MultiApproval(Some(p)) in rs && c.action == Settle ==>
          |Elements(c.approvals) * Elements(p.approvers)| >= p.required)
    && (forall p :: AmountThreshold(Some(p)) in rs ==>
          (p.minAmount > 0 ==> p.minAmount <= c.amount) && (p.maxAmount > 0 ==> c.amount <= p.maxAmount))
    && (forall p :: AddressWhitelist(Some(p)) in rs && c.action in p.actions ==> c.sender in p.addresses)
    && (forall p :: ReceiverWhitelist(Some(p)) in rs && c.action == Transfer ==> c.receiver in p)
    && (forall n :: MaxTransfers(Some(n)) in rs && c.action == Transfer ==> c.transferCount < n)
  }

  /** The rule is of a known kind and its parameters decode. */
  predicate Legible(r: Rule) {
    match r
    case TimeLock(p) => p.Some?
    case MultiApproval(p) => p.Some?
    case AmountThreshold(p) => p.Some?
    case AddressWhitelist(p) => p.Some?
    case ReceiverWhitelist(p) => p.Some?
    case MaxTransfers(p) => p.Some?
    case UnknownRule(_) => false
  }

  lemma {:induction false} PassesOne(rs: seq<Rule>, c: Context, r: Rule)
    requires Obeys(rs, c) && NoDup(c.approvals) && r in rs && Legible(r)
    ensures EvaluateOne(r, c).None?
  {
    hide CountApprovals;
    if r.MultiApproval? {
      CountDistinct(c.approvals, r.approval.value.approvers);
    }
  }

  lemma {:induction false} PassedObeys(rs: seq<Rule>, c: Context)
    requires Evaluate(rs, c).None? && NoDup(c.approvals)
    ensures Obeys(rs, c)
  {
    hide CountApprovals, Evaluate;
    EvaluateAll(rs, c);
    forall p | MultiApproval(Some(p)) in rs && c.action == Settle ensures |Elements(c.approvals) * Elements(p.approvers)| >= p.required {
      CountDistinct(c.approvals, p.approvers);
      assert EvaluateOne(MultiApproval(Some(p)), c).None?;
    }
    assert forall p :: TimeLock(Some(p)) in rs ==> EvaluateOne(TimeLock(Some(p)), c).None?;
    assert forall p :: AmountThreshold(Some(p)) in rs ==> EvaluateOne(AmountThreshold(Some(p)), c).None?;
    assert forall p :: AddressWhitelist(Some(p)) in rs ==> EvaluateOne(AddressWhitelist(Some(p)), c).None?;
    assert forall p :: ReceiverWhitelist(Some(p)) in rs ==> EvaluateOne(ReceiverWhitelist(Some(p)), c).None?;
    assert forall n :: MaxTransfers(Some(n)) in rs ==> EvaluateOne(MaxTransfers(Some(n)), c).None?;
  }

  /** A rule field lets a context through exactly when it holds no rules, or only legible ones that the context obeys. */
  lemma {:induction false} EvaluateFieldIff(f: RuleField, c: Context)
    requires NoDup(c.approvals)
    ensures EvaluateField(f, c).None? <==> f.NoRules? || (f.RuleList? && (forall r :: r in f.rules ==> Legible(r)) && Obeys(f.rules, c))
  {
    hide Evaluate, Obeys, CountApprovals;
    if f.RuleList? {
      EvaluateAll(f.rules, c);
      if Evaluate(f.rules, c).None? {
        PassedObeys(f.rules, c);
      } else if Obeys(f.rules, c) && forall r :: r in f.rules ==> Legible(r) {
        forall r | r in f.rules ensures EvaluateOne(r, c).None? {
          PassesOne(f.rules, c, r);
        }
      }
    }
  }

  /** A list that passed the creation gate lets a context through exactly when the context obeys it. */
  lemma {:induction false} EvaluateIff(rs: seq<Rule>, c: Context)
    requires ValidateRules(rs).None? && NoDup(c.approvals)
    ensures Evaluate(rs, c).None? <==> Obeys(rs, c)
  {
    hide Evaluate, ValidateRules, Obeys, EvaluateOne;
    ValidateAll(rs);
    assert forall r :: r in rs && ValidateOne(r).None? ==> Legible(r);
    EvaluateFieldIff(RuleList(rs), c);
  }

  // ---------------------------------------------------------------- what creation asks for

  /** Every rule is legible, locks and lists name something, quotas can be met by their approvers, bounds are ordered, limits allow a transfer. */
  ghost predicate WellFormed(rs: seq<Rule>) {
    && (forall r :: r in rs ==> Legible(r))
    && (forall p :: TimeLock(Some(p)) in rs ==> p.actions != [])
    && (forall p :: MultiApproval(Some(p)) in rs ==> 0 < p.required <= |p.approvers|)
    && (forall p :: AmountThreshold(Some(p)) in rs ==> p.minAmount == 0 || p.maxAmount == 0 || p.minAmount <= p.maxAmount)
    && (forall p :: AddressWhitelist(Some(p)) in rs ==> p.addresses != [] && p.actions != [])
    && (forall p :: ReceiverWhitelist(Some(p)) in rs ==> p != [])
    && (forall n :: MaxTransfers(Some(n)) in rs ==> n > 0)
  }

  /** The creation gate passes exactly absent fields and well-formed lists. */
  lemma {:induction false} ValidateIff(f: RuleField)
    ensures ValidateField(f).None? <==> f.NoRules? || (f.RuleList? && WellFormed(f.rules))
  {
    hide ValidateRules;
    if f.RuleList? {
      var rs := f.rules;
      ValidateAll(rs);
      if WellFormed(rs) {
        forall r | r in rs ensures ValidateOne(r).None? {
          assert Legible(r);
        }
      }
      if forall r :: r in rs ==> ValidateOne(r).None? {
        AcceptedWellFormed(rs);
      }
    }
  }

  lemma {:induction false} AcceptedWellFormed(rs: seq<Rule>)
    requires forall r :: r in rs ==> ValidateOne(r).None?
    ensures WellFormed(rs)
  {
    assert forall p :: TimeLock(Some(p)) in rs ==> ValidateOne(TimeLock(Some(p))).None?;
    assert forall p :: MultiApproval(Some(p)) in rs ==> ValidateOne(MultiApproval(Some(p))).None?;
    assert forall p :: AmountThreshold(Some(p)) in rs ==> ValidateOne(AmountThreshold(Some(p))).None?;
    assert forall p :: AddressWhitelist(Some(p)) in rs ==> ValidateOne(AddressWhitelist(Some(p))).None?;
    assert forall p :: ReceiverWhitelist(Some(p)) in rs ==> ValidateOne(ReceiverWhitelist(Some(p))).None?;
    assert forall n :: MaxTransfers(Some(n)) in rs ==> ValidateOne(MaxTransfers(Some(n))).None?;
  }
}
