/**
 * The chain state as a value: accounts and validators (the bank), PayLinks with their votes,
 * proofs and indexes (the links), and the punished offences, with one function per operation
 * of the state database.
 */
module ChainState {
  import opened Numbers
  import opened Collections
  import opened Rules

  type Hash = nat
  type Bytes = seq<nat>

  const ZERO_ADDRESS: Address := 0

  datatype Status = Created | Verified | Failed | Cancelled

  datatype Account = Account(balance: uint64, nonce: uint64)

  datatype Validator = Validator(
    address: Address, staked: uint64, pending: uint64, withdrawableAt: int64,
    totalSlashed: uint64, totalRewards: uint64, active: bool, joinedAt: int64, vrfKey: Bytes)

  datatype PayLink = PayLink(
    id: Hash, creator: Address, receiver: Address, owner: Address, approved: Address,
    amount: uint64, expiry: int64, status: Status, metadata: Hash, createdAt: int64,
    voteCount: uint64, transferCount: uint64, rules: RuleField)

  /** The canonical identity of an offence; the source hashes these fields injectively. */
  datatype EvidenceId = DoubleSignAt(validator: Address, height: uint64) | EquivocationOn(validator: Address, seed: Hash)

  /** Accounts, validators and the supply counters. */
  datatype Bank = Bank(
    accounts: map<Address, Account>, validators: map<Address, Validator>, validatorList: seq<Address>,
    vrfKeys: map<Address, Bytes>, totalSupply: uint64, totalBurned: uint64)

  /** PayLinks with their proofs, votes, indexes and operator approvals. */
  datatype Links = Links(
    paylinks: map<Hash, PayLink>, usedProofs: set<Hash>, submittedProofs: map<Hash, Hash>,
    votes: set<(Hash, Address)>,
    byCreator: map<Address, seq<Hash>>, byReceiver: map<Address, seq<Hash>>,
    byStatus: map<Status, seq<Hash>>, byOwner: map<Address, seq<Hash>>,
    operators: set<(Address, Address)>)

  datatype State = State(bank: Bank, links: Links, evidence: set<EvidenceId>)

  /** Genesis parameters; they never change. */
  datatype Params = Params(
    maxSupply: uint64, minimumStake: uint64, cooldown: int64, required: uint64, admin: Address,
    treasury: Address, feeRate: uint64, validatorShare: uint64, treasuryShare: uint64, burnShare: uint64)

  /** Zero fee parameters in the genesis configuration mean the defaults. */
  function WithDefaults(g: Params): Params {
    g.(feeRate := if g.feeRate == 0 then 50 else g.feeRate,
       validatorShare := if g.validatorShare == 0 then 70 else g.validatorShare,
       treasuryShare := if g.treasuryShare == 0 then 20 else g.treasuryShare,
       burnShare := if g.burnShare == 0 then 10 else g.burnShare)
  }

  datatype TxError =
    | BadNonce | BadSignature | InvalidPayload | UnknownTxType
    | ZeroAddress | ZeroAmount | Expired | BadRules(rule: RuleError) | RulesRejected(rejection: RuleError)
    | DuplicatePayLink | PayLinkNotFound | NotCreated | NotAuthorized | AlreadyVoted | ProofUsed | ProofMismatch
    | NotActive | NotAdmin | SelfTarget | InsufficientBalance | InsufficientStake | BelowMinimum
    | ValidatorNotFound | WithdrawalPending | NoWithdrawal | CooldownRunning | BadKeyLength
    | BadEvidence | EvidenceReplayed | SupplyExceeded

  datatype Outcome<+T> = Ok(value: T) | Err(error: TxError)

  function ErrorOf<T>(r: Outcome<T>): Option<TxError> {
    if r.Err? then Some(r.error) else None
  }

  // ---------------------------------------------------------------- accounts

  function AccountOf(b: Bank, a: Address): Account {
    if a in b.accounts then b.accounts[a] else Account(0, 0)
  }

  function PutAccount(b: Bank, a: Address, acc: Account): Bank {
    b.(accounts := b.accounts[a := acc])
  }

  function AddBalance(b: Bank, a: Address, amount: uint64): Bank {
    var acc := AccountOf(b, a);
    PutAccount(b, a, acc.(balance := Add64(acc.balance, amount)))
  }

  function SubBalance(b: Bank, a: Address, amount: uint64): Outcome<Bank> {
    if a !in b.accounts || b.accounts[a].balance < amount then Err(InsufficientBalance)
    else Ok(PutAccount(b, a, b.accounts[a].(balance := b.accounts[a].balance - amount)))
  }

  /** Debit first, credit second, so a transfer to oneself changes nothing. */
  function TransferTokens(b: Bank, from: Address, to: Address, amount: uint64): Outcome<Bank> {
    var debited := SubBalance(b, from, amount);
    if debited.Err? then debited else Ok(AddBalance(debited.value, to, amount))
  }

  function IncrementNonce(b: Bank, a: Address): Bank {
    var acc := AccountOf(b, a);
    PutAccount(b, a, acc.(nonce := Add64(acc.nonce, 1)))
  }

  function MintTokens(p: Params, b: Bank, to: Address, amount: uint64): Outcome<Bank> {
    if Add64(b.totalSupply, amount) > p.maxSupply then Err(SupplyExceeded)
    else Ok(AddBalance(b, to, amount).(totalSupply := Add64(b.totalSupply, amount)))
  }

  function RecordBurn(b: Bank, amount: uint64): Bank {
    b.(totalBurned := Add64(b.totalBurned, amount))
  }

  // ---------------------------------------------------------------- validators

  predicate IsActive(b: Bank, a: Address) {
    a in b.validators && b.validators[a].active
  }

  function NewValidator(a: Address, now: int64): Validator {
    Validator(a, 0, 0, 0, 0, 0, false, now, [])
  }

  function PutValidator(b: Bank, a: Address, v: Validator): Bank {
    b.(validators := b.validators[a := v])
  }

  function Stake(p: Params, b: Bank, a: Address, amount: uint64, now: int64): Bank {
    var v := if a in b.validators then b.validators[a] else NewValidator(a, now);
    var staked := Add64(v.staked, amount);
    b.(validators := b.validators[a := v.(staked := staked, active := v.active || staked >= p.minimumStake)],
       validatorList := if a in b.validators then b.validatorList else b.validatorList + [a])
  }

  function InitiateWithdrawal(p: Params, b: Bank, a: Address, amount: uint64, now: int64): Outcome<Bank> {
    if a !in b.validators then Err(ValidatorNotFound)
    else
      var v := b.validators[a];
      if v.pending > 0 then Err(WithdrawalPending)
      else if amount > v.staked then Err(InsufficientStake)
      else if 0 < v.staked - amount < p.minimumStake then Err(BelowMinimum)
      else
        Ok(PutValidator(b, a, v.(pending := amount, withdrawableAt := AddSigned(now, p.cooldown),
                                 active := v.active && v.staked - amount >= p.minimumStake)))
  }

  /** The stake is reduced without checking that it still covers the pending amount. */
  function CompleteWithdrawal(b: Bank, a: Address, now: int64): Outcome<Bank> {
    if a !in b.validators then Err(ValidatorNotFound)
    else
      var v := b.validators[a];
      if v.pending == 0 then Err(NoWithdrawal)
      else if now < v.withdrawableAt then Err(CooldownRunning)
      else Ok(PutValidator(b, a, v.(staked := Sub64(v.staked, v.pending), pending := 0, withdrawableAt := 0)))
  }

  function Slash(p: Params, b: Bank, a: Address, amount: uint64): Outcome<Bank> {
    if a !in b.validators then Err(ValidatorNotFound)
    else
      var v := b.validators[a];
      if amount > v.staked then Err(InsufficientStake)
      else
        var left := v.staked - amount;
        Ok(b.(validators := b.validators[a := v.(staked := left, totalSlashed := Add64(v.totalSlashed, amount),
                                                 active := v.active && left >= p.minimumStake)],
              totalSupply := if b.totalSupply < amount then 0 else b.totalSupply - amount,
              totalBurned := Add64(b.totalBurned, amount)))
  }

  function RecordReward(b: Bank, a: Address, amount: uint64): Outcome<Bank> {
    if !IsActive(b, a) then Err(NotActive)
    else
      var v := b.validators[a];
      Ok(PutValidator(b, a, v.(totalRewards := Add64(v.totalRewards, amount))))
  }

  function RegisterKey(b: Bank, a: Address, key: Bytes): Outcome<Bank> {
    if !IsActive(b, a) then Err(NotActive)
    else Ok(PutValidator(b, a, b.validators[a].(vrfKey := key)).(vrfKeys := b.vrfKeys[a := key]))
  }

  // ---------------------------------------------------------------- PayLinks

  /** One bucket of an index. */
  function Bucket<K>(index: map<K, seq<Hash>>, k: K): seq<Hash> {
    if k in index then index[k] else []
  }

  function Append<K>(index: map<K, seq<Hash>>, k: K, id: Hash): map<K, seq<Hash>> {
    index[k := Bucket(index, k) + [id]]
  }

  function Remove<K>(index: map<K, seq<Hash>>, k: K, id: Hash): map<K, seq<Hash>> {
    if id in Bucket(index, k) then index[k := Without(Bucket(index, k), id)] else index
  }

  function Statuses(l: Links): map<Hash, Status> {
    map id | id in l.paylinks :: l.paylinks[id].status
  }

  function VotersIn(votes: set<(Hash, Address)>, id: Hash): set<Address> {
    set v | v in votes && v.0 == id :: v.1
  }

  function Voters(l: Links, id: Hash): set<Address> {
    VotersIn(l.votes, id)
  }

  function AddPayLink(l: Links, pl: PayLink): Outcome<Links> {
    if pl.id in l.paylinks then Err(DuplicatePayLink)
    else
      Ok(l.(paylinks := l.paylinks[pl.id := pl],
            byCreator := Append(l.byCreator, pl.creator, pl.id),
            byReceiver := Append(l.byReceiver, pl.receiver, pl.id),
            byStatus := Append(l.byStatus, pl.status, pl.id),
            byOwner := Append(l.byOwner, pl.owner, pl.id)))
  }

  function SetStatus(l: Links, id: Hash, status: Status): Links
    requires id in l.paylinks
  {
    var pl := l.paylinks[id];
    l.(paylinks := l.paylinks[id := pl.(status := status)],
       byStatus := Append(Remove(l.byStatus, pl.status, id), status, id))
  }

  function SetOwner(l: Links, id: Hash, owner: Address): Links
    requires id in l.paylinks
  {
    var pl := l.paylinks[id];
    l.(paylinks := l.paylinks[id := pl.(owner := owner, approved := ZERO_ADDRESS, transferCount := Add64(pl.transferCount, 1))],
       byOwner := Append(Remove(l.byOwner, pl.owner, id), owner, id))
  }

  function SetApproved(l: Links, id: Hash, approved: Address): Links
    requires id in l.paylinks
  {
    l.(paylinks := l.paylinks[id := l.paylinks[id].(approved := approved)])
  }

  function SetOperator(l: Links, owner: Address, operator: Address, approved: bool): Links {
    l.(operators := if approved then l.operators + {(owner, operator)} else l.operators - {(owner, operator)})
  }

  predicate MayTransfer(l: Links, id: Hash, spender: Address)
    requires id in l.paylinks
  {
    var pl := l.paylinks[id];
    spender == pl.owner || spender == pl.approved || (pl.owner, spender) in l.operators
  }

  /** Record a vote: the first one also fixes the proof every later voter must repeat. */
  function CastVote(l: Links, id: Hash, voter: Address, proof: Hash): Links
    requires id in l.paylinks
  {
    var pl := l.paylinks[id];
    l.(paylinks := l.paylinks[id := pl.(voteCount := Add64(pl.voteCount, 1))],
       submittedProofs := if id in l.submittedProofs then l.submittedProofs else l.submittedProofs[id := proof],
       votes := l.votes + {(id, voter)})
  }

  function Settled(l: Links, id: Hash, proof: Hash): Links
    requires id in l.paylinks
  {
    SetStatus(l, id, Verified).(usedProofs := l.usedProofs + {proof})
  }

  // ---------------------------------------------------------------- genesis

  function EmptyBank(): Bank {
    Bank(map[], map[], [], map[], 0, 0)
  }

  function EmptyLinks(): Links {
    Links(map[], {}, map[], {}, map[], map[], map[], map[], {})
  }

  datatype GenesisBalance = GenesisBalance(address: Address, balance: uint64)

  /** Fund the initial balances in order: a repeated address is overwritten but counted twice. */
  function Fund(b: Bank, balances: seq<GenesisBalance>): Bank
    decreases |balances|
  {
    if balances == [] then b
    else
      var g := balances[0];
      Fund(PutAccount(b, g.address, Account(g.balance, 0)).(totalSupply := Add64(b.totalSupply, g.balance)), balances[1..])
  }

  function Genesis(balances: seq<GenesisBalance>): State {
    State(Fund(EmptyBank(), balances), EmptyLinks(), {})
  }
}
