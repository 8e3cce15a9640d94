/**
 * Accounts, validators, VRF keys, the validator list and the supply counters of the state
 * database, updated in place, with saved copies.  Every operation is proved against the
 * value-level operation it performs, and to leave all saved copies exactly as they were.
 */
module BankTables {
  import opened Numbers
  import opened Collections
  import opened Rules
  import opened ChainState
  import opened Dicts
  import opened Tables
  import opened Slices

  datatype Counters = Counters(supply: uint64, burned: uint64)

  ghost function MakeBank(accounts: map<Address, Account>, validators: map<Address, Validator>, list: map<(), seq<nat>>,
                          keys: map<Address, Bytes>, c: Counters): Bank
  {
    Bank(accounts, validators, Bucket(list, ()), keys, c.supply, c.burned)
  }

  /** The saved banks, position by position, are put together from the saved parts. */
  ghost predicate BanksStacked(accounts: seq<map<Address, Account>>, validators: seq<map<Address, Validator>>, list: seq<map<(), seq<nat>>>,
                          keys: seq<map<Address, Bytes>>, counters: seq<Counters>, banks: seq<Bank>)
  {
    && |accounts| == |validators| == |list| == |keys| == |counters| == |banks|
    && forall i :: 0 <= i < |banks| ==> banks[i] == MakeBank(accounts[i], validators[i], list[i], keys[i], counters[i])
  }

  lemma StackedPush(accounts: seq<map<Address, Account>>, validators: seq<map<Address, Validator>>, list: seq<map<(), seq<nat>>>,
                    keys: seq<map<Address, Bytes>>, counters: seq<Counters>, banks: seq<Bank>,
                    a: map<Address, Account>, v: map<Address, Validator>, l: map<(), seq<nat>>, k: map<Address, Bytes>, c: Counters)
    requires BanksStacked(accounts, validators, list, keys, counters, banks)
    ensures BanksStacked(accounts + [a], validators + [v], list + [l], keys + [k], counters + [c], banks + [MakeBank(a, v, l, k, c)])
  {}

  lemma StackedCut(accounts: seq<map<Address, Account>>, validators: seq<map<Address, Validator>>, list: seq<map<(), seq<nat>>>,
                   keys: seq<map<Address, Bytes>>, counters: seq<Counters>, banks: seq<Bank>)
    requires BanksStacked(accounts, validators, list, keys, counters, banks)
    ensures |accounts| == |validators| == |list| == |keys| == |counters| == |banks|
    ensures forall i :: 0 <= i < |banks| ==>
      && BanksStacked(accounts[..i], validators[..i], list[..i], keys[..i], counters[..i], banks[..i])
      && banks[i] == MakeBank(accounts[i], validators[i], list[i], keys[i], counters[i])
  {}

  lemma EmptyParts()
    ensures MakeBank(map[], map[], map[], map[], Counters(0, 0)) == EmptyBank() && BanksStacked([], [], [], [], [], [])
  {}

  class BankTables {
    const params: Params
    const accounts: Table<Account>
    const validators: Table<Validator>
    /** The validator list: one bucket. */
    const list: SliceIndex<()>
    const keys: DictHistory<Address, Bytes>
    var counters: Counters
    var savedCounters: seq<Counters>
    /** The current bank, and the banks each saved copy would bring back, oldest first. */
    ghost var Rows: Bank
    ghost var Stack: seq<Bank>
    ghost var Repr: set<object>

    /** The parts are sound and share nothing. */
    ghost predicate PartsOk()
      reads this, accounts, validators, list, keys, accounts.Repr, validators.Repr, list.Repr, keys.Repr
    {
      && accounts.Valid() && validators.Valid() && list.Valid() && keys.Valid()
      && this !in accounts.Repr && this !in validators.Repr && this !in list.Repr && this !in keys.Repr
      && accounts.Repr !! validators.Repr && accounts.Repr !! list.Repr && accounts.Repr !! keys.Repr
      && validators.Repr !! list.Repr && validators.Repr !! keys.Repr && list.Repr !! keys.Repr
    }

    ghost function Parts(): set<object>
      reads this, accounts, validators, list, keys
    {
      {this} + accounts.Repr + validators.Repr + list.Repr + keys.Repr
    }

    ghost predicate Valid()
      reads this, Repr
      ensures Valid() ==> this in Repr
    {
      && {this, accounts, validators, list, keys} <= Repr
      && Repr == Parts() && PartsOk()
      && Rows == MakeBank(accounts.Rows, validators.Rows, list.Rows, keys.Rows, counters)
      && BanksStacked(accounts.Stack, validators.Stack, list.Stack, keys.Stack, savedCounters, Stack)
    }

    /** Put empty parts together. */
    constructor (params: Params, a: Table<Account>, v: Table<Validator>, l: SliceIndex<()>, k: DictHistory<Address, Bytes>)
      requires a.Valid() && v.Valid() && l.Valid() && k.Valid()
      requires a.Repr !! v.Repr && l.Repr !! a.Repr + v.Repr && k.Repr !! a.Repr + v.Repr + l.Repr
      requires a.Rows == map[] && v.Rows == map[] && l.Rows == map[] && k.Rows == map[]
      requires a.Stack == [] && v.Stack == [] && l.Stack == [] && k.Stack == []
      ensures Valid() && this.params == params && Rows == EmptyBank() && Stack == []
      ensures Repr == {this} + a.Repr + v.Repr + l.Repr + k.Repr
    {
      hide Table.Valid, SliceIndex.Valid, DictHistory.Valid, MakeBank, EmptyBank, BanksStacked;
      EmptyParts();
      this.params := params;
      accounts, validators, list, keys := a, v, l, k;
      counters, savedCounters, Stack := Counters(0, 0), [], [];
      new;
      Refresh();
    }

    /** Bring the specification fields up to date after the parts have changed. */
    ghost method Refresh()
      requires PartsOk() && BanksStacked(accounts.Stack, validators.Stack, list.Stack, keys.Stack, savedCounters, Stack)
      modifies this`Rows, this`Repr
      ensures Valid() && Repr == Parts()
      ensures Rows == MakeBank(accounts.Rows, validators.Rows, list.Rows, keys.Rows, counters)
    {
      hide Table.Valid, SliceIndex.Valid, DictHistory.Valid, BanksStacked, MakeBank;
      Rows := MakeBank(accounts.Rows, validators.Rows, list.Rows, keys.Rows, counters);
      Repr := Parts();
    }

    // -------------------------------------------------------------- saved copies

    method PushParts()
      requires PartsOk()
      modifies accounts.Repr, validators.Repr, list.Repr, keys.Repr
      ensures PartsOk() && fresh(Parts() - old(Parts())) && unchanged(this)
      ensures accounts.Rows == old(accounts.Rows) && accounts.Stack == old(accounts.Stack) + [old(accounts.Rows)]
      ensures validators.Rows == old(validators.Rows) && validators.Stack == old(validators.Stack) + [old(validators.Rows)]
      ensures list.Rows == old(list.Rows) && list.Stack == old(list.Stack) + [old(list.Rows)]
      ensures keys.Rows == old(keys.Rows) && keys.Stack == old(keys.Stack) + [old(keys.Rows)]
    {
      hide Table.Valid, SliceIndex.Valid, DictHistory.Valid;
      accounts.Push();
      validators.Push();
      list.Push();
      keys.Push();
    }

    method Push()
      requires Valid()
      modifies Repr
      ensures Valid() && fresh(Repr - old(Repr))
      ensures Rows == old(Rows) && Stack == old(Stack) + [old(Rows)]
    {
      hide Table.Valid, SliceIndex.Valid, DictHistory.Valid, BanksStacked, MakeBank;
      StackedPush(accounts.Stack, validators.Stack, list.Stack, keys.Stack, savedCounters, Stack,
                  accounts.Rows, validators.Rows, list.Rows, keys.Rows, counters);
      PushParts();
      savedCounters := savedCounters + [counters];
      Stack := Stack + [Rows];
      Refresh();
    }

    method Restore(i: nat)
      requires Valid() && i < |Stack|
      modifies Repr
      ensures Valid() && fresh(Repr - old(Repr))
      ensures Rows == old(Stack)[i] && Stack == old(Stack)[..i]
    {
      hide Table.Valid, SliceIndex.Valid, DictHistory.Valid, BanksStacked, MakeBank;
      StackedCut(accounts.Stack, validators.Stack, list.Stack, keys.Stack, savedCounters, Stack);
      accounts.Restore(i);
      validators.Restore(i);
      list.Restore(i);
      keys.Restore(i);
      counters := savedCounters[i];
      savedCounters := savedCounters[..i];
      Stack := Stack[..i];
      Refresh();
    }

    method Drop(i: nat)
      requires Valid() && i < |Stack|
      modifies Repr
      ensures Valid() && fresh(Repr - old(Repr))
      ensures Rows == old(Rows) && Stack == old(Stack)[..i]
    {
      hide Table.Valid, SliceIndex.Valid, DictHistory.Valid, BanksStacked, MakeBank;
      StackedCut(accounts.Stack, validators.Stack, list.Stack, keys.Stack, savedCounters, Stack);
      accounts.Drop(i);
      validators.Drop(i);
      list.Drop(i);
      keys.Drop(i);
      savedCounters := savedCounters[..i];
      Stack := Stack[..i];
      Refresh();
    }

    // -------------------------------------------------------------- one record at a time

    method PutAccount(a: Address, acc: Account)
      requires Valid()
      modifies Repr
      ensures Valid() && fresh(Repr - old(Repr)) && Stack == old(Stack)
      ensures Rows == ChainState.PutAccount(old(Rows), a, acc)
    {
      hide Table.Valid, SliceIndex.Valid, DictHistory.Valid, BanksStacked;
      accounts.Put(a, acc);
      Refresh();
    }

    method PutValidator(a: Address, v: Validator)
      requires Valid()
      modifies Repr
      ensures Valid() && fresh(Repr - old(Repr)) && Stack == old(Stack)
      ensures Rows == old(Rows).(validators := old(Rows).validators[a := v])
    {
      hide Table.Valid, SliceIndex.Valid, DictHistory.Valid, BanksStacked;
      validators.Put(a, v);
      Refresh();
    }

    method Enlist(a: Address)
      requires Valid()
      modifies Repr
      ensures Valid() && fresh(Repr - old(Repr)) && Stack == old(Stack)
      ensures Rows == old(Rows).(validatorList := old(Rows).validatorList + [a])
    {
      hide Table.Valid, SliceIndex.Valid, DictHistory.Valid, BanksStacked;
      list.Append((), a);
      Refresh();
    }

    method PutKey(a: Address, key: Bytes)
      requires Valid()
      modifies Repr
      ensures Valid() && fresh(Repr - old(Repr)) && Stack == old(Stack)
      ensures Rows == old(Rows).(vrfKeys := old(Rows).vrfKeys[a := key])
    {
      hide Table.Valid, SliceIndex.Valid, DictHistory.Valid, BanksStacked;
      keys.Put(a, key);
      Refresh();
    }

    method SetCounters(c: Counters)
      requires Valid()
      modifies Repr
      ensures Valid() && fresh(Repr - old(Repr)) && Stack == old(Stack)
      ensures Rows == old(Rows).(totalSupply := c.supply, totalBurned := c.burned)
    {
      hide Table.Valid, SliceIndex.Valid, DictHistory.Valid, BanksStacked;
      counters := c;
      Refresh();
    }

    function TotalSupply(): (n: uint64)
      requires Valid()
      reads this, Repr
      ensures n == Rows.totalSupply
    {
      counters.supply
    }

    function TotalBurned(): (n: uint64)
      requires Valid()
      reads this, Repr
      ensures n == Rows.totalBurned
    {
      counters.burned
    }

    function GetVrfPublicKey(a: Address): (key: Option<Bytes>)
      requires Valid()
      reads this, Repr
      ensures key == if a in Rows.vrfKeys then Some(Rows.vrfKeys[a]) else None
    {
      if keys.Has(a) then Some(keys.Get(a)) else None
    }

    // -------------------------------------------------------------- accounts

    predicate HasAccount(a: Address)
      requires Valid()
      reads this, Repr
      ensures HasAccount(a) == (a in Rows.accounts)
    {
      accounts.Has(a)
    }

    function GetAccount(a: Address): (acc: Account)
      requires Valid()
      reads this, Repr
      ensures acc == AccountOf(Rows, a)
    {
      if accounts.Has(a) then accounts.Get(a) else Account(0, 0)
    }

    /** Fund the initial balances in order. */
    method FundAll(balances: seq<GenesisBalance>)
      requires Valid()
      modifies Repr
      ensures Valid() && fresh(Repr - old(Repr)) && Stack == old(Stack)
      ensures Rows == Fund(old(Rows), balances)
    {
      hide Valid;
      var i := 0;
      while i < |balances|
        invariant 0 <= i <= |balances|
        invariant Valid() && fresh(Repr - old(Repr)) && Stack == old(Stack)
        invariant Fund(Rows, balances[i..]) == Fund(old(Rows), balances)
      {
        PutAccount(balances[i].address, Account(balances[i].balance, 0));
        SetCounters(Counters(Add64(TotalSupply(), balances[i].balance), TotalBurned()));
        assert balances[i..][1..] == balances[i + 1..];
        i := i + 1;
      }
    }

    method AddBalance(a: Address, amount: uint64)
      requires Valid()
      modifies Repr
      ensures Valid() && fresh(Repr - old(Repr)) && Stack == old(Stack)
      ensures Rows == ChainState.AddBalance(old(Rows), a, amount)
    {
      hide Valid;
      var acc := GetAccount(a);
      PutAccount(a, acc.(balance := Add64(acc.balance, amount)));
    }

    method SubBalance(a: Address, amount: uint64) returns (error: Option<TxError>)
      requires Valid()
      modifies Repr
      ensures Valid() && fresh(Repr - old(Repr)) && Stack == old(Stack)
      ensures error == ErrorOf(ChainState.SubBalance(old(Rows), a, amount))
      ensures Rows == if error.None? then ChainState.SubBalance(old(Rows), a, amount).value else old(Rows)
    {
      hide Valid;
      var acc := GetAccount(a);
      if !HasAccount(a) || acc.balance < amount {
        return Some(InsufficientBalance);
      }
      PutAccount(a, acc.(balance := acc.balance - amount));
      error := None;
    }

    method Transfer(from: Address, to: Address, amount: uint64) returns (error: Option<TxError>)
      requires Valid()
      modifies Repr
      ensures Valid() && fresh(Repr - old(Repr)) && Stack == old(Stack)
      ensures error == ErrorOf(TransferTokens(old(Rows), from, to, amount))
      ensures Rows == if error.None? then TransferTokens(old(Rows), from, to, amount).value else old(Rows)
    {
      hide Valid;
      var acc := GetAccount(from);
      if !HasAccount(from) || acc.balance < amount {
        return Some(InsufficientBalance);
      }
      PutAccount(from, acc.(balance := acc.balance - amount));
      acc := GetAccount(to);
      PutAccount(to, acc.(balance := Add64(acc.balance, amount)));
      error := None;
    }

    method IncrementNonce(a: Address)
      requires Valid()
      modifies Repr
      ensures Valid() && fresh(Repr - old(Repr)) && Stack == old(Stack)
      ensures Rows == ChainState.IncrementNonce(old(Rows), a)
    {
      hide Valid;
      var acc := GetAccount(a);
      PutAccount(a, acc.(nonce := Add64(acc.nonce, 1)));
    }

    method MintTokens(to: Address, amount: uint64) returns (error: Option<TxError>)
      requires Valid()
      modifies Repr
      ensures Valid() && fresh(Repr - old(Repr)) && Stack == old(Stack)
      ensures error == ErrorOf(ChainState.MintTokens(params, old(Rows), to, amount))
      ensures Rows == if error.None? then ChainState.MintTokens(params, old(Rows), to, amount).value else old(Rows)
    {
      hide Valid;
      var supply := Add64(TotalSupply(), amount);
      if supply > params.maxSupply {
        return Some(SupplyExceeded);
      }
      var acc := GetAccount(to);
      PutAccount(to, acc.(balance := Add64(acc.balance, amount)));
      SetCounters(Counters(supply, TotalBurned()));
      error := None;
    }

    method RecordBurn(amount: uint64)
      requires Valid()
      modifies Repr
      ensures Valid() && fresh(Repr - old(Repr)) && Stack == old(Stack)
      ensures Rows == ChainState.RecordBurn(old(Rows), amount)
    {
      hide Valid;
      SetCounters(Counters(TotalSupply(), Add64(TotalBurned(), amount)));
    }

    // -------------------------------------------------------------- validators

    function GetValidator(a: Address): (v: Option<Validator>)
      requires Valid()
      reads this, Repr
      ensures v == if a in Rows.validators then Some(Rows.validators[a]) else None
    {
      if validators.Has(a) then Some(validators.Get(a)) else None
    }

    predicate IsActiveValidator(a: Address)
      requires Valid()
      reads this, Repr
      ensures IsActiveValidator(a) == IsActive(Rows, a)
    {
      validators.Has(a) && validators.Get(a).active
    }

    method Stake(a: Address, amount: uint64, now: int64) returns (error: Option<TxError>)
      requires Valid()
      modifies Repr
      ensures Valid() && fresh(Repr - old(Repr)) && Stack == old(Stack)
      ensures error.None? ==> a in Rows.validators
      ensures error == if amount == 0 then Some(ZeroAmount) else None
      ensures Rows == if error.None? then ChainState.Stake(params, old(Rows), a, amount, now) else old(Rows)
    {
      hide Valid;
      if amount == 0 {
        return Some(ZeroAmount);
      }
      var found := GetValidator(a);
      var v := NewValidator(a, now);
      if found.Some? {
        v := found.value;
      } else {
        Enlist(a);
      }
      v := v.(staked := Add64(v.staked, amount));
      if !v.active && v.staked >= params.minimumStake {
        v := v.(active := true);
      }
      PutValidator(a, v);
      error := None;
    }

    method InitiateWithdrawal(a: Address, amount: uint64, now: int64) returns (error: Option<TxError>)
      requires Valid()
      modifies Repr
      ensures Valid() && fresh(Repr - old(Repr)) && Stack == old(Stack)
      ensures error.None? ==>
        && a in Rows.validators && Rows.validators[a].pending == amount
        && Rows.validators[a].withdrawableAt - (now + params.cooldown) in {-U64_MOD, 0, U64_MOD}
      ensures error == ErrorOf(ChainState.InitiateWithdrawal(params, old(Rows), a, amount, now))
      ensures Rows == if error.None? then ChainState.InitiateWithdrawal(params, old(Rows), a, amount, now).value else old(Rows)
    {
      hide Valid;
      var found := GetValidator(a);
      if found.None? {
        return Some(ValidatorNotFound);
      }
      var v := found.value;
      if v.pending > 0 {
        return Some(WithdrawalPending);
      }
      if amount > v.staked {
        return Some(InsufficientStake);
      }
      var remaining := v.staked - amount;
      if remaining > 0 && remaining < params.minimumStake {
        return Some(BelowMinimum);
      }
      v := v.(pending := amount, withdrawableAt := AddSigned(now, params.cooldown));
      if remaining < params.minimumStake {
        v := v.(active := false);
      }
      PutValidator(a, v);
      error := None;
    }

    method CompleteWithdrawal(a: Address, now: int64) returns (error: Option<TxError>, amount: uint64)
      requires Valid()
      modifies Repr
      ensures Valid() && fresh(Repr - old(Repr)) && Stack == old(Stack)
      ensures error == ErrorOf(ChainState.CompleteWithdrawal(old(Rows), a, now))
      ensures error.None? ==> amount == old(Rows).validators[a].pending
      ensures Rows == if error.None? then ChainState.CompleteWithdrawal(old(Rows), a, now).value else old(Rows)
    {
      hide Valid;
      var found := GetValidator(a);
      if found.None? {
        return Some(ValidatorNotFound), 0;
      }
      var v := found.value;
      if v.pending == 0 {
        return Some(NoWithdrawal), 0;
      }
      if now < v.withdrawableAt {
        return Some(CooldownRunning), 0;
      }
      amount := v.pending;
      PutValidator(a, v.(staked := Sub64(v.staked, amount), pending := 0, withdrawableAt := 0));
      error := None;
    }

    method Slash(a: Address, amount: uint64) returns (error: Option<TxError>)
      requires Valid()
      modifies Repr
      ensures Valid() && fresh(Repr - old(Repr)) && Stack == old(Stack)
      ensures error.None? ==> a in Rows.validators
      ensures error == ErrorOf(ChainState.Slash(params, old(Rows), a, amount))
      ensures Rows == if error.None? then ChainState.Slash(params, old(Rows), a, amount).value else old(Rows)
    {
      hide Valid;
      var found := GetValidator(a);
      if found.None? {
        return Some(ValidatorNotFound);
      }
      var v := found.value;
      if amount > v.staked {
        return Some(InsufficientStake);
      }
      v := v.(staked := v.staked - amount, totalSlashed := Add64(v.totalSlashed, amount));
      var supply := if TotalSupply() < amount then 0 else TotalSupply() - amount;
      SetCounters(Counters(supply, Add64(TotalBurned(), amount)));
      if v.staked < params.minimumStake {
        v := v.(active := false);
      }
      PutValidator(a, v);
      error := None;
    }

    method DistributeReward(a: Address, amount: uint64) returns (error: Option<TxError>)
      requires Valid()
      modifies Repr
      ensures Valid() && fresh(Repr - old(Repr)) && Stack == old(Stack)
      ensures error.None? ==> a in Rows.validators
      ensures error == ErrorOf(RecordReward(old(Rows), a, amount))
      ensures Rows == if error.None? then RecordReward(old(Rows), a, amount).value else old(Rows)
    {
      hide Valid;
      if !IsActiveValidator(a) {
        return Some(NotActive);
      }
      var v := GetValidator(a).value;
      PutValidator(a, v.(totalRewards := Add64(v.totalRewards, amount)));
      error := None;
    }

    method SetVrfPublicKey(a: Address, key: Bytes) returns (error: Option<TxError>)
      requires Valid()
      modifies Repr
      ensures Valid() && fresh(Repr - old(Repr)) && Stack == old(Stack)
      ensures error == ErrorOf(RegisterKey(old(Rows), a, key))
      ensures Rows == if error.None? then RegisterKey(old(Rows), a, key).value else old(Rows)
    {
      hide Valid;
      if !IsActiveValidator(a) {
        return Some(NotActive);
      }
      PutKey(a, key);
      var v := GetValidator(a).value;
      PutValidator(a, v.(vrfKey := key));
      error := None;
    }
  }

  /** A bank with nothing in it. */
  method NewBank(params: Params) returns (b: BankTables)
    ensures b.Valid() && fresh(b.Repr) && b.params == params && b.Rows == EmptyBank() && b.Stack == []
  {
    hide Table.Valid, SliceIndex.Valid, DictHistory.Valid, BankTables.Valid, EmptyBank;
    var a: Table<Account> := new Table();
    var v: Table<Validator> := new Table();
    var l: SliceIndex<()> := new SliceIndex();
    var k: DictHistory<Address, Bytes> := new DictHistory();
    b := new BankTables(params, a, v, l, k);
  }
}
