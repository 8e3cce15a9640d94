/**
 * The state database: bank and link tables and the processed evidence, updated in place, and a
 * stack of snapshots.  Every operation is proved against the value-level operation it performs,
 * and to leave all snapshots exactly as they were.
 */
module StateDb {
  import opened Numbers
  import opened Collections
  import opened Rules
  import opened ChainState
  import opened Dicts
  import opened Tables
  import opened BankTables
  import opened LinkTables
  import opened Merkle
  import StateRoot

  /** The saved states, position by position, are put together from the saved parts. */
  ghost predicate StatesStacked(banks: seq<Bank>, links: seq<Links>, evidence: seq<map<EvidenceId, ()>>, states: seq<State>) {
    && |banks| == |links| == |evidence| == |states|
    && forall i :: 0 <= i < |states| ==> states[i] == State(banks[i], links[i], evidence[i].Keys)
  }

  class StateDB {
    const params: Params
    const bank: BankTables
    const links: LinkTables
    const evidence: DictHistory<EvidenceId, ()>
    /** Number of snapshots taken and not yet dropped. */
    var depth: nat

    /** The chain state the database holds, and the states the snapshots would restore, oldest first. */
    ghost var Current: State
    ghost var Saved: seq<State>
    ghost var Footprint: set<object>

    ghost function Repr(): set<object>
      reads this
    {
      Footprint
    }

    ghost function View(): State
      reads this
    {
      Current
    }

    /** The parts are sound and share nothing. */
    ghost predicate PartsOk()
      reads this, bank, links, evidence, bank.Repr, links.Repr, evidence.Repr
    {
      && bank.Valid() && links.Valid() && evidence.Valid() && bank.params == params
      && this !in bank.Repr && this !in links.Repr && this !in evidence.Repr
      && bank.Repr !! links.Repr && bank.Repr !! evidence.Repr && links.Repr !! evidence.Repr
    }

    ghost function Parts(): set<object>
      reads this, bank, links, evidence
    {
      {this} + bank.Repr + links.Repr + evidence.Repr
    }

    ghost predicate Valid()
      reads this, Footprint
      ensures Valid() ==> this in Footprint
    {
      && {this, bank, links, evidence} <= Footprint
      && Footprint == Parts() && PartsOk()
      && Current == State(bank.Rows, links.Rows, evidence.Rows.Keys)
      && StatesStacked(bank.Stack, links.Stack, evidence.Stack, Saved) && depth == |Saved|
    }

    /** Put empty tables together. */
    constructor Empty(params: Params, b: BankTables, l: LinkTables, e: DictHistory<EvidenceId, ()>)
      requires b.Valid() && l.Valid() && e.Valid() && b.params == params
      requires b.Repr !! l.Repr && e.Repr !! b.Repr + l.Repr
      requires b.Stack == [] && l.Stack == [] && e.Stack == []
      ensures Valid() && this.params == params && Saved == [] && View() == State(b.Rows, l.Rows, e.Rows.Keys)
      ensures Repr() == {this} + b.Repr + l.Repr + e.Repr
    {
      hide BankTables.Valid, LinkTables.Valid, DictHistory.Valid;
      this.params, bank, links, evidence := params, b, l, e;
      depth, Saved := 0, [];
      new;
      Refresh();
    }

    /** Bring the specification fields up to date after the parts have changed. */
    ghost method Refresh()
      requires PartsOk() && StatesStacked(bank.Stack, links.Stack, evidence.Stack, Saved) && depth == |Saved|
      modifies this`Current, this`Footprint
      ensures Valid() && Repr() == Parts()
      ensures View() == State(bank.Rows, links.Rows, evidence.Rows.Keys)
    {
      hide BankTables.Valid, LinkTables.Valid, DictHistory.Valid, StatesStacked;
      Current := State(bank.Rows, links.Rows, evidence.Rows.Keys);
      Footprint := Parts();
    }

    // -------------------------------------------------------------- snapshots

    /** Save the whole state; returns the snapshot's position on the stack. */
    method Snapshot() returns (id: nat)
      requires Valid()
      modifies Repr()
      ensures Valid() && fresh(Repr() - old(Repr()))
      ensures id == |old(Saved)|
      ensures View() == old(View()) && Saved == old(Saved) + [old(View())]
    {
      hide BankTables.Valid, LinkTables.Valid, DictHistory.Valid;
      bank.Push();
      links.Push();
      evidence.Push();
      id := depth;
      depth := depth + 1;
      Saved := Saved + [Current];
      Refresh();
    }

    /** Restore a snapshot and drop it and all later ones; an unknown position is an error. */
    method Revert(id: int) returns (ok: bool)
      requires Valid()
      modifies Repr()
      ensures Valid() && fresh(Repr() - old(Repr()))
      ensures ok == (0 <= id < |old(Saved)|)
      ensures ok ==> View() == old(Saved)[id] && Saved == old(Saved)[..id]
      ensures !ok ==> View() == old(View()) && Saved == old(Saved)
    {
      hide BankTables.Valid, LinkTables.Valid, DictHistory.Valid;
      if id < 0 || id >= depth {
        return false;
      }
      bank.Restore(id);
      links.Restore(id);
      evidence.Restore(id);
      depth := id;
      Saved := Saved[..id];
      Refresh();
      ok := true;
    }

    /** Drop a snapshot and all later ones without restoring; an unknown position does nothing. */
    method DiscardSnapshot(id: int)
      requires Valid()
      modifies Repr()
      ensures Valid() && fresh(Repr() - old(Repr()))
      ensures View() == old(View())
      ensures Saved == if 0 <= id < |old(Saved)| then old(Saved)[..id] else old(Saved)
    {
      hide BankTables.Valid, LinkTables.Valid, DictHistory.Valid;
      if id < 0 || id >= depth {
        return;
      }
      bank.Drop(id);
      links.Drop(id);
      evidence.Drop(id);
      depth := id;
      Saved := Saved[..id];
      Refresh();
    }

    /** The Merkle root over the six covered tables of the current state. */
    method ComputeStateRoot() returns (root: Digest)
      requires Valid()
      ensures root == StateRoot.Root(View())
    {
      hide StateRoot.Root, StatesStacked, Table.Valid, DictHistory.Valid, BanksStacked, LinksStacked, IndexTables.Valid;
      var marks := links.marks.All();
      var covered := State(
        Bank(bank.accounts.All(), bank.validators.All(), [], map[], 0, 0),
        Links(links.paylinks.All(), marks.usedProofs, map[], {}, map[], map[], map[], map[], marks.operators),
        evidence.All().Keys);
      root := StateRoot.ComputeStateRoot(covered);
      StateRoot.SameParts(covered, View());
    }

    // -------------------------------------------------------------- reading and updating the parts

    method IsProofUsed(proof: Hash) returns (used: bool)
      requires Valid()
      ensures used == (proof in View().links.usedProofs)
    {
      hide BankTables.Valid, LinkTables.Valid, DictHistory.Valid, StatesStacked;
      used := links.IsProofUsed(proof);
    }

    method HasVoted(id: Hash, voter: Address) returns (voted: bool)
      requires Valid()
      ensures voted == ((id, voter) in View().links.votes)
    {
      hide BankTables.Valid, LinkTables.Valid, DictHistory.Valid, StatesStacked;
      voted := links.HasVoted(id, voter);
    }

    method GetSubmittedProof(id: Hash) returns (proof: Option<Hash>)
      requires Valid()
      ensures proof == if id in View().links.submittedProofs then Some(View().links.submittedProofs[id]) else None
    {
      hide BankTables.Valid, LinkTables.Valid, DictHistory.Valid, StatesStacked;
      proof := links.GetSubmittedProof(id);
    }

    method IsEvidenceProcessed(id: EvidenceId) returns (processed: bool)
      requires Valid()
      ensures processed == (id in View().evidence)
    {
      hide BankTables.Valid, LinkTables.Valid, DictHistory.Valid, StatesStacked;
      processed := evidence.Has(id);
    }

    method GetVrfPublicKey(a: Address) returns (key: Option<Bytes>)
      requires Valid()
      ensures key == if a in View().bank.vrfKeys then Some(View().bank.vrfKeys[a]) else None
    {
      hide BankTables.Valid, LinkTables.Valid, DictHistory.Valid, StatesStacked;
      key := bank.GetVrfPublicKey(a);
    }

    method TotalSupply() returns (n: uint64)
      requires Valid()
      ensures n == View().bank.totalSupply
    {
      hide BankTables.Valid, LinkTables.Valid, DictHistory.Valid, StatesStacked;
      n := bank.TotalSupply();
    }

    method TotalBurned() returns (n: uint64)
      requires Valid()
      ensures n == View().bank.totalBurned
    {
      hide BankTables.Valid, LinkTables.Valid, DictHistory.Valid, StatesStacked;
      n := bank.TotalBurned();
    }

    method GetAccount(a: Address) returns (acc: Account)
      requires Valid()
      ensures acc == AccountOf(View().bank, a)
    {
      hide BankTables.Valid, LinkTables.Valid, DictHistory.Valid, StatesStacked;
      acc := bank.GetAccount(a);
    }

    method AddBalance(a: Address, amount: uint64)
      requires Valid()
      modifies Repr()
      ensures Valid() && fresh(Repr() - old(Repr())) && Saved == old(Saved)
      ensures View() == old(View()).(bank := ChainState.AddBalance(old(View()).bank, a, amount))
    {
      hide BankTables.Valid, LinkTables.Valid, DictHistory.Valid, StatesStacked, ChainState.AddBalance;
      bank.AddBalance(a, amount);
      Refresh();
    }

    method SubBalance(a: Address, amount: uint64) returns (error: Option<TxError>)
      requires Valid()
      modifies Repr()
      ensures Valid() && fresh(Repr() - old(Repr())) && Saved == old(Saved)
      ensures error == ErrorOf(ChainState.SubBalance(old(View()).bank, a, amount))
      ensures View() == if error.None? then old(View()).(bank := ChainState.SubBalance(old(View()).bank, a, amount).value) else old(View())
    {
      hide BankTables.Valid, LinkTables.Valid, DictHistory.Valid, StatesStacked, ChainState.SubBalance;
      error := bank.SubBalance(a, amount);
      Refresh();
    }

    method Transfer(from: Address, to: Address, amount: uint64) returns (error: Option<TxError>)
      requires Valid()
      modifies Repr()
      ensures Valid() && fresh(Repr() - old(Repr())) && Saved == old(Saved)
      ensures error == ErrorOf(TransferTokens(old(View()).bank, from, to, amount))
      ensures View() == if error.None? then old(View()).(bank := TransferTokens(old(View()).bank, from, to, amount).value) else old(View())
    {
      hide BankTables.Valid, LinkTables.Valid, DictHistory.Valid, StatesStacked, ChainState.TransferTokens;
      error := bank.Transfer(from, to, amount);
      Refresh();
    }

    method IncrementNonce(a: Address)
      requires Valid()
      modifies Repr()
      ensures Valid() && fresh(Repr() - old(Repr())) && Saved == old(Saved)
      ensures View() == old(View()).(bank := ChainState.IncrementNonce(old(View()).bank, a))
    {
      hide BankTables.Valid, LinkTables.Valid, DictHistory.Valid, StatesStacked, ChainState.IncrementNonce;
      bank.IncrementNonce(a);
      Refresh();
    }

    method MintTokens(to: Address, amount: uint64) returns (error: Option<TxError>)
      requires Valid()
      modifies Repr()
      ensures Valid() && fresh(Repr() - old(Repr())) && Saved == old(Saved)
      ensures error == ErrorOf(ChainState.MintTokens(params, old(View()).bank, to, amount))
      ensures View() == if error.None? then old(View()).(bank := ChainState.MintTokens(params, old(View()).bank, to, amount).value) else old(View())
    {
      hide BankTables.Valid, LinkTables.Valid, DictHistory.Valid, StatesStacked, ChainState.MintTokens;
      error := bank.MintTokens(to, amount);
      Refresh();
    }

    method RecordBurn(amount: uint64)
      requires Valid()
      modifies Repr()
      ensures Valid() && fresh(Repr() - old(Repr())) && Saved == old(Saved)
      ensures View() == old(View()).(bank := ChainState.RecordBurn(old(View()).bank, amount))
    {
      hide BankTables.Valid, LinkTables.Valid, DictHistory.Valid, StatesStacked, ChainState.RecordBurn;
      bank.RecordBurn(amount);
      Refresh();
    }

    method GetValidator(a: Address) returns (v: Option<Validator>)
      requires Valid()
      ensures v == if a in View().bank.validators then Some(View().bank.validators[a]) else None
    {
      hide BankTables.Valid, LinkTables.Valid, DictHistory.Valid, StatesStacked;
      v := bank.GetValidator(a);
    }

    method IsActiveValidator(a: Address) returns (active: bool)
      requires Valid()
      ensures active == IsActive(View().bank, a)
    {
      hide BankTables.Valid, LinkTables.Valid, DictHistory.Valid, StatesStacked;
      active := bank.IsActiveValidator(a);
    }

    method Stake(a: Address, amount: uint64, now: int64) returns (error: Option<TxError>)
      requires Valid()
      modifies Repr()
      ensures Valid() && fresh(Repr() - old(Repr())) && Saved == old(Saved)
      ensures error.None? ==> a in View().bank.validators
      ensures error == if amount == 0 then Some(ZeroAmount) else None
      ensures View() ==
        if error.None? then old(View()).(bank := ChainState.Stake(params, old(View()).bank, a, amount, now)) else old(View())
    {
      hide BankTables.Valid, LinkTables.Valid, DictHistory.Valid, StatesStacked, ChainState.Stake;
      error := bank.Stake(a, amount, now);
      Refresh();
    }

    method InitiateWithdrawal(a: Address, amount: uint64, now: int64) returns (error: Option<TxError>)
      requires Valid()
      modifies Repr()
      ensures Valid() && fresh(Repr() - old(Repr())) && Saved == old(Saved)
      ensures error.None? ==>
        && a in View().bank.validators && View().bank.validators[a].pending == amount
        && View().bank.validators[a].withdrawableAt - (now + params.cooldown) in {-U64_MOD, 0, U64_MOD}
      ensures error == ErrorOf(ChainState.InitiateWithdrawal(params, old(View()).bank, a, amount, now))
      ensures View() == if error.None? then old(View()).(bank := ChainState.InitiateWithdrawal(params, old(View()).bank, a, amount, now).value) else old(View())
    {
      hide BankTables.Valid, LinkTables.Valid, DictHistory.Valid, StatesStacked, ChainState.InitiateWithdrawal;
      error := bank.InitiateWithdrawal(a, amount, now);
      Refresh();
    }

    method CompleteWithdrawal(a: Address, now: int64) returns (error: Option<TxError>, amount: uint64)
      requires Valid()
      modifies Repr()
      ensures Valid() && fresh(Repr() - old(Repr())) && Saved == old(Saved)
      ensures error == ErrorOf(ChainState.CompleteWithdrawal(old(View()).bank, a, now))
      ensures error.None? ==> amount == old(View()).bank.validators[a].pending
      ensures View() == if error.None? then old(View()).(bank := ChainState.CompleteWithdrawal(old(View()).bank, a, now).value) else old(View())
    {
      hide BankTables.Valid, LinkTables.Valid, DictHistory.Valid, StatesStacked, ChainState.CompleteWithdrawal;
      error, amount := bank.CompleteWithdrawal(a, now);
      Refresh();
    }

    method Slash(a: Address, amount: uint64) returns (error: Option<TxError>)
      requires Valid()
      modifies Repr()
      ensures Valid() && fresh(Repr() - old(Repr())) && Saved == old(Saved)
      ensures error.None? ==> a in View().bank.validators
      ensures error == ErrorOf(ChainState.Slash(params, old(View()).bank, a, amount))
      ensures View() == if error.None? then old(View()).(bank := ChainState.Slash(params, old(View()).bank, a, amount).value) else old(View())
    {
      hide BankTables.Valid, LinkTables.Valid, DictHistory.Valid, StatesStacked, ChainState.Slash;
      error := bank.Slash(a, amount);
      Refresh();
    }

    method DistributeReward(a: Address, amount: uint64) returns (error: Option<TxError>)
      requires Valid()
      modifies Repr()
      ensures Valid() && fresh(Repr() - old(Repr())) && Saved == old(Saved)
      ensures error.None? ==> a in View().bank.validators
      ensures error == ErrorOf(RecordReward(old(View()).bank, a, amount))
      ensures View() == if error.None? then old(View()).(bank := RecordReward(old(View()).bank, a, amount).value) else old(View())
    {
      hide BankTables.Valid, LinkTables.Valid, DictHistory.Valid, StatesStacked, ChainState.RecordReward;
      error := bank.DistributeReward(a, amount);
      Refresh();
    }

    method SetVrfPublicKey(a: Address, key: Bytes) returns (error: Option<TxError>)
      requires Valid()
      modifies Repr()
      ensures Valid() && fresh(Repr() - old(Repr())) && Saved == old(Saved)
      ensures error == ErrorOf(RegisterKey(old(View()).bank, a, key))
      ensures View() == if error.None? then old(View()).(bank := RegisterKey(old(View()).bank, a, key).value) else old(View())
    {
      hide BankTables.Valid, LinkTables.Valid, DictHistory.Valid, StatesStacked, ChainState.RegisterKey;
      error := bank.SetVrfPublicKey(a, key);
      Refresh();
    }

    /** The voters of a PayLink in address order, whatever order the vote map is walked in. */
    method GetVoters(id: Hash) returns (voters: seq<Address>)
      requires Valid()
      ensures voters == SortedSeq(Voters(View().links, id))
    {
      hide BankTables.Valid, LinkTables.Valid, StatesStacked, SortedSeq;
      voters := links.GetVoters(id);
    }

    method GetPayLink(id: Hash) returns (pl: Option<PayLink>)
      requires Valid()
      ensures pl == if id in View().links.paylinks then Some(View().links.paylinks[id]) else None
    {
      hide BankTables.Valid, LinkTables.Valid, DictHistory.Valid, StatesStacked;
      pl := links.GetPayLink(id);
    }

    method CreatePayLink(pl: PayLink) returns (error: Option<TxError>)
      requires Valid()
      modifies Repr()
      ensures Valid() && fresh(Repr() - old(Repr())) && Saved == old(Saved)
      ensures error == ErrorOf(AddPayLink(old(View()).links, pl))
      ensures View() == if error.None? then old(View()).(links := AddPayLink(old(View()).links, pl).value) else old(View())
    {
      hide BankTables.Valid, LinkTables.Valid, DictHistory.Valid, StatesStacked, ChainState.AddPayLink;
      error := links.CreatePayLink(pl);
      Refresh();
    }

    method SetPayLinkStatus(id: Hash, status: Status) returns (error: Option<TxError>)
      requires Valid()
      modifies Repr()
      ensures Valid() && fresh(Repr() - old(Repr())) && Saved == old(Saved)
      ensures error == if id in old(View()).links.paylinks then None else Some(PayLinkNotFound)
      ensures View() == if error.None? then old(View()).(links := SetStatus(old(View()).links, id, status)) else old(View())
    {
      hide BankTables.Valid, LinkTables.Valid, DictHistory.Valid, StatesStacked, ChainState.SetStatus;
      error := links.SetPayLinkStatus(id, status);
      Refresh();
    }

    method SetPayLinkOwner(id: Hash, owner: Address) returns (error: Option<TxError>)
      requires Valid()
      modifies Repr()
      ensures Valid() && fresh(Repr() - old(Repr())) && Saved == old(Saved)
      ensures error == if id in old(View()).links.paylinks then None else Some(PayLinkNotFound)
      ensures View() == if error.None? then old(View()).(links := SetOwner(old(View()).links, id, owner)) else old(View())
    {
      hide BankTables.Valid, LinkTables.Valid, DictHistory.Valid, StatesStacked, ChainState.SetOwner;
      error := links.SetPayLinkOwner(id, owner);
      Refresh();
    }

    method SetPayLinkApproval(id: Hash, approved: Address) returns (error: Option<TxError>)
      requires Valid()
      modifies Repr()
      ensures Valid() && fresh(Repr() - old(Repr())) && Saved == old(Saved)
      ensures error == if id in old(View()).links.paylinks then None else Some(PayLinkNotFound)
      ensures View() == if error.None? then old(View()).(links := SetApproved(old(View()).links, id, approved)) else old(View())
    {
      hide BankTables.Valid, LinkTables.Valid, DictHistory.Valid, StatesStacked, ChainState.SetApproved;
      error := links.SetPayLinkApproval(id, approved);
      Refresh();
    }

    method SetOperatorApproval(owner: Address, operator: Address, approved: bool)
      requires Valid()
      modifies Repr()
      ensures Valid() && fresh(Repr() - old(Repr())) && Saved == old(Saved)
      ensures View() == old(View()).(links := SetOperator(old(View()).links, owner, operator, approved))
    {
      hide BankTables.Valid, LinkTables.Valid, DictHistory.Valid, StatesStacked, ChainState.SetOperator;
      links.SetOperatorApproval(owner, operator, approved);
      Refresh();
    }

    method IsApprovedOrOwner(id: Hash, spender: Address) returns (ok: bool)
      requires Valid()
      ensures ok == (id in View().links.paylinks && MayTransfer(View().links, id, spender))
    {
      hide BankTables.Valid, LinkTables.Valid, DictHistory.Valid, StatesStacked;
      ok := links.IsApprovedOrOwner(id, spender);
    }

    method SetSubmittedProof(id: Hash, proof: Hash)
      requires Valid()
      modifies Repr()
      ensures Valid() && fresh(Repr() - old(Repr())) && Saved == old(Saved)
      ensures View() == old(View()).(links := old(View()).links.(submittedProofs := old(View()).links.submittedProofs[id := proof]))
    {
      hide BankTables.Valid, LinkTables.Valid, DictHistory.Valid, StatesStacked;
      links.SetSubmittedProof(id, proof);
      Refresh();
    }

    method RecordVote(id: Hash, voter: Address)
      requires Valid()
      modifies Repr()
      ensures Valid() && fresh(Repr() - old(Repr())) && Saved == old(Saved)
      ensures View() == old(View()).(links := old(View()).links.(votes := old(View()).links.votes + {(id, voter)}))
    {
      hide BankTables.Valid, LinkTables.Valid, DictHistory.Valid, StatesStacked;
      links.RecordVote(id, voter);
      Refresh();
    }

    method IncrementVoteCount(id: Hash) returns (error: Option<TxError>, count: uint64)
      requires Valid()
      modifies Repr()
      ensures Valid() && fresh(Repr() - old(Repr())) && Saved == old(Saved)
      ensures error == if id in old(View()).links.paylinks then None else Some(PayLinkNotFound)
      ensures error.None? ==> count == Add64(old(View()).links.paylinks[id].voteCount, 1)
      ensures View() ==
        if error.None? then
          old(View()).(links := old(View()).links.(paylinks := old(View()).links.paylinks[id := old(View()).links.paylinks[id].(voteCount := count)]))
        else
          old(View())
    {
      hide BankTables.Valid, LinkTables.Valid, DictHistory.Valid, StatesStacked;
      error, count := links.IncrementVoteCount(id);
      Refresh();
    }

    method MarkProofUsed(proof: Hash)
      requires Valid()
      modifies Repr()
      ensures Valid() && fresh(Repr() - old(Repr())) && Saved == old(Saved)
      ensures View() == old(View()).(links := old(View()).links.(usedProofs := old(View()).links.usedProofs + {proof}))
    {
      hide BankTables.Valid, LinkTables.Valid, DictHistory.Valid, StatesStacked;
      links.MarkProofUsed(proof);
      Refresh();
    }

    method MarkEvidenceProcessed(id: EvidenceId)
      requires Valid()
      modifies Repr()
      ensures Valid() && fresh(Repr() - old(Repr())) && Saved == old(Saved)
      ensures View() == old(View()).(evidence := old(View()).evidence + {id})
    {
      hide BankTables.Valid, LinkTables.Valid, DictHistory.Valid, StatesStacked;
      evidence.Put(id, ());
      Refresh();
    }
  }

  /** A new database holding the genesis state. */
  method NewStateDB(genesis: Params, balances: seq<GenesisBalance>) returns (db: StateDB)
    ensures db.Valid() && fresh(db.Repr())
    ensures db.params == WithDefaults(genesis) && db.View() == Genesis(balances) && db.Saved == []
  {
    hide BankTables.Valid, LinkTables.Valid, DictHistory.Valid, StateDB.Valid, Fund, WithDefaults, EmptyBank, EmptyLinks;
    var params := WithDefaults(genesis);
    var b := NewBank(params);
    b.FundAll(balances);
    var l := NewLinks();
    var e: DictHistory<EvidenceId, ()> := new DictHistory();
    db := new StateDB.Empty(params, b, l, e);
  }
}
