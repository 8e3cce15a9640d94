/** The four secondary indexes list, without duplicates, exactly what a full scan would find. */
module Indexes {
  import opened Numbers
  import opened Collections
  import opened Rules
  import opened ChainState
  import opened Executor

  /** Each bucket holds, once, exactly the records whose field has the bucket's key. */
  ghost predicate IndexExact<K(!new)>(index: map<K, seq<Hash>>, field: map<Hash, K>) {
    && (forall k :: NoDup(Bucket(index, k)))
    && (forall k, id :: id in Bucket(index, k) <==> id in field && field[id] == k)
  }

  lemma {:induction false} AppendExact<K(!new)>(index: map<K, seq<Hash>>, field: map<Hash, K>, k: K, id: Hash)
    requires IndexExact(index, field) && id !in field
    ensures IndexExact(Append(index, k, id), field[id := k])
  {
    var index' := Append(index, k, id);
    assert Bucket(index', k) == Bucket(index, k) + [id];
    assert id !in Bucket(index, k);
    forall j ensures NoDup(Bucket(index', j)) {
      assert j != k ==> Bucket(index', j) == Bucket(index, j);
    }
    forall j, i ensures i in Bucket(index', j) <==> i in field[id := k] && field[id := k][i] == j {
      assert i in Bucket(index, j) <==> i in field && field[i] == j;
      assert j != k ==> Bucket(index', j) == Bucket(index, j);
    }
  }

  lemma {:induction false} RemoveExact<K(!new)>(index: map<K, seq<Hash>>, field: map<Hash, K>, id: Hash)
    requires IndexExact(index, field) && id in field
    ensures IndexExact(Remove(index, field[id], id), field - {id})
  {
    var k := field[id];
    var index' := Remove(index, k, id);
    WithoutExact(Bucket(index, k), id);
    assert Bucket(index', k) == Without(Bucket(index, k), id);
    forall j ensures NoDup(Bucket(index', j)) {
      assert j != k ==> Bucket(index', j) == Bucket(index, j);
    }
    forall j, i ensures i in Bucket(index', j) <==> i in field - {id} && (field - {id})[i] == j {
      assert i in Bucket(index, j) <==> i in field && field[i] == j;
      assert j != k ==> Bucket(index', j) == Bucket(index, j);
    }
  }

  /** Moving a record between buckets (or within one) keeps the index exact. */
  lemma {:induction false} MoveExact<K(!new)>(index: map<K, seq<Hash>>, field: map<Hash, K>, id: Hash, k: K)
    requires IndexExact(index, field) && id in field
    ensures IndexExact(Append(Remove(index, field[id], id), k, id), field[id := k])
  {
    hide IndexExact, Append, Remove;
    RemoveExact(index, field, id);
    AppendExact(Remove(index, field[id], id), field - {id}, k, id);
    assert (field - {id})[id := k] == field[id := k];
  }

  // ---------------------------------------------------------------- the indexes of the chain state

  ghost function Creators(l: Links): map<Hash, Address> { map id | id in l.paylinks :: l.paylinks[id].creator }
  ghost function Receivers(l: Links): map<Hash, Address> { map id | id in l.paylinks :: l.paylinks[id].receiver }
  ghost function Owners(l: Links): map<Hash, Address> { map id | id in l.paylinks :: l.paylinks[id].owner }

  ghost predicate IndexesExact(l: Links) {
    && IndexExact(l.byCreator, Creators(l)) && IndexExact(l.byReceiver, Receivers(l))
    && IndexExact(l.byStatus, Statuses(l)) && IndexExact(l.byOwner, Owners(l))
  }

  lemma {:induction false} AddIndexed(l: Links, pl: PayLink)
    requires IndexesExact(l) && AddPayLink(l, pl).Ok?
    ensures IndexesExact(AddPayLink(l, pl).value)
  {
    hide IndexExact, Append;
    var l' := AddPayLink(l, pl).value;
    AppendExact(l.byCreator, Creators(l), pl.creator, pl.id);
    AppendExact(l.byReceiver, Receivers(l), pl.receiver, pl.id);
    AppendExact(l.byStatus, Statuses(l), pl.status, pl.id);
    AppendExact(l.byOwner, Owners(l), pl.owner, pl.id);
    assert Creators(l') == Creators(l)[pl.id := pl.creator] && Receivers(l') == Receivers(l)[pl.id := pl.receiver];
    assert Statuses(l') == Statuses(l)[pl.id := pl.status] && Owners(l') == Owners(l)[pl.id := pl.owner];
  }

  lemma {:induction false} StatusIndexed(l: Links, id: Hash, status: Status)
    requires IndexesExact(l) && id in l.paylinks
    ensures IndexesExact(SetStatus(l, id, status))
  {
    hide IndexExact, Append, Remove;
    var l' := SetStatus(l, id, status);
    MoveExact(l.byStatus, Statuses(l), id, status);
    assert Statuses(l') == Statuses(l)[id := status];
    assert Creators(l') == Creators(l) && Receivers(l') == Receivers(l) && Owners(l') == Owners(l);
  }

  lemma {:induction false} OwnerIndexed(l: Links, id: Hash, owner: Address)
    requires IndexesExact(l) && id in l.paylinks
    ensures IndexesExact(SetOwner(l, id, owner))
  {
    hide IndexExact, Append, Remove;
    var l' := SetOwner(l, id, owner);
    MoveExact(l.byOwner, Owners(l), id, owner);
    assert Owners(l') == Owners(l)[id := owner];
    assert Creators(l') == Creators(l) && Receivers(l') == Receivers(l) && Statuses(l') == Statuses(l);
  }

  /** A change that leaves the four indexed fields and the indexes alone. */
  lemma {:induction false} SameIndexed(l: Links, l': Links)
    requires IndexesExact(l)
    requires Creators(l') == Creators(l) && Receivers(l') == Receivers(l) && Statuses(l') == Statuses(l) && Owners(l') == Owners(l)
    requires l'.byCreator == l.byCreator && l'.byReceiver == l.byReceiver && l'.byStatus == l.byStatus && l'.byOwner == l.byOwner
    ensures IndexesExact(l')
  {}

  lemma {:induction false} VoteIndexed(p: Params, s: State, from: Address, id: Hash, proof: Hash, now: int64)
    requires IndexesExact(s.links) && DoVote(p, s, from, id, proof, now).Ok?
    ensures IndexesExact(DoVote(p, s, from, id, proof, now).value.state.links)
  {
    hide IndexesExact, CollectFees, EvaluateField, SetStatus, VotersIn;
    var l := s.links;
    var voted := CastVote(l, id, from, proof);
    assert Creators(voted) == Creators(l) && Receivers(voted) == Receivers(l) && Statuses(voted) == Statuses(l) && Owners(voted) == Owners(l);
    SameIndexed(l, voted);
    if voted.paylinks[id].voteCount >= p.required {
      StatusIndexed(voted, id, Verified);
      SettledIndexed(voted, id, proof);
    }
  }

  lemma {:induction false} SettledIndexed(l: Links, id: Hash, proof: Hash)
    requires id in l.paylinks && IndexesExact(SetStatus(l, id, Verified))
    ensures IndexesExact(Settled(l, id, proof))
  {
    hide SetStatus, IndexExact;
    SameIndexed(SetStatus(l, id, Verified), Settled(l, id, proof));
  }

  lemma {:induction false} DispatchIndexed(p: Params, s: State, tx: Tx, now: int64)
    requires IndexesExact(s.links) && Dispatch(p, s, tx, now).Ok?
    ensures IndexesExact(Dispatch(p, s, tx, now).value.state.links)
  {
    hide IndexesExact, DoVote, AddPayLink, SetStatus, SetOwner, EvaluateField, ValidateField, MayTransfer,
      DoSend, DoStake, DoInitiateUnstake, DoCompleteUnstake, DoSlash, DoReward, DoRegisterKey, ProcessEvidence;
    var l := s.links;
    match tx.body
    case CreatePayLink(id, receiver, amount, expiry, metadata, rules) =>
      AddIndexed(l, PayLink(id, tx.from, receiver, tx.from, ZERO_ADDRESS, amount, expiry, Created, metadata, now, 0, 0, rules));
    case SubmitValidation(id, proof) => VoteIndexed(p, s, tx.from, id, proof, now);
    case CancelPayLink(id) => StatusIndexed(l, id, Cancelled);
    case FailPayLink(id) => StatusIndexed(l, id, Failed);
    case TransferPayLink(id, to) => OwnerIndexed(l, id, to);
    case ApprovePayLink(id, approved) =>
      var l' := SetApproved(l, id, approved);
      assert Creators(l') == Creators(l) && Receivers(l') == Receivers(l) && Statuses(l') == Statuses(l) && Owners(l') == Owners(l);
      SameIndexed(l, l');
    case SetApprovalForAll(operator, grant) =>
      var l' := SetOperator(l, tx.from, operator, grant);
      assert Creators(l') == Creators(l) && Receivers(l') == Receivers(l) && Statuses(l') == Statuses(l) && Owners(l') == Owners(l);
      SameIndexed(l, l');
    case _ =>
  }

  lemma {:induction false} AfterIndexed(p: Params, s: State, i: Input)
    requires IndexesExact(s.links)
    ensures IndexesExact(After(p, s, i).links)
  {
    hide IndexesExact, Dispatch, IncrementNonce;
    if BlockStep(p, s, i.tx, i.now).Ok? {
      DispatchIndexed(p, s, i.tx, i.now);
    }
  }

  lemma {:induction false} RunIndexed(p: Params, s: State, inputs: seq<Input>)
    requires IndexesExact(s.links)
    ensures IndexesExact(Run(p, s, inputs).links)
    decreases |inputs|
  {
    hide IndexesExact, After;
    if inputs != [] {
      var n := |inputs| - 1;
      RunIndexed(p, s, inputs[..n]);
      AfterIndexed(p, Run(p, s, inputs[..n]), inputs[n]);
    }
  }

  /** In every state reachable from genesis each index agrees with a full scan. */
  lemma {:induction false} ReachableIndexed(p: Params, balances: seq<GenesisBalance>, inputs: seq<Input>)
    ensures IndexesExact(Run(p, Genesis(balances), inputs).links)
  {
    hide Run, Fund;
    RunIndexed(p, Genesis(balances), inputs);
  }
}
