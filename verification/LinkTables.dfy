/**
 * PayLinks, their four indexes, votes, proofs and operators of the state database, updated in
 * place, with saved copies.  Removing an id from an index shifts its slice in place; the saved
 * indexes are untouched because their slices are copies.
 */
module LinkTables {
  import opened Numbers
  import opened Collections
  import opened Rules
  import opened ChainState
  import opened Dicts
  import opened Tables
  import opened Slices

  // ---------------------------------------------------------------- the four indexes

  datatype IndexRows = IndexRows(byCreator: map<Address, seq<Hash>>, byReceiver: map<Address, seq<Hash>>,
                                 byStatus: map<Status, seq<Hash>>, byOwner: map<Address, seq<Hash>>)

  /** The saved indexes, position by position, are put together from the saved parts. */
  ghost predicate IndexesStacked(creators: seq<map<Address, seq<Hash>>>, receivers: seq<map<Address, seq<Hash>>>,
                                 statuses: seq<map<Status, seq<Hash>>>, owners: seq<map<Address, seq<Hash>>>, rows: seq<IndexRows>)
  {
    && |creators| == |receivers| == |statuses| == |owners| == |rows|
    && forall i :: 0 <= i < |rows| ==> rows[i] == IndexRows(creators[i], receivers[i], statuses[i], owners[i])
  }

  class IndexTables {
    const byCreator: SliceIndex<Address>
    const byReceiver: SliceIndex<Address>
    const byStatus: SliceIndex<Status>
    const byOwner: SliceIndex<Address>
    /** The current indexes, and those each saved copy would bring back, oldest first. */
    ghost var Rows: IndexRows
    ghost var Stack: seq<IndexRows>
    ghost var Repr: set<object>

    /** The parts are sound and share nothing. */
    ghost predicate PartsOk()
      reads this, byCreator, byReceiver, byStatus, byOwner, byCreator.Repr, byReceiver.Repr, byStatus.Repr, byOwner.Repr
    {
      && byCreator.Valid() && byReceiver.Valid() && byStatus.Valid() && byOwner.Valid()
      && this !in byCreator.Repr && this !in byReceiver.Repr && this !in byStatus.Repr && this !in byOwner.Repr
      && byCreator.Repr !! byReceiver.Repr && byCreator.Repr !! byStatus.Repr && byCreator.Repr !! byOwner.Repr
      && byReceiver.Repr !! byStatus.Repr && byReceiver.Repr !! byOwner.Repr && byStatus.Repr !! byOwner.Repr
    }

    ghost function Parts(): set<object>
      reads this, byCreator, byReceiver, byStatus, byOwner
    {
      {this} + byCreator.Repr + byReceiver.Repr + byStatus.Repr + byOwner.Repr
    }

    ghost predicate Valid()
      reads this, Repr
      ensures Valid() ==> this in Repr
    {
      && {this, byCreator, byReceiver, byStatus, byOwner} <= Repr
      && Repr == Parts() && PartsOk()
      && Rows == IndexRows(byCreator.Rows, byReceiver.Rows, byStatus.Rows, byOwner.Rows)
      && IndexesStacked(byCreator.Stack, byReceiver.Stack, byStatus.Stack, byOwner.Stack, Stack)
    }

    /** Put empty indexes together. */
    constructor (c: SliceIndex<Address>, r: SliceIndex<Address>, s: SliceIndex<Status>, o: SliceIndex<Address>)
      requires c.Valid() && r.Valid() && s.Valid() && o.Valid()
      requires c.Repr !! r.Repr && s.Repr !! c.Repr + r.Repr && o.Repr !! c.Repr + r.Repr + s.Repr
      requires c.Rows == map[] && r.Rows == map[] && s.Rows == map[] && o.Rows == map[]
      requires c.Stack == [] && r.Stack == [] && s.Stack == [] && o.Stack == []
      ensures Valid() && Rows == IndexRows(map[], map[], map[], map[]) && Stack == []
      ensures Repr == {this} + c.Repr + r.Repr + s.Repr + o.Repr
    {
      hide SliceIndex.Valid;
      byCreator, byReceiver, byStatus, byOwner := c, r, s, o;
      Stack := [];
      new;
      Refresh();
    }

    /** Bring the specification fields up to date after the parts have changed. */
    ghost method Refresh()
      requires PartsOk() && IndexesStacked(byCreator.Stack, byReceiver.Stack, byStatus.Stack, byOwner.Stack, Stack)
      modifies this`Rows, this`Repr
      ensures Valid() && Repr == Parts()
      ensures Rows == IndexRows(byCreator.Rows, byReceiver.Rows, byStatus.Rows, byOwner.Rows)
    {
      hide SliceIndex.Valid, IndexesStacked;
      Rows := IndexRows(byCreator.Rows, byReceiver.Rows, byStatus.Rows, byOwner.Rows);
      Repr := Parts();
    }

    method PushParts()
      requires PartsOk()
      modifies byCreator.Repr, byReceiver.Repr, byStatus.Repr, byOwner.Repr
      ensures PartsOk() && fresh(Parts() - old(Parts())) && unchanged(this)
      ensures byCreator.Rows == old(byCreator.Rows) && byCreator.Stack == old(byCreator.Stack) + [old(byCreator.Rows)]
      ensures byReceiver.Rows == old(byReceiver.Rows) && byReceiver.Stack == old(byReceiver.Stack) + [old(byReceiver.Rows)]
      ensures byStatus.Rows == old(byStatus.Rows) && byStatus.Stack == old(byStatus.Stack) + [old(byStatus.Rows)]
      ensures byOwner.Rows == old(byOwner.Rows) && byOwner.Stack == old(byOwner.Stack) + [old(byOwner.Rows)]
    {
      hide SliceIndex.Valid;
      byCreator.Push();
      byReceiver.Push();
      byStatus.Push();
      byOwner.Push();
    }

    method Push()
      requires Valid()
      modifies Repr
      ensures Valid() && fresh(Repr - old(Repr))
      ensures Rows == old(Rows) && Stack == old(Stack) + [old(Rows)]
    {
      hide SliceIndex.Valid;
      PushParts();
      Stack := Stack + [Rows];
      Refresh();
    }

    method Restore(i: nat)
      requires Valid() && i < |Stack|
      modifies Repr
      ensures Valid() && fresh(Repr - old(Repr))
      ensures Rows == old(Stack)[i] && Stack == old(Stack)[..i]
    {
      hide SliceIndex.Valid;
      byCreator.Restore(i);
      byReceiver.Restore(i);
      byStatus.Restore(i);
      byOwner.Restore(i);
      Stack := Stack[..i];
      Refresh();
    }

    method Drop(i: nat)
      requires Valid() && i < |Stack|
      modifies Repr
      ensures Valid() && fresh(Repr - old(Repr))
      ensures Rows == old(Rows) && Stack == old(Stack)[..i]
    {
      hide SliceIndex.Valid;
      byCreator.Drop(i);
      byReceiver.Drop(i);
      byStatus.Drop(i);
      byOwner.Drop(i);
      Stack := Stack[..i];
      Refresh();
    }

    /** Enter a new PayLink into all four indexes. */
    method Enter(pl: PayLink)
      requires Valid()
      modifies Repr
      ensures Valid() && fresh(Repr - old(Repr)) && Stack == old(Stack)
      ensures Rows == IndexRows(Append(old(Rows).byCreator, pl.creator, pl.id), Append(old(Rows).byReceiver, pl.receiver, pl.id),
                                Append(old(Rows).byStatus, pl.status, pl.id), Append(old(Rows).byOwner, pl.owner, pl.id))
    {
      hide SliceIndex.Valid, Append, IndexesStacked;
      byCreator.Append(pl.creator, pl.id);
      byReceiver.Append(pl.receiver, pl.id);
      byStatus.Append(pl.status, pl.id);
      byOwner.Append(pl.owner, pl.id);
      Refresh();
    }

    method MoveStatus(id: Hash, from: Status, to: Status)
      requires Valid()
      modifies Repr
      ensures Valid() && fresh(Repr - old(Repr)) && Stack == old(Stack)
      ensures Rows == old(Rows).(byStatus := Append(Remove(old(Rows).byStatus, from, id), to, id))
    {
      hide SliceIndex.Valid, Append, Remove, IndexesStacked;
      byStatus.Remove(from, id);
      byStatus.Append(to, id);
      Refresh();
    }

    method MoveOwner(id: Hash, from: Address, to: Address)
      requires Valid()
      modifies Repr
      ensures Valid() && fresh(Repr - old(Repr)) && Stack == old(Stack)
      ensures Rows == old(Rows).(byOwner := Append(Remove(old(Rows).byOwner, from, id), to, id))
    {
      hide SliceIndex.Valid, Append, Remove, IndexesStacked;
      byOwner.Remove(from, id);
      byOwner.Append(to, id);
      Refresh();
    }
  }

  method NewIndexes() returns (t: IndexTables)
    ensures t.Valid() && fresh(t.Repr) && t.Rows == IndexRows(map[], map[], map[], map[]) && t.Stack == []
  {
    hide SliceIndex.Valid, IndexTables.Valid;
    var c: SliceIndex<Address> := new SliceIndex();
    var r: SliceIndex<Address> := new SliceIndex();
    var s: SliceIndex<Status> := new SliceIndex();
    var o: SliceIndex<Address> := new SliceIndex();
    t := new IndexTables(c, r, s, o);
  }

  // ---------------------------------------------------------------- proofs, votes and operators

  datatype MarkRows = MarkRows(usedProofs: set<Hash>, submittedProofs: map<Hash, Hash>,
                               votes: set<(Hash, Address)>, operators: set<(Address, Address)>)

  ghost function MakeMarks(used: map<Hash, ()>, submitted: map<Hash, Hash>, votes: map<(Hash, Address), ()>,
                           operators: map<(Address, Address), ()>): MarkRows
  {
    MarkRows(used.Keys, submitted, votes.Keys, operators.Keys)
  }

  ghost predicate MarksStacked(used: seq<map<Hash, ()>>, submitted: seq<map<Hash, Hash>>, votes: seq<map<(Hash, Address), ()>>,
                               operators: seq<map<(Address, Address), ()>>, rows: seq<MarkRows>)
  {
    && |used| == |submitted| == |votes| == |operators| == |rows|
    && forall i :: 0 <= i < |rows| ==> rows[i] == MakeMarks(used[i], submitted[i], votes[i], operators[i])
  }

  class MarkTables {
    const used: DictHistory<Hash, ()>
    const submitted: DictHistory<Hash, Hash>
    const votes: DictHistory<(Hash, Address), ()>
    const operators: DictHistory<(Address, Address), ()>
    /** The current marks, and those each saved copy would bring back, oldest first. */
    ghost var Rows: MarkRows
    ghost var Stack: seq<MarkRows>
    ghost var Repr: set<object>

    /** The parts are sound and share nothing. */
    ghost predicate PartsOk()
      reads this, used, submitted, votes, operators, used.Repr, submitted.Repr, votes.Repr, operators.Repr
    {
      && used.Valid() && submitted.Valid() && votes.Valid() && operators.Valid()
      && this !in used.Repr && this !in submitted.Repr && this !in votes.Repr && this !in operators.Repr
      && used.Repr !! submitted.Repr && used.Repr !! votes.Repr && used.Repr !! operators.Repr
      && submitted.Repr !! votes.Repr && submitted.Repr !! operators.Repr && votes.Repr !! operators.Repr
    }

    ghost function Parts(): set<object>
      reads this, used, submitted, votes, operators
    {
      {this} + used.Repr + submitted.Repr + votes.Repr + operators.Repr
    }

    ghost predicate Valid()
      reads this, Repr
      ensures Valid() ==> this in Repr
    {
      && {this, used, submitted, votes, operators} <= Repr
      && Repr == Parts() && PartsOk()
      && Rows == MakeMarks(used.Rows, submitted.Rows, votes.Rows, operators.Rows)
      && MarksStacked(used.Stack, submitted.Stack, votes.Stack, operators.Stack, Stack)
    }

    /** Put empty maps together. */
    constructor (u: DictHistory<Hash, ()>, s: DictHistory<Hash, Hash>, v: DictHistory<(Hash, Address), ()>, o: DictHistory<(Address, Address), ()>)
      requires u.Valid() && s.Valid() && v.Valid() && o.Valid()
      requires u.Repr !! s.Repr && v.Repr !! u.Repr + s.Repr && o.Repr !! u.Repr + s.Repr + v.Repr
      requires u.Rows == map[] && s.Rows == map[] && v.Rows == map[] && o.Rows == map[]
      requires u.Stack == [] && s.Stack == [] && v.Stack == [] && o.Stack == []
      ensures Valid() && Rows == MarkRows({}, map[], {}, {}) && Stack == []
      ensures Repr == {this} + u.Repr + s.Repr + v.Repr + o.Repr
    {
      hide DictHistory.Valid;
      used, submitted, votes, operators := u, s, v, o;
      Stack := [];
      new;
      Refresh();
    }

    /** Bring the specification fields up to date after the parts have changed. */
    ghost method Refresh()
      requires PartsOk() && MarksStacked(used.Stack, submitted.Stack, votes.Stack, operators.Stack, Stack)
      modifies this`Rows, this`Repr
      ensures Valid() && Repr == Parts()
      ensures Rows == MakeMarks(used.Rows, submitted.Rows, votes.Rows, operators.Rows)
    {
      hide DictHistory.Valid, MarksStacked, MakeMarks;
      Rows := MakeMarks(used.Rows, submitted.Rows, votes.Rows, operators.Rows);
      Repr := Parts();
    }

    method PushParts()
      requires PartsOk()
      modifies used.Repr, submitted.Repr, votes.Repr, operators.Repr
      ensures PartsOk() && fresh(Parts() - old(Parts())) && unchanged(this)
      ensures used.Rows == old(used.Rows) && used.Stack == old(used.Stack) + [old(used.Rows)]
      ensures submitted.Rows == old(submitted.Rows) && submitted.Stack == old(submitted.Stack) + [old(submitted.Rows)]
      ensures votes.Rows == old(votes.Rows) && votes.Stack == old(votes.Stack) + [old(votes.Rows)]
      ensures operators.Rows == old(operators.Rows) && operators.Stack == old(operators.Stack) + [old(operators.Rows)]
    {
      hide DictHistory.Valid;
      used.Push();
      submitted.Push();
      votes.Push();
      operators.Push();
    }

    method Push()
      requires Valid()
      modifies Repr
      ensures Valid() && fresh(Repr - old(Repr))
      ensures Rows == old(Rows) && Stack == old(Stack) + [old(Rows)]
    {
      hide DictHistory.Valid, MakeMarks;
      PushParts();
      Stack := Stack + [Rows];
      Refresh();
    }

    method Restore(i: nat)
      requires Valid() && i < |Stack|
      modifies Repr
      ensures Valid() && fresh(Repr - old(Repr))
      ensures Rows == old(Stack)[i] && Stack == old(Stack)[..i]
    {
      hide DictHistory.Valid, MakeMarks;
      used.Restore(i);
      submitted.Restore(i);
      votes.Restore(i);
      operators.Restore(i);
      Stack := Stack[..i];
      Refresh();
    }

    method Drop(i: nat)
      requires Valid() && i < |Stack|
      modifies Repr
      ensures Valid() && fresh(Repr - old(Repr))
      ensures Rows == old(Rows) && Stack == old(Stack)[..i]
    {
      hide DictHistory.Valid, MakeMarks;
      used.Drop(i);
      submitted.Drop(i);
      votes.Drop(i);
      operators.Drop(i);
      Stack := Stack[..i];
      Refresh();
    }

    method UseProof(proof: Hash)
      requires Valid()
      modifies Repr
      ensures Valid() && fresh(Repr - old(Repr)) && Stack == old(Stack)
      ensures Rows == old(Rows).(usedProofs := old(Rows).usedProofs + {proof})
    {
      hide DictHistory.Valid, MarksStacked;
      used.Put(proof, ());
      Refresh();
    }

    method Submit(id: Hash, proof: Hash)
      requires Valid()
      modifies Repr
      ensures Valid() && fresh(Repr - old(Repr)) && Stack == old(Stack)
      ensures Rows == old(Rows).(submittedProofs := old(Rows).submittedProofs[id := proof])
    {
      hide DictHistory.Valid, MarksStacked;
      submitted.Put(id, proof);
      Refresh();
    }

    method Vote(id: Hash, voter: Address)
      requires Valid()
      modifies Repr
      ensures Valid() && fresh(Repr - old(Repr)) && Stack == old(Stack)
      ensures Rows == old(Rows).(votes := old(Rows).votes + {(id, voter)})
    {
      hide DictHistory.Valid, MarksStacked;
      votes.Put((id, voter), ());
      Refresh();
    }

    method SetOperator(owner: Address, operator: Address, approved: bool)
      requires Valid()
      modifies Repr
      ensures Valid() && fresh(Repr - old(Repr)) && Stack == old(Stack)
      ensures Rows == old(Rows).(operators := if approved then old(Rows).operators + {(owner, operator)} else old(Rows).operators - {(owner, operator)})
    {
      hide DictHistory.Valid, MarksStacked;
      if approved {
        operators.Put((owner, operator), ());
      } else {
        operators.Delete((owner, operator));
      }
      Refresh();
    }

    function All(): (r: MarkRows)
      requires Valid()
      reads this, Repr
      ensures r == Rows
    {
      MarkRows(used.All().Keys, submitted.All(), votes.All().Keys, operators.All().Keys)
    }
  }

  method NewMarks() returns (t: MarkTables)
    ensures t.Valid() && fresh(t.Repr) && t.Rows == MarkRows({}, map[], {}, {}) && t.Stack == []
  {
    hide DictHistory.Valid, MarkTables.Valid;
    var u: DictHistory<Hash, ()> := new DictHistory();
    var s: DictHistory<Hash, Hash> := new DictHistory();
    var v: DictHistory<(Hash, Address), ()> := new DictHistory();
    var o: DictHistory<(Address, Address), ()> := new DictHistory();
    t := new MarkTables(u, s, v, o);
  }

  // ---------------------------------------------------------------- PayLinks with their indexes and marks

  ghost function MakeLinks(paylinks: map<Hash, PayLink>, x: IndexRows, m: MarkRows): Links {
    Links(paylinks, m.usedProofs, m.submittedProofs, m.votes, x.byCreator, x.byReceiver, x.byStatus, x.byOwner, m.operators)
  }

  ghost predicate LinksStacked(paylinks: seq<map<Hash, PayLink>>, indexes: seq<IndexRows>, marks: seq<MarkRows>, rows: seq<Links>) {
    && |paylinks| == |indexes| == |marks| == |rows|
    && forall i :: 0 <= i < |rows| ==> rows[i] == MakeLinks(paylinks[i], indexes[i], marks[i])
  }

  class LinkTables {
    const paylinks: Table<PayLink>
    const indexes: IndexTables
    const marks: MarkTables
    /** The current links, and those each saved copy would bring back, oldest first. */
    ghost var Rows: Links
    ghost var Stack: seq<Links>
    ghost var Repr: set<object>

    /** The parts are sound and share nothing. */
    ghost predicate PartsOk()
      reads this, paylinks, indexes, marks, paylinks.Repr, indexes.Repr, marks.Repr
    {
      && paylinks.Valid() && indexes.Valid() && marks.Valid()
      && this !in paylinks.Repr && this !in indexes.Repr && this !in marks.Repr
      && paylinks.Repr !! indexes.Repr && paylinks.Repr !! marks.Repr && indexes.Repr !! marks.Repr
    }

    ghost function Parts(): set<object>
      reads this, paylinks, indexes, marks
    {
      {this} + paylinks.Repr + indexes.Repr + marks.Repr
    }

    ghost predicate Valid()
      reads this, Repr
      ensures Valid() ==> this in Repr
    {
      && {this, paylinks, indexes, marks} <= Repr
      && Repr == Parts() && PartsOk()
      && Rows == MakeLinks(paylinks.Rows, indexes.Rows, marks.Rows)
      && LinksStacked(paylinks.Stack, indexes.Stack, marks.Stack, Stack)
    }

    /** Put empty parts together. */
    constructor (t: Table<PayLink>, x: IndexTables, m: MarkTables)
      requires t.Valid() && x.Valid() && m.Valid() && t.Repr !! x.Repr && m.Repr !! t.Repr + x.Repr
      requires t.Rows == map[] && x.Rows == IndexRows(map[], map[], map[], map[]) && m.Rows == MarkRows({}, map[], {}, {})
      requires t.Stack == [] && x.Stack == [] && m.Stack == []
      ensures Valid() && Rows == EmptyLinks() && Stack == []
      ensures Repr == {this} + t.Repr + x.Repr + m.Repr
    {
      hide Table.Valid, IndexTables.Valid, MarkTables.Valid;
      paylinks, indexes, marks := t, x, m;
      Stack := [];
      new;
      Refresh();
    }

    /** Bring the specification fields up to date after the parts have changed. */
    ghost method Refresh()
      requires PartsOk() && LinksStacked(paylinks.Stack, indexes.Stack, marks.Stack, Stack)
      modifies this`Rows, this`Repr
      ensures Valid() && Repr == Parts()
      ensures Rows == MakeLinks(paylinks.Rows, indexes.Rows, marks.Rows)
    {
      hide Table.Valid, IndexTables.Valid, MarkTables.Valid, LinksStacked, MakeLinks;
      Rows := MakeLinks(paylinks.Rows, indexes.Rows, marks.Rows);
      Repr := Parts();
    }

    method Push()
      requires Valid()
      modifies Repr
      ensures Valid() && fresh(Repr - old(Repr))
      ensures Rows == old(Rows) && Stack == old(Stack) + [old(Rows)]
    {
      hide Table.Valid, IndexTables.Valid, MarkTables.Valid, MakeLinks;
      paylinks.Push();
      indexes.Push();
      marks.Push();
      Stack := Stack + [Rows];
      Refresh();
    }

    method Restore(i: nat)
      requires Valid() && i < |Stack|
      modifies Repr
      ensures Valid() && fresh(Repr - old(Repr))
      ensures Rows == old(Stack)[i] && Stack == old(Stack)[..i]
    {
      hide Table.Valid, IndexTables.Valid, MarkTables.Valid, MakeLinks;
      paylinks.Restore(i);
      indexes.Restore(i);
      marks.Restore(i);
      Stack := Stack[..i];
      Refresh();
    }

    method Drop(i: nat)
      requires Valid() && i < |Stack|
      modifies Repr
      ensures Valid() && fresh(Repr - old(Repr))
      ensures Rows == old(Rows) && Stack == old(Stack)[..i]
    {
      hide Table.Valid, IndexTables.Valid, MarkTables.Valid, MakeLinks;
      paylinks.Drop(i);
      indexes.Drop(i);
      marks.Drop(i);
      Stack := Stack[..i];
      Refresh();
    }

    // -------------------------------------------------------------- PayLinks

    function GetPayLink(id: Hash): (pl: Option<PayLink>)
      requires Valid()
      reads this, Repr
      ensures pl == if id in Rows.paylinks then Some(Rows.paylinks[id]) else None
    {
      if paylinks.Has(id) then Some(paylinks.Get(id)) else None
    }

    method PutPayLink(id: Hash, pl: PayLink)
      requires Valid()
      modifies Repr
      ensures Valid() && fresh(Repr - old(Repr)) && Stack == old(Stack)
      ensures Rows == old(Rows).(paylinks := old(Rows).paylinks[id := pl])
    {
      hide Table.Valid, IndexTables.Valid, MarkTables.Valid, LinksStacked;
      paylinks.Put(id, pl);
      Refresh();
    }

    method CreatePayLink(pl: PayLink) returns (error: Option<TxError>)
      requires Valid()
      modifies Repr
      ensures Valid() && fresh(Repr - old(Repr)) && Stack == old(Stack)
      ensures error == ErrorOf(AddPayLink(old(Rows), pl))
      ensures Rows == if error.None? then AddPayLink(old(Rows), pl).value else old(Rows)
    {
      hide Table.Valid, IndexTables.Valid, MarkTables.Valid, LinksStacked, Append;
      if paylinks.Has(pl.id) {
        return Some(DuplicatePayLink);
      }
      paylinks.Put(pl.id, pl);
      indexes.Enter(pl);
      Refresh();
      error := None;
    }

    method SetPayLinkStatus(id: Hash, status: Status) returns (error: Option<TxError>)
      requires Valid()
      modifies Repr
      ensures Valid() && fresh(Repr - old(Repr)) && Stack == old(Stack)
      ensures error == if id in old(Rows).paylinks then None else Some(PayLinkNotFound)
      ensures Rows == if error.None? then SetStatus(old(Rows), id, status) else old(Rows)
    {
      hide Table.Valid, IndexTables.Valid, MarkTables.Valid, LinksStacked, Append, Remove;
      if !paylinks.Has(id) {
        return Some(PayLinkNotFound);
      }
      var pl := paylinks.Get(id);
      indexes.MoveStatus(id, pl.status, status);
      paylinks.Put(id, pl.(status := status));
      Refresh();
      error := None;
    }

    method SetPayLinkOwner(id: Hash, owner: Address) returns (error: Option<TxError>)
      requires Valid()
      modifies Repr
      ensures Valid() && fresh(Repr - old(Repr)) && Stack == old(Stack)
      ensures error == if id in old(Rows).paylinks then None else Some(PayLinkNotFound)
      ensures Rows == if error.None? then SetOwner(old(Rows), id, owner) else old(Rows)
    {
      hide Table.Valid, IndexTables.Valid, MarkTables.Valid, LinksStacked, Append, Remove;
      if !paylinks.Has(id) {
        return Some(PayLinkNotFound);
      }
      var pl := paylinks.Get(id);
      indexes.MoveOwner(id, pl.owner, owner);
      paylinks.Put(id, pl.(owner := owner, approved := ZERO_ADDRESS, transferCount := Add64(pl.transferCount, 1)));
      Refresh();
      error := None;
    }

    method SetPayLinkApproval(id: Hash, approved: Address) returns (error: Option<TxError>)
      requires Valid()
      modifies Repr
      ensures Valid() && fresh(Repr - old(Repr)) && Stack == old(Stack)
      ensures error == if id in old(Rows).paylinks then None else Some(PayLinkNotFound)
      ensures Rows == if error.None? then SetApproved(old(Rows), id, approved) else old(Rows)
    {
      hide Valid;
      var found := GetPayLink(id);
      if found.None? {
        return Some(PayLinkNotFound);
      }
      PutPayLink(id, found.value.(approved := approved));
      error := None;
    }

    method IncrementVoteCount(id: Hash) returns (error: Option<TxError>, count: uint64)
      requires Valid()
      modifies Repr
      ensures Valid() && fresh(Repr - old(Repr)) && Stack == old(Stack)
      ensures error == if id in old(Rows).paylinks then None else Some(PayLinkNotFound)
      ensures error.None? ==> count == Add64(old(Rows).paylinks[id].voteCount, 1)
      ensures Rows == if error.None? then old(Rows).(paylinks := old(Rows).paylinks[id := old(Rows).paylinks[id].(voteCount := count)])
                      else old(Rows)
    {
      hide Valid;
      var found := GetPayLink(id);
      if found.None? {
        return Some(PayLinkNotFound), 0;
      }
      count := Add64(found.value.voteCount, 1);
      PutPayLink(id, found.value.(voteCount := count));
      error := None;
    }

    // -------------------------------------------------------------- proofs, votes and operators

    predicate IsProofUsed(proof: Hash)
      requires Valid()
      reads this, Repr
      ensures IsProofUsed(proof) == (proof in Rows.usedProofs)
    {
      marks.used.Has(proof)
    }

    predicate HasVoted(id: Hash, voter: Address)
      requires Valid()
      reads this, Repr
      ensures HasVoted(id, voter) == ((id, voter) in Rows.votes)
    {
      marks.votes.Has((id, voter))
    }

    function GetSubmittedProof(id: Hash): (proof: Option<Hash>)
      requires Valid()
      reads this, Repr
      ensures proof == if id in Rows.submittedProofs then Some(Rows.submittedProofs[id]) else None
    {
      if marks.submitted.Has(id) then Some(marks.submitted.Get(id)) else None
    }

    predicate IsApprovedOrOwner(id: Hash, spender: Address)
      requires Valid()
      reads this, Repr
      ensures IsApprovedOrOwner(id, spender) == (id in Rows.paylinks && MayTransfer(Rows, id, spender))
    {
      paylinks.Has(id) &&
      var pl := paylinks.Get(id);
      spender == pl.owner || spender == pl.approved || marks.operators.Has((pl.owner, spender))
    }

    /** The voters of a PayLink in address order, whatever order the vote map is walked in. */
    method GetVoters(id: Hash) returns (voters: seq<Address>)
      requires Valid()
      ensures voters == SortedSeq(Voters(Rows, id))
    {
      hide Table.Valid, IndexTables.Valid, LinksStacked, SortedSeq;
      voters := Enumerate(VotersIn(marks.votes.All().Keys, id));
    }

    method SetOperatorApproval(owner: Address, operator: Address, approved: bool)
      requires Valid()
      modifies Repr
      ensures Valid() && fresh(Repr - old(Repr)) && Stack == old(Stack)
      ensures Rows == SetOperator(old(Rows), owner, operator, approved)
    {
      hide Table.Valid, IndexTables.Valid, MarkTables.Valid, LinksStacked;
      marks.SetOperator(owner, operator, approved);
      Refresh();
    }

    method SetSubmittedProof(id: Hash, proof: Hash)
      requires Valid()
      modifies Repr
      ensures Valid() && fresh(Repr - old(Repr)) && Stack == old(Stack)
      ensures Rows == old(Rows).(submittedProofs := old(Rows).submittedProofs[id := proof])
    {
      hide Table.Valid, IndexTables.Valid, MarkTables.Valid, LinksStacked;
      marks.Submit(id, proof);
      Refresh();
    }

    method RecordVote(id: Hash, voter: Address)
      requires Valid()
      modifies Repr
      ensures Valid() && fresh(Repr - old(Repr)) && Stack == old(Stack)
      ensures Rows == old(Rows).(votes := old(Rows).votes + {(id, voter)})
    {
      hide Table.Valid, IndexTables.Valid, MarkTables.Valid, LinksStacked;
      marks.Vote(id, voter);
      Refresh();
    }

    method MarkProofUsed(proof: Hash)
      requires Valid()
      modifies Repr
      ensures Valid() && fresh(Repr - old(Repr)) && Stack == old(Stack)
      ensures Rows == old(Rows).(usedProofs := old(Rows).usedProofs + {proof})
    {
      hide Table.Valid, IndexTables.Valid, MarkTables.Valid, LinksStacked;
      marks.UseProof(proof);
      Refresh();
    }
  }

  /** Tables with nothing in them. */
  method NewLinks() returns (t: LinkTables)
    ensures t.Valid() && fresh(t.Repr) && t.Rows == EmptyLinks() && t.Stack == []
  {
    hide Table.Valid, IndexTables.Valid, MarkTables.Valid, LinkTables.Valid, EmptyLinks;
    var p: Table<PayLink> := new Table();
    var x := NewIndexes();
    var m := NewMarks();
    t := new LinkTables(p, x, m);
  }
}
