/**
 * A table of records behind pointers, updated in place, with a stack of saved deep copies.
 * This is where snapshots are isolated from later mutation: no write reaches a saved record.
 */
module Tables {
  import opened Dicts

  /** A pointer to a mutable record. */
  class Ref<T> {
    var val: T

    constructor (val: T)
      ensures this.val == val
    {
      this.val := val;
    }
  }

  ghost predicate Injective<V>(m: map<nat, Ref<V>>) {
    forall j, k :: j in m && k in m && j != k ==> m[j] != m[k]
  }

  /** The records behind a map of pointers. */
  function Deref<V>(m: map<nat, Ref<V>>): map<nat, V>
    reads m.Values
  {
    map k | k in m :: m[k].val
  }

  /** A deep copy in a new map: fresh pointers to equal records. */
  method Clone<V>(d: Dict<nat, Ref<V>>) returns (c: Dict<nat, Ref<V>>)
    ensures fresh(c) && Injective(c.entries) && fresh(c.entries.Values) && Deref(c.entries) == Deref(d.entries)
  {
    c := new Dict();
    var rest := d.entries.Keys;
    while rest != {}
      invariant rest <= d.entries.Keys && fresh(c) && d.entries == old(d.entries)
      invariant c.entries.Keys == d.entries.Keys - rest && Injective(c.entries)
      invariant forall k :: k in c.entries ==> fresh(c.entries[k]) && c.entries[k].val == d.entries[k].val
      decreases |rest|
    {
      var k :| k in rest;
      rest := rest - {k};
      var r := new Ref(d.entries[k].val);
      c.entries := c.entries[k := r];
    }
  }

  /** Overwrite the record behind one pointer. */
  method Assign<V>(m: map<nat, Ref<V>>, k: nat, v: V)
    requires k in m && Injective(m)
    modifies m[k]
    ensures Deref(m) == old(Deref(m))[k := v]
  {
    m[k].val := v;
  }

  /** One more pointer under a new key. */
  lemma WithRef<V>(m: map<nat, Ref<V>>, k: nat, r: Ref<V>)
    requires k !in m && r !in m.Values && Injective(m)
    ensures Injective(m[k := r]) && m[k := r].Values == m.Values + {r} && Deref(m[k := r]) == Deref(m)[k := r.val]
  {
    var more := m[k := r];
    assert forall j :: j in m ==> m[j] in m.Values;
    assert forall o :: o in more.Values <==> o in m.Values || o == r by {
      assert more[k] == r;
      assert forall j :: j in m ==> more[j] == m[j];
    }
  }

  class Table<V> {
    var cur: Dict<nat, Ref<V>>
    var saved: seq<Dict<nat, Ref<V>>>
    /** The current records, and the records each saved copy would bring back, oldest first. */
    ghost var Rows: map<nat, V>
    ghost var Stack: seq<map<nat, V>>
    ghost var Repr: set<object>

    ghost predicate Valid()
      reads this, Repr
      ensures Valid() ==> this in Repr
    {
      && this in Repr && cur in Repr
      && cur.entries.Values <= Repr && Injective(cur.entries) && Rows == Deref(cur.entries)
      && |Stack| == |saved|
      && (forall i :: 0 <= i < |saved| ==> saved[i] in Repr && saved[i] != cur && saved[i].entries.Values <= Repr)
      && (forall i :: 0 <= i < |saved| ==> Injective(saved[i].entries) && cur.entries.Values !! saved[i].entries.Values)
      && (forall i :: 0 <= i < |saved| ==> Stack[i] == Deref(saved[i].entries))
      && (forall i, j :: 0 <= i < j < |saved| ==> saved[i] != saved[j] && saved[i].entries.Values !! saved[j].entries.Values)
    }

    constructor ()
      ensures Valid() && fresh(Repr)
      ensures Rows == map[] && Stack == []
    {
      cur := new Dict();
      saved := [];
      Rows, Stack := map[], [];
      new;
      Repr := {this, cur};
    }

    predicate Has(k: nat)
      requires Valid()
      reads this, Repr
      ensures Has(k) == (k in Rows)
    {
      k in cur.entries
    }

    function Get(k: nat): (v: V)
      requires Valid() && Has(k)
      reads this, Repr
      ensures k in Rows && v == Rows[k]
    {
      cur.entries[k].val
    }

    /** All current records. */
    function All(): (m: map<nat, V>)
      requires Valid()
      reads this, Repr
      ensures m == Rows
    {
      Deref(cur.entries)
    }

    /** Overwrite an existing record in place. */
    method Overwrite(k: nat, v: V)
      requires Valid() && Has(k)
      modifies Repr
      ensures Valid() && Repr == old(Repr)
      ensures Rows == old(Rows)[k := v] && Stack == old(Stack)
    {
      hide Injective, Deref;
      assert cur.entries[k] in cur.entries.Values;
      Assign(cur.entries, k, v);
      Rows := Rows[k := v];
    }

    /** A new record under a new key. */
    method Insert(k: nat, v: V)
      requires Valid() && !Has(k)
      modifies Repr
      ensures Valid() && fresh(Repr - old(Repr))
      ensures Rows == old(Rows)[k := v] && Stack == old(Stack)
    {
      hide Injective, Deref;
      var r := new Ref(v);
      WithRef(cur.entries, k, r);
      cur.entries := cur.entries[k := r];
      Repr := Repr + {r};
      Rows := Rows[k := v];
    }

    /** Get-or-create the record under a key and overwrite it in place. */
    method Put(k: nat, v: V)
      requires Valid()
      modifies Repr
      ensures Valid() && fresh(Repr - old(Repr))
      ensures Rows == old(Rows)[k := v] && Stack == old(Stack)
    {
      hide Valid;
      if Has(k) {
        Overwrite(k, v);
      } else {
        Insert(k, v);
      }
    }

    /** Deep copy of the current records onto the stack. */
    method Push()
      requires Valid()
      modifies Repr
      ensures Valid() && fresh(Repr - old(Repr))
      ensures Rows == old(Rows) && Stack == old(Stack) + [old(Rows)]
    {
      hide Injective, Deref;
      var c := Clone(cur);
      saved := saved + [c];
      Stack := Stack + [Rows];
      Repr := Repr + {c} + c.entries.Values;
    }

    /** Make a saved copy current and forget it and all later ones. */
    method Restore(i: nat)
      requires Valid() && i < |Stack|
      modifies this
      ensures Valid() && Repr == old(Repr)
      ensures Rows == old(Stack)[i] && Stack == old(Stack)[..i]
    {
      hide Injective, Deref;
      cur := saved[i];
      saved := saved[..i];
      Rows, Stack := Stack[i], Stack[..i];
    }

    /** Forget a saved copy and all later ones, keeping the current records. */
    method Drop(i: nat)
      requires Valid() && i < |Stack|
      modifies this
      ensures Valid() && Repr == old(Repr)
      ensures Rows == old(Rows) && Stack == old(Stack)[..i]
    {
      hide Injective, Deref;
      saved := saved[..i];
      Stack := Stack[..i];
    }
  }
}
