/**
 * Maps as the source uses them: shared objects that every write changes in place.  A snapshot
 * holds a map of its own, filled by copying.
 */
module Dicts {

  class Dict<K(==), V> {
    var entries: map<K, V>

    constructor ()
      ensures entries == map[]
    {
      entries := map[];
    }
  }

  /** A new map object with the same entries, filled one by one. */
  method CloneDict<K(==,!new), V>(d: Dict<K, V>) returns (c: Dict<K, V>)
    ensures fresh(c) && c.entries == d.entries
  {
    c := new Dict();
    var rest := d.entries.Keys;
    while rest != {}
      invariant rest <= d.entries.Keys && fresh(c) && d.entries == old(d.entries)
      invariant c.entries.Keys == d.entries.Keys - rest
      invariant forall k :: k in c.entries ==> c.entries[k] == d.entries[k]
      decreases |rest|
    {
      var k :| k in rest;
      rest := rest - {k};
      c.entries := c.entries[k := d.entries[k]];
    }
  }

  class DictHistory<K(==,!new), V> {
    var cur: Dict<K, V>
    var saved: seq<Dict<K, V>>
    /** The current entries, and those each saved copy would bring back, oldest first. */
    ghost var Rows: map<K, V>
    ghost var Stack: seq<map<K, V>>
    ghost var Repr: set<object>

    ghost predicate Valid()
      reads this, Repr
      ensures Valid() ==> this in Repr
    {
      && this in Repr && cur in Repr
      && Rows == cur.entries
      && |Stack| == |saved|
      && (forall i :: 0 <= i < |saved| ==> saved[i] in Repr && saved[i] != cur && Stack[i] == saved[i].entries)
      && (forall i, j :: 0 <= i < j < |saved| ==> saved[i] != saved[j])
    }

    constructor ()
      ensures Valid() && fresh(Repr)
      ensures Rows == map[] && Stack == []
    {
      cur := new Dict();
      saved := [];
      Rows, Stack := map[], [];
      new;
      Repr := {this, cur};
    }

    predicate Has(k: K)
      requires Valid()
      reads this, Repr
      ensures Has(k) == (k in Rows)
    {
      k in cur.entries
    }

    function Get(k: K): (v: V)
      requires Valid() && Has(k)
      reads this, Repr
      ensures k in Rows && v == Rows[k]
    {
      cur.entries[k]
    }

    /** All current entries. */
    function All(): (m: map<K, V>)
      requires Valid()
      reads this, Repr
      ensures m == Rows
    {
      cur.entries
    }

    method Put(k: K, v: V)
      requires Valid()
      modifies Repr
      ensures Valid() && fresh(Repr - old(Repr))
      ensures Rows == old(Rows)[k := v] && Stack == old(Stack)
    {
      cur.entries := cur.entries[k := v];
      Rows := cur.entries;
    }

    method Delete(k: K)
      requires Valid()
      modifies Repr
      ensures Valid() && fresh(Repr - old(Repr))
      ensures Rows == old(Rows) - {k} && Stack == old(Stack)
    {
      cur.entries := cur.entries - {k};
      Rows := cur.entries;
    }

    method Push()
      requires Valid()
      modifies Repr
      ensures Valid() && fresh(Repr - old(Repr))
      ensures Rows == old(Rows) && Stack == old(Stack) + [old(Rows)]
    {
      var c := CloneDict(cur);
      saved := saved + [c];
      Stack := Stack + [Rows];
      Repr := Repr + {c};
    }

    method Restore(i: nat)
      requires Valid() && i < |Stack|
      modifies this
      ensures Valid() && Repr == old(Repr)
      ensures Rows == old(Stack)[i] && Stack == old(Stack)[..i]
    {
      cur := saved[i];
      saved := saved[..i];
      Rows, Stack := Stack[i], Stack[..i];
    }

    method Drop(i: nat)
      requires Valid() && i < |Stack|
      modifies this
      ensures Valid() && Repr == old(Repr)
      ensures Rows == old(Rows) && Stack == old(Stack)[..i]
    {
      saved := saved[..i];
      Stack := Stack[..i];
    }
  }
}
