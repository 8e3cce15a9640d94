/**
 * Slices as the source uses them: a header naming a backing array and a length.  Appending may
 * write into the backing array, removing shifts it in place, so whoever shares the array sees
 * the change; a snapshot is safe because its clone copies every array.
 */
module Slices {
  import opened Collections
  import opened ChainState
  import opened Dicts

  datatype Slice = Slice(data: array<nat>, len: nat)

  predicate Fits(s: Slice) {
    s.len <= s.data.Length
  }

  function Contents(s: Slice): seq<nat>
    requires Fits(s)
    reads s.data
  {
    s.data[..s.len]
  }

  // ---------------------------------------------------------------- operations on one slice

  /** Append: in place while the backing array has room, into a larger copy otherwise. */
  method AppendTo(s: Slice, x: nat) returns (r: Slice)
    requires Fits(s)
    modifies s.data
    ensures Fits(r) && (r.data == s.data || fresh(r.data))
    ensures Contents(r) == old(Contents(s)) + [x]
  {
    if s.len < s.data.Length {
      s.data[s.len] := x;
      return Slice(s.data, s.len + 1);
    }
    var grown := new nat[2 * s.len + 1];
    forall j | 0 <= j < s.len {
      grown[j] := s.data[j];
    }
    grown[s.len] := x;
    r := Slice(grown, s.len + 1);
  }

  /** Close the gap at position i by shifting the rest of the backing array. */
  method RemoveAt(s: Slice, i: nat) returns (r: Slice)
    requires Fits(s) && i < s.len
    modifies s.data
    ensures Fits(r) && r.data == s.data
    ensures Contents(r) == old(Contents(s))[..i] + old(Contents(s))[i + 1..]
  {
    var j := i;
    while j + 1 < s.len
      invariant i <= j < s.len
      invariant forall k :: 0 <= k < i ==> s.data[k] == old(s.data[k])
      invariant forall k :: i <= k < j ==> s.data[k] == old(s.data[k + 1])
      invariant forall k :: j <= k < s.data.Length ==> s.data[k] == old(s.data[k])
    {
      s.data[j] := s.data[j + 1];
      j := j + 1;
    }
    r := Slice(s.data, s.len - 1);
  }

  lemma {:induction false} WithoutSplits(ids: seq<nat>, id: nat, i: nat)
    requires i < |ids| && ids[i] == id && id !in ids[..i]
    ensures Without(ids, id) == ids[..i] + ids[i + 1..]
  {
    if i > 0 {
      assert ids[0] == ids[..i][0];
      assert ids[1..][..i - 1] == ids[..i][1..];
      WithoutSplits(ids[1..], id, i - 1);
      assert ids[1..][i..] == ids[i + 1..];
    }
  }

  lemma {:induction false} WithoutAbsent(ids: seq<nat>, id: nat)
    requires id !in ids
    ensures Without(ids, id) == ids
  {
    if ids != [] {
      WithoutAbsent(ids[1..], id);
    }
  }

  /** Find the first occurrence and shift it out; the rest of the slice keeps its order. */
  method RemoveId(s: Slice, id: nat) returns (r: Slice, found: bool)
    requires Fits(s)
    modifies s.data
    ensures Fits(r) && r.data == s.data && found == (id in old(Contents(s)))
    ensures Contents(r) == Without(old(Contents(s)), id)
    ensures !found ==> r == s && unchanged(s.data)
  {
    var i := 0;
    while i < s.len
      invariant 0 <= i <= s.len && id !in Contents(s)[..i]
      invariant unchanged(s.data)
    {
      if s.data[i] == id {
        WithoutSplits(Contents(s), id, i);
        assert Contents(s)[i] == id;
        r := RemoveAt(s, i);
        return r, true;
      }
      i := i + 1;
    }
    WithoutAbsent(Contents(s), id);
    return s, false;
  }

  method CopyOf(s: Slice) returns (r: Slice)
    requires Fits(s)
    ensures Fits(r) && fresh(r.data) && Contents(r) == Contents(s)
  {
    var copied := new nat[s.len];
    forall j | 0 <= j < s.len {
      copied[j] := s.data[j];
    }
    r := Slice(copied, s.len);
  }

  /** Without a copy the header of a snapshot would see a removal: the shift writes into the shared array. */
  method SharedArrayExample() returns (before: seq<nat>, after: seq<nat>)
    ensures before == [1, 2, 3] && |after| == 3 && after[..2] == [2, 3]
  {
    var data := new nat[3];
    data[0], data[1], data[2] := 1, 2, 3;
    var saved := Slice(data, 3);
    before := saved.data[..saved.len];
    var current, found := RemoveId(saved, 1);
    assert Contents(current) == [2, 3] by { assert before == [1] + [2, 3]; WithoutSplits(before, 1, 0); }
    assert data[0] == Contents(current)[0] && data[1] == Contents(current)[1];
    after := saved.data[..saved.len];
  }

  // ---------------------------------------------------------------- an index: a map of slices with saved copies

  ghost function Arrays<K>(m: map<K, Slice>): set<object> {
    set k | k in m :: m[k].data
  }

  ghost predicate Distinct<K(!new)>(m: map<K, Slice>) {
    && (forall k :: k in m ==> Fits(m[k]))
    && (forall j, k :: j in m && k in m && j != k ==> m[j].data != m[k].data)
  }

  ghost function Buckets<K(!new)>(m: map<K, Slice>): map<K, seq<nat>>
    requires Distinct(m)
    reads Arrays(m)
  {
    map k | k in m :: Contents(m[k])
  }

  lemma {:induction false} ArraysUpdate<K(!new)>(m: map<K, Slice>, k: K, s: Slice)
    ensures Arrays(m[k := s]) <= Arrays(m) + {s.data} && s.data in Arrays(m[k := s])
    ensures forall j :: j in m ==> m[j].data in Arrays(m)
  {
    assert m[k := s][k] == s;
  }

  lemma {:induction false} DistinctUpdate<K(!new)>(m: map<K, Slice>, k: K, s: Slice)
    requires Distinct(m) && Fits(s) && (forall j :: j in m && j != k ==> m[j].data != s.data)
    ensures Distinct(m[k := s])
  {}

  /** A copy of every slice. */
  method CloneAll<K(==,!new)>(m: map<K, Slice>) returns (c: map<K, Slice>)
    requires Distinct(m)
    ensures Distinct(c) && fresh(Arrays(c)) && Buckets(c) == Buckets(m)
  {
    hide Distinct, Buckets, Arrays;
    c := map[];
    FitsAll(m);
    var rest := m.Keys;
    while rest != {}
      invariant rest <= m.Keys && c.Keys == m.Keys - rest && Distinct(c)
      invariant forall k :: k in m ==> Fits(m[k])
      invariant forall k :: k in c ==> fresh(c[k].data) && Fits(c[k]) && Contents(c[k]) == Contents(m[k])
      decreases |rest|
    {
      var k :| k in rest;
      rest := rest - {k};
      var s := CopyOf(m[k]);
      DistinctUpdate(c, k, s);
      c := c[k := s];
    }
    FreshCopy(m, c);
  }

  lemma {:induction false} FreshCopy<K(!new)>(m: map<K, Slice>, c: map<K, Slice>)
    requires Distinct(m) && Distinct(c) && c.Keys == m.Keys
    requires forall k :: k in c ==> Contents(c[k]) == Contents(m[k])
    ensures Buckets(c) == Buckets(m)
    ensures forall o :: o in Arrays(c) ==> exists k :: k in c && c[k].data == o
  {}

  lemma FitsAll<K(!new)>(m: map<K, Slice>)
    requires Distinct(m)
    ensures (forall k :: k in m ==> Fits(m[k])) && Distinct<K>(map[])
  {}

  /** The contents of every slice, read one by one. */
  lemma {:induction false} BucketsOf<K(!new)>(m: map<K, Slice>)
    requires Distinct(m)
    ensures Buckets(m).Keys == m.Keys && forall k :: k in m ==> Fits(m[k]) && Contents(m[k]) == Buckets(m)[k]
    ensures forall j, k :: j in m && k in m && j != k ==> m[j].data != m[k].data
  {}

  lemma {:induction false} BucketsAre<K(!new)>(m: map<K, Slice>, rows: map<K, seq<nat>>)
    requires Distinct(m) && m.Keys == rows.Keys && forall k :: k in m ==> Fits(m[k]) && Contents(m[k]) == rows[k]
    ensures Buckets(m) == rows
  {}

  /** Append to one bucket of a map of slices. */
  method AppendIn<K(==,!new)>(m: map<K, Slice>, k: K, id: nat) returns (r: map<K, Slice>)
    requires Distinct(m)
    modifies Arrays(m)
    ensures Distinct(r) && fresh(Arrays(r) - Arrays(m))
    ensures Buckets(r) == Append(old(Buckets(m)), k, id)
  {
    hide Arrays, Buckets, Distinct;
    BucketsOf(m);
    ghost var rows := Append(Buckets(m), k, id);
    var none := new nat[0];
    var s := if k in m then m[k] else Slice(none, 0);
    ArraysUpdate(m, k, s);
    var longer := AppendTo(s, id);
    ArraysUpdate(m, k, longer);
    DistinctUpdate(m, k, longer);
    r := m[k := longer];
    BucketsAre(r, rows);
  }

  /** Shift an id out of one bucket. */
  method RemoveIn<K(==,!new)>(m: map<K, Slice>, k: K, id: nat) returns (r: map<K, Slice>)
    requires Distinct(m)
    modifies Arrays(m)
    ensures Distinct(r) && Arrays(r) <= Arrays(m)
    ensures Buckets(r) == Remove(old(Buckets(m)), k, id)
  {
    hide Arrays, Buckets, Distinct;
    BucketsOf(m);
    ghost var rows := Remove(Buckets(m), k, id);
    if k !in m {
      return m;
    }
    ArraysUpdate(m, k, m[k]);
    var shorter, found := RemoveId(m[k], id);
    ArraysUpdate(m, k, shorter);
    if !found {
      BucketsAre(m, rows);
      return m;
    }
    DistinctUpdate(m, k, shorter);
    r := m[k := shorter];
    BucketsAre(r, rows);
  }

  /** Two maps of slices that share neither their objects nor their arrays. */
  ghost predicate Apart<K>(d: Dict<K, Slice>, e: Dict<K, Slice>)
    reads d, e
  {
    && d != e && Arrays(d.entries) !! Arrays(e.entries)
    && d !in Arrays(e.entries) && e !in Arrays(d.entries)
  }

  /** What lies inside an old set of objects is apart from what lies outside it. */
  lemma {:induction false} OutsideApart<K>(d: Dict<K, Slice>, e: Dict<K, Slice>, inside: set<object>)
    requires d in inside && Arrays(d.entries) <= inside && e !in inside && Arrays(e.entries) !! inside
    ensures Apart(d, e)
  {}

  class SliceIndex<K(==,!new)> {
    var cur: Dict<K, Slice>
    var saved: seq<Dict<K, Slice>>
    /** The current buckets, and those each saved copy would bring back, oldest first. */
    ghost var Rows: map<K, seq<nat>>
    ghost var Stack: seq<map<K, seq<nat>>>
    ghost var Repr: set<object>

    /** A map of slices of this index: its arrays are its own. */
    ghost predicate Owns(d: Dict<K, Slice>)
      reads this, d
    {
      && d in Repr && Distinct(d.entries) && Arrays(d.entries) <= Repr
      && this !in Arrays(d.entries) && d !in Arrays(d.entries)
    }

    ghost predicate Valid()
      reads this, Repr
      ensures Valid() ==> this in Repr
    {
      && this in Repr
      && cur in Repr && Owns(cur) && Rows == Buckets(cur.entries)
      && |Stack| == |saved|
      && (forall i :: 0 <= i < |saved| ==> saved[i] in Repr && Owns(saved[i]) && Apart(cur, saved[i]))
      && (forall i :: 0 <= i < |saved| ==> Stack[i] == Buckets(saved[i].entries))
      && (forall i, j :: 0 <= i < j < |saved| ==> Apart(saved[i], saved[j]))
    }

    constructor ()
      ensures Valid() && fresh(Repr)
      ensures Rows == map[] && Stack == []
    {
      cur := new Dict();
      saved := [];
      Rows, Stack := map[], [];
      new;
      Repr := {this, cur};
    }

    /** All current buckets. */
    method All() returns (m: map<K, seq<nat>>)
      requires Valid()
      ensures m == Rows
    {
      m := map k | k in cur.entries :: cur.entries[k].data[..cur.entries[k].len];
    }

    /** Append to a bucket, starting an empty one for a new key. */
    method Append(k: K, id: nat)
      requires Valid()
      modifies Repr
      ensures Valid() && fresh(Repr - old(Repr))
      ensures Rows == ChainState.Append(old(Rows), k, id) && Stack == old(Stack)
    {
      hide Distinct, Buckets, Arrays, ChainState.Append;
      var longer := AppendIn(cur.entries, k, id);
      cur.entries := longer;
      Repr := Repr + Arrays(longer);
      Rows := ChainState.Append(Rows, k, id);
    }

    /** Shift an id out of a bucket in place; the bucket stays, even when it becomes empty. */
    method Remove(k: K, id: nat)
      requires Valid()
      modifies Repr
      ensures Valid() && fresh(Repr - old(Repr))
      ensures Rows == ChainState.Remove(old(Rows), k, id) && Stack == old(Stack)
    {
      hide Distinct, Buckets, Arrays, ChainState.Remove;
      var shorter := RemoveIn(cur.entries, k, id);
      cur.entries := shorter;
      Rows := ChainState.Remove(Rows, k, id);
    }

    /** Save a new map whose slices are copies. */
    method Push()
      requires Valid()
      modifies Repr
      ensures Valid() && fresh(Repr - old(Repr))
      ensures Rows == old(Rows) && Stack == old(Stack) + [old(Rows)]
    {
      hide Distinct, Buckets, Arrays, Apart;
      var c := new Dict();
      var copies := CloneAll(cur.entries);
      c.entries := copies;
      OutsideApart(cur, c, Repr);
      forall i | 0 <= i < |saved| ensures Apart(saved[i], c) {
        OutsideApart(saved[i], c, Repr);
      }
      saved := saved + [c];
      Stack := Stack + [Rows];
      Repr := Repr + {c} + Arrays(copies);
    }

    method Restore(i: nat)
      requires Valid() && i < |Stack|
      modifies this
      ensures Valid() && Repr == old(Repr)
      ensures Rows == old(Stack)[i] && Stack == old(Stack)[..i]
    {
      hide Distinct, Buckets, Arrays;
      cur := saved[i];
      saved := saved[..i];
      Rows, Stack := Stack[i], Stack[..i];
    }

    method Drop(i: nat)
      requires Valid() && i < |Stack|
      modifies this
      ensures Valid() && Repr == old(Repr)
      ensures Rows == old(Rows) && Stack == old(Stack)[..i]
    {
      hide Distinct, Buckets, Arrays;
      saved := saved[..i];
      Stack := Stack[..i];
    }
  }
}
