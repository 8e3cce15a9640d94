/**
 * The mempool: pending transactions by hash and, per sender, in nonce order.  Draining for a
 * block takes the first transactions in the order sender address, then nonce.
 */
module Mempool {
  import opened Collections
  import opened Rules
  import opened ChainState
  import opened Executor

  const DEFAULT_SIZE := 10000

  ghost predicate NonceSorted(txs: seq<Tx>) {
    forall i, j :: 0 <= i < j < |txs| ==> txs[i].nonce <= txs[j].nonce
  }

  ghost predicate HashesDistinct(txs: seq<Tx>) {
    forall i, j :: 0 <= i < j < |txs| ==> txs[i].hash != txs[j].hash
  }

  /** One sender's queue: never empty, nonce-ordered, without repeats, and only pending transactions of the sender. */
  ghost predicate QueueOk(pending: map<Hash, Tx>, from: Address, txs: seq<Tx>) {
    && txs != [] && NonceSorted(txs) && HashesDistinct(txs)
    && forall tx :: tx in txs ==> tx.from == from && tx.hash in pending && pending[tx.hash] == tx
  }

  /** The two indexes hold the same transactions. */
  ghost predicate Consistent(pending: map<Hash, Tx>, byNonce: map<Address, seq<Tx>>) {
    && (forall a :: a in byNonce ==> QueueOk(pending, a, byNonce[a]))
    && (forall h :: h in pending ==> pending[h].hash == h && pending[h].from in byNonce && pending[h] in byNonce[pending[h].from])
  }

  // ---------------------------------------------------------------- the order of draining

  ghost function Concat(byNonce: map<Address, seq<Tx>>, senders: seq<Address>): seq<Tx>
    requires forall a :: a in senders ==> a in byNonce
  {
    if senders == [] then [] else byNonce[senders[0]] + Concat(byNonce, senders[1..])
  }

  /** All pending transactions, senders in address order, each sender's in nonce order. */
  ghost function Ordered(byNonce: map<Address, seq<Tx>>): seq<Tx> {
    Concat(byNonce, SortedSeq(byNonce.Keys))
  }

  lemma {:induction false} NextSender(m: map<Address, seq<Tx>>, senders: seq<Address>, s: nat, before: seq<Tx>)
    requires s < |senders| && forall a :: a in senders ==> a in m
    ensures before + Concat(m, senders[s..]) == before + m[senders[s]] + Concat(m, senders[s + 1..])
  {
    assert senders[s..][1..] == senders[s + 1..];
  }

  lemma NoSenders(m: map<Address, seq<Tx>>, senders: seq<Address>)
    requires |senders| == 0
    ensures Concat(m, senders) == []
  {}

  lemma {:induction false} ConcatFrame(m: map<Address, seq<Tx>>, n: map<Address, seq<Tx>>, senders: seq<Address>)
    requires forall a :: a in senders ==> a in m && a in n && m[a] == n[a]
    ensures Concat(m, senders) == Concat(n, senders)
  {
    if senders != [] {
      ConcatFrame(m, n, senders[1..]);
    }
  }

  lemma {:induction false} ConcatMembers(m: map<Address, seq<Tx>>, senders: seq<Address>, tx: Tx)
    requires forall a :: a in senders ==> a in m
    ensures tx in Concat(m, senders) <==> exists a :: a in senders && tx in m[a]
  {
    if senders != [] {
      ConcatMembers(m, senders[1..], tx);
      assert senders == [senders[0]] + senders[1..];
    }
  }

  /** The drained order holds exactly the pending transactions. */
  lemma {:induction false} OrderedMembers(pending: map<Hash, Tx>, m: map<Address, seq<Tx>>, tx: Tx)
    requires Consistent(pending, m)
    ensures tx in Ordered(m) <==> tx.hash in pending && pending[tx.hash] == tx
  {
    ConcatMembers(m, SortedSeq(m.Keys), tx);
  }

  /** The order between two transactions: by sender, and by nonce within a sender. */
  predicate NotAfter(x: Tx, y: Tx) {
    x.from < y.from || (x.from == y.from && x.nonce <= y.nonce)
  }

  /** Senders come out by address, and every sender's transactions by non-decreasing nonce. */
  lemma {:induction false} OrderedByNonce(pending: map<Hash, Tx>, m: map<Address, seq<Tx>>, i: nat, j: nat)
    requires Consistent(pending, m) && i < j < |Ordered(m)|
    ensures NotAfter(Ordered(m)[i], Ordered(m)[j])
  {
    ConcatByNonce(pending, m, SortedSeq(m.Keys), i, j);
  }

  lemma {:induction false} ConcatByNonce(pending: map<Hash, Tx>, m: map<Address, seq<Tx>>, senders: seq<Address>, i: nat, j: nat)
    requires Consistent(pending, m) && Sorted(senders) && (forall a :: a in senders ==> a in m)
    requires i < j < |Concat(m, senders)|
    ensures NotAfter(Concat(m, senders)[i], Concat(m, senders)[j])
    decreases |senders|
  {
    var head, tail := m[senders[0]], Concat(m, senders[1..]);
    if i >= |head| {
      ConcatByNonce(pending, m, senders[1..], i - |head|, j - |head|);
    } else if j >= |head| {
      OtherSender(pending, m, senders, i, j - |head|);
    } else {
      assert head[i] in head && head[j] in head;
    }
  }

  lemma {:induction false} OtherSender(pending: map<Hash, Tx>, m: map<Address, seq<Tx>>, senders: seq<Address>, i: nat, j: nat)
    requires Consistent(pending, m) && Sorted(senders) && senders != [] && (forall a :: a in senders ==> a in m)
    requires i < |m[senders[0]]| && j < |Concat(m, senders[1..])|
    ensures m[senders[0]][i].from < Concat(m, senders[1..])[j].from
    ensures m[senders[0]][i].hash != Concat(m, senders[1..])[j].hash
  {
    var head, tail := m[senders[0]], Concat(m, senders[1..]);
    ConcatMembers(m, senders[1..], tail[j]);
    var a :| a in senders[1..] && tail[j] in m[a];
    assert head[i] in head && senders[0] < a;
    assert pending[head[i].hash] == head[i] && pending[tail[j].hash] == tail[j];
  }

  /** No transaction is drained twice. */
  lemma {:induction false} OrderedDistinct(pending: map<Hash, Tx>, m: map<Address, seq<Tx>>)
    requires Consistent(pending, m)
    ensures HashesDistinct(Ordered(m))
  {
    ConcatDistinct(pending, m, SortedSeq(m.Keys));
  }

  lemma {:induction false} ConcatDistinct(pending: map<Hash, Tx>, m: map<Address, seq<Tx>>, senders: seq<Address>)
    requires Consistent(pending, m) && Sorted(senders) && (forall a :: a in senders ==> a in m)
    ensures HashesDistinct(Concat(m, senders))
    decreases |senders|
  {
    if senders != [] {
      var head, tail := m[senders[0]], Concat(m, senders[1..]);
      ConcatDistinct(pending, m, senders[1..]);
      forall i, j | 0 <= i < |head| && 0 <= j < |tail| ensures head[i].hash != tail[j].hash {
        OtherSender(pending, m, senders, i, j);
      }
    }
  }

  // ---------------------------------------------------------------- taking one transaction out

  function Dequeue(txs: seq<Tx>, i: nat): seq<Tx>
    requires i < |txs|
  {
    txs[..i] + txs[i + 1..]
  }

  /** A sender's queue after a removal; an empty queue is dropped. */
  function Requeue(byNonce: map<Address, seq<Tx>>, from: Address, rest: seq<Tx>): map<Address, seq<Tx>> {
    if rest == [] then byNonce - {from} else byNonce[from := rest]
  }

  /** The transaction has been taken out of its sender's queue, and nothing else has changed. */
  ghost predicate Unlinked(was: map<Address, seq<Tx>>, tx: Tx, now: map<Address, seq<Tx>>) {
    && tx.from in was
    && exists i :: 0 <= i < |was[tx.from]| && was[tx.from][i] == tx && now == Requeue(was, tx.from, Dequeue(was[tx.from], i))
  }

  lemma {:induction false} RemovalConsistent(pending: map<Hash, Tx>, byNonce: map<Address, seq<Tx>>, from: Address, i: nat)
    requires Consistent(pending, byNonce) && from in byNonce && i < |byNonce[from]|
    ensures Consistent(pending - {byNonce[from][i].hash}, Requeue(byNonce, from, Dequeue(byNonce[from], i)))
  {
    var txs := byNonce[from];
    var rest := Dequeue(txs, i);
    var m, n := pending - {txs[i].hash}, Requeue(byNonce, from, rest);
    assert txs[i] in txs;
    forall tx ensures tx in rest <==> tx in txs && tx.hash != txs[i].hash {
      DequeueMembers(txs, i, tx);
    }
    forall a | a in n ensures QueueOk(m, a, n[a]) {
      if a != from {
        assert QueueOk(pending, a, byNonce[a]);
      } else {
        DequeueSorted(txs, i);
      }
    }
    forall h | h in m ensures m[h].hash == h && m[h].from in n && m[h] in n[m[h].from] {
      if m[h].from == from {
        assert m[h] in rest;
      }
    }
  }

  lemma {:induction false} DequeueMembers(txs: seq<Tx>, i: nat, tx: Tx)
    requires i < |txs| && HashesDistinct(txs)
    ensures tx in Dequeue(txs, i) <==> tx in txs && tx.hash != txs[i].hash
  {
    assert txs == txs[..i] + [txs[i]] + txs[i + 1..];
    if tx in txs && tx.hash != txs[i].hash {
      var j :| 0 <= j < |txs| && txs[j] == tx;
      assert j < i ==> txs[..i][j] == tx;
      assert j > i ==> txs[i + 1..][j - i - 1] == tx;
    }
  }

  lemma {:induction false} DequeueSorted(txs: seq<Tx>, i: nat)
    requires i < |txs| && HashesDistinct(txs) && NonceSorted(txs)
    ensures HashesDistinct(Dequeue(txs, i)) && NonceSorted(Dequeue(txs, i))
  {}

  lemma {:induction false} HeadRequeued(byNonce: map<Address, seq<Tx>>)
    requires byNonce != map[] && forall a :: a in byNonce ==> byNonce[a] != []
    ensures var a := SortedSeq(byNonce.Keys)[0];
      && a in byNonce && Ordered(byNonce) != [] && Ordered(byNonce)[0] == byNonce[a][0]
      && Ordered(Requeue(byNonce, a, byNonce[a][1..])) == Ordered(byNonce)[1..]
  {
    hide SortedSeq, Concat, Requeue, Ordered;
    var a, senders := FirstSender(byNonce);
    var rest := byNonce[a][1..];
    InOrderOf(byNonce, senders);
    ConcatHead(byNonce, senders);
    RequeuedTail(byNonce, senders, a, rest);
    HeadOff(byNonce[a], Concat(byNonce, senders[1..]));
  }

  lemma {:induction false} FirstSender(byNonce: map<Address, seq<Tx>>) returns (a: Address, senders: seq<Address>)
    requires byNonce != map[]
    ensures senders == SortedSeq(byNonce.Keys) && senders != [] && a == senders[0] && a in byNonce
  {
    hide SortedSeq;
    senders := SortedSeq(byNonce.Keys);
    var x :| x in byNonce;
    assert x in senders;
    a := senders[0];
    assert a in senders;
  }

  lemma HeadOff(first: seq<Tx>, tail: seq<Tx>)
    requires first != []
    ensures (first + tail)[0] == first[0] && (first + tail)[1..] == first[1..] + tail
  {}

  lemma {:induction false} OthersQueued(byNonce: map<Address, seq<Tx>>, senders: seq<Address>, a: Address, rest: seq<Tx>)
    requires NoDup(senders) && senders != [] && senders[0] == a && (forall x :: x in senders ==> x in byNonce)
    ensures var shorter := Requeue(byNonce, a, rest);
      && (forall x :: x in senders[1..] ==> x in byNonce && x in shorter && shorter[x] == byNonce[x])
      && (rest != [] ==> a in shorter && shorter[a] == rest && forall x :: x in senders ==> x in shorter)
  {
    forall x | x in senders[1..] ensures x != a && x in senders {
      var k :| 0 <= k < |senders[1..]| && senders[1..][k] == x;
      assert senders[k + 1] == x;
    }
    assert forall x :: x in senders ==> x == a || x in senders[1..] by { assert senders == [a] + senders[1..]; }
  }

  /** The drain order after the first sender's queue has been replaced by a shorter one. */
  lemma {:induction false} RequeuedTail(byNonce: map<Address, seq<Tx>>, senders: seq<Address>, a: Address, rest: seq<Tx>)
    requires senders == SortedSeq(byNonce.Keys) && senders != [] && senders[0] == a && (forall x :: x in senders ==> x in byNonce)
    ensures Ordered(Requeue(byNonce, a, rest)) == rest + Concat(byNonce, senders[1..])
  {
    hide SortedSeq, Concat, Requeue, NoDup;
    var shorter := Requeue(byNonce, a, rest);
    SortedNoDup(senders);
    RequeueOrder(byNonce, senders, a, rest);
    OthersQueued(byNonce, senders, a, rest);
    ConcatFrame(byNonce, shorter, senders[1..]);
    if rest == [] {
      assert rest + Concat(byNonce, senders[1..]) == Concat(byNonce, senders[1..]);
    } else {
      ConcatHead(shorter, senders);
    }
  }

  lemma ConcatHead(m: map<Address, seq<Tx>>, senders: seq<Address>)
    requires senders != [] && forall a :: a in senders ==> a in m
    ensures senders[0] in senders && Concat(m, senders) == m[senders[0]] + Concat(m, senders[1..])
  {}

  lemma {:induction false} RequeueOrder(byNonce: map<Address, seq<Tx>>, senders: seq<Address>, a: Address, rest: seq<Tx>)
    requires senders == SortedSeq(byNonce.Keys) && senders != [] && senders[0] == a && NoDup(senders)
    ensures SortedSeq(Requeue(byNonce, a, rest).Keys) == if rest == [] then senders[1..] else senders
  {
    hide SortedSeq, Insert;
    assert a in senders;
    if rest == [] {
      assert senders == [a] + senders[1..];
      assert forall x :: x in senders[1..] <==> x in byNonce && x != a;
      SortedUnique(SortedSeq(Requeue(byNonce, a, rest).Keys), senders[1..]);
    } else {
      assert Requeue(byNonce, a, rest).Keys == byNonce.Keys;
    }
  }

  /** Removing the first transaction in the order leaves the rest of the order. */
  lemma {:induction false} FirstRemoved(byNonce: map<Address, seq<Tx>>, pending: map<Hash, Tx>)
    requires Consistent(pending, byNonce) && Ordered(byNonce) != []
    ensures var tx := Ordered(byNonce)[0];
      && tx.from in byNonce && byNonce[tx.from] != [] && byNonce[tx.from][0] == tx
      && Ordered(Requeue(byNonce, tx.from, byNonce[tx.from][1..])) == Ordered(byNonce)[1..]
  {
    hide SortedSeq, NonceSorted, HashesDistinct;
    var tx := Ordered(byNonce)[0];
    assert tx in Ordered(byNonce);
    ConcatMembers(byNonce, SortedSeq(byNonce.Keys), tx);
    HeadRequeued(byNonce);
    var a := SortedSeq(byNonce.Keys)[0];
    assert byNonce[a][0] in byNonce[a];
  }

  // ---------------------------------------------------------------- sorting a queue by nonce

  /** Some ordering by nonce of the same transactions (the order among equal nonces is left open). */
  ghost predicate SortOf(txs: seq<Tx>, sorted: seq<Tx>) {
    NonceSorted(sorted) && multiset(sorted) == multiset(txs)
  }

  method InsertByNonce(txs: seq<Tx>, tx: Tx) returns (r: seq<Tx>)
    requires NonceSorted(txs)
    ensures SortOf(txs + [tx], r)
  {
    var i := |txs|;
    while i > 0 && txs[i - 1].nonce > tx.nonce
      invariant 0 <= i <= |txs|
      invariant forall j :: i <= j < |txs| ==> txs[j].nonce > tx.nonce
    {
      i := i - 1;
    }
    r := txs[..i] + [tx] + txs[i..];
    SameTxs(txs, tx, i);
  }

  lemma {:induction false} SameTxs(txs: seq<Tx>, tx: Tx, i: nat)
    requires i <= |txs|
    ensures multiset(txs[..i] + [tx] + txs[i..]) == multiset(txs + [tx])
  {
    assert txs == txs[..i] + txs[i..];
  }

  lemma {:induction false} SortMembers(txs: seq<Tx>, sorted: seq<Tx>, tx: Tx)
    requires SortOf(txs, sorted)
    ensures tx in sorted <==> tx in txs
  {
    assert tx in sorted <==> tx in multiset(sorted);
    assert tx in txs <==> tx in multiset(txs);
  }

  lemma {:induction false} SortDistinct(txs: seq<Tx>, sorted: seq<Tx>)
    requires SortOf(txs, sorted) && HashesDistinct(txs)
    ensures HashesDistinct(sorted)
  {
    forall i, j | 0 <= i < j < |sorted| ensures sorted[i].hash != sorted[j].hash {
      SortMembers(txs, sorted, sorted[i]);
      SortMembers(txs, sorted, sorted[j]);
      if sorted[i] == sorted[j] {
        TwiceCounted(sorted, i, j);
        OnceCounted(txs, sorted[i]);
      }
    }
  }

  lemma {:induction false} TwiceCounted(s: seq<Tx>, i: nat, j: nat)
    requires i < j < |s| && s[i] == s[j]
    ensures multiset(s)[s[i]] >= 2
  {
    assert s == s[..j] + [s[j]] + s[j + 1..];
    assert s[..j][i] == s[i];
    assert s[i] in multiset(s[..j]);
  }

  lemma {:induction false} OnceCounted(s: seq<Tx>, tx: Tx)
    requires HashesDistinct(s)
    ensures multiset(s)[tx] <= 1
  {
    if s != [] {
      OnceCounted(s[1..], tx);
      assert s == [s[0]] + s[1..];
      if s[0] == tx {
        assert tx !in s[1..];
        assert tx !in multiset(s[1..]);
      }
    }
  }

  /** The queue of the sender after an addition. */
  lemma {:induction false} AddedQueue(pending: map<Hash, Tx>, was: seq<Tx>, tx: Tx, txs: seq<Tx>)
    requires (was == [] || QueueOk(pending, tx.from, was)) && tx.hash !in pending && SortOf(was + [tx], txs)
    ensures QueueOk(pending[tx.hash := tx], tx.from, txs)
    ensures forall t :: t in txs <==> t in was || t == tx
  {
    forall t ensures t in txs <==> t in was || t == tx {
      SortMembers(was + [tx], txs, t);
    }
    assert HashesDistinct(was + [tx]) by {
      assert forall i :: 0 <= i < |was| ==> was[i] in was;
    }
    SortDistinct(was + [tx], txs);
    assert tx in txs;
  }

  lemma {:induction false} AddConsistent(pending: map<Hash, Tx>, byNonce: map<Address, seq<Tx>>, tx: Tx, txs: seq<Tx>)
    requires Consistent(pending, byNonce) && tx.hash !in pending
    requires SortOf((if tx.from in byNonce then byNonce[tx.from] else []) + [tx], txs)
    ensures Consistent(pending[tx.hash := tx], byNonce[tx.from := txs])
  {
    hide NonceSorted, HashesDistinct, SortOf;
    var was := if tx.from in byNonce then byNonce[tx.from] else [];
    var m, n := pending[tx.hash := tx], byNonce[tx.from := txs];
    AddedQueue(pending, was, tx, txs);
    forall a | a in n ensures QueueOk(m, a, n[a]) {
      if a != tx.from {
        assert QueueOk(pending, a, byNonce[a]);
      }
    }
  }

  // ---------------------------------------------------------------- adding back what a reverted block drained

  /** The pending set after trying to add transactions in order: duplicates and overflow are refused. */
  ghost function WithAll(pending: map<Hash, Tx>, maxSize: nat, txs: seq<Tx>): map<Hash, Tx> {
    if txs == [] then pending
    else
      var before, tx := WithAll(pending, maxSize, txs[..|txs| - 1]), txs[|txs| - 1];
      if tx.hash in before || |before| >= maxSize then before else before[tx.hash := tx]
  }

  ghost function HashSet(txs: seq<Tx>): set<Hash> {
    set i | 0 <= i < |txs| :: txs[i].hash
  }

  lemma {:induction false} HashSetGrows(txs: seq<Tx>)
    requires txs != []
    ensures HashSet(txs) == HashSet(txs[..|txs| - 1]) + {txs[|txs| - 1].hash}
  {
    var n := |txs| - 1;
    forall h ensures h in HashSet(txs) <==> h in HashSet(txs[..n]) || h == txs[n].hash {
      if h in HashSet(txs) {
        var i :| 0 <= i < |txs| && txs[i].hash == h;
        assert i < n ==> txs[..n][i].hash == h;
      }
      if h in HashSet(txs[..n]) {
        var i :| 0 <= i < n && txs[..n][i].hash == h;
        assert txs[i].hash == h;
      }
    }
  }

  /** The pool with every listed transaction in it. */
  ghost function Joined(pending: map<Hash, Tx>, txs: seq<Tx>): map<Hash, Tx> {
    if txs == [] then pending else Joined(pending, txs[..|txs| - 1])[txs[|txs| - 1].hash := txs[|txs| - 1]]
  }

  lemma {:induction false} JoinedKeys(pending: map<Hash, Tx>, txs: seq<Tx>)
    ensures Joined(pending, txs).Keys == pending.Keys + HashSet(txs)
  {
    hide HashSet;
    if txs == [] {
      NoHashes();
    } else {
      JoinedKeys(pending, txs[..|txs| - 1]);
      HashSetGrows(txs);
    }
  }

  /** Putting distinct transactions of a larger pool back into what is left of it loses none of them. */
  lemma {:induction false} ReinsertLosesNone(whole: map<Hash, Tx>, pending: map<Hash, Tx>, maxSize: nat, txs: seq<Tx>)
    requires |whole| <= maxSize && pending.Keys <= whole.Keys
    requires forall i :: 0 <= i < |txs| ==> txs[i].hash in whole && txs[i].hash !in pending
    requires HashesDistinct(txs)
    ensures WithAll(pending, maxSize, txs) == Joined(pending, txs)
  {
    hide HashSet;
    if txs != [] {
      var n := |txs| - 1;
      var before := Joined(pending, txs[..n]);
      ReinsertLosesNone(whole, pending, maxSize, txs[..n]);
      JoinedKeys(pending, txs[..n]);
      HashSetWithin(txs[..n], whole.Keys, txs[n].hash);
      HasRoom(before, whole, txs[n].hash);
    }
  }

  lemma {:induction false} HasRoom(a: map<Hash, Tx>, b: map<Hash, Tx>, h: Hash)
    requires a.Keys <= b.Keys && h in b && h !in a
    ensures |a| < |b|
  {
    RoomLeft(a.Keys, b.Keys, h);
    assert |a| == |a.Keys| && |b| == |b.Keys|;
  }

  /** Draining some transactions and putting back those of them that succeeded removes exactly the others. */
  lemma {:induction false} JoinedBack(whole: map<Hash, Tx>, drained: set<Hash>, txs: seq<Tx>)
    requires forall i :: 0 <= i < |txs| ==> txs[i].hash in whole && whole[txs[i].hash] == txs[i]
    ensures Joined(whole - drained, txs) == whole - (drained - HashSet(txs))
  {
    hide HashSet;
    if txs == [] {
      NoHashes();
      assert drained - {} == drained;
    } else {
      var n := |txs| - 1;
      JoinedBack(whole, drained, txs[..n]);
      HashSetGrows(txs);
    }
  }

  lemma NoHashes()
    ensures HashSet([]) == {}
  {}

  lemma MinusOne(m: map<Hash, Tx>, a: set<Hash>, h: Hash)
    ensures (m - a) - {h} == m - (a + {h})
    ensures m - {} == m
  {}

  lemma {:induction false} HashSetWithin(txs: seq<Tx>, all: set<Hash>, h: Hash)
    requires forall i :: 0 <= i < |txs| ==> txs[i].hash in all && txs[i].hash != h
    ensures HashSet(txs) <= all && h !in HashSet(txs)
  {}

  lemma {:induction false} RoomLeft(a: set<Hash>, b: set<Hash>, h: Hash)
    requires a <= b && h in b - a
    ensures |a| < |b|
  {
    SubsetCard(a + {h}, b);
  }

  lemma {:induction false} SubsetCard(a: set<Hash>, b: set<Hash>)
    requires a <= b
    ensures |a| <= |b|
  {
    assert b == a + (b - a);
  }

  // ---------------------------------------------------------------- the pool

  class Mempool {
    var pending: map<Hash, Tx>
    var byNonce: map<Address, seq<Tx>>
    const maxSize: nat

    ghost predicate Valid()
      reads this
    {
      Consistent(pending, byNonce) && |pending| <= maxSize
    }

    constructor (maxSize: int)
      ensures Valid() && pending == map[] && byNonce == map[]
      ensures this.maxSize == if maxSize <= 0 then DEFAULT_SIZE else maxSize
    {
      pending, byNonce := map[], map[];
      this.maxSize := if maxSize <= 0 then DEFAULT_SIZE else maxSize;
    }

    /** Refuses a known hash and a full pool; otherwise the transaction joins both indexes. */
    method Add(tx: Tx) returns (ok: bool)
      requires Valid()
      modifies this
      ensures Valid()
      ensures ok <==> tx.hash !in old(pending) && |old(pending)| < maxSize
      ensures pending == if ok then old(pending)[tx.hash := tx] else old(pending)
      ensures !ok ==> byNonce == old(byNonce)
      ensures ok ==> tx.from in byNonce && byNonce == old(byNonce)[tx.from := byNonce[tx.from]]
      ensures ok ==> SortOf((if tx.from in old(byNonce) then old(byNonce)[tx.from] else []) + [tx], byNonce[tx.from])
    {
      if tx.hash in pending {
        return false;
      }
      if |pending| >= maxSize {
        return false;
      }
      var txs := if tx.from in byNonce then byNonce[tx.from] else [];
      txs := InsertByNonce(txs, tx);
      AddConsistent(pending, byNonce, tx, txs);
      pending := pending[tx.hash := tx];
      byNonce := byNonce[tx.from := txs];
      ok := true;
    }

    /** Find the transaction in its sender's queue and close the gap. */
    method Unlink(tx: Tx)
      requires Valid() && tx.hash in pending && pending[tx.hash] == tx
      modifies this
      ensures Valid() && pending == old(pending) - {tx.hash}
      ensures Unlinked(old(byNonce), tx, byNonce)
    {
      var txs := byNonce[tx.from];
      var i := 0;
      while txs[i].hash != tx.hash
        invariant 0 <= i < |txs| && forall j :: 0 <= j < i ==> txs[j].hash != tx.hash
        decreases |txs| - i
      {
        assert exists j :: 0 <= j < |txs| && txs[j] == tx;
        i := i + 1;
      }
      assert txs[i] in txs;
      RemovalConsistent(pending, byNonce, tx.from, i);
      pending := pending - {tx.hash};
      byNonce := Requeue(byNonce, tx.from, Dequeue(txs, i));
      assert pending.Keys <= old(pending).Keys;
      SubsetCard(pending.Keys, old(pending).Keys);
      assert |pending| == |pending.Keys| && |old(pending)| == |old(pending).Keys|;
    }

    method Remove(hash: Hash)
      requires Valid()
      modifies this
      ensures Valid() && pending == old(pending) - {hash}
      ensures forall a :: a in old(byNonce) && (hash in old(pending) ==> a != old(pending)[hash].from) ==>
        a in byNonce && byNonce[a] == old(byNonce)[a]
    {
      if hash in pending {
        Unlink(pending[hash]);
      } else {
        assert pending - {hash} == pending;
      }
    }

    /** The first maxTxs transactions in the drain order, without removing them. */
    method Select(maxTxs: int) returns (result: seq<Tx>)
      requires Valid()
      ensures var k := Clamp(maxTxs, |Ordered(byNonce)|); result == Ordered(byNonce)[..k]
    {
      hide Consistent, SortedSeq, Concat, Ordered;
      var senders := Enumerate(byNonce.Keys);
      InOrderOf(byNonce, senders);
      ghost var all := Ordered(byNonce);
      result := [];
      var s := 0;
      assert senders[0..] == senders;
      while s < |senders|
        invariant 0 <= s <= |senders|
        invariant result + Concat(byNonce, senders[s..]) == all
        invariant s > 0 ==> |result| < maxTxs
        invariant s == 0 ==> result == []
      {
        ghost var was, rest := result, Concat(byNonce, senders[s + 1..]);
        NextSender(byNonce, senders, s, was);
        result := Take(byNonce[senders[s]], result, maxTxs);
        Taken(was, byNonce[senders[s]], rest, maxTxs);
        if |result| >= maxTxs {
          return;
        }
        s := s + 1;
      }
      NoSenders(byNonce, senders[s..]);
      assert result == all && all == all[..|all|];
    }

    /** Take the first maxTxs transactions in the drain order out of the pool. */
    method DrainForBlock(maxTxs: int) returns (result: seq<Tx>)
      requires Valid()
      modifies this
      ensures Valid()
      ensures var all := old(Ordered(byNonce)); var k := Clamp(maxTxs, |all|);
        result == all[..k] && Ordered(byNonce) == all[k..]
      ensures pending == old(pending) - HashSet(result)
    {
      hide Consistent, Ordered, HashSet, Requeue;
      result := Select(maxTxs);
      ghost var all := Ordered(byNonce);
      var i := 0;
      NoHashes();
      MinusOne(pending, {}, 0);
      assert result[..0] == [];
      while i < |result|
        invariant 0 <= i <= |result| && result == all[..|result|]
        invariant Valid() && Ordered(byNonce) == all[i..]
        invariant pending == old(pending) - HashSet(result[..i])
      {
        assert Ordered(byNonce)[0] == result[i] && all[i..][1..] == all[i + 1..];
        RemoveFirst(result[i].hash);
        assert result[..i + 1][..i] == result[..i];
        HashSetGrows(result[..i + 1]);
        MinusOne(old(pending), HashSet(result[..i]), result[i].hash);
        i := i + 1;
      }
      assert result[..i] == result;
    }

    /** Take out the transaction that comes first in the drain order. */
    method RemoveFirst(hash: Hash)
      requires Valid() && Ordered(byNonce) != [] && Ordered(byNonce)[0].hash == hash
      modifies this
      ensures Valid() && pending == old(pending) - {hash} && Ordered(byNonce) == old(Ordered(byNonce))[1..]
    {
      hide Ordered, Requeue;
      ghost var first := Ordered(byNonce)[0];
      ghost var queues := byNonce;
      assert first in Ordered(byNonce);
      OrderedMembers(pending, byNonce, first);
      FirstRemoved(byNonce, pending);
      var tx := pending[hash];
      assert QueueOk(pending, tx.from, byNonce[tx.from]);
      Unlink(tx);
      SameFirst(queues[tx.from], tx, queues, byNonce);
    }

    method ReinsertAll(txs: seq<Tx>)
      requires Valid()
      modifies this
      ensures Valid() && pending == WithAll(old(pending), maxSize, txs)
    {
      var i := 0;
      while i < |txs|
        invariant 0 <= i <= |txs| && Valid() && pending == WithAll(old(pending), maxSize, txs[..i])
      {
        assert txs[..i + 1][..i] == txs[..i];
        var ok := Add(txs[i]);
        i := i + 1;
      }
      assert txs[..i] == txs;
    }
  }

  /** Append transactions while the block has room. */
  method Take(txs: seq<Tx>, taken: seq<Tx>, maxTxs: int) returns (result: seq<Tx>)
    ensures result == taken + txs[..Clamp(maxTxs - |taken|, |txs|)]
  {
    result := taken;
    var i := 0;
    while i < |txs| && |result| < maxTxs
      invariant 0 <= i <= |txs| && result == taken + txs[..i]
      invariant i > 0 ==> |result| <= maxTxs
    {
      result := result + [txs[i]];
      i := i + 1;
    }
  }

  lemma {:induction false} InOrderOf(m: map<Address, seq<Tx>>, senders: seq<Address>)
    requires senders == SortedSeq(m.Keys)
    ensures Ordered(m) == Concat(m, senders) && forall a :: a in senders ==> a in m
  {}

  /** What is taken from one queue either fills the limit or leaves only the later queues. */
  lemma {:induction false} Taken(was: seq<Tx>, txs: seq<Tx>, rest: seq<Tx>, maxTxs: int)
    requires was == [] || |was| < maxTxs
    ensures var all, result := was + txs + rest, was + txs[..Clamp(maxTxs - |was|, |txs|)];
      && (|result| >= maxTxs ==> result == all[..Clamp(maxTxs, |all|)])
      && (|result| < maxTxs ==> result + rest == all)
  {
    var all, k := was + txs + rest, Clamp(maxTxs - |was|, |txs|);
    assert was + txs[..k] == all[..|was| + k];
  }

  /** A limit on a count: negative limits allow nothing. */
  function Clamp(limit: int, count: nat): (k: nat)
    ensures k <= count
  {
    if limit <= 0 then 0 else if limit < count then limit else count
  }

  lemma {:induction false} SameFirst(txs: seq<Tx>, tx: Tx, was: map<Address, seq<Tx>>, now: map<Address, seq<Tx>>)
    requires HashesDistinct(txs) && txs != [] && txs[0] == tx
    requires tx.from in was && was[tx.from] == txs && Unlinked(was, tx, now)
    ensures now == Requeue(was, tx.from, txs[1..])
  {
    assert Dequeue(txs, 0) == txs[1..];
  }
}
