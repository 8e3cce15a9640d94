/**
 * The state root: a Merkle root over each of six tables in key order, combined into one digest.
 * It depends on the contents of those tables alone, and determines them.
 */
module StateRoot {
  import Numbers
  import opened Collections
  import opened Rules
  import opened ChainState
  import opened Merkle

  // ---------------------------------------------------------------- keys in byte order

  /** A table key: an address, a hash, or several of them; compared part by part. */
  type Key = seq<nat>

  predicate KeyLess(a: Key, b: Key) {
    b != [] && (a == [] || a[0] < b[0] || (a[0] == b[0] && KeyLess(a[1..], b[1..])))
  }

  lemma {:induction false} KeyLessConnected(a: Key, b: Key)
    ensures a == b || KeyLess(a, b) || KeyLess(b, a)
    decreases |a|
  {
    if a != [] && b != [] && a[0] == b[0] {
      KeyLessConnected(a[1..], b[1..]);
      assert a == [a[0]] + a[1..] && b == [b[0]] + b[1..];
    }
  }

  lemma {:induction false} KeyLessIrreflexive(a: Key)
    ensures !KeyLess(a, a)
    decreases |a|
  {
    if a != [] {
      KeyLessIrreflexive(a[1..]);
    }
  }

  lemma {:induction false} KeyLessTransitive(a: Key, b: Key, c: Key)
    requires KeyLess(a, b) && KeyLess(b, c)
    ensures KeyLess(a, c)
    decreases |a|
  {
    if a != [] && a[0] == b[0] == c[0] {
      KeyLessTransitive(a[1..], b[1..], c[1..]);
    }
  }

  predicate KeysSorted(s: seq<Key>) {
    forall i, j :: 0 <= i < j < |s| ==> KeyLess(s[i], s[j])
  }

  function InsertKey(s: seq<Key>, x: Key): (r: seq<Key>)
    requires KeysSorted(s)
    ensures KeysSorted(r)
    ensures forall y :: y in r <==> y in s || y == x
  {
    if s == [] then [x]
    else if x == s[0] then s
    else if KeyLess(x, s[0]) then
      HeadBelow(x, s);
      [x] + s
    else
      KeyLessConnected(x, s[0]);
      assert s == [s[0]] + s[1..];
      var t := InsertKey(s[1..], x);
      assert forall i :: 0 <= i < |t| ==> t[i] in t;
      assert forall y :: y in s[1..] ==> KeyLess(s[0], y);
      [s[0]] + t
  }

  lemma {:induction false} HeadBelow(x: Key, s: seq<Key>)
    requires KeysSorted(s) && s != [] && KeyLess(x, s[0])
    ensures forall i :: 0 <= i < |s| ==> KeyLess(x, s[i])
  {
    forall i | 0 <= i < |s| ensures KeyLess(x, s[i]) {
      if i > 0 {
        KeyLessTransitive(x, s[0], s[i]);
      }
    }
  }

  /** The elements of a set of keys in key order. */
  ghost function SortedKeys(s: set<Key>): (r: seq<Key>)
    ensures KeysSorted(r)
    ensures forall x :: x in r <==> x in s
  {
    if s == {} then []
    else
      var x :| x in s;
      InsertKey(SortedKeys(s - {x}), x)
  }

  lemma {:induction false} SortedKeysNoDup(s: seq<Key>)
    requires KeysSorted(s)
    ensures NoDup(s)
  {
    forall i, j | 0 <= i < j < |s| ensures s[i] != s[j] {
      KeyLessIrreflexive(s[i]);
    }
  }

  lemma {:induction false} TailKeys(s: seq<Key>, x: Key)
    requires KeysSorted(s) && s != []
    ensures x in s[1..] <==> x in s && x != s[0]
  {
    assert s == [s[0]] + s[1..];
    SortedKeysNoDup(s);
    assert s[0] !in s[1..];
  }

  lemma {:induction false} SameHead(a: seq<Key>, b: seq<Key>)
    requires KeysSorted(a) && KeysSorted(b) && a != [] && b != []
    requires forall x :: x in a <==> x in b
    ensures a[0] == b[0]
  {
    assert a[0] in b && b[0] in a;
    var i :| 0 <= i < |b| && b[i] == a[0];
    var j :| 0 <= j < |a| && a[j] == b[0];
    if i > 0 && j > 0 {
      KeyLessTransitive(a[0], b[0], a[0]);
      KeyLessIrreflexive(a[0]);
    }
  }

  /** A sorted enumeration of keys is determined by the set. */
  lemma {:induction false} KeysUnique(a: seq<Key>, b: seq<Key>)
    requires KeysSorted(a) && KeysSorted(b)
    requires forall x :: x in a <==> x in b
    ensures a == b
    decreases |a|
  {
    assert a != [] ==> a[0] in b;
    assert b != [] ==> b[0] in a;
    if a != [] {
      SameHead(a, b);
      forall x ensures x in a[1..] <==> x in b[1..] {
        TailKeys(a, x);
        TailKeys(b, x);
      }
      KeysUnique(a[1..], b[1..]);
    }
  }

  // ---------------------------------------------------------------- one table

  function KeyOf(l: Leaf): Key {
    match l
    case AccountLeaf(address, _) => [address]
    case PayLinkLeaf(paylink) => [paylink.id]
    case ValidatorLeaf(validator) => [validator.address]
    case ProofLeaf(proof) => [proof]
    case OperatorLeaf(owner, operator) => [owner, operator]
    case OffenceLeaf(DoubleSignAt(validator, height)) => [0, validator, height]
    case OffenceLeaf(EquivocationOn(validator, seed)) => [1, validator, seed]
  }

  /** Every entry carries its own key. */
  ghost predicate SelfKeyed(m: map<Key, Leaf>) {
    forall k :: k in m ==> KeyOf(m[k]) == k
  }

  function Entries(m: map<Key, Leaf>, keys: seq<Key>): (r: seq<Leaf>)
    requires forall k :: k in keys ==> k in m
    ensures |r| == |keys|
  {
    seq(|keys|, i requires 0 <= i < |keys| => m[keys[i]])
  }

  ghost function TableRoot(m: map<Key, Leaf>): Digest {
    MerkleRoot(Hashes(Entries(m, SortedKeys(m.Keys))))
  }

  lemma {:induction false} EntriesDistinct(m: map<Key, Leaf>, keys: seq<Key>)
    requires SelfKeyed(m) && NoDup(keys) && (forall k :: k in keys ==> k in m)
    ensures NoDup(Entries(m, keys))
  {
    forall i, j | 0 <= i < j < |keys| ensures Entries(m, keys)[i] != Entries(m, keys)[j] {
      assert KeyOf(m[keys[i]]) == keys[i] && KeyOf(m[keys[j]]) == keys[j];
    }
  }

  /** Equal roots mean equal tables. */
  lemma {:induction false} TableRootInjective(m: map<Key, Leaf>, n: map<Key, Leaf>)
    requires SelfKeyed(m) && SelfKeyed(n) && TableRoot(m) == TableRoot(n)
    ensures m == n
  {
    hide MerkleRoot, Hashes, KeyOf, NoDup, KeysSorted;
    var ks, js := SortedKeys(m.Keys), SortedKeys(n.Keys);
    SortedKeysNoDup(ks);
    SortedKeysNoDup(js);
    EntriesDistinct(m, ks);
    EntriesDistinct(n, js);
    RootInjective(Entries(m, ks), Entries(n, js));
    assert |ks| == |js|;
    forall i | 0 <= i < |ks| ensures ks[i] == js[i] && m[ks[i]] == n[js[i]] {
      assert Entries(m, ks)[i] == Entries(n, js)[i];
      assert KeyOf(m[ks[i]]) == ks[i] && KeyOf(n[js[i]]) == js[i];
    }
    assert ks == js;
    forall k ensures k in m <==> k in n {
      assert k in ks <==> k in m;
      assert k in js <==> k in n;
    }
    forall k | k in m ensures m[k] == n[k] {
      assert k in ks;
    }
  }

  /** Walk the table in any order, sort the keys, hash the entries, fold the tree. */
  method ComputeTableRoot(m: map<Key, Leaf>) returns (root: Digest)
    ensures root == TableRoot(m)
  {
    var keys: seq<Key> := [];
    var rest := m.Keys;
    while rest != {}
      invariant rest <= m.Keys && KeysSorted(keys)
      invariant forall k :: k in keys <==> k in m && k !in rest
      decreases |rest|
    {
      var k :| k in rest;
      rest := rest - {k};
      keys := InsertKey(keys, k);
    }
    KeysUnique(keys, SortedKeys(m.Keys));
    root := ComputeRoot(Hashes(Entries(m, keys)));
  }

  // ---------------------------------------------------------------- the six tables

  function AccountTable(s: State): map<Key, Leaf> { map a | a in s.bank.accounts :: [a] := AccountLeaf(a, s.bank.accounts[a]) }
  function PayLinkTable(s: State): map<Key, Leaf> { map id | id in s.links.paylinks :: [id] := PayLinkLeaf(s.links.paylinks[id]) }
  function ValidatorTable(s: State): map<Key, Leaf> { map a | a in s.bank.validators :: [a] := ValidatorLeaf(s.bank.validators[a]) }
  function ProofTable(s: State): map<Key, Leaf> { map h | h in s.links.usedProofs :: [h] := ProofLeaf(h) }
  function OperatorTable(s: State): map<Key, Leaf> { map o | o in s.links.operators :: [o.0, o.1] := OperatorLeaf(o.0, o.1) }
  function OffenceTable(s: State): map<Key, Leaf> { map e | e in s.evidence :: KeyOf(OffenceLeaf(e)) := OffenceLeaf(e) }

  ghost function Root(s: State): Digest {
    CombinedHash([TableRoot(AccountTable(s)), TableRoot(PayLinkTable(s)), TableRoot(ValidatorTable(s)),
                  TableRoot(ProofTable(s)), TableRoot(OperatorTable(s)), TableRoot(OffenceTable(s))])
  }

  method ComputeStateRoot(s: State) returns (root: Digest)
    ensures root == Root(s)
  {
    hide TableRoot, AccountTable, PayLinkTable, ValidatorTable, ProofTable, OperatorTable, OffenceTable;
    var accounts := ComputeTableRoot(AccountTable(s));
    var paylinks := ComputeTableRoot(PayLinkTable(s));
    var validators := ComputeTableRoot(ValidatorTable(s));
    var proofs := ComputeTableRoot(ProofTable(s));
    var operators := ComputeTableRoot(OperatorTable(s));
    var offences := ComputeTableRoot(OffenceTable(s));
    root := CombinedHash([accounts, paylinks, validators, proofs, operators, offences]);
  }

  /** Records are stored under their own identifier. */
  ghost predicate RecordsKeyed(s: State) {
    && (forall id :: id in s.links.paylinks ==> s.links.paylinks[id].id == id)
    && (forall a :: a in s.bank.validators ==> s.bank.validators[a].address == a)
  }

  /** The tables the root covers. */
  predicate SameTables(s: State, t: State) {
    && s.bank.accounts == t.bank.accounts && s.links.paylinks == t.links.paylinks && s.bank.validators == t.bank.validators
    && s.links.usedProofs == t.links.usedProofs && s.links.operators == t.links.operators && s.evidence == t.evidence
  }

  lemma {:induction false} TablesSelfKeyed(s: State)
    requires RecordsKeyed(s)
    ensures SelfKeyed(AccountTable(s)) && SelfKeyed(PayLinkTable(s)) && SelfKeyed(ValidatorTable(s))
    ensures SelfKeyed(ProofTable(s)) && SelfKeyed(OperatorTable(s)) && SelfKeyed(OffenceTable(s))
  {}

  lemma {:induction false} AccountsFromTable(s: State, t: State)
    requires AccountTable(s) == AccountTable(t)
    ensures s.bank.accounts == t.bank.accounts
  {
    forall a ensures a in s.bank.accounts <==> a in t.bank.accounts {
      assert a in s.bank.accounts <==> [a] in AccountTable(s);
      assert a in t.bank.accounts <==> [a] in AccountTable(t);
    }
    forall a | a in s.bank.accounts ensures s.bank.accounts[a] == t.bank.accounts[a] {
      assert AccountTable(s)[[a]] == AccountTable(t)[[a]];
    }
  }

  lemma {:induction false} PayLinksFromTable(s: State, t: State)
    requires PayLinkTable(s) == PayLinkTable(t)
    ensures s.links.paylinks == t.links.paylinks
  {
    forall a ensures a in s.links.paylinks <==> a in t.links.paylinks {
      assert a in s.links.paylinks <==> [a] in PayLinkTable(s);
      assert a in t.links.paylinks <==> [a] in PayLinkTable(t);
    }
    forall a | a in s.links.paylinks ensures s.links.paylinks[a] == t.links.paylinks[a] {
      assert PayLinkTable(s)[[a]] == PayLinkTable(t)[[a]];
    }
  }

  lemma {:induction false} ValidatorsFromTable(s: State, t: State)
    requires ValidatorTable(s) == ValidatorTable(t)
    ensures s.bank.validators == t.bank.validators
  {
    forall a ensures a in s.bank.validators <==> a in t.bank.validators {
      assert a in s.bank.validators <==> [a] in ValidatorTable(s);
      assert a in t.bank.validators <==> [a] in ValidatorTable(t);
    }
    forall a | a in s.bank.validators ensures s.bank.validators[a] == t.bank.validators[a] {
      assert ValidatorTable(s)[[a]] == ValidatorTable(t)[[a]];
    }
  }

  lemma {:induction false} SetsFromTables(s: State, t: State)
    requires ProofTable(s) == ProofTable(t) && OperatorTable(s) == OperatorTable(t) && OffenceTable(s) == OffenceTable(t)
    ensures s.links.usedProofs == t.links.usedProofs && s.links.operators == t.links.operators && s.evidence == t.evidence
  {
    forall h ensures h in s.links.usedProofs <==> h in t.links.usedProofs {
      assert h in s.links.usedProofs <==> [h] in ProofTable(s);
      assert h in t.links.usedProofs <==> [h] in ProofTable(t);
    }
    forall o ensures o in s.links.operators <==> o in t.links.operators {
      OperatorKey(s, o);
      OperatorKey(t, o);
    }
    forall e ensures e in s.evidence <==> e in t.evidence {
      OffenceKey(s, e);
      OffenceKey(t, e);
    }
  }

  lemma {:induction false} OperatorKey(s: State, o: (Address, Address))
    ensures o in s.links.operators <==> [o.0, o.1] in OperatorTable(s)
  {
    if [o.0, o.1] in OperatorTable(s) {
      var x :| x in s.links.operators && [x.0, x.1] == [o.0, o.1];
      assert x.0 == [x.0, x.1][0] && x.1 == [x.0, x.1][1];
      assert x == o;
    }
  }

  lemma {:induction false} OffenceKey(s: State, e: EvidenceId)
    ensures e in s.evidence <==> KeyOf(OffenceLeaf(e)) in OffenceTable(s)
  {
    if KeyOf(OffenceLeaf(e)) in OffenceTable(s) {
      var x :| x in s.evidence && KeyOf(OffenceLeaf(x)) == KeyOf(OffenceLeaf(e));
      var k, j := KeyOf(OffenceLeaf(x)), KeyOf(OffenceLeaf(e));
      assert k[0] == j[0] && k[1] == j[1] && k[2] == j[2];
      assert x == e;
    }
  }

  /** Two states have the same root exactly when the six covered tables agree. */
  lemma {:induction false} RootIff(s: State, t: State)
    requires RecordsKeyed(s) && RecordsKeyed(t)
    ensures Root(s) == Root(t) <==> SameTables(s, t)
  {
    hide TableRoot, RecordsKeyed, SelfKeyed;
    if Root(s) == Root(t) {
      RootParts(s, t);
    } else {
      hide AccountTable, PayLinkTable, ValidatorTable, ProofTable, OperatorTable, OffenceTable;
      if SameTables(s, t) {
        SameParts(s, t);
      }
    }
  }

  lemma {:induction false} SameParts(s: State, t: State)
    requires SameTables(s, t)
    ensures Root(s) == Root(t)
  {
    hide TableRoot;
    assert AccountTable(s) == AccountTable(t) && PayLinkTable(s) == PayLinkTable(t) && ValidatorTable(s) == ValidatorTable(t);
    assert ProofTable(s) == ProofTable(t) && OperatorTable(s) == OperatorTable(t) && OffenceTable(s) == OffenceTable(t);
  }

  lemma {:induction false} RootParts(s: State, t: State)
    requires RecordsKeyed(s) && RecordsKeyed(t) && Root(s) == Root(t)
    ensures SameTables(s, t)
  {
    hide TableRoot, RecordsKeyed, SelfKeyed, AccountTable, PayLinkTable, ValidatorTable, ProofTable, OperatorTable, OffenceTable;
    var x, y := Root(s).parts, Root(t).parts;
    assert x[0] == y[0] && x[1] == y[1] && x[2] == y[2] && x[3] == y[3] && x[4] == y[4] && x[5] == y[5];
    TablesSelfKeyed(s);
    TablesSelfKeyed(t);
    TableRootInjective(AccountTable(s), AccountTable(t));
    TableRootInjective(PayLinkTable(s), PayLinkTable(t));
    TableRootInjective(ValidatorTable(s), ValidatorTable(t));
    TableRootInjective(ProofTable(s), ProofTable(t));
    TableRootInjective(OperatorTable(s), OperatorTable(t));
    TableRootInjective(OffenceTable(s), OffenceTable(t));
    AccountsFromTable(s, t);
    PayLinksFromTable(s, t);
    ValidatorsFromTable(s, t);
    SetsFromTables(s, t);
  }

  /** Votes, submitted proofs, keys, indexes and the supply counters are outside the root. */
  lemma {:induction false} RootBlindSpot(s: State, votes: set<(Hash, Address)>, proofs: map<Hash, Hash>, supply: Numbers.uint64)
    ensures Root(s.(links := s.links.(votes := votes, submittedProofs := proofs), bank := s.bank.(totalSupply := supply))) == Root(s)
  {
    SameParts(s.(links := s.links.(votes := votes, submittedProofs := proofs), bank := s.bank.(totalSupply := supply)), s);
  }
}
