/**
 * Merkle roots with a symbolic collision-free hash: digests are terms, so equal digests have
 * equal preimages, and leaf digests differ from inner nodes.
 */
module Merkle {
  import opened Collections
  import opened Rules
  import opened ChainState

  /** The serialised entries that are hashed into leaves. */
  datatype Leaf =
    | AccountLeaf(address: Address, account: Account)
    | PayLinkLeaf(paylink: PayLink)
    | ValidatorLeaf(validator: Validator)
    | ProofLeaf(proof: Hash)
    | OperatorLeaf(owner: Address, operator: Address)
    | OffenceLeaf(offence: EvidenceId)

  datatype Digest = ZeroHash | DataHash(leaf: Leaf) | PairHash(left: Digest, right: Digest) | CombinedHash(parts: seq<Digest>)

  // ---------------------------------------------------------------- the tree

  /** An odd level repeats its last digest. */
  function Pad(s: seq<Digest>): (r: seq<Digest>)
    ensures |r| % 2 == 0 && |s| <= |r| <= |s| + 1
  {
    if |s| % 2 == 0 then s else s + [s[|s| - 1]]
  }

  function Level(s: seq<Digest>): (r: seq<Digest>)
    requires |s| % 2 == 0
    ensures |r| == |s| / 2
  {
    seq(|s| / 2, i requires 0 <= i < |s| / 2 => PairHash(s[2 * i], s[2 * i + 1]))
  }

  function MerkleRoot(s: seq<Digest>): Digest
    decreases |s|
  {
    if s == [] then ZeroHash
    else if |s| == 1 then s[0]
    else MerkleRoot(Level(Pad(s)))
  }

  /** The source's recursion with its pairing loop. */
  method ComputeRoot(s: seq<Digest>) returns (root: Digest)
    ensures root == MerkleRoot(s)
    decreases |s|
  {
    if s == [] {
      return ZeroHash;
    }
    if |s| == 1 {
      return s[0];
    }
    var leaves := s;
    if |leaves| % 2 != 0 {
      leaves := leaves + [leaves[|leaves| - 1]];
    }
    var next: seq<Digest> := [];
    var i := 0;
    while i < |leaves|
      invariant 0 <= i <= |leaves| && i % 2 == 0
      invariant leaves == Pad(s)
      invariant next == Level(leaves)[..i / 2]
    {
      next := next + [PairHash(leaves[i], leaves[i + 1])];
      i := i + 2;
    }
    assert next == Level(Pad(s));
    root := ComputeRoot(next);
  }

  // ---------------------------------------------------------------- the tree from the top

  function PowerOfTwo(d: nat): (r: nat)
    ensures r > 0
  {
    if d == 0 then 1 else 2 * PowerOfTwo(d - 1)
  }

  lemma {:induction false} LevelConcat(a: seq<Digest>, b: seq<Digest>)
    requires |a| % 2 == 0 && |b| % 2 == 0
    ensures |a + b| % 2 == 0 && Level(a + b) == Level(a) + Level(b)
  {
    var n := |a| / 2;
    forall i | 0 <= i < |Level(a + b)| ensures Level(a + b)[i] == (Level(a) + Level(b))[i] {
      if i >= n {
        assert (a + b)[2 * i] == b[2 * (i - n)] && (a + b)[2 * i + 1] == b[2 * (i - n) + 1];
      }
    }
  }

  /** The level-wise fold builds the tree: over a perfect number of leaves the root pairs the roots of the left and of the right half. */
  lemma {:induction false} RootOfHalves(a: seq<Digest>, b: seq<Digest>, d: nat)
    requires |a| == |b| == PowerOfTwo(d)
    ensures MerkleRoot(a + b) == PairHash(MerkleRoot(a), MerkleRoot(b))
    decreases d
  {
    if d == 0 {
      assert Level(a + b) == [PairHash(a[0], b[0])];
    } else {
      LevelConcat(a, b);
      RootOfHalves(Level(a), Level(b), d - 1);
    }
  }

  /** An odd number of leaves above one counts the last leaf twice. */
  lemma {:induction false} OddLeafTwice(s: seq<Digest>)
    requires |s| > 1 && |s| % 2 == 1
    ensures MerkleRoot(s) == MerkleRoot(s + [s[|s| - 1]])
  {
    assert Pad(s + [s[|s| - 1]]) == s + [s[|s| - 1]];
  }

  // ---------------------------------------------------------------- levels of the tree

  /** x is a complete tree of the given height over data leaves. */
  predicate AtLevel(x: Digest, d: nat) {
    if d == 0 then x.DataHash? else x.PairHash? && AtLevel(x.left, d - 1) && AtLevel(x.right, d - 1)
  }

  lemma {:induction false} LevelUnique(x: Digest, d: nat, e: nat)
    requires AtLevel(x, d) && AtLevel(x, e)
    ensures d == e
    decreases d
  {
    if d > 0 && e > 0 {
      LevelUnique(x.left, d - 1, e - 1);
    }
  }

  function RootLevel(n: nat, d: nat): nat
    decreases n
  {
    if n <= 1 then d else RootLevel((n + 1) / 2, d + 1)
  }

  lemma {:induction false} RootLevelAbove(n: nat, d: nat)
    ensures RootLevel(n, d) >= d
    ensures n > 1 ==> RootLevel(n, d) > d
    decreases n
  {
    if n > 1 {
      RootLevelAbove((n + 1) / 2, d + 1);
    }
  }

  ghost predicate AllAt(s: seq<Digest>, d: nat) {
    forall i :: 0 <= i < |s| ==> AtLevel(s[i], d)
  }

  lemma {:induction false} NextLevel(s: seq<Digest>, d: nat)
    requires AllAt(s, d) && s != []
    ensures AllAt(Level(Pad(s)), d + 1)
  {
    var next := Level(Pad(s));
    forall i | 0 <= i < |next| ensures AtLevel(next[i], d + 1) {
      assert AtLevel(Pad(s)[2 * i], d) && AtLevel(Pad(s)[2 * i + 1], d);
    }
  }

  lemma {:induction false} RootAt(s: seq<Digest>, d: nat)
    requires AllAt(s, d) && s != []
    ensures AtLevel(MerkleRoot(s), RootLevel(|s|, d))
    decreases |s|
  {
    if |s| > 1 {
      NextLevel(s, d);
      RootAt(Level(Pad(s)), d + 1);
    }
  }

  // ---------------------------------------------------------------- injectivity

  /** Pairing keeps distinct digests distinct, whether or not the level was padded. */
  lemma {:induction false} PairsDistinct(s: seq<Digest>)
    requires NoDup(s) && s != []
    ensures NoDup(Level(Pad(s)))
  {
    var next := Level(Pad(s));
    forall i, j | 0 <= i < j < |next| ensures next[i] != next[j] {
      assert Pad(s)[2 * i] == s[2 * i] && Pad(s)[2 * j] == s[2 * j];
    }
  }

  lemma {:induction false} UnpadUnique(s: seq<Digest>, t: seq<Digest>)
    requires NoDup(s) && NoDup(t) && s != [] && t != []
    requires Level(Pad(s)) == Level(Pad(t))
    ensures s == t
  {
    var x, y := Pad(s), Pad(t);
    assert |x| == 2 * |Level(x)| && |y| == 2 * |Level(y)|;
    forall i | 0 <= i < |x| ensures x[i] == y[i] {
      assert Level(x)[i / 2] == Level(y)[i / 2];
      assert i == 2 * (i / 2) || i == 2 * (i / 2) + 1;
    }
    assert x == y;
    var n := |x|;
    assert |s| == n <==> x[n - 2] != x[n - 1];
    assert |t| == n <==> y[n - 2] != y[n - 1];
    assert s == x[..|s|] && t == y[..|t|];
  }

  /** Equal roots over distinct digests of one height mean equal lists, whatever their lengths. */
  lemma {:induction false} RootInjectiveAt(s: seq<Digest>, t: seq<Digest>, d: nat)
    requires AllAt(s, d) && AllAt(t, d) && NoDup(s) && NoDup(t) && s != [] && t != []
    requires MerkleRoot(s) == MerkleRoot(t)
    ensures s == t
    decreases |s|
  {
    hide AtLevel, RootLevel, Level, Pad, NoDup, AllAt;
    BothSingle(s, t, d);
    if |s| > 1 && |t| > 1 {
      NextLevel(s, d);
      NextLevel(t, d);
      PairsDistinct(s);
      PairsDistinct(t);
      RootInjectiveAt(Level(Pad(s)), Level(Pad(t)), d + 1);
      UnpadUnique(s, t);
    }
  }

  /** The height of the root tells a single digest from a longer list. */
  lemma {:induction false} BothSingle(s: seq<Digest>, t: seq<Digest>, d: nat)
    requires AllAt(s, d) && AllAt(t, d) && s != [] && t != []
    requires MerkleRoot(s) == MerkleRoot(t)
    ensures |s| == 1 <==> |t| == 1
  {
    hide AtLevel, Level, Pad, AllAt, MerkleRoot;
    RootAt(s, d);
    RootAt(t, d);
    LevelUnique(MerkleRoot(s), RootLevel(|s|, d), RootLevel(|t|, d));
    RootLevelAbove(|s|, d);
    RootLevelAbove(|t|, d);
  }

  function Hashes(leaves: seq<Leaf>): (r: seq<Digest>)
    ensures |r| == |leaves|
  {
    seq(|leaves|, i requires 0 <= i < |leaves| => DataHash(leaves[i]))
  }

  /** The Merkle root determines a duplicate-free leaf list of any length. */
  lemma {:induction false} RootInjective(s: seq<Leaf>, t: seq<Leaf>)
    requires NoDup(s) && NoDup(t)
    requires MerkleRoot(Hashes(s)) == MerkleRoot(Hashes(t))
    ensures s == t
  {
    var x, y := Hashes(s), Hashes(t);
    assert AllAt(x, 0) && AllAt(y, 0);
    assert NoDup(x) && NoDup(y);
    if s != [] { RootAt(x, 0); }
    if t != [] { RootAt(y, 0); }
    if s != [] && t != [] {
      RootInjectiveAt(x, y, 0);
      forall i | 0 <= i < |s| ensures s[i] == t[i] {
        assert x[i] == y[i];
      }
    }
  }

  /** Without distinct leaves the padding collides: a repeated last leaf is invisible. */
  lemma PaddingCollides(a: Leaf, b: Leaf, c: Leaf)
    ensures MerkleRoot(Hashes([a, b, c])) == MerkleRoot(Hashes([a, b, c, c]))
  {
    assert Level(Pad(Hashes([a, b, c]))) == Level(Pad(Hashes([a, b, c, c])));
  }

  /** Nor would inner digests do as leaves: a list and the digest of its pair share a root. */
  lemma InnerLeavesCollide(x: Digest, y: Digest)
    ensures MerkleRoot([x, y]) == MerkleRoot([PairHash(x, y)])
  {
    assert Level(Pad([x, y])) == [PairHash(x, y)];
  }
}
