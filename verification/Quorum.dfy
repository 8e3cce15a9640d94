/**
 * Committee quorum: counting valid votes for the proof named by the first valid vote, and the
 * number of votes a fraction requires.  Fractions are exact rationals.
 */
module Quorum {
  import opened Collections
  import opened Rules
  import opened ChainState

  datatype Member = Member(address: Address, output: Hash, key: Bytes)

  /** A vote with what its VRF proof shows: the key inside it, and whether it verifies for the seed and output. */
  datatype Vote = Vote(validator: Address, proof: Hash, output: Hash, key: Option<Bytes>, verifies: bool)

  datatype Fraction = Fraction(num: int, den: int)

  // ---------------------------------------------------------------- required votes

  /** The configured fraction, or three fifths when it is not in (0, 1]. */
  function Checked(f: Fraction): (r: Fraction)
    requires f.den > 0
    ensures 0 < r.num <= r.den
  {
    if f.num <= 0 || f.num > f.den then Fraction(3, 5) else f
  }

  /** The integer part of size * fraction + 0.999, at least one. */
  function RequiredVotes(f: Fraction, size: nat): (q: nat)
    requires 0 < f.num <= f.den
    ensures q >= 1
  {
    var q := (1000 * (size * f.num) + 999 * f.den) / (1000 * f.den);
    if q < 1 then 1 else q
  }

  function Ceiling(a: nat, b: nat): nat
    requires b > 0
  {
    if a % b == 0 then a / b else a / b + 1
  }

  /** Adding 0.999 rounds up exactly when the fractional part is zero or at least a thousandth, or one vote is enough. */
  lemma {:induction false} RoundsUpIff(f: Fraction, size: nat)
    requires 0 < f.num <= f.den && size > 0
    ensures var votes := size * f.num;
      RequiredVotes(f, size) == Ceiling(votes, f.den) <==>
      votes % f.den == 0 || 1000 * (votes % f.den) >= f.den || votes < f.den
  {
    ProductPositive(size, f.num);
    RoundedQuotient(size * f.num, f.den);
    SmallQuotient(size * f.num, f.den);
  }

  /** With a fraction of 0.5002 two members need one vote, although half of them is less than the fraction asks for. */
  lemma RoundsDownExample()
    ensures RequiredVotes(Fraction(5002, 10000), 2) == 1 && Ceiling(2 * 5002, 10000) == 2
  {}

  /** The quotient of a number with 0.999 added, against its quotient without. */
  lemma {:induction false} RoundedQuotient(votes: nat, d: int)
    requires d > 0
    ensures (1000 * votes + 999 * d) / (1000 * d) == votes / d + if 1000 * (votes % d) >= d then 1 else 0
  {
    var k, r := votes / d, votes % d;
    var top := 1000 * r + 999 * d;
    Scale(k, d);
    assert 1000 * votes + 999 * d == k * (1000 * d) + top;
    SplitQuotient(k, 1000 * d, top);
    Quotient(top, 1000 * d, if 1000 * r >= d then 1 else 0);
  }

  lemma {:induction false} SmallQuotient(votes: nat, d: int)
    requires d > 0
    ensures votes < d <==> votes / d == 0
    ensures votes < d ==> votes % d == votes
  {
    if votes >= d && votes / d == 0 {
      Quotient(votes, d, 0);
    }
  }

  lemma ProductPositive(a: nat, b: int)
    requires a > 0 && b > 0
    ensures a * b >= 1
  {}

  lemma Scale(k: int, d: int)
    ensures 1000 * (k * d) == k * (1000 * d)
  {}

  lemma AtLeastOnce(k: int, d: int)
    requires k >= 1 && d > 0
    ensures k * d >= d
  {}

  lemma {:induction false} Quotient(a: int, d: int, k: int)
    requires d > 0 && k * d <= a < (k + 1) * d
    ensures a / d == k
  {
    var q := a / d;
    if q < k {
      assert (k - q) * d >= d by { AtLeastOnce(k - q, d); }
    } else if q > k {
      assert (q - k) * d >= d by { AtLeastOnce(q - k, d); }
    }
  }

  lemma {:induction false} SplitQuotient(k: int, d: int, rest: int)
    requires d > 0 && rest >= 0
    ensures (k * d + rest) / d == k + rest / d
  {
    var q := rest / d;
    assert (k + q) * d == k * d + q * d;
    assert (k + q + 1) * d == k * d + q * d + d;
    Quotient(k * d + rest, d, k + q);
  }

  /** At three fifths, two quorums are more than the committee. */
  lemma {:induction false} ThreeFifthsOverlap(size: nat)
    requires size > 0
    ensures RequiredVotes(Fraction(3, 5), size) == Ceiling(3 * size, 5)
    ensures 2 * RequiredVotes(Fraction(3, 5), size) > size
  {
    RoundsUpIff(Fraction(3, 5), size);
    assert size == 1 ==> 3 * size % 5 == 3;
  }

  /**
   * A machine value near the exact sum truncates to the same number of votes, unless the fractional
   * part of the product is exactly a thousandth: the sum is then an integer and any rounding
   * down loses a vote.
   */
  lemma {:induction false} RoundingHarmless(f: Fraction, size: nat, y: real)
    requires 0 < f.num <= f.den && size > 0 && 1000 * (size * f.num % f.den) != f.den
    requires var unit := 1000 * f.den; var sum := 1000 * (size * f.num) + 999 * f.den;
      (sum - 1) as real < y * unit as real < (sum + 1) as real
    ensures (if y.Floor < 1 then 1 else y.Floor) == RequiredVotes(f, size)
  {
    var unit, sum := 1000 * f.den, 1000 * (size * f.num) + 999 * f.den;
    SumNotWhole(size * f.num, f.den);
    FloorNear(sum, unit, y);
  }

  /** The sum is a whole number of units exactly when the fractional part is a thousandth. */
  lemma {:induction false} SumNotWhole(votes: nat, d: int)
    requires d > 0 && 1000 * (votes % d) != d
    ensures (1000 * votes + 999 * d) % (1000 * d) != 0
  {
    var k, r := votes / d, votes % d;
    RoundedQuotient(votes, d);
    Scale(k, d);
    var q := (1000 * votes + 999 * d) / (1000 * d);
    assert 1000 * votes + 999 * d == k * (1000 * d) + (1000 * r + 999 * d);
    assert q == k || q == k + 1;
    if q == k + 1 {
      Distributed(k, 1000 * d);
    }
  }

  lemma Distributed(k: int, d: int)
    ensures (k + 1) * d == k * d + d
  {}

  lemma {:induction false} FloorNear(sum: nat, unit: int, y: real)
    requires unit > 0 && sum % unit != 0 && (sum - 1) as real < y * unit as real < (sum + 1) as real
    ensures y.Floor == sum / unit
  {
    var q := sum / unit;
    assert q * unit + 1 <= sum <= q * unit + unit - 1;
    Distributed(q, unit);
    Between(q, sum, unit, y * unit as real);
    RealOrder(q as real, y, unit as real);
    RealOrder(y, (q + 1) as real, unit as real);
  }

  lemma {:induction false} Between(q: int, sum: int, unit: int, z: real)
    requires q * unit <= sum - 1 && sum + 1 <= (q + 1) * unit && (sum - 1) as real < z < (sum + 1) as real
    ensures q as real * unit as real < z < (q + 1) as real * unit as real
  {
    RealProduct(q, unit);
    RealProduct(q + 1, unit);
    var low, high := q * unit, (q + 1) * unit;
    assert low as real <= (sum - 1) as real && (sum + 1) as real <= high as real;
  }

  lemma RealProduct(a: int, b: int)
    ensures (a * b) as real == a as real * b as real
  {}

  lemma RealOrder(a: real, b: real, d: real)
    requires d > 0.0 && a * d < b * d
    ensures a < b
  {}

  /** At three fifths it is enough to be within a thousandth of the exact sum. */
  lemma {:induction false} ThreeFifthsHarmless(size: nat, y: real)
    requires size > 0 && -0.001 < y - (3.0 * size as real / 5.0 + 0.999) < 0.001
    ensures y.Floor == Ceiling(3 * size, 5) == RequiredVotes(Fraction(3, 5), size)
  {
    ThreeFifthsOverlap(size);
    var k, r := 3 * size / 5, 3 * size % 5;
    assert 3 * size == 5 * k + r;
    assert 3.0 * size as real == 5.0 * k as real + r as real;
  }

  // ---------------------------------------------------------------- counting

  /** Committee members by address; a later entry replaces an earlier one. */
  function Lookup(committee: seq<Member>): map<Address, Member> {
    if committee == [] then map[]
    else Lookup(committee[..|committee| - 1])[committee[|committee| - 1].address := committee[|committee| - 1]]
  }

  lemma {:induction false} LookupSize(committee: seq<Member>)
    ensures |Lookup(committee)| <= |committee|
  {
    if committee != [] {
      var last, before := committee[|committee| - 1], Lookup(committee[..|committee| - 1]);
      LookupSize(committee[..|committee| - 1]);
      assert Lookup(committee).Keys == before.Keys + {last.address};
      assert |Lookup(committee)| == |Lookup(committee).Keys| && |before| == |before.Keys|;
    }
  }

  /** A committee member's vote, proved with the member's registered key and committee output. */
  predicate Counts(members: map<Address, Member>, v: Vote) {
    && v.validator in members
    && v.key.Some? && |members[v.validator].key| != 0 && v.key.value == members[v.validator].key
    && v.verifies && v.output == members[v.validator].output
  }

  /** The members with a valid vote for a proof. */
  ghost function Supporters(members: map<Address, Member>, votes: seq<Vote>, proof: Hash): set<Address> {
    set v | v in votes && Counts(members, v) && v.proof == proof :: v.validator
  }

  /** The proof named by the first valid vote. */
  ghost function FirstProof(members: map<Address, Member>, votes: seq<Vote>): Option<Hash> {
    if votes == [] then None
    else
      var before := FirstProof(members, votes[..|votes| - 1]);
      if before.Some? then before
      else if Counts(members, votes[|votes| - 1]) then Some(votes[|votes| - 1].proof) else None
  }

  ghost predicate Accepts(members: map<Address, Member>, votes: seq<Vote>, required: nat) {
    var first := FirstProof(members, votes);
    first.Some? && |Supporters(members, votes, first.value)| >= required
  }

  lemma {:induction false} SupportersGrow(members: map<Address, Member>, votes: seq<Vote>, v: Vote, proof: Hash)
    ensures Supporters(members, votes + [v], proof) ==
      Supporters(members, votes, proof) + if Counts(members, v) && v.proof == proof then {v.validator} else {}
  {
    forall a ensures a in Supporters(members, votes + [v], proof) <==>
      a in Supporters(members, votes, proof) || (Counts(members, v) && v.proof == proof && a == v.validator)
    {
      if w :| w in votes && Counts(members, w) && w.proof == proof && w.validator == a {
        assert w in votes + [v];
      }
      assert v in votes + [v];
    }
  }

  lemma {:induction false} NoFirstNoSupport(members: map<Address, Member>, votes: seq<Vote>, proof: Hash)
    requires FirstProof(members, votes).None?
    ensures Supporters(members, votes, proof) == {}
  {
    if votes != [] {
      var n := |votes| - 1;
      NoFirstNoSupport(members, votes[..n], proof);
      SupportersGrow(members, votes[..n], votes[n], proof);
      assert votes == votes[..n] + [votes[n]];
    }
  }

  lemma {:induction false} FirstGrows(members: map<Address, Member>, votes: seq<Vote>, v: Vote)
    ensures FirstProof(members, votes + [v]) ==
      if FirstProof(members, votes).Some? then FirstProof(members, votes) else if Counts(members, v) then Some(v.proof) else None
  {
    assert (votes + [v])[..|votes|] == votes;
  }

  method BuildLookup(committee: seq<Member>) returns (m: map<Address, Member>)
    ensures m == Lookup(committee)
  {
    m := map[];
    var i := 0;
    while i < |committee|
      invariant 0 <= i <= |committee| && m == Lookup(committee[..i])
    {
      assert committee[..i + 1][..i] == committee[..i];
      m := m[committee[i].address := committee[i]];
      i := i + 1;
    }
    assert committee[..i] == committee;
  }

  /** Accepts exactly when the members with a valid vote for the first valid vote's proof are enough; an empty committee is an error. */
  method CheckQuorum(configured: Fraction, committee: seq<Member>, votes: seq<Vote>) returns (accepted: Option<bool>)
    requires configured.den > 0
    ensures accepted.None? <==> committee == []
    ensures accepted.Some? ==>
      var fraction := if 0 < configured.num <= configured.den then configured else Fraction(3, 5);
      accepted.value == Accepts(Lookup(committee), votes, RequiredVotes(fraction, |committee|))
  {
    if |committee| == 0 {
      return None;
    }
    var required := RequiredVotes(Checked(configured), |committee|);
    var members := BuildLookup(committee);
    var count := Count(members, votes);
    accepted := Some(count >= required);
  }

  lemma NoVotesNoProof(members: map<Address, Member>)
    ensures FirstProof(members, []).None?
  {}

  method Count(members: map<Address, Member>, votes: seq<Vote>) returns (count: nat)
    ensures var first := FirstProof(members, votes);
      count == if first.None? then 0 else |Supporters(members, votes, first.value)|
  {
    hide FirstProof, Supporters, Counts;
    assert FirstProof(members, []).None? by { NoVotesNoProof(members); }
    count := 0;
    var seen: set<Address> := {};
    var winner: Hash := 0;
    var i := 0;
    while i < |votes|
      invariant 0 <= i <= |votes| && count == |seen|
      invariant FirstProof(members, votes[..i]).None? <==> count == 0
      invariant count == 0 ==> seen == {}
      invariant count > 0 ==> FirstProof(members, votes[..i]) == Some(winner) && seen == Supporters(members, votes[..i], winner)
    {
      var v := votes[i];
      assert votes[..i + 1] == votes[..i] + [v];
      FirstGrows(members, votes[..i], v);
      SupportersGrow(members, votes[..i], v, winner);
      i := i + 1;
      if v.validator in seen {
        continue;
      }
      if !Counts(members, v) {
        continue;
      }
      if count == 0 {
        NoFirstNoSupport(members, votes[..i - 1], v.proof);
        SupportersGrow(members, votes[..i - 1], v, v.proof);
        winner := v.proof;
      } else if v.proof != winner {
        continue;
      }
      seen := seen + {v.validator};
      count := count + 1;
    }
    assert votes[..i] == votes;
  }

  // ---------------------------------------------------------------- what acceptance means

  /**
   * The vote is a member's own: it verifies, it carries the key that the committee has registered
   * for the voter, and it gives that member's committee output.  The last entry of an address holds.
   */
  ghost predicate Bound(committee: seq<Member>, v: Vote) {
    exists i :: 0 <= i < |committee| && EntryOf(committee, i, v.validator)
      && committee[i].key != [] && v.key == Some(committee[i].key) && v.verifies && v.output == committee[i].output
  }

  ghost predicate EntryOf(committee: seq<Member>, i: nat, a: Address)
    requires i < |committee|
  {
    committee[i].address == a && forall j :: i < j < |committee| ==> committee[j].address != a
  }

  lemma {:induction false} LookupEntry(committee: seq<Member>, i: nat, a: Address)
    requires i < |committee| && EntryOf(committee, i, a)
    ensures a in Lookup(committee) && Lookup(committee)[a] == committee[i]
  {
    var n := |committee| - 1;
    if i < n {
      LookupEntry(committee[..n], i, a);
    }
  }

  lemma {:induction false} EntryExists(committee: seq<Member>, a: Address) returns (i: nat)
    requires a in Lookup(committee)
    ensures i < |committee| && EntryOf(committee, i, a)
  {
    var n := |committee| - 1;
    if committee[n].address == a {
      i := n;
    } else {
      i := EntryExists(committee[..n], a);
    }
  }

  lemma {:induction false} CountsIff(committee: seq<Member>, v: Vote)
    ensures Counts(Lookup(committee), v) <==> Bound(committee, v)
  {
    hide Lookup, EntryOf;
    if v.validator in Lookup(committee) {
      var i := EntryExists(committee, v.validator);
      LookupEntry(committee, i, v.validator);
    }
    if Bound(committee, v) {
      var i :| 0 <= i < |committee| && EntryOf(committee, i, v.validator)
        && committee[i].key != [] && v.key == Some(committee[i].key) && v.verifies && v.output == committee[i].output;
      LookupEntry(committee, i, v.validator);
    }
  }

  /** The members who voted for the proof with a vote of their own. */
  ghost function Agreeing(committee: seq<Member>, votes: seq<Vote>, proof: Hash): set<Address> {
    set v | v in votes && Bound(committee, v) && v.proof == proof :: v.validator
  }

  /** The first vote that is a member's own. */
  ghost predicate Opening(committee: seq<Member>, votes: seq<Vote>, j: nat)
    requires j < |votes|
  {
    Bound(committee, votes[j]) && forall k :: 0 <= k < j ==> !Bound(committee, votes[k])
  }

  lemma {:induction false} FirstOpens(committee: seq<Member>, votes: seq<Vote>, j: nat)
    requires j < |votes| && Opening(committee, votes, j)
    ensures FirstProof(Lookup(committee), votes) == Some(votes[j].proof)
    decreases |votes|
  {
    hide Lookup, Counts, Bound;
    var n := |votes| - 1;
    CountsIff(committee, votes[n]);
    if j < n {
      FirstOpens(committee, votes[..n], j);
    } else {
      NoneOpens(committee, votes[..n]);
    }
  }

  lemma {:induction false} NoneOpens(committee: seq<Member>, votes: seq<Vote>)
    requires forall k :: 0 <= k < |votes| ==> !Bound(committee, votes[k])
    ensures FirstProof(Lookup(committee), votes).None?
    decreases |votes|
  {
    hide Lookup, Counts, Bound;
    if votes != [] {
      CountsIff(committee, votes[|votes| - 1]);
      NoneOpens(committee, votes[..|votes| - 1]);
    }
  }

  lemma {:induction false} FindOpening(committee: seq<Member>, votes: seq<Vote>) returns (j: nat)
    requires FirstProof(Lookup(committee), votes).Some?
    ensures j < |votes| && Opening(committee, votes, j)
    decreases |votes|
  {
    hide Lookup, Counts, Bound;
    var n := |votes| - 1;
    if FirstProof(Lookup(committee), votes[..n]).Some? {
      j := FindOpening(committee, votes[..n]);
    } else {
      j := n;
      CountsIff(committee, votes[n]);
      forall k | 0 <= k < n ensures !Bound(committee, votes[k]) {
        CountsIff(committee, votes[k]);
        NoFirstNoVote(Lookup(committee), votes[..n], k);
      }
    }
  }

  lemma {:induction false} NoFirstNoVote(members: map<Address, Member>, votes: seq<Vote>, k: nat)
    requires k < |votes| && FirstProof(members, votes).None?
    ensures !Counts(members, votes[k])
    decreases |votes|
  {
    if k < |votes| - 1 {
      NoFirstNoVote(members, votes[..|votes| - 1], k);
    }
  }

  lemma {:induction false} SupportersAgree(committee: seq<Member>, votes: seq<Vote>, proof: Hash)
    ensures Supporters(Lookup(committee), votes, proof) == Agreeing(committee, votes, proof)
  {
    hide Lookup, Counts, Bound;
    forall v | v in votes ensures Counts(Lookup(committee), v) <==> Bound(committee, v) {
      CountsIff(committee, v);
    }
  }

  /**
   * In the committee's and the votes' own fields: a list is accepted exactly when it has a first vote
   * that is a member's own, and enough members voted like it with votes of their own.
   */
  lemma {:induction false} AcceptanceIff(committee: seq<Member>, votes: seq<Vote>, required: nat)
    ensures Accepts(Lookup(committee), votes, required) <==>
      exists j: nat :: j < |votes| && Opening(committee, votes, j) && |Agreeing(committee, votes, votes[j].proof)| >= required
  {
    hide Lookup, FirstProof, Supporters, Agreeing, Bound, Counts, Opening;
    if FirstProof(Lookup(committee), votes).Some? {
      var j := FindOpening(committee, votes);
      FirstOpens(committee, votes, j);
      SupportersAgree(committee, votes, votes[j].proof);
    }
    if j: nat :| j < |votes| && Opening(committee, votes, j) && |Agreeing(committee, votes, votes[j].proof)| >= required {
      FirstOpens(committee, votes, j);
      SupportersAgree(committee, votes, votes[j].proof);
    }
  }

  /** Acceptance shows enough distinct committee members, each with a valid vote for one and the same proof. */
  lemma {:induction false} AcceptanceSound(f: Fraction, committee: seq<Member>, votes: seq<Vote>)
    requires 0 < f.num <= f.den && Accepts(Lookup(committee), votes, RequiredVotes(f, |committee|))
    ensures exists proof, voters: set<Address> ::
      |voters| >= RequiredVotes(f, |committee|) && Backed(committee, votes, proof, voters)
  {
    hide Lookup, FirstProof, Counts, Bound, RequiredVotes;
    var proof := FirstProof(Lookup(committee), votes).value;
    var voters := Supporters(Lookup(committee), votes, proof);
    SupportersAgree(committee, votes, proof);
    assert Backed(committee, votes, proof, voters);
  }

  /** Every one of the voters is a committee member with a vote of its own for the proof. */
  ghost predicate Backed(committee: seq<Member>, votes: seq<Vote>, proof: Hash, voters: set<Address>) {
    forall a :: a in voters ==> exists v :: v in votes && v.validator == a && v.proof == proof && Bound(committee, v)
  }

  lemma {:induction false} Overlap(all: set<Address>, a: set<Address>, b: set<Address>)
    requires a <= all && b <= all && |a| + |b| > |all|
    ensures a * b != {}
  {
    assert all == (a + b) + (all - (a + b));
    assert |a + b| + |a * b| == |a| + |b|;
  }

  /** Two accepting vote lists of one committee share a member whenever two quorums exceed the committee. */
  lemma {:induction false} QuorumsMeet(f: Fraction, committee: seq<Member>, votes: seq<Vote>, others: seq<Vote>)
    requires 0 < f.num <= f.den && 2 * RequiredVotes(f, |committee|) > |committee|
    requires Accepts(Lookup(committee), votes, RequiredVotes(f, |committee|))
    requires Accepts(Lookup(committee), others, RequiredVotes(f, |committee|))
    ensures var m := Lookup(committee);
      Supporters(m, votes, FirstProof(m, votes).value) * Supporters(m, others, FirstProof(m, others).value) != {}
  {
    hide RequiredVotes, FirstProof;
    var m := Lookup(committee);
    var s, t := Supporters(m, votes, FirstProof(m, votes).value), Supporters(m, others, FirstProof(m, others).value);
    LookupSize(committee);
    assert s <= m.Keys && t <= m.Keys && |m| == |m.Keys|;
    Overlap(m.Keys, s, t);
  }

  /** At three fifths, accepting two different proofs takes a member who validly voted for both. */
  lemma {:induction false} ConflictNamesDoubleVoter(committee: seq<Member>, votes: seq<Vote>, others: seq<Vote>)
    requires committee != []
    requires Accepts(Lookup(committee), votes, RequiredVotes(Fraction(3, 5), |committee|))
    requires Accepts(Lookup(committee), others, RequiredVotes(Fraction(3, 5), |committee|))
    requires FirstProof(Lookup(committee), votes) != FirstProof(Lookup(committee), others)
    ensures exists v, w ::
      && v in votes && w in others && v.validator == w.validator && v.proof != w.proof
      && Counts(Lookup(committee), v) && Counts(Lookup(committee), w)
  {
    hide RequiredVotes, FirstProof;
    ThreeFifthsOverlap(|committee|);
    QuorumsMeet(Fraction(3, 5), committee, votes, others);
    var m := Lookup(committee);
    var p, q := FirstProof(m, votes).value, FirstProof(m, others).value;
    var a :| a in Supporters(m, votes, p) * Supporters(m, others, q);
    var v :| v in votes && Counts(m, v) && v.proof == p && v.validator == a;
    var w :| w in others && Counts(m, w) && w.proof == q && w.validator == a;
    assert v.validator == w.validator && v.proof != w.proof;
  }

  // ---------------------------------------------------------------- which proofs with a quorum are accepted

  ghost predicate HasQuorum(members: map<Address, Member>, votes: seq<Vote>, required: nat, proof: Hash) {
    |Supporters(members, votes, proof)| >= required
  }

  /** No member validly votes for two proofs. */
  ghost predicate NoDoubleVoter(members: map<Address, Member>, votes: seq<Vote>) {
    forall v, w :: v in votes && w in votes && Counts(members, v) && Counts(members, w) && v.validator == w.validator ==> v.proof == w.proof
  }

  /**
   * Where two quorums exceed the committee and no member votes validly for two proofs, a proof
   * with a quorum of valid votes is accepted exactly when the first valid vote names it.
   */
  lemma {:induction false} AcceptedIffFirst(f: Fraction, committee: seq<Member>, votes: seq<Vote>, proof: Hash)
    requires 0 < f.num <= f.den && 2 * RequiredVotes(f, |committee|) > |committee| && NoDoubleVoter(Lookup(committee), votes)
    requires HasQuorum(Lookup(committee), votes, RequiredVotes(f, |committee|), proof)
    ensures Accepts(Lookup(committee), votes, RequiredVotes(f, |committee|)) <==> FirstProof(Lookup(committee), votes) == Some(proof)
  {
    hide RequiredVotes, FirstProof;
    var m := Lookup(committee);
    if Accepts(m, votes, RequiredVotes(f, |committee|)) {
      var first := FirstProof(m, votes).value;
      var s, t := Supporters(m, votes, first), Supporters(m, votes, proof);
      LookupSize(committee);
      assert s <= m.Keys && t <= m.Keys && |m| == |m.Keys|;
      Overlap(m.Keys, s, t);
      var a :| a in s * t;
      var v :| v in votes && Counts(m, v) && v.proof == first && v.validator == a;
      var w :| w in votes && Counts(m, w) && w.proof == proof && w.validator == a;
    }
  }

  /** The same votes in some order. */
  ghost predicate Reordered(votes: seq<Vote>, order: seq<Vote>) {
    multiset(order) == multiset(votes)
  }

  lemma {:induction false} SameVotes(members: map<Address, Member>, votes: seq<Vote>, order: seq<Vote>, proof: Hash)
    requires Reordered(votes, order)
    ensures forall v :: v in order <==> v in votes
    ensures Supporters(members, order, proof) == Supporters(members, votes, proof)
  {
    forall v ensures v in order <==> v in votes {
      assert v in order <==> v in multiset(order);
      assert v in votes <==> v in multiset(votes);
    }
  }

  /** The first proof is the proof of some valid vote. */
  lemma {:induction false} FirstNames(members: map<Address, Member>, votes: seq<Vote>) returns (v: Vote)
    requires FirstProof(members, votes).Some?
    ensures v in votes && Counts(members, v) && FirstProof(members, votes) == Some(v.proof)
  {
    var n := |votes| - 1;
    if FirstProof(members, votes[..n]).Some? {
      v := FirstNames(members, votes[..n]);
    } else {
      v := votes[n];
    }
  }

  /** Any valid vote can be the first one. */
  lemma {:induction false} MovedToFront(members: map<Address, Member>, votes: seq<Vote>, v: Vote) returns (order: seq<Vote>)
    requires v in votes && Counts(members, v)
    ensures Reordered(votes, order) && FirstProof(members, order) == Some(v.proof)
  {
    var i :| 0 <= i < |votes| && votes[i] == v;
    order := [v] + (votes[..i] + votes[i + 1..]);
    assert votes == votes[..i] + ([v] + votes[i + 1..]);
    FirstIsFirst(members, order);
  }

  /** Some order of the votes is accepted exactly when some proof has a quorum. */
  lemma {:induction false} SomeOrderIff(members: map<Address, Member>, votes: seq<Vote>, required: nat)
    requires required >= 1
    ensures (exists order :: Reordered(votes, order) && Accepts(members, order, required)) <==>
            (exists proof :: HasQuorum(members, votes, required, proof))
  {
    hide Supporters, FirstProof;
    if order :| Reordered(votes, order) && Accepts(members, order, required) {
      var proof := FirstProof(members, order).value;
      SameVotes(members, votes, order, proof);
      assert HasQuorum(members, votes, required, proof);
    }
    if proof :| HasQuorum(members, votes, required, proof) {
      var v := SupportingVote(members, votes, proof);
      var order := MovedToFront(members, votes, v);
      SameVotes(members, votes, order, proof);
      assert Reordered(votes, order) && Accepts(members, order, required);
    }
  }

  lemma {:induction false} SupportingVote(members: map<Address, Member>, votes: seq<Vote>, proof: Hash) returns (v: Vote)
    requires |Supporters(members, votes, proof)| >= 1
    ensures v in votes && Counts(members, v) && v.proof == proof
  {
    var a :| a in Supporters(members, votes, proof);
    v :| v in votes && Counts(members, v) && v.proof == proof && v.validator == a;
  }

  /** Every order of the votes is accepted exactly when there is a valid vote and every validly voted proof has a quorum. */
  lemma {:induction false} EveryOrderIff(members: map<Address, Member>, votes: seq<Vote>, required: nat)
    requires required >= 1
    ensures (forall order :: Reordered(votes, order) ==> Accepts(members, order, required)) <==>
            && (exists v :: v in votes && Counts(members, v))
            && (forall v :: v in votes && Counts(members, v) ==> HasQuorum(members, votes, required, v.proof))
  {
    hide Supporters, FirstProof;
    if forall order :: Reordered(votes, order) ==> Accepts(members, order, required) {
      assert Reordered(votes, votes);
      var w := FirstNames(members, votes);
      forall v | v in votes && Counts(members, v) ensures HasQuorum(members, votes, required, v.proof) {
        var order := MovedToFront(members, votes, v);
        SameVotes(members, votes, order, v.proof);
      }
    } else {
      var order :| Reordered(votes, order) && !Accepts(members, order, required);
      RefusedOrder(members, votes, order, required);
    }
  }

  lemma {:induction false} RefusedOrder(members: map<Address, Member>, votes: seq<Vote>, order: seq<Vote>, required: nat)
    requires Reordered(votes, order) && !Accepts(members, order, required)
    ensures (forall v :: v in votes ==> !Counts(members, v)) || exists v :: v in votes && Counts(members, v) && !HasQuorum(members, votes, required, v.proof)
  {
    hide FirstProof;
    if FirstProof(members, order).None? {
      forall v | v in votes ensures !Counts(members, v) {
        SameVotes(members, votes, order, v.proof);
        NoFirstNoSupport(members, order, v.proof);
        assert Counts(members, v) ==> v.validator in Supporters(members, order, v.proof);
      }
    } else {
      var v := FirstNames(members, order);
      SameVotes(members, votes, order, v.proof);
    }
  }

  function DemoVote(a: Address, proof: Hash): Vote {
    Vote(a, proof, 0, Some([1]), true)
  }

  const DEMO_COMMITTEE := [Member(1, 0, [1]), Member(2, 0, [1]), Member(3, 0, [1])]
  const DEMO_MEMBERS := map[1 := Member(1, 0, [1]), 2 := Member(2, 0, [1]), 3 := Member(3, 0, [1])]
  const DEMO_VOTES := [DemoVote(3, 8), DemoVote(1, 7), DemoVote(2, 7)]

  lemma {:induction false} DemoLookup()
    ensures Lookup(DEMO_COMMITTEE) == DEMO_MEMBERS
  {
    var two := DEMO_COMMITTEE[..2];
    assert two[..1] == [DEMO_COMMITTEE[0]] && two[..1][..0] == [];
    assert Lookup(two[..1]) == map[1 := Member(1, 0, [1])];
    assert Lookup(two) == map[1 := Member(1, 0, [1]), 2 := Member(2, 0, [1])];
  }

  lemma {:induction false} DemoSupport(votes: seq<Vote>)
    requires votes == DEMO_VOTES || votes == DEMO_VOTES[1..]
    ensures Supporters(DEMO_MEMBERS, votes, 7) == {1, 2} && Supporters(DEMO_MEMBERS, votes, 8) <= {3}
  {
    assert DemoVote(1, 7) in votes && DemoVote(2, 7) in votes by {
      assert votes[|votes| - 2] == DemoVote(1, 7) && votes[|votes| - 1] == DemoVote(2, 7);
    }
    assert forall v :: v in votes ==> v == DemoVote(3, 8) || v == DemoVote(1, 7) || v == DemoVote(2, 7);
    assert 1 in Supporters(DEMO_MEMBERS, votes, 7) && 2 in Supporters(DEMO_MEMBERS, votes, 7);
  }

  lemma {:induction false} FirstIsFirst(members: map<Address, Member>, votes: seq<Vote>)
    requires votes != [] && Counts(members, votes[0])
    ensures FirstProof(members, votes) == Some(votes[0].proof)
  {
    if |votes| > 1 {
      FirstIsFirst(members, votes[..|votes| - 1]);
    }
  }

  /** One stray vote in front: two of three members support proof 7, but the first valid vote names 8. */
  lemma {:induction false} StrayVoteExample()
    ensures RequiredVotes(Fraction(3, 5), 3) == 2
    ensures |Supporters(Lookup(DEMO_COMMITTEE), DEMO_VOTES, 7)| >= 2
    ensures !Accepts(Lookup(DEMO_COMMITTEE), DEMO_VOTES, 2) && Accepts(Lookup(DEMO_COMMITTEE), DEMO_VOTES[1..], 2)
  {
    hide Supporters, FirstProof, Lookup, RequiredVotes;
    ThreeFifthsOverlap(3);
    DemoLookup();
    DemoSupport(DEMO_VOTES);
    DemoSupport(DEMO_VOTES[1..]);
    FirstIsFirst(DEMO_MEMBERS, DEMO_VOTES);
    FirstIsFirst(DEMO_MEMBERS, DEMO_VOTES[1..]);
    AtMostOne(Supporters(DEMO_MEMBERS, DEMO_VOTES, 8), 3);
  }

  lemma AtMostOne(s: set<Address>, a: Address)
    requires s <= {a}
    ensures |s| <= 1
  {
    assert s == {} || s == {a};
  }
}
