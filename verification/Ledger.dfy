/**
 * The double-entry ledger: an append-only table of legs, postings validated before they are
 * written, and reversals that post the flipped legs of a group.
 */
module Ledger {
  import opened Collections

  datatype Direction = DR | CR | Other(text: string)

  /** One half-entry as handed in; a missing amount is possible. */
  datatype Leg = Leg(account: string, direction: Direction, amount: Option<int>, currency: string)

  type Group = nat

  /** A row of the table. */
  datatype Entry = Entry(group: Group, leg: Leg, plId: string, note: string)

  datatype LedgerError = Unbalanced | InvalidLeg | GroupNotFound | WriteFailed

  // ---------------------------------------------------------------- well-formed and balanced

  predicate IsSpace(c: char) {
    var n := c as int;
    || 9 <= n <= 13 || n == 32 || n == 0x85 || n == 0xA0 || n == 0x1680 || 0x2000 <= n <= 0x200A
    || n == 0x2028 || n == 0x2029 || n == 0x202F || n == 0x205F || n == 0x3000
  }

  /** Nothing is left after trimming. */
  predicate Blank(s: string) {
    forall i :: 0 <= i < |s| ==> IsSpace(s[i])
  }

  predicate WellFormed(leg: Leg) {
    && !leg.direction.Other? && !Blank(leg.account) && !Blank(leg.currency)
    && leg.amount.Some? && leg.amount.value > 0
  }

  predicate AllWellFormed(legs: seq<Leg>) {
    forall i :: 0 <= i < |legs| ==> WellFormed(legs[i])
  }

  /** A leg's effect on its account, credits positive. */
  function Signed(leg: Leg): int {
    if leg.amount.None? then 0
    else if leg.direction == CR then leg.amount.value
    else if leg.direction == DR then -leg.amount.value
    else 0
  }

  /** The total of one side in a currency. */
  function Total(legs: seq<Leg>, side: Direction, currency: string): int {
    if legs == [] then 0
    else
      var last := legs[|legs| - 1];
      Total(legs[..|legs| - 1], side, currency)
        + if last.direction == side && last.currency == currency && last.amount.Some? then last.amount.value else 0
  }

  /** Credits minus debits in a currency, over all accounts. */
  function Net(legs: seq<Leg>, currency: string): int {
    if legs == [] then 0
    else
      var last := legs[|legs| - 1];
      Net(legs[..|legs| - 1], currency) + if last.currency == currency then Signed(last) else 0
  }

  lemma {:induction false} NetIsDifference(legs: seq<Leg>, currency: string)
    ensures Net(legs, currency) == Total(legs, CR, currency) - Total(legs, DR, currency)
  {
    if legs != [] {
      NetIsDifference(legs[..|legs| - 1], currency);
    }
  }

  lemma {:induction false} NetConcat(a: seq<Leg>, b: seq<Leg>, currency: string)
    ensures Net(a + b, currency) == Net(a, currency) + Net(b, currency)
    decreases |b|
  {
    if b == [] {
      assert a + b == a;
    } else {
      NetConcat(a, b[..|b| - 1], currency);
      assert (a + b)[..|a + b| - 1] == a + b[..|b| - 1];
    }
  }

  ghost predicate Balanced(legs: seq<Leg>) {
    forall currency :: Net(legs, currency) == 0
  }

  predicate HasSide(legs: seq<Leg>, side: Direction) {
    exists i :: 0 <= i < |legs| && legs[i].direction == side
  }

  /** What may be posted: well-formed legs on both sides, balanced in every currency. */
  ghost predicate Postable(legs: seq<Leg>) {
    AllWellFormed(legs) && HasSide(legs, DR) && HasSide(legs, CR) && Balanced(legs)
  }

  // ---------------------------------------------------------------- validation

  datatype Sums = Sums(dr: int, cr: int)

  /** The per-currency sums of the legs seen so far. */
  ghost predicate Tallied(legs: seq<Leg>, sums: map<string, Sums>) {
    && (forall i :: 0 <= i < |legs| ==> legs[i].currency in sums)
    && (forall c :: c in sums ==> sums[c] == Sums(Total(legs, DR, c), Total(legs, CR, c)))
  }

  lemma {:induction false} AbsentTotal(legs: seq<Leg>, side: Direction, currency: string)
    requires forall i :: 0 <= i < |legs| ==> legs[i].currency != currency
    ensures Total(legs, side, currency) == 0
  {
    if legs != [] {
      AbsentTotal(legs[..|legs| - 1], side, currency);
    }
  }

  function Booked(sums: map<string, Sums>, leg: Leg): map<string, Sums>
    requires leg.amount.Some?
  {
    var s := if leg.currency in sums then sums[leg.currency] else Sums(0, 0);
    sums[leg.currency := if leg.direction == DR then s.(dr := s.dr + leg.amount.value) else s.(cr := s.cr + leg.amount.value)]
  }

  lemma {:induction false} TallyGrows(legs: seq<Leg>, leg: Leg, sums: map<string, Sums>)
    requires Tallied(legs, sums) && WellFormed(leg)
    ensures Tallied(legs + [leg], Booked(sums, leg))
  {
    var longer, after := legs + [leg], Booked(sums, leg);
    assert longer[..|legs|] == legs;
    if leg.currency !in sums {
      AbsentTotal(legs, DR, leg.currency);
      AbsentTotal(legs, CR, leg.currency);
    }
  }

  lemma {:induction false} TallyDecides(legs: seq<Leg>, sums: map<string, Sums>)
    requires Tallied(legs, sums)
    ensures Balanced(legs) <==> forall c :: c in sums ==> sums[c].dr == sums[c].cr
  {
    if forall c :: c in sums ==> sums[c].dr == sums[c].cr {
      forall c ensures Net(legs, c) == 0 {
        NetIsDifference(legs, c);
        if c !in sums {
          AbsentTotal(legs, DR, c);
          AbsentTotal(legs, CR, c);
        }
      }
    }
    if Balanced(legs) {
      forall c | c in sums ensures sums[c].dr == sums[c].cr {
        NetIsDifference(legs, c);
      }
    }
  }

  /** Accepts exactly the postable lists; a malformed leg is reported before an imbalance. */
  method Validate(legs: seq<Leg>) returns (error: Option<LedgerError>)
    ensures error.None? <==> Postable(legs)
    ensures error == Some(InvalidLeg) <==> |legs| >= 2 && !AllWellFormed(legs)
    ensures error == Some(Unbalanced) <==> |legs| < 2 || (AllWellFormed(legs) && !Postable(legs))
  {
    hide Tallied, Blank;
    if |legs| < 2 {
      OneSided(legs);
      return Some(Unbalanced);
    }
    var sums: map<string, Sums>, haveDR, haveCR;
    error, sums, haveDR, haveCR := Tally(legs);
    if error.Some? {
      return;
    }
    TallyDecides(legs, sums);
    if !haveDR || !haveCR {
      return Some(Unbalanced);
    }
    var rest := sums.Keys;
    while rest != {}
      invariant rest <= sums.Keys && forall c :: c in sums && c !in rest ==> sums[c].dr == sums[c].cr
      decreases |rest|
    {
      var c :| c in rest;
      rest := rest - {c};
      if sums[c].dr != sums[c].cr {
        return Some(Unbalanced);
      }
    }
  }

  lemma OneSided(legs: seq<Leg>)
    requires |legs| < 2
    ensures !Postable(legs)
  {}

  /** Check every leg and add up both sides per currency. */
  method Tally(legs: seq<Leg>) returns (error: Option<LedgerError>, sums: map<string, Sums>, haveDR: bool, haveCR: bool)
    ensures error == if AllWellFormed(legs) then None else Some(InvalidLeg)
    ensures error.None? ==> Tallied(legs, sums) && haveDR == HasSide(legs, DR) && haveCR == HasSide(legs, CR)
  {
    hide Blank;
    sums, haveDR, haveCR := map[], false, false;
    var i := 0;
    while i < |legs|
      invariant 0 <= i <= |legs| && AllWellFormed(legs[..i]) && Tallied(legs[..i], sums)
      invariant haveDR == HasSide(legs[..i], DR) && haveCR == HasSide(legs[..i], CR)
    {
      var leg := legs[i];
      if leg.direction.Other? || Blank(leg.account) || Blank(leg.currency) || leg.amount.None? || leg.amount.value <= 0 {
        assert !WellFormed(legs[i]);
        return Some(InvalidLeg), sums, haveDR, haveCR;
      }
      TallyGrows(legs[..i], leg, sums);
      SideGrows(legs[..i], leg, DR);
      SideGrows(legs[..i], leg, CR);
      assert legs[..i + 1] == legs[..i] + [leg];
      sums := Booked(sums, leg);
      if leg.direction == DR {
        haveDR := true;
      } else {
        haveCR := true;
      }
      i := i + 1;
    }
    assert legs[..i] == legs;
    error := None;
  }

  lemma {:induction false} SideGrows(legs: seq<Leg>, leg: Leg, side: Direction)
    ensures HasSide(legs + [leg], side) <==> HasSide(legs, side) || leg.direction == side
  {
    var longer := legs + [leg];
    assert longer[|legs|] == leg;
    if i :| 0 <= i < |legs| && legs[i].direction == side {
      assert longer[i].direction == side;
    }
  }

  // ---------------------------------------------------------------- the table

  function LegsOf(entries: seq<Entry>): (r: seq<Leg>)
    ensures |r| == |entries|
  {
    seq(|entries|, i requires 0 <= i < |entries| => entries[i].leg)
  }

  /** The rows of one group, in table order. */
  function OfGroup(entries: seq<Entry>, group: Group): seq<Entry> {
    if entries == [] then []
    else
      var last := entries[|entries| - 1];
      OfGroup(entries[..|entries| - 1], group) + if last.group == group then [last] else []
  }

  /** Credits minus debits of one account in one currency. */
  function Balance(legs: seq<Leg>, account: string, currency: string): int {
    if legs == [] then 0
    else
      var last := legs[|legs| - 1];
      Balance(legs[..|legs| - 1], account, currency) + if last.account == account && last.currency == currency then Signed(last) else 0
  }

  lemma {:induction false} BalanceConcat(a: seq<Leg>, b: seq<Leg>, account: string, currency: string)
    ensures Balance(a + b, account, currency) == Balance(a, account, currency) + Balance(b, account, currency)
    decreases |b|
  {
    if b == [] {
      assert a + b == a;
    } else {
      BalanceConcat(a, b[..|b| - 1], account, currency);
      assert (a + b)[..|a + b| - 1] == a + b[..|b| - 1];
    }
  }

  // ---------------------------------------------------------------- account balances add up

  function Accounts(legs: seq<Leg>): set<string> {
    set i | 0 <= i < |legs| :: legs[i].account
  }

  /** The sum of the balances of a set of accounts. */
  ghost function SumOver(legs: seq<Leg>, accounts: set<string>, currency: string): int {
    if accounts == {} then 0
    else
      var a :| a in accounts;
      Balance(legs, a, currency) + SumOver(legs, accounts - {a}, currency)
  }

  lemma {:induction false} SumOverExtract(legs: seq<Leg>, accounts: set<string>, a: string, currency: string)
    requires a in accounts
    ensures SumOver(legs, accounts, currency) == Balance(legs, a, currency) + SumOver(legs, accounts - {a}, currency)
    decreases |accounts|
  {
    var x :| x in accounts && SumOver(legs, accounts, currency) == Balance(legs, x, currency) + SumOver(legs, accounts - {x}, currency);
    if x != a {
      SumOverExtract(legs, accounts - {x}, a, currency);
      SumOverExtract(legs, accounts - {a}, x, currency);
      assert accounts - {x} - {a} == accounts - {a} - {x};
    }
  }

  lemma {:induction false} SumOverNothing(accounts: set<string>, currency: string)
    ensures SumOver([], accounts, currency) == 0
  {
    if accounts != {} {
      var a :| a in accounts;
      SumOverExtract([], accounts, a, currency);
      SumOverNothing(accounts - {a}, currency);
    }
  }

  /** One more leg changes the sum by its effect if its account is in the set. */
  lemma {:induction false} SumOneMore(legs: seq<Leg>, leg: Leg, accounts: set<string>, currency: string)
    ensures SumOver(legs + [leg], accounts, currency) ==
      SumOver(legs, accounts, currency) + if leg.account in accounts && leg.currency == currency then Signed(leg) else 0
    decreases |accounts|
  {
    if accounts != {} {
      var a :| a in accounts;
      SumOverExtract(legs, accounts, a, currency);
      SumOverExtract(legs + [leg], accounts, a, currency);
      SumOneMore(legs, leg, accounts - {a}, currency);
      assert (legs + [leg])[..|legs|] == legs;
    }
  }

  /** The balances of any set of accounts that covers the legs add up to the net of the currency. */
  lemma {:induction false} BalancesAddUp(legs: seq<Leg>, accounts: set<string>, currency: string)
    requires Accounts(legs) <= accounts
    ensures SumOver(legs, accounts, currency) == Net(legs, currency)
  {
    if legs == [] {
      SumOverNothing(accounts, currency);
    } else {
      var n := |legs| - 1;
      assert legs[n].account in Accounts(legs);
      forall i | 0 <= i < n ensures legs[..n][i].account in accounts {
        assert legs[i].account in Accounts(legs);
      }
      BalancesAddUp(legs[..n], accounts, currency);
      SumOneMore(legs[..n], legs[n], accounts, currency);
      assert legs == legs[..n] + [legs[n]];
    }
  }

  // ---------------------------------------------------------------- what the table keeps

  lemma {:induction false} OfGroupConcat(a: seq<Entry>, b: seq<Entry>, group: Group)
    ensures OfGroup(a + b, group) == OfGroup(a, group) + OfGroup(b, group)
    decreases |b|
  {
    if b == [] {
      assert a + b == a;
    } else {
      OfGroupConcat(a, b[..|b| - 1], group);
      assert (a + b)[..|a + b| - 1] == a + b[..|b| - 1];
    }
  }

  lemma {:induction false} OfGroupAll(rows: seq<Entry>, group: Group, asked: Group)
    requires forall i :: 0 <= i < |rows| ==> rows[i].group == group
    ensures OfGroup(rows, asked) == if asked == group then rows else []
  {
    if rows != [] {
      OfGroupAll(rows[..|rows| - 1], group, asked);
    }
  }

  lemma LegsConcat(a: seq<Entry>, b: seq<Entry>)
    ensures LegsOf(a + b) == LegsOf(a) + LegsOf(b)
  {}

  lemma {:induction false} PostableConcat(a: seq<Leg>, b: seq<Leg>)
    requires (a == [] || Postable(a)) && Postable(b)
    ensures Postable(a + b)
  {
    assert HasSide(a + b, DR) && HasSide(a + b, CR) by {
      var i :| 0 <= i < |b| && b[i].direction == DR;
      var j :| 0 <= j < |b| && b[j].direction == CR;
      assert (a + b)[|a| + i] == b[i] && (a + b)[|a| + j] == b[j];
    }
    forall c ensures Net(a + b, c) == 0 {
      NetConcat(a, b, c);
    }
  }

  /** Every group is made of postings, and every currency is balanced over the whole table. */
  ghost predicate TableOk(entries: seq<Entry>) {
    && (forall g :: OfGroup(entries, g) == [] || Postable(LegsOf(OfGroup(entries, g))))
    && Balanced(LegsOf(entries))
  }

  ghost predicate RowsOf(rows: seq<Entry>, group: Group, legs: seq<Leg>, plId: string, note: string) {
    |rows| == |legs| && forall i :: 0 <= i < |rows| ==> rows[i] == Entry(group, legs[i], plId, note)
  }

  lemma {:induction false} PostKeepsTable(entries: seq<Entry>, rows: seq<Entry>, group: Group, legs: seq<Leg>, plId: string, note: string)
    requires TableOk(entries) && RowsOf(rows, group, legs, plId, note) && Postable(legs)
    ensures TableOk(entries + rows)
  {
    hide Postable, Balanced;
    assert LegsOf(rows) == legs;
    forall g ensures OfGroup(entries + rows, g) == [] || Postable(LegsOf(OfGroup(entries + rows, g))) {
      OfGroupConcat(entries, rows, g);
      OfGroupAll(rows, group, g);
      if g == group {
        LegsConcat(OfGroup(entries, g), rows);
        PostableConcat(LegsOf(OfGroup(entries, g)), legs);
      } else {
        assert OfGroup(entries, g) + [] == OfGroup(entries, g);
      }
    }
    LegsConcat(entries, rows);
    BalancedConcat(LegsOf(entries), legs);
  }

  lemma {:induction false} BalancedConcat(a: seq<Leg>, b: seq<Leg>)
    requires Balanced(a) && Postable(b)
    ensures Balanced(a + b)
  {
    forall c ensures Net(a + b, c) == 0 {
      NetConcat(a, b, c);
    }
  }

  /** In a sound table the balances of all accounts in a currency add up to zero. */
  lemma {:induction false} BooksBalance(entries: seq<Entry>, currency: string)
    requires TableOk(entries)
    ensures SumOver(LegsOf(entries), Accounts(LegsOf(entries)), currency) == 0
  {
    BalancesAddUp(LegsOf(entries), Accounts(LegsOf(entries)), currency);
  }

  // ---------------------------------------------------------------- flipping

  /** The reference is the first in the rows that is not empty, if any is. */
  ghost predicate FirstReference(found: seq<Entry>, plId: string) {
    || (plId == "" && forall i :: 0 <= i < |found| ==> found[i].plId == "")
    || (plId != "" && exists i :: 0 <= i < |found| && found[i].plId == plId && forall j :: 0 <= j < i ==> found[j].plId == "")
  }

  lemma {:induction false} ReferenceGrows(found: seq<Entry>, entry: Entry, plId: string)
    requires FirstReference(found, plId)
    ensures FirstReference(found + [entry], if plId == "" then entry.plId else plId)
  {
    var longer := found + [entry];
    if plId != "" {
      var i :| 0 <= i < |found| && found[i].plId == plId && forall j :: 0 <= j < i ==> found[j].plId == "";
      assert longer[i].plId == plId && forall j :: 0 <= j < i ==> longer[j].plId == "";
    } else if entry.plId != "" {
      assert longer[|found|].plId == entry.plId && forall j :: 0 <= j < |found| ==> longer[j].plId == "";
    }
  }

  lemma NoReference()
    ensures FirstReference([], "")
  {}

  function Flip(d: Direction): Direction {
    if d == CR then DR else CR
  }

  function Flipped(legs: seq<Leg>): (r: seq<Leg>)
    ensures |r| == |legs|
  {
    seq(|legs|, i requires 0 <= i < |legs| => legs[i].(direction := Flip(legs[i].direction)))
  }

  lemma {:induction false} FlippedNet(legs: seq<Leg>, currency: string)
    requires AllWellFormed(legs)
    ensures Net(Flipped(legs), currency) == -Net(legs, currency)
  {
    if legs != [] {
      FlippedNet(legs[..|legs| - 1], currency);
      assert Flipped(legs)[..|legs| - 1] == Flipped(legs[..|legs| - 1]);
    }
  }

  lemma {:induction false} FlippedBalance(legs: seq<Leg>, account: string, currency: string)
    requires AllWellFormed(legs)
    ensures Balance(Flipped(legs), account, currency) == -Balance(legs, account, currency)
  {
    if legs != [] {
      FlippedBalance(legs[..|legs| - 1], account, currency);
      assert Flipped(legs)[..|legs| - 1] == Flipped(legs[..|legs| - 1]);
    }
  }

  /** The flipped legs of a posting are a posting. */
  lemma {:induction false} FlippedPostable(legs: seq<Leg>)
    requires Postable(legs)
    ensures Postable(Flipped(legs))
  {
    hide Blank;
    var i :| 0 <= i < |legs| && legs[i].direction == DR;
    var j :| 0 <= j < |legs| && legs[j].direction == CR;
    assert Flipped(legs)[i].direction == CR && Flipped(legs)[j].direction == DR;
    forall c ensures Net(Flipped(legs), c) == 0 {
      FlippedNet(legs, c);
    }
  }

  /** Posting the flipped legs of a group takes exactly the group's effect off every balance. */
  lemma {:induction false} ReversalEffect(entries: seq<Entry>, group: Group, rows: seq<Entry>, account: string, currency: string)
    requires TableOk(entries) && OfGroup(entries, group) != [] && LegsOf(rows) == Flipped(LegsOf(OfGroup(entries, group)))
    ensures Balance(LegsOf(entries + rows), account, currency) ==
      Balance(LegsOf(entries), account, currency) - Balance(LegsOf(OfGroup(entries, group)), account, currency)
  {
    hide OfGroup, Balance, Balanced;
    LegsConcat(entries, rows);
    BalanceConcat(LegsOf(entries), LegsOf(rows), account, currency);
    FlippedBalance(LegsOf(OfGroup(entries, group)), account, currency);
  }

  // ---------------------------------------------------------------- posting

  class Book {
    /** The table; rows are only ever added. */
    var entries: seq<Entry>

    ghost predicate Valid()
      reads this
    {
      TableOk(entries)
    }

    constructor ()
      ensures Valid() && entries == []
    {
      entries := [];
    }

    /** Validate and write all legs under one group, or nothing. */
    method Post(group: Option<Group>, legs: seq<Leg>, plId: string, note: string, newGroup: Group, written: bool)
      returns (error: Option<LedgerError>, posted: Group)
      requires Valid()
      modifies this
      ensures Valid() && posted == if group.Some? then group.value else newGroup
      ensures error.None? <==> Postable(legs) && written
      ensures error == Some(WriteFailed) <==> Postable(legs) && !written
      ensures error != Some(GroupNotFound)
      ensures error.None? ==> old(entries) <= entries && RowsOf(entries[|old(entries)|..], posted, legs, plId, note)
      ensures error.Some? ==> entries == old(entries)
    {
      hide TableOk, Postable, AllWellFormed;
      posted := if group.Some? then group.value else newGroup;
      error := Validate(legs);
      if error.Some? {
        return;
      }
      var rows: seq<Entry> := [];
      var i := 0;
      while i < |legs|
        invariant 0 <= i <= |legs| && RowsOf(rows, posted, legs[..i], plId, note)
        invariant entries == old(entries)
      {
        rows := rows + [Entry(posted, legs[i], plId, note)];
        i := i + 1;
      }
      assert legs[..i] == legs;
      if !written {
        return Some(WriteFailed), posted;
      }
      PostKeepsTable(entries, rows, posted, legs, plId, note);
      entries := entries + rows;
      error := None;
    }

    /** Post the flipped legs of a group; any group in the table can be reversed. */
    method Reverse(group: Group, note: string, groupName: string, newGroup: Group, written: bool)
      returns (error: Option<LedgerError>, posted: Group)
      requires Valid()
      modifies this
      ensures Valid()
      ensures error.None? <==> OfGroup(old(entries), group) != [] && written
      ensures error == Some(GroupNotFound) <==> OfGroup(old(entries), group) == []
      ensures error.Some? ==> entries == old(entries)
      ensures error.None? ==> old(entries) <= entries && posted == newGroup && forall account, currency ::
        Balance(LegsOf(entries), account, currency) ==
          Balance(LegsOf(old(entries)), account, currency) - Balance(LegsOf(OfGroup(old(entries), group)), account, currency)
      ensures error.None? ==> exists plId ::
        && FirstReference(OfGroup(old(entries), group), plId)
        && RowsOf(entries[|old(entries)|..], newGroup, Flipped(LegsOf(OfGroup(old(entries), group))), plId,
                  if note == "" then "reversal of " + groupName else note)
    {
      hide Postable, Balanced, Balance, OfGroup;
      posted := newGroup;
      var found := OfGroup(entries, group);
      if |found| == 0 {
        return Some(GroupNotFound), posted;
      }
      var flipped, plId := FlipAll(found);
      FlippedPostable(LegsOf(found));
      error, posted := Post(None, flipped, plId, if note == "" then "reversal of " + groupName else note, newGroup, written);
      if error.None? {
        ghost var rows := entries[|old(entries)|..];
        assert entries == old(entries) + rows && LegsOf(rows) == flipped;
        forall account, currency ensures Balance(LegsOf(entries), account, currency) ==
          Balance(LegsOf(old(entries)), account, currency) - Balance(LegsOf(OfGroup(old(entries), group)), account, currency)
        {
          ReversalEffect(old(entries), group, rows, account, currency);
        }
      }
    }

    /** The global check: every currency of a sound table nets to zero. */
    method IsBalanced(currency: string) returns (ok: bool)
      requires Valid()
      ensures ok
    {
      ok := Net(LegsOf(entries), currency) == 0;
    }
  }

  /** Flip every leg and take the first reference that is not empty. */
  method FlipAll(found: seq<Entry>) returns (flipped: seq<Leg>, plId: string)
    ensures flipped == Flipped(LegsOf(found))
    ensures FirstReference(found, plId)
  {
    hide FirstReference;
    flipped, plId := [], "";
    assert FirstReference(found[..0], "") by { NoReference(); }
    var i := 0;
    while i < |found|
      invariant 0 <= i <= |found| && flipped == Flipped(LegsOf(found[..i]))
      invariant FirstReference(found[..i], plId)
    {
      assert found[..i + 1] == found[..i] + [found[i]];
      ReferenceGrows(found[..i], found[i], plId);
      var leg := found[i].leg;
      flipped := flipped + [leg.(direction := Flip(leg.direction))];
      if plId == "" && found[i].plId != "" {
        plId := found[i].plId;
      }
      i := i + 1;
    }
    assert found[..i] == found;
  }
}
