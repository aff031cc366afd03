/** Paying out a round: a five percent fee, exact shares rounded down, and the leftover units one each to
    the largest remainders, ties going to the smaller member ID. */
module Rewards {
  import opened Sorting

  /** One item of the credit mapping, in the mapping's own order. */
  datatype Entry = Entry(key: string, credit: real)

  datatype Payout = Refused | Paid(fee: nat, units: map<string, int>)

  /** What decides the leftover units. */
  datatype Claim = Claim(key: string, fraction: real)

  predicate ClaimLe(a: Claim, b: Claim) {
    a.fraction > b.fraction || (a.fraction == b.fraction && TextLe(a.key, b.key))
  }

  /** A mapping has no two entries for one key. */
  ghost predicate IsMapping(entries: seq<Entry>) {
    forall i, j :: 0 <= i < j < |entries| ==> entries[i].key != entries[j].key
  }

  function Sum(s: seq<real>): real {
    if s == [] then 0.0 else s[0] + Sum(s[1..])
  }

  function Total(s: seq<int>): int {
    if s == [] then 0 else s[0] + Total(s[1..])
  }

  function Credits(entries: seq<Entry>): (r: seq<real>)
    ensures |r| == |entries| && forall i :: 0 <= i < |entries| ==> r[i] == entries[i].credit
  {
    seq(|entries|, i requires 0 <= i < |entries| => entries[i].credit)
  }

  function Share(distributed: nat, total: real, e: Entry): real
    requires total != 0.0
  {
    distributed as real * e.credit / total
  }

  function Shares(distributed: nat, total: real, entries: seq<Entry>): (r: seq<real>)
    requires total != 0.0
    ensures |r| == |entries| && forall i :: 0 <= i < |entries| ==> r[i] == Share(distributed, total, entries[i])
  {
    seq(|entries|, i requires 0 <= i < |entries| => Share(distributed, total, entries[i]))
  }

  function Floors(distributed: nat, total: real, entries: seq<Entry>): (r: seq<int>)
    requires total != 0.0
    ensures |r| == |entries| && forall i :: 0 <= i < |entries| ==> r[i] == Share(distributed, total, entries[i]).Floor
  {
    seq(|entries|, i requires 0 <= i < |entries| => Share(distributed, total, entries[i]).Floor)
  }

  function ClaimOf(distributed: nat, total: real, e: Entry): Claim
    requires total != 0.0
  {
    Claim(e.key, Share(distributed, total, e) - Share(distributed, total, e).Floor as real)
  }

  function Claims(distributed: nat, total: real, entries: seq<Entry>): (r: seq<Claim>)
    requires total != 0.0
    ensures |r| == |entries| && forall i :: 0 <= i < |entries| ==> r[i] == ClaimOf(distributed, total, entries[i])
  {
    seq(|entries|, i requires 0 <= i < |entries| => ClaimOf(distributed, total, entries[i]))
  }

  function Fee(pot: nat): (fee: nat)
    ensures fee <= pot
  {
    pot * 5 / 100
  }

  function Keys(claims: seq<Claim>): (r: seq<string>)
    ensures |r| == |claims| && forall i :: 0 <= i < |claims| ==> r[i] == claims[i].key
  {
    seq(|claims|, i requires 0 <= i < |claims| => claims[i].key)
  }

  predicate Accepts(entries: seq<Entry>) {
    forall i :: 0 <= i < |entries| ==> entries[i].key != "" && entries[i].credit >= 0.0
  }

  /** The units left over when `distributed` is shared out and every share rounded down. */
  function Leftover(distributed: nat, total: real, entries: seq<Entry>): int
    requires total != 0.0
  {
    distributed - Total(Floors(distributed, total, entries))
  }

  function Order(distributed: nat, total: real, entries: seq<Entry>): seq<Claim>
    requires total != 0.0
  {
    Sort(Claims(distributed, total, entries), ClaimLe)
  }

  /** One of the first in the order, as many as there are leftover units. */
  predicate Lucky(distributed: nat, total: real, entries: seq<Entry>, key: string)
    requires total != 0.0
  {
    exists i :: 0 <= i < |Order(distributed, total, entries)| && i < Leftover(distributed, total, entries)
      && Order(distributed, total, entries)[i].key == key
  }

  function Units(pot: nat, entries: seq<Entry>, e: Entry): int {
    var d, total := pot - Fee(pot), Sum(Credits(entries));
    if total == 0.0 then 0
    else Share(d, total, e).Floor + if Lucky(d, total, entries, e.key) then 1 else 0
  }

  function FeeDue(pot: nat, entries: seq<Entry>): nat {
    if Sum(Credits(entries)) == 0.0 then pot else Fee(pot)
  }

  function Amounts(pot: nat, entries: seq<Entry>): (r: seq<int>)
    ensures |r| == |entries| && forall i :: 0 <= i < |entries| ==> r[i] == Units(pot, entries, entries[i])
  {
    seq(|entries|, i requires 0 <= i < |entries| => Units(pot, entries, entries[i]))
  }

  // ------------------------------------------------------------------ sums

  lemma {:induction false} SumWithout(s: seq<real>, i: nat)
    requires i < |s|
    ensures Sum(s) == s[i] + Sum(Without(s, i))
  {
    if i == 0 {
      assert Without(s, 0) == s[1..];
    } else {
      SumWithout(s[1..], i - 1);
      assert Without(s, i) == [s[0]] + Without(s[1..], i - 1);
    }
  }

  lemma {:induction false} SumPermutes(s: seq<real>, t: seq<real>)
    requires multiset(s) == multiset(t)
    ensures Sum(s) == Sum(t)
  {
    if s == [] {
      assert t == [] by { assert |multiset(t)| == 0; }
    } else {
      var i := Place(s, t);
      SameRest(s, t, i);
      SumWithout(t, i);
      SumPermutes(s[1..], Without(t, i));
    }
  }

  lemma ShareOfAll(d: nat, total: real)
    requires total != 0.0
    ensures d as real * total / total == d as real
  {
  }

  lemma ShareSplits(d: nat, total: real, a: real, b: real)
    requires total != 0.0
    ensures d as real * (a + b) / total == d as real * a / total + d as real * b / total
  {
  }

  /** Shares add up to the part of the pot in proportion to the credit they cover. */
  lemma {:induction false} SharesSum(d: nat, total: real, entries: seq<Entry>)
    requires total != 0.0
    ensures Sum(Shares(d, total, entries)) == d as real * Sum(Credits(entries)) / total
  {
    if entries != [] {
      SharesSum(d, total, entries[1..]);
      assert Shares(d, total, entries)[1..] == Shares(d, total, entries[1..]);
      assert Credits(entries)[1..] == Credits(entries[1..]);
      ShareSplits(d, total, entries[0].credit, Sum(Credits(entries[1..])));
    }
  }

  lemma {:induction false} SumAtLeast(s: seq<real>)
    requires forall i :: 0 <= i < |s| ==> s[i] >= 0.0
    ensures Sum(s) >= 0.0
    ensures forall i :: 0 <= i < |s| ==> Sum(s) >= s[i]
  {
    if s != [] { SumAtLeast(s[1..]); }
  }

  function Fractions(claims: seq<Claim>): (r: seq<real>)
    ensures |r| == |claims| && forall i :: 0 <= i < |claims| ==> r[i] == claims[i].fraction
  {
    seq(|claims|, i requires 0 <= i < |claims| => claims[i].fraction)
  }

  ghost predicate Proper(claims: seq<Claim>) {
    forall i :: 0 <= i < |claims| ==> 0.0 <= claims[i].fraction < 1.0
  }

  /** Fractions that vanish from index i on add up to at most i. */
  lemma {:induction false} FractionsBound(claims: seq<Claim>, i: nat)
    requires Proper(claims) && i <= |claims| && forall j :: i <= j < |claims| ==> claims[j].fraction == 0.0
    ensures 0.0 <= Sum(Fractions(claims)) <= i as real
  {
    if claims != [] {
      FractionsBound(claims[1..], if i == 0 then 0 else i - 1);
      assert Fractions(claims)[1..] == Fractions(claims[1..]);
    }
  }

  /** What rounding down leaves over is the sum of the fractions. */
  lemma {:induction false} FloorsAndFractions(d: nat, total: real, entries: seq<Entry>)
    requires total != 0.0
    ensures Total(Floors(d, total, entries)) as real + Sum(Fractions(Claims(d, total, entries)))
         == Sum(Shares(d, total, entries))
  {
    if entries != [] {
      FloorsAndFractions(d, total, entries[1..]);
      assert Floors(d, total, entries)[1..] == Floors(d, total, entries[1..]);
      assert Fractions(Claims(d, total, entries))[1..] == Fractions(Claims(d, total, entries[1..]));
      assert Shares(d, total, entries)[1..] == Shares(d, total, entries[1..]);
    }
  }

  lemma ClaimOrder()
    ensures TotalOrder(ClaimLe)
  {
    TextOrder();
  }

  // ------------------------------------------------------------------ who is lucky

  lemma OrderFacts(d: nat, total: real, entries: seq<Entry>)
    requires IsMapping(entries) && total != 0.0
    ensures var claims, order := Claims(d, total, entries), Order(d, total, entries);
      Sorted(order, ClaimLe) && Proper(order) && Distinct(Keys(order)) && multiset(order) == multiset(claims)
  {
    var claims, order := Claims(d, total, entries), Order(d, total, entries);
    ClaimOrder();
    SortSorts(claims, ClaimLe);
    KeysPermute(claims, order);
    forall i | 0 <= i < |order| ensures 0.0 <= order[i].fraction < 1.0 {
      assert order[i] in multiset(claims);
    }
  }

  lemma KeysPermute(claims: seq<Claim>, order: seq<Claim>)
    requires multiset(claims) == multiset(order) && Distinct(Keys(claims))
    ensures Distinct(Keys(order))
  {
    var key := (c: Claim) => c.key;
    MappedPermutes(claims, order, key);
    assert Mapped(claims, key) == Keys(claims) && Mapped(order, key) == Keys(order);
    DistinctPermutes(Keys(claims), Keys(order));
  }

  lemma FractionsPermute(claims: seq<Claim>, order: seq<Claim>)
    requires multiset(claims) == multiset(order)
    ensures Sum(Fractions(claims)) == Sum(Fractions(order))
  {
    var fraction := (c: Claim) => c.fraction;
    MappedPermutes(claims, order, fraction);
    assert Mapped(claims, fraction) == Fractions(claims) && Mapped(order, fraction) == Fractions(order);
    SumPermutes(Fractions(claims), Fractions(order));
  }

  lemma SharesSumToAll(d: nat, total: real, entries: seq<Entry>)
    requires total != 0.0 && total == Sum(Credits(entries))
    ensures Sum(Shares(d, total, entries)) == d as real
  {
    SharesSum(d, total, entries);
    ShareOfAll(d, total);
  }

  lemma LeftoverIsFractions(d: nat, total: real, entries: seq<Entry>)
    requires IsMapping(entries) && total != 0.0 && total == Sum(Credits(entries))
    ensures Leftover(d, total, entries) as real == Sum(Fractions(Order(d, total, entries)))
  {
    SharesSumToAll(d, total, entries);
    FloorsAndFractions(d, total, entries);
    OrderFacts(d, total, entries);
    FractionsPermute(Claims(d, total, entries), Order(d, total, entries));
  }

  /** There is a candidate with a positive fraction for every leftover unit. */
  lemma LeftoverBounds(d: nat, total: real, entries: seq<Entry>)
    requires IsMapping(entries) && total != 0.0 && total == Sum(Credits(entries))
    ensures 0 <= Leftover(d, total, entries) <= |Order(d, total, entries)|
    ensures forall i :: 0 <= i < Leftover(d, total, entries) ==> Order(d, total, entries)[i].fraction > 0.0
  {
    var order := Order(d, total, entries);
    OrderFacts(d, total, entries);
    LeftoverIsFractions(d, total, entries);
    FractionsBound(order, |order|);
    forall i | 0 <= i < Leftover(d, total, entries) ensures order[i].fraction > 0.0 {
      if order[i].fraction <= 0.0 {
        assert forall j :: i < j < |order| ==> ClaimLe(order[i], order[j]);
        FractionsBound(order, i);
      }
    }
  }

  /** An entry's claim has a place in the order, and its luck depends on that place alone. */
  lemma LuckyPlace(d: nat, total: real, entries: seq<Entry>, e: Entry) returns (i: nat)
    requires IsMapping(entries) && total != 0.0 && e in entries
    ensures i < |Order(d, total, entries)| && Order(d, total, entries)[i] == ClaimOf(d, total, e)
    ensures Lucky(d, total, entries, e.key) <==> i < Leftover(d, total, entries)
  {
    var claims, order := Claims(d, total, entries), Order(d, total, entries);
    OrderFacts(d, total, entries);
    var k :| 0 <= k < |entries| && entries[k] == e;
    i := PlaceIn(claims, order, k);
    forall j | 0 <= j < |order| && order[j].key == e.key ensures j == i {
      assert Keys(order)[j] == Keys(order)[i];
    }
  }

  lemma PlaceIn(claims: seq<Claim>, order: seq<Claim>, k: nat) returns (i: nat)
    requires multiset(claims) == multiset(order) && k < |claims|
    ensures i < |order| && order[i] == claims[k]
  {
    assert claims[k] in multiset(order);
    i :| 0 <= i < |order| && order[i] == claims[k];
  }

  /** The lucky ones are the largest remainders: luck is closed under larger remainders, and under smaller
      IDs at equal remainders. */
  lemma LuckGoesByRemainder(d: nat, total: real, entries: seq<Entry>, a: Entry, b: Entry)
    requires IsMapping(entries) && total != 0.0 && a in entries && b in entries && a.key != b.key
    requires ClaimLe(ClaimOf(d, total, a), ClaimOf(d, total, b)) && Lucky(d, total, entries, b.key)
    ensures Lucky(d, total, entries, a.key)
  {
    var i := LuckyPlace(d, total, entries, a);
    var j := LuckyPlace(d, total, entries, b);
    OrderFacts(d, total, entries);
    ClaimOrder();
    assert forall m, n :: 0 <= m < n < |Order(d, total, entries)| ==> ClaimLe(Order(d, total, entries)[m], Order(d, total, entries)[n]);
  }

  // ------------------------------------------------------------------ the amounts

  lemma CreditsTotal(entries: seq<Entry>)
    requires Accepts(entries)
    ensures Sum(Credits(entries)) >= 0.0
    ensures forall e :: e in entries ==> Sum(Credits(entries)) >= e.credit
  {
    SumAtLeast(Credits(entries));
    forall e | e in entries ensures Sum(Credits(entries)) >= e.credit {
      var k :| 0 <= k < |entries| && entries[k] == e;
      assert Credits(entries)[k] == e.credit;
    }
  }

  lemma {:induction false} SumOfZeros(s: seq<real>)
    requires forall i :: 0 <= i < |s| ==> s[i] == 0.0
    ensures Sum(s) == 0.0
  {
    if s != [] { SumOfZeros(s[1..]); }
  }

  predicate Credited(entries: seq<Entry>) {
    exists i :: 0 <= i < |entries| && entries[i].credit > 0.0
  }

  lemma TotalMeans(entries: seq<Entry>)
    requires Accepts(entries)
    ensures Sum(Credits(entries)) == 0.0 <==> !Credited(entries)
  {
    CreditsTotal(entries);
    if Credited(entries) {
      var i :| 0 <= i < |entries| && entries[i].credit > 0.0;
      assert entries[i] in entries;
    } else {
      SumOfZeros(Credits(entries));
    }
  }

  /** The fee is five percent rounded down as soon as anybody has credit; with nobody to share it the whole pot is the
      operator's. */
  lemma FeeIsFivePercent(pot: nat, entries: seq<Entry>)
    requires Accepts(entries)
    ensures Credited(entries) ==> FeeDue(pot, entries) * 100 <= pot * 5 < (FeeDue(pot, entries) + 1) * 100
    ensures !Credited(entries) ==> FeeDue(pot, entries) == pot && forall e :: Units(pot, entries, e) == 0
  {
    TotalMeans(entries);
  }

  /** Everyone gets the exact share rounded down or up: strictly within one unit of it, and never less than
      nothing.  Without credit there is no leftover unit. */
  lemma WithinOneUnit(pot: nat, entries: seq<Entry>, e: Entry)
    requires IsMapping(entries) && Accepts(entries) && e in entries && Sum(Credits(entries)) != 0.0
    ensures var share := Share(pot - Fee(pot), Sum(Credits(entries)), e);
      share - 1.0 < Units(pot, entries, e) as real < share + 1.0
    ensures Units(pot, entries, e) >= 0
    ensures e.credit == 0.0 ==> Units(pot, entries, e) == 0
  {
    var d, total := pot - Fee(pot), Sum(Credits(entries));
    CreditsTotal(entries);
    ShareSigned(d, total, e);
    LeftoverBounds(d, total, entries);
    var i := LuckyPlace(d, total, entries, e);
  }

  lemma ShareSigned(d: nat, total: real, e: Entry)
    requires total > 0.0 && e.credit >= 0.0
    ensures Share(d, total, e) >= 0.0
    ensures e.credit == 0.0 ==> Share(d, total, e) == 0.0
  {
    var x := d as real * e.credit;
    assert x >= 0.0;
  }

  lemma ShareMonotone(d: nat, total: real, a: Entry, b: Entry)
    requires total > 0.0 && a.credit > b.credit
    ensures Share(d, total, a) >= Share(d, total, b)
    ensures d > 0 ==> Share(d, total, a) > Share(d, total, b)
  {
    var x, y := d as real * a.credit, d as real * b.credit;
    assert x - y == d as real * (a.credit - b.credit) >= 0.0;
    assert d > 0 ==> x > y;
    assert x / total - y / total == (x - y) / total >= 0.0;
    assert x > y ==> (x - y) / total > 0.0;
  }

  /** Of two shares that round down alike, the larger is lucky if the smaller is. */
  lemma LuckFollowsShare(d: nat, total: real, entries: seq<Entry>, a: Entry, b: Entry)
    requires IsMapping(entries) && total != 0.0 && total == Sum(Credits(entries)) && a in entries && b in entries
    requires Share(d, total, a) > Share(d, total, b) && Share(d, total, a).Floor == Share(d, total, b).Floor
    requires Lucky(d, total, entries, b.key)
    ensures Lucky(d, total, entries, a.key)
  {
    if a.key != b.key { LuckGoesByRemainder(d, total, entries, a, b); }
  }

  lemma NobodyLuckyInNothing(total: real, entries: seq<Entry>, b: Entry)
    requires IsMapping(entries) && total != 0.0 && total == Sum(Credits(entries)) && b in entries
    ensures !Lucky(0, total, entries, b.key)
  {
    LeftoverBounds(0, total, entries);
    var j := LuckyPlace(0, total, entries, b);
    assert Share(0, total, b) == 0.0;
  }

  lemma MoreShareNotLess(d: nat, total: real, entries: seq<Entry>, a: Entry, b: Entry)
    requires IsMapping(entries) && total != 0.0 && total == Sum(Credits(entries)) && a in entries && b in entries
    requires Share(d, total, a) >= Share(d, total, b) && (d > 0 ==> Share(d, total, a) > Share(d, total, b))
    ensures Share(d, total, a).Floor >= Share(d, total, b).Floor
    ensures Share(d, total, a).Floor == Share(d, total, b).Floor && Lucky(d, total, entries, b.key) ==> Lucky(d, total, entries, a.key)
  {
    if d == 0 {
      NobodyLuckyInNothing(total, entries, b);
    } else if Share(d, total, a).Floor == Share(d, total, b).Floor && Lucky(d, total, entries, b.key) {
      LuckFollowsShare(d, total, entries, a, b);
    }
  }

  /** A strictly higher credit never gets less. */
  lemma MoreCreditNotLess(pot: nat, entries: seq<Entry>, a: Entry, b: Entry)
    requires IsMapping(entries) && Accepts(entries) && a in entries && b in entries && a.credit > b.credit
    ensures Units(pot, entries, a) >= Units(pot, entries, b)
  {
    var d, total := pot - Fee(pot), Sum(Credits(entries));
    CreditsTotal(entries);
    if total != 0.0 {
      ShareMonotone(d, total, a, b);
      MoreShareNotLess(d, total, entries, a, b);
    }
  }

  // ------------------------------------------------------------------ the whole pot

  lemma {:induction false} TotalAdds(a: seq<int>, b: seq<int>, c: seq<int>)
    requires |a| == |b| == |c| && forall i :: 0 <= i < |c| ==> c[i] == a[i] + b[i]
    ensures Total(c) == Total(a) + Total(b)
  {
    if c != [] { TotalAdds(a[1..], b[1..], c[1..]); }
  }

  function Marks(entries: seq<Entry>, names: seq<string>): (r: seq<int>)
    ensures |r| == |entries| && forall i :: 0 <= i < |entries| ==> r[i] == if entries[i].key in names then 1 else 0
  {
    seq(|entries|, i requires 0 <= i < |entries| => if entries[i].key in names then 1 else 0)
  }

  ghost predicate AllKeys(entries: seq<Entry>, names: seq<string>) {
    forall n :: n in names ==> exists i :: 0 <= i < |entries| && entries[i].key == n
  }

  lemma WithoutKeeps(names: seq<string>, i: nat)
    requires Distinct(names) && i < |names|
    ensures Distinct(Without(names, i)) && forall n :: n in Without(names, i) <==> n in names && n != names[i]
  {
    var rest := Without(names, i);
    assert forall j :: 0 <= j < |rest| ==> rest[j] == names[if j < i then j else j + 1];
    forall n | n in names && n != names[i] ensures n in rest {
      var j :| 0 <= j < |names| && names[j] == n;
      assert rest[if j < i then j else j - 1] == n;
    }
  }

  lemma KeysAfter(entries: seq<Entry>, names: seq<string>)
    requires AllKeys(entries, names) && entries != [] && entries[0].key !in names
    ensures AllKeys(entries[1..], names)
  {
    forall n | n in names ensures exists k :: 0 <= k < |entries[1..]| && entries[1..][k].key == n {
      var k :| 0 <= k < |entries| && entries[k].key == n;
      assert entries[1..][k - 1].key == n;
    }
  }

  lemma {:induction false} MarksCount(entries: seq<Entry>, names: seq<string>)
    requires IsMapping(entries) && Distinct(names) && AllKeys(entries, names)
    ensures Total(Marks(entries, names)) == |names|
  {
    assert names != [] ==> names[0] in names;
    if entries == [] {
      assert names == [];
    } else if entries[0].key in names {
      var i :| 0 <= i < |names| && names[i] == entries[0].key;
      WithoutKeeps(names, i);
      KeysAfter(entries, Without(names, i));
      MarksCount(entries[1..], Without(names, i));
      assert Marks(entries, names)[1..] == Marks(entries[1..], Without(names, i));
    } else {
      KeysAfter(entries, names);
      MarksCount(entries[1..], names);
      assert Marks(entries, names)[1..] == Marks(entries[1..], names);
    }
  }

  /** The names that get a unit, in order. */
  function LuckyNames(d: nat, total: real, entries: seq<Entry>): (names: seq<string>)
    requires total != 0.0 && 0 <= Leftover(d, total, entries) <= |Order(d, total, entries)|
    ensures |names| == Leftover(d, total, entries)
  {
    Keys(Order(d, total, entries))[..Leftover(d, total, entries)]
  }

  lemma LuckyNamesFacts(d: nat, total: real, entries: seq<Entry>)
    requires IsMapping(entries) && total != 0.0 && total == Sum(Credits(entries))
    requires 0 <= Leftover(d, total, entries) <= |Order(d, total, entries)|
    ensures Distinct(LuckyNames(d, total, entries)) && AllKeys(entries, LuckyNames(d, total, entries))
    ensures forall key :: key in LuckyNames(d, total, entries) <==> Lucky(d, total, entries, key)
  {
    var claims, order, names := Claims(d, total, entries), Order(d, total, entries), LuckyNames(d, total, entries);
    OrderFacts(d, total, entries);
    forall n | n in names ensures exists i :: 0 <= i < |entries| && entries[i].key == n {
      var j :| 0 <= j < |names| && names[j] == n;
      var i := PlaceIn(order, claims, j);
      assert entries[i].key == n;
    }
    forall key ensures key in names <==> Lucky(d, total, entries, key) {
      if key in names {
        var j :| 0 <= j < |names| && names[j] == key;
        assert order[j].key == key;
      }
      if Lucky(d, total, entries, key) {
        var j :| 0 <= j < |order| && j < Leftover(d, total, entries) && order[j].key == key;
        assert names[j] == key;
      }
    }
  }

  lemma {:induction false} TotalOfZeros(s: seq<int>)
    requires forall i :: 0 <= i < |s| ==> s[i] == 0
    ensures Total(s) == 0
  {
    if s != [] { TotalOfZeros(s[1..]); }
  }

  /** Fee and units together are the pot, to the unit. */
  lemma PaysExactlyThePot(pot: nat, entries: seq<Entry>)
    requires IsMapping(entries)
    ensures FeeDue(pot, entries) + Total(Amounts(pot, entries)) == pot
  {
    var d, total := pot - Fee(pot), Sum(Credits(entries));
    if total == 0.0 {
      TotalOfZeros(Amounts(pot, entries));
    } else {
      LeftoverBounds(d, total, entries);
      LuckyNamesFacts(d, total, entries);
      var names := LuckyNames(d, total, entries);
      MarksCount(entries, names);
      TotalAdds(Floors(d, total, entries), Marks(entries, names), Amounts(pot, entries));
    }
  }

  lemma CreditsPermute(entries: seq<Entry>, other: seq<Entry>)
    requires multiset(entries) == multiset(other)
    ensures Sum(Credits(entries)) == Sum(Credits(other))
  {
    var credit := (e: Entry) => e.credit;
    MappedPermutes(entries, other, credit);
    assert Mapped(entries, credit) == Credits(entries) && Mapped(other, credit) == Credits(other);
    SumPermutes(Credits(entries), Credits(other));
  }

  lemma ClaimsPermute(d: nat, total: real, entries: seq<Entry>, other: seq<Entry>)
    requires multiset(entries) == multiset(other) && total != 0.0
    ensures Order(d, total, entries) == Order(d, total, other)
  {
    var claim := (e: Entry) => ClaimOf(d, total, e);
    MappedPermutes(entries, other, claim);
    assert Mapped(entries, claim) == Claims(d, total, entries) && Mapped(other, claim) == Claims(d, total, other);
    ClaimOrder();
    SortForgetsOrder(Claims(d, total, entries), Claims(d, total, other), ClaimLe);
  }

  /** The order in which the mapping lists its members changes nothing. */
  lemma MappingOrderIrrelevant(pot: nat, entries: seq<Entry>, other: seq<Entry>)
    requires multiset(entries) == multiset(other) && IsMapping(entries) && IsMapping(other)
    ensures FeeDue(pot, entries) == FeeDue(pot, other)
    ensures forall e :: Units(pot, entries, e) == Units(pot, other, e)
  {
    CreditsPermute(entries, other);
    var d, total := pot - Fee(pot), Sum(Credits(entries));
    if total != 0.0 {
      ClaimsPermute(d, total, entries, other);
      LeftoverIsFractions(d, total, entries);
      LeftoverIsFractions(d, total, other);
    }
  }

  // ------------------------------------------------------------------ the loops

  method AddUp(entries: seq<Entry>) returns (total: real)
    ensures total == Sum(Credits(entries))
  {
    total := 0.0;
    var i := |entries|;
    while i > 0
      invariant 0 <= i <= |entries|
      invariant total == Sum(Credits(entries)[i..])
    {
      i := i - 1;
      total := entries[i].credit + total;
      assert Credits(entries)[i..][1..] == Credits(entries)[i + 1..];
    }
    assert Credits(entries)[0..] == Credits(entries);
  }

  function Names(entries: seq<Entry>): set<string> {
    set i | 0 <= i < |entries| :: entries[i].key
  }

  /** Every share rounded down, and what that gives out in all. */
  method RoundDown(d: nat, total: real, entries: seq<Entry>) returns (units: map<string, int>, given: int)
    requires IsMapping(entries) && total != 0.0
    ensures units.Keys == Names(entries)
    ensures forall i :: 0 <= i < |entries| ==> units[entries[i].key] == Share(d, total, entries[i]).Floor
    ensures given == Total(Floors(d, total, entries))
  {
    units, given := map[], 0;
    var i := |entries|;
    while i > 0
      invariant 0 <= i <= |entries|
      invariant units.Keys == set j | i <= j < |entries| :: entries[j].key
      invariant forall j :: i <= j < |entries| ==> units[entries[j].key] == Share(d, total, entries[j]).Floor
      invariant given == Total(Floors(d, total, entries)[i..])
    {
      i := i - 1;
      units := units[entries[i].key := Share(d, total, entries[i]).Floor];
      given := Share(d, total, entries[i]).Floor + given;
      assert Floors(d, total, entries)[i..][1..] == Floors(d, total, entries)[i + 1..];
    }
    assert Floors(d, total, entries)[0..] == Floors(d, total, entries);
  }

  /** One unit more for each name. */
  method AddOneEach(units: map<string, int>, names: seq<string>) returns (result: map<string, int>)
    requires Distinct(names) && forall n :: n in names ==> n in units
    ensures result.Keys == units.Keys
    ensures forall k :: k in units ==> result[k] == units[k] + if k in names then 1 else 0
  {
    result := units;
    var j := 0;
    while j < |names|
      invariant 0 <= j <= |names|
      invariant result.Keys == units.Keys
      invariant forall k :: k in units ==> result[k] == units[k] + if k in names[..j] then 1 else 0
    {
      assert names[j] in names && names[j] !in names[..j];
      result := result[names[j] := result[names[j]] + 1];
      j := j + 1;
      assert names[..j] == names[..j - 1] + [names[j - 1]];
    }
    assert names[..j] == names;
  }

  /** Floors first, then one unit each to the first of the order. */
  method ShareOut(d: nat, entries: seq<Entry>, total: real) returns (units: map<string, int>)
    requires IsMapping(entries) && total != 0.0 && total == Sum(Credits(entries))
    ensures units.Keys == Names(entries)
    ensures forall i :: 0 <= i < |entries| ==>
      units[entries[i].key] == Share(d, total, entries[i]).Floor + if Lucky(d, total, entries, entries[i].key) then 1 else 0
  {
    var floors, given := RoundDown(d, total, entries);
    var order := Order(d, total, entries);
    LeftoverBounds(d, total, entries);
    LuckyNamesFacts(d, total, entries);
    var names := Keys(order)[..d - given];
    assert names == LuckyNames(d, total, entries);
    forall n | n in names ensures n in floors {
      assert exists i :: 0 <= i < |entries| && entries[i].key == n;
    }
    units := AddOneEach(floors, names);
  }

  /** The payout: refused for an empty ID or a negative credit, otherwise the fee and everyone's units. */
  lemma AcceptsMeans(entries: seq<Entry>)
    ensures !Accepts(entries) <==> exists i :: 0 <= i < |entries| && (entries[i].key == "" || entries[i].credit < 0.0)
  {
    if !Accepts(entries) {
      var i :| 0 <= i < |entries| && !(entries[i].key != "" && entries[i].credit >= 0.0);
    }
  }

  /** The fee and everyone's units, once the mapping was accepted. */
  method AllocateAccepted(pot: nat, entries: seq<Entry>) returns (fee: nat, units: map<string, int>)
    requires IsMapping(entries) && Accepts(entries)
    ensures fee == FeeDue(pot, entries) && units.Keys == Names(entries)
    ensures if Credited(entries) then fee * 100 <= pot * 5 < (fee + 1) * 100 else fee == pot
    ensures forall i :: 0 <= i < |entries| ==> units[entries[i].key] == Units(pot, entries, entries[i])
  {
    FeeIsFivePercent(pot, entries);
    TotalMeans(entries);
    var total := AddUp(entries);
    if total == 0.0 {
      var names := Names(entries);
      fee, units := pot, map key | key in names :: 0;
      assert forall i :: 0 <= i < |entries| ==> entries[i].key in names;
    } else {
      fee := Fee(pot);
      units := ShareOut(pot - fee, entries, total);
    }
  }

  method AllocateRewards(pot: nat, entries: seq<Entry>) returns (p: Payout)
    requires IsMapping(entries)
    ensures p.Refused? <==> !Accepts(entries)
    ensures p.Refused? <==> exists i :: 0 <= i < |entries| && (entries[i].key == "" || entries[i].credit < 0.0)
    ensures p.Paid? ==> p.fee == FeeDue(pot, entries) && p.units.Keys == Names(entries)
    ensures p.Paid? ==> if Credited(entries) then p.fee * 100 <= pot * 5 < (p.fee + 1) * 100 else p.fee == pot
    ensures p.Paid? ==> forall i :: 0 <= i < |entries| ==> p.units[entries[i].key] == Units(pot, entries, entries[i])
  {
    AcceptsMeans(entries);
    if !Accepts(entries) { return Refused; }
    var fee, units := AllocateAccepted(pot, entries);
    return Paid(fee, units);
  }
}
