/** Splitting qualifying credit: within a group the best bundles take the quota, and the bundles tied at the
    cutoff share what is left equally. */
module QualifierCredit {
  import opened Sorting
  import opened Sums

  datatype Group = Group(player: string, challenge: string, algorithm: string, track: string)

  /** One entry of a benchmark's active-quality array. */
  datatype Slot = Slot(quality: int, benchmark: string, index: nat)

  datatype Bundle = Bundle(group: Group, slot: Slot)

  /** An active benchmark; `live` when its track is still active. */
  datatype Active = Active(benchmark: string, group: Group, scores: seq<int>, live: bool)

  type Quotas = map<Group, nat>

  datatype Outcome = Unallocated | Unreconciled | Credits(of: map<Slot, real>)

  predicate SlotLe(a: Slot, b: Slot) {
    a.quality > b.quality
    || (a.quality == b.quality && (if a.benchmark == b.benchmark then a.index <= b.index else TextLe(a.benchmark, b.benchmark)))
  }

  lemma SlotOrder()
    ensures TotalOrder(SlotLe)
  {
    TextOrder();
  }

  // ------------------------------------------------------------------ the closed form

  function Elements<T>(s: seq<T>): set<T> {
    set x | x in s
  }

  /** The slots of one group among the first n bundles, in the order in which they come. */
  function GroupUpTo(bundles: seq<Bundle>, n: nat, g: Group): seq<Slot>
    requires n <= |bundles|
  {
    if n == 0 then []
    else GroupUpTo(bundles, n - 1, g) + if bundles[n - 1].group == g then [bundles[n - 1].slot] else []
  }

  function GroupList(bundles: seq<Bundle>, g: Group): seq<Slot> {
    GroupUpTo(bundles, |bundles|, g)
  }

  function GroupSlots(bundles: seq<Bundle>, g: Group): set<Slot> {
    Elements(GroupList(bundles, g))
  }

  function Above(s: set<Slot>, quality: int): set<Slot> {
    set y | y in s && y.quality > quality
  }

  function At(s: set<Slot>, quality: int): set<Slot> {
    set y | y in s && y.quality == quality
  }

  function Clamp(x: real): real {
    if x < 0.0 then 0.0 else if x > 1.0 then 1.0 else x
  }

  /** clamp((quota - better) / tied, 0, 1) */
  function Credit(s: set<Slot>, quota: nat, x: Slot): real
    requires x in s
  {
    assert x in At(s, x.quality);
    Clamp((quota - |Above(s, x.quality)|) as real / |At(s, x.quality)| as real)
  }

  function Quota(q: Quotas, g: Group): nat {
    if g in q then q[g] else 0
  }

  /** Credits are kept by benchmark and index alone. */
  predicate SameKey(x: Slot, y: Slot) {
    x.benchmark == y.benchmark && x.index == y.index
  }

  /** A slot identifies its bundle. */
  ghost predicate OnePerSlot(bundles: seq<Bundle>) {
    forall i, j :: 0 <= i < j < |bundles| ==> !SameKey(bundles[i].slot, bundles[j].slot)
  }

  /** No group is promised more than it has bundles for. */
  ghost predicate Fits(bundles: seq<Bundle>, q: Quotas) {
    forall g :: g in q ==> q[g] <= |GroupSlots(bundles, g)|
  }

  /** A lower-quality bundle of the group never gets more; to get anything, every better one must be full. */
  lemma BetterIsServedFirst(s: set<Slot>, quota: nat, low: Slot, high: Slot)
    requires low in s && high in s && low.quality < high.quality
    ensures Credit(s, quota, low) <= Credit(s, quota, high)
    ensures Credit(s, quota, low) > 0.0 ==> Credit(s, quota, high) == 1.0
  {
    var above, level := Above(s, high.quality), At(s, high.quality);
    assert high in level && low in At(s, low.quality);
    assert above + level <= Above(s, low.quality);
    SubsetSize(above + level, Above(s, low.quality));
    Ratio(quota - |above|, |level|);
    Ratio(quota - |Above(s, low.quality)|, |At(s, low.quality)|);
  }

  lemma SubsetSize<T>(a: set<T>, b: set<T>)
    requires a <= b
    ensures |a| <= |b|
  {
    assert b == a + (b - a);
  }

  lemma SameSign(x: real, b: real)
    requires b > 0.0
    ensures x * b >= 0.0 <==> x >= 0.0
    ensures x * b > 0.0 <==> x > 0.0
  {
  }

  lemma QuotientBounds(a: real, b: real)
    requires b > 0.0
    ensures a / b >= 1.0 <==> a >= b
    ensures a / b > 0.0 <==> a > 0.0
  {
    var q := a / b;
    assert q * b == a;
    assert (q - 1.0) * b == a - b;
    SameSign(q - 1.0, b);
    SameSign(q, b);
  }

  lemma Ratio(n: int, d: nat)
    requires d > 0
    ensures n >= d ==> Clamp(n as real / d as real) == 1.0
    ensures n <= 0 ==> Clamp(n as real / d as real) == 0.0
    ensures 0 < n < d ==> Clamp(n as real / d as real) == n as real / d as real
  {
    QuotientBounds(n as real, d as real);
  }

  /** A bundle's credit: nothing while the better ones take the whole quota, one when it reaches past its ties, and between
      them an equal part of what is left. */
  lemma CreditMeaning(s: set<Slot>, quota: nat, x: Slot)
    requires x in s
    ensures var better, tied := |set y | y in s && y.quality > x.quality|, |set y | y in s && y.quality == x.quality|;
      && tied > 0
      && (quota <= better ==> Credit(s, quota, x) == 0.0)
      && (quota >= better + tied ==> Credit(s, quota, x) == 1.0)
      && (better < quota < better + tied ==> Credit(s, quota, x) == (quota - better) as real / tied as real)
  {
    var better, tied := set y | y in s && y.quality > x.quality, set y | y in s && y.quality == x.quality;
    assert better == Above(s, x.quality) && tied == At(s, x.quality) && x in tied;
    Ratio(quota - |better|, |tied|);
  }

  // ------------------------------------------------------------------ one group

  /** Where the run of equal quality that starts at i ends. */
  method RunEnd(ordered: seq<Slot>, i: nat) returns (j: nat)
    requires i < |ordered|
    ensures i < j <= |ordered| && (forall k :: i <= k < j ==> ordered[k].quality == ordered[i].quality)
    ensures j < |ordered| ==> ordered[j].quality != ordered[i].quality
  {
    j := i + 1;
    while j < |ordered| && ordered[j].quality == ordered[i].quality
      invariant i < j <= |ordered| && forall k :: i <= k < j ==> ordered[k].quality == ordered[i].quality
    {
      j := j + 1;
    }
  }

  lemma ElementsSize<T>(s: seq<T>)
    requires Distinct(s)
    ensures |Elements(s)| == |s|
  {
    if s != [] {
      var n := |s| - 1;
      ElementsSize(s[..n]);
      assert Elements(s) == Elements(s[..n]) + {s[n]};
      assert s[n] !in s[..n];
    }
  }

  predicate IsRun(ordered: seq<Slot>, i: nat, j: nat) {
    && i < j <= |ordered|
    && (i > 0 ==> ordered[i - 1].quality != ordered[i].quality)
    && (forall k :: i <= k < j ==> ordered[k].quality == ordered[i].quality)
    && (j < |ordered| ==> ordered[j].quality != ordered[i].quality)
  }

  lemma RunQualities(ordered: seq<Slot>, i: nat, j: nat, k: nat)
    requires Sorted(ordered, SlotLe) && IsRun(ordered, i, j) && k < |ordered|
    ensures ordered[k].quality > ordered[i].quality <==> k < i
    ensures ordered[k].quality == ordered[i].quality <==> i <= k < j
  {
    assert k < i - 1 ==> SlotLe(ordered[k], ordered[i - 1]);
    assert i > 0 ==> SlotLe(ordered[i - 1], ordered[i]);
    assert j < k ==> SlotLe(ordered[j], ordered[k]);
    assert j < |ordered| ==> SlotLe(ordered[i], ordered[j]);
  }

  /** In sorted order, a run's better bundles are those before it and its ties are the run itself. */
  lemma RunMeaning(ordered: seq<Slot>, i: nat, j: nat)
    requires Sorted(ordered, SlotLe) && Distinct(ordered) && IsRun(ordered, i, j)
    ensures Above(Elements(ordered), ordered[i].quality) == Elements(ordered[..i])
    ensures At(Elements(ordered), ordered[i].quality) == Elements(ordered[i..j])
    ensures |Elements(ordered[..i])| == i && |Elements(ordered[i..j])| == j - i
  {
    forall x | x in Above(Elements(ordered), ordered[i].quality) ensures x in ordered[..i] {
      var k :| 0 <= k < |ordered| && ordered[k] == x;
      RunQualities(ordered, i, j, k);
    }
    forall k | 0 <= k < i ensures ordered[k].quality > ordered[i].quality {
      RunQualities(ordered, i, j, k);
    }
    forall x | x in At(Elements(ordered), ordered[i].quality) ensures x in ordered[i..j] {
      var k :| 0 <= k < |ordered| && ordered[k] == x;
      RunQualities(ordered, i, j, k);
      assert ordered[i..j][k - i] == x;
    }
    ElementsSize(ordered[..i]);
    ElementsSize(ordered[i..j]);
  }

  /** What a run of `tied` slots after `before` better ones is given. */
  function Awarded(quota: nat, before: nat, tied: nat): nat {
    if quota <= before then 0 else if quota - before < tied then quota - before else tied
  }

  lemma AwardedIsCredit(s: set<Slot>, quota: nat, x: Slot)
    requires x in s
    ensures var above, tied := |Above(s, x.quality)|, |At(s, x.quality)|;
      tied > 0 && Credit(s, quota, x) == Awarded(quota, above, tied) as real / tied as real
  {
    assert x in At(s, x.quality);
    var above, tied := |Above(s, x.quality)|, |At(s, x.quality)|;
    Ratio(quota - above, tied);
    assert 0.0 / tied as real == 0.0 && tied as real / tied as real == 1.0;
  }

  /** Everyone's credit, by the closed form. */
  function ClosedForm(s: set<Slot>, quota: nat): map<Slot, real> {
    map x | x in s :: Credit(s, quota, x)
  }

  /** The loop state of one group: the first i in order have what they should, `remaining` is left. */
  ghost predicate Served(ordered: seq<Slot>, quota: nat, want: map<Slot, real>, i: nat, credits: map<Slot, real>, remaining: nat)
    requires i <= |ordered|
  {
    && credits.Keys == Elements(ordered[..i])
    && remaining == (if quota > i then quota - i else 0)
    && (forall x :: x in credits ==> x in want && credits[x] == want[x])
    && SumOver(credits.Keys, credits) + remaining as real == quota as real
  }

  method ServeRun(ordered: seq<Slot>, quota: nat, ghost want: map<Slot, real>, i: nat, j: nat, credits: map<Slot, real>,
                  remaining: nat) returns (more: map<Slot, real>, left: nat)
    requires Sorted(ordered, SlotLe) && Distinct(ordered) && IsRun(ordered, i, j)
    requires want == ClosedForm(Elements(ordered), quota) && Served(ordered, quota, want, i, credits, remaining)
    ensures Served(ordered, quota, want, j, more, left)
  {
    var tied := j - i;
    var awarded := if remaining < tied then remaining else tied;
    var share := awarded as real / tied as real;
    ShareIsFair(ordered, quota, i, j, tied, awarded, share);
    more := GiveEach(ordered, i, j, share, credits);
    left := remaining - awarded;
    RunServed(ordered, quota, want, i, j, credits, remaining, more, tied, awarded, share);
  }

  method GiveEach(ordered: seq<Slot>, i: nat, j: nat, share: real, credits: map<Slot, real>) returns (more: map<Slot, real>)
    requires Distinct(ordered) && i < j <= |ordered| && credits.Keys == Elements(ordered[..i])
    ensures more.Keys == Elements(ordered[..j])
    ensures forall x :: x in credits ==> more[x] == credits[x]
    ensures forall m :: i <= m < j ==> more[ordered[m]] == share
  {
    more := credits;
    var k := i;
    while k < j
      invariant i <= k <= j
      invariant more.Keys == Elements(ordered[..k])
      invariant forall x :: x in credits ==> more[x] == credits[x]
      invariant forall m :: i <= m < k ==> more[ordered[m]] == share
    {
      assert ordered[k] !in ordered[..i];
      more := more[ordered[k] := share];
      k := k + 1;
      assert ordered[..k] == ordered[..k - 1] + [ordered[k - 1]];
    }
  }

  lemma RunCredits(ordered: seq<Slot>, quota: nat, i: nat, j: nat, m: nat)
    requires Sorted(ordered, SlotLe) && Distinct(ordered) && IsRun(ordered, i, j) && i <= m < j
    ensures Credit(Elements(ordered), quota, ordered[m]) == Awarded(quota, i, j - i) as real / (j - i) as real
  {
    var s, x := Elements(ordered), ordered[m];
    assert x in s;
    assert |Above(s, x.quality)| == i && |At(s, x.quality)| == j - i by {
      RunMeaning(ordered, i, j);
      RunQualities(ordered, i, j, m);
    }
    AwardedIsCredit(s, quota, x);
  }

  lemma PiecesApart<T>(s: seq<T>, i: nat, j: nat)
    requires Distinct(s) && i <= j <= |s|
    ensures Elements(s[..i]) !! Elements(s[i..j]) && Elements(s[..j]) == Elements(s[..i]) + Elements(s[i..j])
  {
    assert s[..j] == s[..i] + s[i..j];
    assert forall a, b :: 0 <= a < i <= b < j ==> s[a] != s[b];
  }

  /** The share is what everyone in the run should have, and together what was awarded. */
  ghost predicate FairShare(ordered: seq<Slot>, want: map<Slot, real>, i: nat, j: nat, tied: nat, awarded: nat, share: real)
    requires i < j <= |ordered|
  {
    && (forall m :: i <= m < j ==> ordered[m] in want && want[ordered[m]] == share)
    && tied == j - i && Times(tied, share) == awarded as real
  }

  lemma ShareIsFair(ordered: seq<Slot>, quota: nat, i: nat, j: nat, tied: nat, awarded: nat, share: real)
    requires Sorted(ordered, SlotLe) && Distinct(ordered) && IsRun(ordered, i, j)
    requires tied == j - i && awarded == Awarded(quota, i, tied) && share == awarded as real / tied as real
    ensures FairShare(ordered, ClosedForm(Elements(ordered), quota), i, j, tied, awarded, share)
  {
    EqualParts(tied, awarded as real);
    forall m | i <= m < j ensures Credit(Elements(ordered), quota, ordered[m]) == share {
      RunCredits(ordered, quota, i, j, m);
    }
  }

  lemma RunServed(ordered: seq<Slot>, quota: nat, want: map<Slot, real>, i: nat, j: nat, credits: map<Slot, real>,
                  remaining: nat, more: map<Slot, real>, tied: nat, awarded: nat, share: real)
    requires Distinct(ordered) && i < j <= |ordered| && FairShare(ordered, want, i, j, tied, awarded, share)
    requires Served(ordered, quota, want, i, credits, remaining)
    requires awarded == if remaining < tied then remaining else tied
    requires more.Keys == Elements(ordered[..j]) && forall x :: x in credits ==> more[x] == credits[x]
    requires forall m :: i <= m < j ==> more[ordered[m]] == share
    ensures Served(ordered, quota, want, j, more, remaining - awarded)
  {
    RunWanted(ordered, want, i, j, credits, more, share);
    var left: nat := remaining - awarded;
    assert left == if quota > j then quota - j else 0;
    assert SumOver(more.Keys, more) + left as real == quota as real by {
      RunTotal(ordered, i, j, credits, more, share);
      LeftAfter(SumOver(credits.Keys, credits), SumOver(more.Keys, more), quota, remaining, awarded);
    }
  }

  lemma LeftAfter(before: real, after: real, quota: nat, remaining: nat, awarded: nat)
    requires awarded <= remaining && before + remaining as real == quota as real && after == before + awarded as real
    ensures after + (remaining - awarded) as real == quota as real
  {
  }

  lemma RunWanted(ordered: seq<Slot>, want: map<Slot, real>, i: nat, j: nat, credits: map<Slot, real>, more: map<Slot, real>, share: real)
    requires i < j <= |ordered| && credits.Keys == Elements(ordered[..i]) && more.Keys == Elements(ordered[..j])
    requires forall m :: i <= m < j ==> ordered[m] in want && more[ordered[m]] == share == want[ordered[m]]
    requires forall x :: x in credits ==> x in want && x in more && more[x] == credits[x] == want[x]
    ensures forall x :: x in more ==> x in want && more[x] == want[x]
  {
    forall x | x in more ensures x in want && more[x] == want[x] {
      var m :| 0 <= m < j && ordered[m] == x;
      if m < i { assert x == ordered[..i][m]; }
    }
  }

  lemma RunTotal(ordered: seq<Slot>, i: nat, j: nat, credits: map<Slot, real>, more: map<Slot, real>, share: real)
    requires Distinct(ordered) && i < j <= |ordered|
    requires credits.Keys == Elements(ordered[..i]) && more.Keys == Elements(ordered[..j])
    requires forall x :: x in credits ==> x in more && more[x] == credits[x]
    requires forall m :: i <= m < j ==> ordered[m] in more && more[ordered[m]] == share
    ensures SumOver(more.Keys, more) == SumOver(credits.Keys, credits) + Times(j - i, share)
  {
    var run := RunSet(ordered, i, j, credits.Keys, more.Keys);
    assert forall x :: x in run ==> more[x] == share;
    UnionTotal(credits, more, run, share);
  }

  lemma RunSet(ordered: seq<Slot>, i: nat, j: nat, before: set<Slot>, after: set<Slot>) returns (run: set<Slot>)
    requires Distinct(ordered) && i < j <= |ordered| && before == Elements(ordered[..i]) && after == Elements(ordered[..j])
    ensures after == before + run && before !! run && |run| == j - i
    ensures forall x :: x in run ==> exists m :: i <= m < j && ordered[m] == x
  {
    run := Elements(ordered[i..j]);
    PiecesApart(ordered, i, j);
    ElementsSize(ordered[i..j]);
    forall x | x in run ensures exists m :: i <= m < j && ordered[m] == x {
      var k :| 0 <= k < j - i && ordered[i..j][k] == x;
      assert x == ordered[i + k];
    }
  }

  lemma UnionTotal(credits: map<Slot, real>, more: map<Slot, real>, run: set<Slot>, share: real)
    requires more.Keys == credits.Keys + run && credits.Keys !! run
    requires forall x :: x in credits ==> more[x] == credits[x]
    requires forall x :: x in run ==> more[x] == share
    ensures SumOver(more.Keys, more) == SumOver(credits.Keys, credits) + Times(|run|, share)
  {
    SumSplits(credits.Keys, run, more);
    SumAgrees(credits.Keys, credits, more);
    SumConstant(run, more, share);
  }

  lemma SortedSlots(slots: seq<Slot>)
    requires Distinct(slots)
    ensures var ordered := Sort(slots, SlotLe);
      Sorted(ordered, SlotLe) && Distinct(ordered) && Elements(ordered) == Elements(slots) && |ordered| == |slots|
  {
    var ordered := Sort(slots, SlotLe);
    SlotOrder();
    SortSorts(slots, SlotLe);
    DistinctPermutes(slots, ordered);
    SameElements(slots, ordered);
  }

  method ServeAll(ordered: seq<Slot>, quota: nat, ghost want: map<Slot, real>) returns (credits: map<Slot, real>, remaining: nat)
    requires Sorted(ordered, SlotLe) && Distinct(ordered) && want == ClosedForm(Elements(ordered), quota)
    ensures Served(ordered, quota, want, |ordered|, credits, remaining)
  {
    credits, remaining := map[], quota;
    var i := 0;
    while i < |ordered|
      invariant i <= |ordered| && Served(ordered, quota, want, i, credits, remaining)
      invariant 0 < i < |ordered| ==> ordered[i - 1].quality != ordered[i].quality
    {
      var j := RunEnd(ordered, i);
      credits, remaining := ServeRun(ordered, quota, want, i, j, credits, remaining);
      i := j;
    }
  }

  /** One group: sorted by quality, then served run by run until the quota is used up. */
  method CreditGroup(slots: seq<Slot>, quota: nat) returns (credits: map<Slot, real>, remaining: nat)
    requires Distinct(slots)
    ensures credits == ClosedForm(Elements(slots), quota)
    ensures remaining == if quota > |slots| then quota - |slots| else 0
    ensures SumOver(credits.Keys, credits) + remaining as real == quota as real
  {
    var ordered := Sort(slots, SlotLe);
    SortedSlots(slots);
    ghost var want := ClosedForm(Elements(ordered), quota);
    credits, remaining := ServeAll(ordered, quota, want);
    AllServed(ordered, quota, want, credits, remaining);
  }

  lemma AllServed(ordered: seq<Slot>, quota: nat, want: map<Slot, real>, credits: map<Slot, real>, remaining: nat)
    requires Served(ordered, quota, want, |ordered|, credits, remaining) && want.Keys == Elements(ordered)
    ensures credits == want
  {
    assert ordered[..|ordered|] == ordered;
  }

  lemma SameElements<T>(s: seq<T>, t: seq<T>)
    requires multiset(s) == multiset(t)
    ensures Elements(s) == Elements(t) && |s| == |t|
  {
    assert forall x :: x in s <==> x in multiset(s);
    assert forall x :: x in t <==> x in multiset(t);
    assert |s| == |multiset(s)| == |multiset(t)| == |t|;
  }

  // ------------------------------------------------------------------ the whole snapshot

  function GroupsUpTo(bundles: seq<Bundle>, n: nat): set<Group>
    requires n <= |bundles|
  {
    if n == 0 then {} else GroupsUpTo(bundles, n - 1) + {bundles[n - 1].group}
  }

  function Groups(bundles: seq<Bundle>): set<Group> {
    GroupsUpTo(bundles, |bundles|)
  }

  lemma {:induction false} InGroupUpTo(bundles: seq<Bundle>, n: nat, g: Group, x: Slot)
    requires n <= |bundles|
    ensures x in GroupUpTo(bundles, n, g) <==> Bundle(g, x) in bundles[..n]
    ensures Bundle(g, x) in bundles[..n] ==> g in GroupsUpTo(bundles, n)
  {
    if n > 0 {
      InGroupUpTo(bundles, n - 1, g, x);
      assert bundles[..n] == bundles[..n - 1] + [bundles[n - 1]];
    }
  }

  /** Within the bundles a benchmark and index name one slot, so credits kept by them are credits kept by slot. */
  lemma KeyNamesSlot(bundles: seq<Bundle>, b: Bundle, d: Bundle)
    requires OnePerSlot(bundles) && b in bundles && d in bundles && SameKey(b.slot, d.slot)
    ensures b == d
  {
    var i, j :| 0 <= i < |bundles| && 0 <= j < |bundles| && bundles[i] == b && bundles[j] == d;
    assert !(i < j) && !(j < i);
  }

  lemma InGroup(bundles: seq<Bundle>, g: Group, x: Slot)
    ensures x in GroupList(bundles, g) <==> Bundle(g, x) in bundles
    ensures Bundle(g, x) in bundles ==> g in Groups(bundles)
  {
    InGroupUpTo(bundles, |bundles|, g, x);
    assert bundles[..|bundles|] == bundles;
  }

  lemma {:induction false} GroupUpToDistinct(bundles: seq<Bundle>, n: nat, g: Group)
    requires n <= |bundles| && OnePerSlot(bundles)
    ensures Distinct(GroupUpTo(bundles, n, g))
  {
    if n > 0 {
      GroupUpToDistinct(bundles, n - 1, g);
      InGroupUpTo(bundles, n - 1, g, bundles[n - 1].slot);
    }
  }

  lemma GroupDistinct(bundles: seq<Bundle>, g: Group)
    requires OnePerSlot(bundles)
    ensures Distinct(GroupList(bundles, g)) && |GroupSlots(bundles, g)| == |GroupList(bundles, g)|
  {
    GroupUpToDistinct(bundles, |bundles|, g);
    ElementsSize(GroupList(bundles, g));
  }

  function Listed(grouped: map<Group, seq<Slot>>, g: Group): seq<Slot> {
    if g in grouped then grouped[g] else []
  }

  ghost predicate GroupedUpTo(bundles: seq<Bundle>, n: nat, grouped: map<Group, seq<Slot>>)
    requires n <= |bundles|
  {
    grouped.Keys == GroupsUpTo(bundles, n) && forall g :: GroupUpTo(bundles, n, g) == Listed(grouped, g)
  }

  /** Bundles sorted into their groups, keeping the order in which they come. */
  method Grouped(bundles: seq<Bundle>) returns (grouped: map<Group, seq<Slot>>)
    ensures GroupedUpTo(bundles, |bundles|, grouped)
  {
    grouped := map[];
    var i := 0;
    while i < |bundles|
      invariant i <= |bundles| && GroupedUpTo(bundles, i, grouped)
    {
      var g, slot := bundles[i].group, bundles[i].slot;
      GroupedStep(bundles, i, grouped);
      grouped := grouped[g := Listed(grouped, g) + [slot]];
      i := i + 1;
    }
  }

  lemma GroupedStep(bundles: seq<Bundle>, i: nat, grouped: map<Group, seq<Slot>>)
    requires i < |bundles| && GroupedUpTo(bundles, i, grouped)
    ensures GroupedUpTo(bundles, i + 1, grouped[bundles[i].group := Listed(grouped, bundles[i].group) + [bundles[i].slot]])
  {
    var more := grouped[bundles[i].group := Listed(grouped, bundles[i].group) + [bundles[i].slot]];
    forall g ensures GroupUpTo(bundles, i + 1, g) == Listed(more, g) {
      assert GroupUpTo(bundles, i, g) == Listed(grouped, g);
    }
  }

  method AddValues<K>(m: map<K, real>) returns (total: real)
    ensures total == SumOver(m.Keys, m)
  {
    var left := m.Keys;
    total := 0.0;
    while left != {}
      invariant left <= m.Keys && total + SumOver(left, m) == SumOver(m.Keys, m)
      decreases left
    {
      var x :| x in left;
      SumTakes(left, m, x);
      total := total + m[x];
      left := left - {x};
    }
  }

  /** Everyone's quota, counting groups that have none. */
  function Promised(bundles: seq<Bundle>, q: Quotas): map<Group, real> {
    map g | g in Groups(bundles) + q.Keys :: Quota(q, g) as real
  }

  function Want(bundles: seq<Bundle>, q: Quotas, g: Group): map<Slot, real> {
    ClosedForm(GroupSlots(bundles, g), Quota(q, g))
  }

  /** The state of the loop over groups: those in `done` are credited in full, and nobody else. */
  ghost predicate Settled(bundles: seq<Bundle>, q: Quotas, done: set<Group>, credits: map<Slot, real>) {
    && (forall g, x :: g in done && x in Want(bundles, q, g) ==> x in credits && credits[x] == Want(bundles, q, g)[x])
    && (forall x :: x in credits ==> exists g :: g in done && x in Want(bundles, q, g))
  }

  lemma GroupsApart(bundles: seq<Bundle>, q: Quotas, g: Group, h: Group, x: Slot)
    requires OnePerSlot(bundles) && x in Want(bundles, q, g) && x in Want(bundles, q, h)
    ensures g == h
  {
    InGroup(bundles, g, x);
    InGroup(bundles, h, x);
    var i :| 0 <= i < |bundles| && bundles[i] == Bundle(g, x);
    var j :| 0 <= j < |bundles| && bundles[j] == Bundle(h, x);
  }

  lemma GroupIsNew(bundles: seq<Bundle>, q: Quotas, done: set<Group>, g: Group, credits: map<Slot, real>)
    requires OnePerSlot(bundles) && Settled(bundles, q, done, credits) && g !in done
    ensures credits.Keys !! Want(bundles, q, g).Keys
  {
    forall x | x in credits && x in Want(bundles, q, g) ensures false {
      var h :| h in done && x in Want(bundles, q, h);
      GroupsApart(bundles, q, g, h, x);
    }
  }

  lemma OneMoreGroup(bundles: seq<Bundle>, q: Quotas, done: set<Group>, g: Group, credits: map<Slot, real>)
    requires OnePerSlot(bundles) && Settled(bundles, q, done, credits) && g !in done
    ensures Settled(bundles, q, done + {g}, credits + Want(bundles, q, g)) && credits.Keys !! Want(bundles, q, g).Keys
  {
    GroupIsNew(bundles, q, done, g, credits);
    forall h, x | h in done + {g} && x in Want(bundles, q, h)
      ensures x in credits + Want(bundles, q, g) && (credits + Want(bundles, q, g))[x] == Want(bundles, q, h)[x]
    {
      if h != g { assert x in credits; }
    }
  }

  lemma SumMerges<K>(m: map<K, real>, n: map<K, real>)
    requires m.Keys !! n.Keys
    ensures SumOver((m + n).Keys, m + n) == SumOver(m.Keys, m) + SumOver(n.Keys, n)
  {
    SumSplits(m.Keys, n.Keys, m + n);
    SumAgrees(m.Keys, m, m + n);
    SumAgrees(n.Keys, n, m + n);
    assert (m + n).Keys == m.Keys + n.Keys;
  }

  ghost predicate NoStrayQuota(bundles: seq<Bundle>, q: Quotas) {
    forall g :: g in q && g !in Groups(bundles) ==> q[g] == 0
  }

  /** The quotas of the groups with bundles make up all quotas exactly when no other group has one. */
  lemma TotalsAgree(bundles: seq<Bundle>, q: Quotas)
    ensures SumOver(Groups(bundles), Promised(bundles, q)) == SumOver(q.Keys, Promised(bundles, q))
       <==> NoStrayQuota(bundles, q)
  {
    var r, groups, keys := Promised(bundles, q), Groups(bundles), q.Keys;
    assert groups == groups * keys + (groups - keys) && keys == groups * keys + (keys - groups);
    SumSplits(groups * keys, groups - keys, r);
    SumSplits(groups * keys, keys - groups, r);
    SumBounds(groups - keys, r);
    SumBounds(keys - groups, r);
  }

  ghost predicate GroupsFit(bundles: seq<Bundle>, q: Quotas, done: set<Group>) {
    forall g :: g in done ==> Quota(q, g) <= |GroupSlots(bundles, g)|
  }

  lemma FitsMeans(bundles: seq<Bundle>, q: Quotas)
    ensures Fits(bundles, q) <==> GroupsFit(bundles, q, Groups(bundles)) && NoStrayQuota(bundles, q)
  {
    forall g | g !in Groups(bundles) ensures |GroupSlots(bundles, g)| == 0 {
      forall x ensures x !in GroupSlots(bundles, g) { InGroup(bundles, g, x); }
      assert GroupSlots(bundles, g) == {};
    }
  }

  /** The state of the loop over groups. */
  ghost predicate Awarding(bundles: seq<Bundle>, q: Quotas, done: set<Group>, credits: map<Slot, real>) {
    && done <= Groups(bundles) && Settled(bundles, q, done, credits) && GroupsFit(bundles, q, done)
    && SumOver(credits.Keys, credits) == SumOver(done, Promised(bundles, q))
  }

  /** Equal bundle credit.  It fails exactly when some group is promised more than its bundles can carry; otherwise
      every bundle has its closed-form credit and the credits add up to the quotas. */
  method EqualBundleCredit(bundles: seq<Bundle>, q: Quotas) returns (r: Outcome)
    requires OnePerSlot(bundles)
    ensures r.Credits? <==> Fits(bundles, q)
    ensures r.Unallocated? <==> !GroupsFit(bundles, q, Groups(bundles))
    ensures r.Credits? ==> Settled(bundles, q, Groups(bundles), r.of)
    ensures r.Credits? ==> SumOver(r.of.Keys, r.of) == SumOver(q.Keys, Promised(bundles, q))
  {
    var grouped := Grouped(bundles);
    FitsMeans(bundles, q);
    var ok, credits := AwardGroups(bundles, q, grouped);
    if !ok { return Unallocated; }
    r := Reconciled(bundles, q, credits);
  }

  method AwardGroups(bundles: seq<Bundle>, q: Quotas, grouped: map<Group, seq<Slot>>) returns (ok: bool, credits: map<Slot, real>)
    requires OnePerSlot(bundles) && GroupedUpTo(bundles, |bundles|, grouped)
    ensures ok == GroupsFit(bundles, q, Groups(bundles))
    ensures ok ==> Awarding(bundles, q, Groups(bundles), credits)
  {
    credits := map[];
    var left := grouped.Keys;
    ghost var done: set<Group> := {};
    while left != {}
      invariant left <= grouped.Keys && done == grouped.Keys - left
      invariant Awarding(bundles, q, done, credits)
      decreases left
    {
      var g :| g in left;
      ok, credits := AddGroup(bundles, q, done, g, Listed(grouped, g), credits);
      if !ok { return; }
      left, done := left - {g}, done + {g};
    }
    assert done == Groups(bundles);
    return true, credits;
  }

  lemma OneMoreTotal(done: set<Group>, g: Group, promised: map<Group, real>, credits: map<Slot, real>, more: map<Slot, real>)
    requires done + {g} <= promised.Keys && g !in done && credits.Keys !! more.Keys
    requires SumOver(credits.Keys, credits) == SumOver(done, promised) && SumOver(more.Keys, more) == promised[g]
    ensures SumOver((credits + more).Keys, credits + more) == SumOver(done + {g}, promised)
  {
    SumMerges(credits, more);
    SumTakes(done + {g}, promised, g);
    assert done + {g} - {g} == done;
  }

  method AddGroup(bundles: seq<Bundle>, q: Quotas, ghost done: set<Group>, g: Group, slots: seq<Slot>, credits: map<Slot, real>)
    returns (ok: bool, all: map<Slot, real>)
    requires OnePerSlot(bundles) && g in Groups(bundles) && g !in done && slots == GroupList(bundles, g)
    requires Awarding(bundles, q, done, credits)
    ensures ok == (Quota(q, g) <= |GroupSlots(bundles, g)|)
    ensures ok ==> Awarding(bundles, q, done + {g}, all)
  {
    GroupDistinct(bundles, g);
    var more, remaining := CreditGroup(slots, Quota(q, g));
    if remaining > 0 { return false, credits; }
    OneMoreGroup(bundles, q, done, g, credits);
    OneMoreTotal(done, g, Promised(bundles, q), credits, more);
    return true, credits + more;
  }

  /** The final check: awarded credit against promised credit. */
  method Reconciled(bundles: seq<Bundle>, q: Quotas, credits: map<Slot, real>) returns (r: Outcome)
    requires GroupsFit(bundles, q, Groups(bundles))
    requires SumOver(credits.Keys, credits) == SumOver(Groups(bundles), Promised(bundles, q))
    ensures !r.Unallocated? && (r.Credits? <==> Fits(bundles, q))
    ensures r.Credits? ==> r.of == credits && SumOver(credits.Keys, credits) == SumOver(q.Keys, Promised(bundles, q))
  {
    var awarded := AddValues(credits);
    var quotas := map g | g in q :: q[g] as real;
    var total := AddValues(quotas);
    assert quotas.Keys == q.Keys;
    SumAgrees(q.Keys, quotas, Promised(bundles, q));
    TotalsAgree(bundles, q);
    FitsMeans(bundles, q);
    if awarded != total { return Unreconciled; }
    return Credits(credits);
  }

  /** The order in which bundles come changes nobody's credit. */
  lemma BundleOrderIrrelevant(bundles: seq<Bundle>, other: seq<Bundle>, q: Quotas, g: Group)
    requires multiset(bundles) == multiset(other)
    ensures Want(bundles, q, g) == Want(other, q, g)
  {
    forall x ensures x in GroupSlots(bundles, g) <==> x in GroupSlots(other, g) {
      InGroup(bundles, g, x);
      InGroup(other, g, x);
      assert Bundle(g, x) in bundles <==> Bundle(g, x) in multiset(bundles);
    }
    assert GroupSlots(bundles, g) == GroupSlots(other, g);
  }

  /** Between two bundles of one group the better is served first: it never has less, and it is served in full
      before the other gets anything. */
  lemma NoLowerQualityAhead(bundles: seq<Bundle>, q: Quotas, low: Bundle, high: Bundle)
    requires low in bundles && high in bundles && low.group == high.group && low.slot.quality < high.slot.quality
    ensures low.slot in Want(bundles, q, low.group) && high.slot in Want(bundles, q, high.group)
    ensures Want(bundles, q, low.group)[low.slot] <= Want(bundles, q, high.group)[high.slot]
    ensures Want(bundles, q, low.group)[low.slot] > 0.0 ==> Want(bundles, q, high.group)[high.slot] == 1.0
  {
    InGroup(bundles, low.group, low.slot);
    InGroup(bundles, high.group, high.slot);
    BetterIsServedFirst(GroupSlots(bundles, low.group), Quota(q, low.group), low.slot, high.slot);
  }

  // ------------------------------------------------------------------ validated snapshots

  function BundlesOf(a: Active): seq<Bundle> {
    if !a.live then [] else seq(|a.scores|, i requires 0 <= i < |a.scores| => Bundle(a.group, Slot(a.scores[i], a.benchmark, i)))
  }

  function BundlesUpTo(actives: seq<Active>, n: nat): seq<Bundle>
    requires n <= |actives|
  {
    if n == 0 then [] else BundlesUpTo(actives, n - 1) + BundlesOf(actives[n - 1])
  }

  function AllBundles(actives: seq<Active>): seq<Bundle> {
    BundlesUpTo(actives, |actives|)
  }

  ghost predicate DistinctBenchmarks(actives: seq<Active>) {
    forall i, j :: 0 <= i < j < |actives| ==> actives[i].benchmark != actives[j].benchmark
  }

  lemma {:induction false} BundleOrigin(actives: seq<Active>, n: nat, b: Bundle)
    requires n <= |actives|
    ensures b in BundlesUpTo(actives, n) <==> exists i :: 0 <= i < n && b in BundlesOf(actives[i])
  {
    if n > 0 { BundleOrigin(actives, n - 1, b); }
  }

  /** A score of a live benchmark, with its place in the array. */
  predicate IsScore(a: Active, b: Bundle) {
    && a.live && b.group == a.group && b.slot.benchmark == a.benchmark
    && b.slot.index < |a.scores| && b.slot.quality == a.scores[b.slot.index]
  }

  /** The bundles are exactly those scores. */
  lemma ScoresAreBundles(actives: seq<Active>, b: Bundle)
    ensures b in AllBundles(actives) <==> exists i :: 0 <= i < |actives| && IsScore(actives[i], b)
  {
    BundleOrigin(actives, |actives|, b);
    forall i | 0 <= i < |actives| ensures b in BundlesOf(actives[i]) <==> IsScore(actives[i], b) {
      if IsScore(actives[i], b) { assert BundlesOf(actives[i])[b.slot.index] == b; }
    }
  }

  lemma {:induction false} ValidatedOnePerSlot(actives: seq<Active>, n: nat)
    requires n <= |actives| && DistinctBenchmarks(actives)
    ensures OnePerSlot(BundlesUpTo(actives, n))
  {
    if n > 0 {
      ValidatedOnePerSlot(actives, n - 1);
      var before, last := BundlesUpTo(actives, n - 1), BundlesOf(actives[n - 1]);
      forall i, j | 0 <= i < |before| && 0 <= j < |last| ensures !SameKey(before[i].slot, last[j].slot) {
        BundleOrigin(actives, n - 1, before[i]);
        assert before[i] in before;
      }
      var all := BundlesUpTo(actives, n);
      forall i, j | 0 <= i < j < |all| ensures !SameKey(all[i].slot, all[j].slot) {
        if j < |before| { assert all[i] == before[i] && all[j] == before[j]; }
        else if i < |before| { assert all[i] == before[i] && all[j] == last[j - |before|]; }
      }
    }
  }

  /** The active scores become bundles, in benchmark order; a benchmark on a retired track has none. */
  method CollectBundles(actives: seq<Active>) returns (bundles: seq<Bundle>)
    ensures bundles == AllBundles(actives)
    ensures forall b :: b in bundles <==> exists i :: 0 <= i < |actives| && IsScore(actives[i], b)
  {
    bundles := [];
    var i := 0;
    while i < |actives|
      invariant i <= |actives| && bundles == BundlesUpTo(actives, i)
    {
      if actives[i].live {
        bundles := AppendScores(bundles, actives[i]);
      }
      i := i + 1;
    }
    forall b ensures b in bundles <==> exists k :: 0 <= k < |actives| && IsScore(actives[k], b) {
      ScoresAreBundles(actives, b);
    }
  }

  method AppendScores(bundles: seq<Bundle>, a: Active) returns (more: seq<Bundle>)
    requires a.live
    ensures more == bundles + BundlesOf(a)
  {
    more := bundles;
    var k := 0;
    while k < |a.scores|
      invariant k <= |a.scores| && more == bundles + BundlesOf(a)[..k]
    {
      more := more + [Bundle(a.group, Slot(a.scores[k], a.benchmark, k))];
      k := k + 1;
    }
    assert BundlesOf(a)[..k] == BundlesOf(a);
  }

  datatype Checked = Exceeds | Checked(quotas: Quotas)

  /** The tally of the first n rows. */
  function RowQuotas(rows: seq<(Group, nat)>, n: nat): Quotas
    requires n <= |rows|
  {
    if n == 0 then map[] else RowQuotas(rows, n - 1)[rows[n - 1].0 := rows[n - 1].1]
  }

  /** No later row is about the same group. */
  predicate Final(rows: seq<(Group, nat)>, n: nat, i: nat)
    requires i < n <= |rows|
  {
    forall k :: i < k < n ==> rows[k].0 != rows[i].0
  }

  /** A tally holds each group's last count, and nothing else. */
  lemma {:induction false} CountOf(rows: seq<(Group, nat)>, n: nat, i: nat)
    requires i < n <= |rows| && Final(rows, n, i)
    ensures rows[i].0 in RowQuotas(rows, n) && RowQuotas(rows, n)[rows[i].0] == rows[i].1
    decreases n
  {
    if i < n - 1 {
      assert rows[n - 1].0 != rows[i].0;
      CountOf(rows, n - 1, i);
    }
  }

  lemma {:induction false} CountedGroup(rows: seq<(Group, nat)>, n: nat, g: Group) returns (i: nat)
    requires n <= |rows| && g in RowQuotas(rows, n)
    ensures i < n && rows[i].0 == g && Final(rows, n, i)
  {
    if rows[n - 1].0 == g {
      i := n - 1;
    } else {
      i := CountedGroup(rows, n - 1, g);
    }
  }

  /** The qualifier counts of every algorithm, refused as soon as one exceeds the bundles that could carry it. */
  method CheckCounts(bundles: seq<Bundle>, rows: seq<(Group, nat)>) returns (c: Checked)
    requires OnePerSlot(bundles)
    ensures c.Exceeds? <==> exists i :: 0 <= i < |rows| && rows[i].1 > |GroupSlots(bundles, rows[i].0)|
    ensures c.Checked? ==> Fits(bundles, c.quotas) && c.quotas == RowQuotas(rows, |rows|)
  {
    var q: Quotas, i := map[], 0;
    while i < |rows|
      invariant i <= |rows| && Fits(bundles, q) && q == RowQuotas(rows, i)
      invariant forall k :: 0 <= k < i ==> rows[k].1 <= |GroupSlots(bundles, rows[k].0)|
    {
      var (g, count) := rows[i];
      GroupDistinct(bundles, g);
      if count > |GroupList(bundles, g)| { return Exceeds; }
      q := q[g := count];
      i := i + 1;
    }
    return Checked(q);
  }

  function RowTotal(rows: seq<(Group, nat)>, n: nat): real
    requires n <= |rows|
  {
    if n == 0 then 0.0 else RowTotal(rows, n - 1) + rows[n - 1].1 as real
  }

  /** One row a group, as the nested dictionaries of the original have. */
  predicate OneRowEach(rows: seq<(Group, nat)>) {
    forall i, j :: 0 <= i < j < |rows| ==> rows[i].0 != rows[j].0
  }

  ghost function Promises(q: Quotas): map<Group, real> {
    map g | g in q :: q[g] as real
  }

  /** The tally of one row a group adds up to its rows. */
  lemma {:induction false} TallyTotal(rows: seq<(Group, nat)>, n: nat)
    requires n <= |rows| && OneRowEach(rows)
    ensures SumOver(RowQuotas(rows, n).Keys, Promises(RowQuotas(rows, n))) == RowTotal(rows, n)
  {
    if n > 0 {
      TallyTotal(rows, n - 1);
      if rows[n - 1].0 in RowQuotas(rows, n - 1) {
        var i := CountedGroup(rows, n - 1, rows[n - 1].0);
        assert false;
      }
      NewPromise(RowQuotas(rows, n - 1), rows[n - 1].0, rows[n - 1].1);
    }
  }

  lemma NewPromise(q: Quotas, g: Group, count: nat)
    requires g !in q
    ensures SumOver(q[g := count].Keys, Promises(q[g := count])) == SumOver(q.Keys, Promises(q)) + count as real
  {
    var more := q[g := count];
    SumTakes(more.Keys, Promises(more), g);
    assert more.Keys - {g} == q.Keys;
    SumAgrees(q.Keys, Promises(more), Promises(q));
  }

  /** On counts that validation accepts, awarding credit never fails: every bundle has the closed-form credit of its
      group's count, and the credits add up to the counts. */
  method CreditValidated(actives: seq<Active>, rows: seq<(Group, nat)>) returns (r: Outcome)
    requires DistinctBenchmarks(actives)
    ensures !r.Credits? <==> exists i :: 0 <= i < |rows| && rows[i].1 > |GroupSlots(AllBundles(actives), rows[i].0)|
    ensures r.Credits? ==> Settled(AllBundles(actives), RowQuotas(rows, |rows|), Groups(AllBundles(actives)), r.of)
    ensures r.Credits? && OneRowEach(rows) ==> SumOver(r.of.Keys, r.of) == RowTotal(rows, |rows|)
  {
    var bundles := CollectBundles(actives);
    ValidatedOnePerSlot(actives, |actives|);
    var c := CheckCounts(bundles, rows);
    if c.Exceeds? { return Unreconciled; }
    r := EqualBundleCredit(bundles, c.quotas);
    SumAgrees(c.quotas.Keys, Promised(bundles, c.quotas), Promises(c.quotas));
    if OneRowEach(rows) { TallyTotal(rows, |rows|); }
  }
}
