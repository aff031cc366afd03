/** Content-defined paging: a list is cut after every element its hash selects, and at a maximum size. */
module Paging {

  const PAGE_MAXIMUM := 1024

  /** A page is full, ends at a selected element, or is all there is. */
  predicate Ends<T>(values: seq<T>, n: nat, cut: T -> bool, limit: nat)
    requires 0 < n <= |values|
  {
    n == |values| || n >= limit || cut(values[n - 1])
  }

  /** Length of the first page: the first place from n on where a page ends. */
  function FirstEnd<T>(values: seq<T>, n: nat, cut: T -> bool, limit: nat): (r: nat)
    requires 0 < n <= |values|
    ensures n <= r <= |values| && Ends(values, r, cut, limit)
    ensures forall k :: n <= k < r ==> !Ends(values, k, cut, limit)
    decreases |values| - n
  {
    if Ends(values, n, cut, limit) then n else FirstEnd(values, n + 1, cut, limit)
  }

  function Pages<T>(values: seq<T>, cut: T -> bool, limit: nat): seq<seq<T>> {
    if values == [] then []
    else var n := FirstEnd(values, 1, cut, limit); [values[..n]] + Pages(values[n..], cut, limit)
  }

  function Flatten<T>(pages: seq<seq<T>>): seq<T> {
    if pages == [] then [] else pages[0] + Flatten(pages[1..])
  }

  /** Independent description: no page could have ended earlier, and only the last may be unfinished. */
  ghost predicate IsPaging<T>(pages: seq<seq<T>>, values: seq<T>, cut: T -> bool, limit: nat) {
    && Flatten(pages) == values
    && (forall i :: 0 <= i < |pages| ==> pages[i] != [] && Proper(pages[i], cut, limit))
    && (forall i :: 0 <= i < |pages| - 1 ==> Closed(pages[i], cut, limit))
  }

  predicate Proper<T>(page: seq<T>, cut: T -> bool, limit: nat) {
    |page| <= limit && forall k :: 0 <= k < |page| - 1 ==> !cut(page[k])
  }

  predicate Closed<T>(page: seq<T>, cut: T -> bool, limit: nat) {
    page != [] && (|page| >= limit || cut(page[|page| - 1]))
  }

  /** The loop of the encoder. */
  method Split<T>(values: seq<T>, cut: T -> bool, limit: nat) returns (pages: seq<seq<T>>)
    requires limit > 0
    ensures pages == Pages(values, cut, limit)
  {
    var current: seq<T> := [];
    pages := [];
    var i := 0;
    while i < |values|
      invariant 0 <= i <= |values|
      invariant CutSoFar(pages, current, values[..i], cut, limit)
    {
      var value := values[i];
      AddElement(pages, current, value, values[..i], cut, limit);
      assert values[..i] + [value] == values[..i + 1];
      current := current + [value];
      i := i + 1;
      if cut(value) || |current| >= limit {
        pages, current := pages + [current], [];
      }
    }
    assert values[..i] == values;
    LastPage(pages, current, values, cut, limit);
    if current != [] {
      pages := pages + [current];
    }
  }

  /** The state of the loop: finished pages, and a current page that may still grow. */
  ghost predicate CutSoFar<T>(pages: seq<seq<T>>, current: seq<T>, seen: seq<T>, cut: T -> bool, limit: nat) {
    && Flatten(pages) + current == seen && |current| < limit && Proper(current, cut, limit)
    && (current != [] ==> !cut(current[|current| - 1]))
    && forall j :: 0 <= j < |pages| ==> Proper(pages[j], cut, limit) && Closed(pages[j], cut, limit)
  }

  lemma FlattenLast<T>(pages: seq<seq<T>>, page: seq<T>)
    ensures Flatten(pages + [page]) == Flatten(pages) + page
  {
    FlattenAppend(pages, [page]);
    assert Flatten([page]) == page;
  }

  lemma AddElement<T>(pages: seq<seq<T>>, current: seq<T>, value: T, seen: seq<T>, cut: T -> bool, limit: nat)
    requires limit > 0 && CutSoFar(pages, current, seen, cut, limit)
    ensures var next := current + [value];
      if cut(value) || |next| >= limit then CutSoFar(pages + [next], [], seen + [value], cut, limit)
      else CutSoFar(pages, next, seen + [value], cut, limit)
  {
    var next := current + [value];
    assert Flatten(pages) + next == seen + [value];
    forall k | 0 <= k < |next| - 1 ensures !cut(next[k]) {
      assert next[k] == current[k];
    }
    if cut(value) || |next| >= limit {
      FlattenLast(pages, next);
      assert Flatten(pages + [next]) + [] == Flatten(pages + [next]);
      forall j | 0 <= j < |pages + [next]| ensures Proper((pages + [next])[j], cut, limit) && Closed((pages + [next])[j], cut, limit) {
        if j < |pages| { assert (pages + [next])[j] == pages[j]; }
      }
    }
  }

  lemma LastPage<T>(pages: seq<seq<T>>, current: seq<T>, values: seq<T>, cut: T -> bool, limit: nat)
    requires limit > 0 && CutSoFar(pages, current, values, cut, limit)
    ensures Pages(values, cut, limit) == if current != [] then pages + [current] else pages
  {
    var all := if current != [] then pages + [current] else pages;
    FlattenLast(pages, current);
    PagingIsUnique(all, values, cut, limit);
  }

  /** A first page recognised: nothing in it selects an earlier end. */
  lemma ClosePage<T>(page: seq<T>, rest: seq<T>, cut: T -> bool, limit: nat)
    requires page != [] && Proper(page, cut, limit) && (rest == [] || Closed(page, cut, limit))
    ensures Pages(page + rest, cut, limit) == [page] + Pages(rest, cut, limit)
  {
    var v, n := page + rest, |page|;
    forall k | 0 < k < n ensures !Ends(v, k, cut, limit) {
      assert v[k - 1] == page[k - 1];
    }
    assert Ends(v, n, cut, limit) by { assert v[n - 1] == page[n - 1]; }
    assert FirstEnd(v, 1, cut, limit) == n;
    assert v[..n] == page && v[n..] == rest;
  }

  /** The pages put together are the list; each is nonempty, within the limit, and could not have
      ended earlier; every page but the last ends at a selected element or is full. */
  lemma {:induction false} PagesArePaging<T>(values: seq<T>, cut: T -> bool, limit: nat)
    requires limit > 0
    ensures IsPaging(Pages(values, cut, limit), values, cut, limit)
  {
    if values != [] {
      var n := FirstEnd(values, 1, cut, limit);
      PagesArePaging(values[n..], cut, limit);
      var page, rest := values[..n], Pages(values[n..], cut, limit);
      forall k | 0 <= k < n - 1 ensures !cut(page[k]) {
        assert !Ends(values, k + 1, cut, limit);
      }
      assert limit <= |values| ==> Ends(values, limit, cut, limit);
      assert ([page] + rest)[1..] == rest;
      if rest != [] { assert values[n..] != []; assert Closed(page, cut, limit); }
    }
  }

  /** The description determines the pages. */
  lemma {:induction false} PagingIsUnique<T>(pages: seq<seq<T>>, values: seq<T>, cut: T -> bool, limit: nat)
    requires limit > 0 && IsPaging(pages, values, cut, limit)
    ensures pages == Pages(values, cut, limit)
    decreases |pages|
  {
    if pages != [] {
      var n := |pages[0]|;
      assert values[..n] == pages[0] && values[n..] == Flatten(pages[1..]);
      if |pages| > 1 {
        assert Closed(pages[0], cut, limit);
        assert pages[1] != [];
      } else {
        assert Flatten(pages[1..]) == [];
      }
      assert values == pages[0] + Flatten(pages[1..]);
      ClosePage(pages[0], Flatten(pages[1..]), cut, limit);
      PagingIsUnique(pages[1..], values[n..], cut, limit);
    }
  }

  lemma {:induction false} FlattenAppend<T>(p: seq<seq<T>>, q: seq<seq<T>>)
    ensures Flatten(p + q) == Flatten(p) + Flatten(q)
  {
    if p == [] {
      assert p + q == q;
    } else {
      assert (p + q)[1..] == p[1..] + q;
      FlattenAppend(p[1..], q);
    }
  }

  lemma {:induction false} LastOfFlatten<T>(pages: seq<seq<T>>)
    requires pages != [] && pages[|pages| - 1] != []
    ensures Flatten(pages) != [] && Flatten(pages)[|Flatten(pages)| - 1] == pages[|pages| - 1][|pages[|pages| - 1]| - 1]
  {
    if |pages| > 1 { LastOfFlatten(pages[1..]); } else { assert Flatten(pages[1..]) == []; }
  }

  /** Paging forgets everything before a selected element, even when forced cuts occurred there. */
  lemma Resynchronises<T>(head: seq<T>, x: T, tail: seq<T>, cut: T -> bool, limit: nat)
    requires limit > 0 && cut(x)
    ensures Pages(head + [x] + tail, cut, limit) == Pages(head + [x], cut, limit) + Pages(tail, cut, limit)
  {
    var p, q := Pages(head + [x], cut, limit), Pages(tail, cut, limit);
    PagesArePaging(head + [x], cut, limit);
    PagesArePaging(tail, cut, limit);
    FlattenAppend(p, q);
    LastOfFlatten(p);
    assert Closed(p[|p| - 1], cut, limit);
    forall i | 0 <= i < |p + q| - 1 ensures Closed((p + q)[i], cut, limit) {
      if i >= |p| { assert (p + q)[i] == q[i - |p|]; }
    }
    PagingIsUnique(p + q, head + [x] + tail, cut, limit);
  }

  /** Inserting (or removing) one element changes only the pages between the selected element before it
      and the selected element after it: everything outside is page for page the same. */
  lemma EditIsLocal<T>(before: seq<T>, y: T, left: seq<T>, e: T, right: seq<T>, x: T, after: seq<T>,
                       cut: T -> bool, limit: nat)
    requires limit > 0 && cut(x) && cut(y)
    ensures var shorter := before + [y] + (left + right + [x]) + after;
            var longer := before + [y] + (left + [e] + right + [x]) + after;
      && Pages(shorter, cut, limit) == Pages(before + [y], cut, limit)
           + Pages(left + right + [x], cut, limit) + Pages(after, cut, limit)
      && Pages(longer, cut, limit) == Pages(before + [y], cut, limit)
           + Pages(left + [e] + right + [x], cut, limit) + Pages(after, cut, limit)
  {
    var front := before + [y];
    Resynchronises(front + (left + right), x, after, cut, limit);
    assert front + (left + right) + [x] == front + (left + right + [x]);
    Resynchronises(before, y, left + right + [x], cut, limit);
    Resynchronises(front + (left + [e] + right), x, after, cut, limit);
    assert front + (left + [e] + right) + [x] == front + (left + [e] + right + [x]);
    Resynchronises(before, y, left + [e] + right + [x], cut, limit);
  }

  // ------------------------------------------------------------------ how many pages one element changes

  /** The same number of pages, and exactly one of them differs. */
  ghost predicate OneChanges<T>(p: seq<seq<T>>, q: seq<seq<T>>) {
    |p| == |q| && exists i :: Differs(p, q, i) && forall j :: 0 <= j < |p| && j != i ==> p[j] == q[j]
  }

  ghost predicate Differs<T>(p: seq<seq<T>>, q: seq<seq<T>>, i: int) {
    0 <= i < |p| && i < |q| && p[i] != q[i]
  }

  lemma {:induction false} PrefixChanges<T>(a: seq<seq<T>>, p: seq<seq<T>>, q: seq<seq<T>>)
    ensures OneChanges(a + p, a + q) <==> OneChanges(p, q)
  {
    if OneChanges(p, q) {
      var i :| Differs(p, q, i) && forall j :: 0 <= j < |p| && j != i ==> p[j] == q[j];
      assert Differs(a + p, a + q, |a| + i);
    }
    if OneChanges(a + p, a + q) {
      var i :| Differs(a + p, a + q, i) && forall j :: 0 <= j < |a + p| && j != i ==> (a + p)[j] == (a + q)[j];
      assert Differs(p, q, i - |a|);
      forall j | 0 <= j < |p| && j != i - |a| ensures p[j] == q[j] {
        assert (a + p)[|a| + j] == (a + q)[|a| + j];
      }
    }
  }

  lemma {:induction false} SuffixChanges<T>(p: seq<seq<T>>, q: seq<seq<T>>, b: seq<seq<T>>)
    ensures OneChanges(p + b, q + b) <==> OneChanges(p, q)
  {
    if OneChanges(p, q) {
      var i :| Differs(p, q, i) && forall j :: 0 <= j < |p| && j != i ==> p[j] == q[j];
      assert Differs(p + b, q + b, i);
    }
    if OneChanges(p + b, q + b) {
      var i :| Differs(p + b, q + b, i) && forall j :: 0 <= j < |p + b| && j != i ==> (p + b)[j] == (q + b)[j];
      assert Differs(p, q, i);
      forall j | 0 <= j < |p| && j != i ensures p[j] == q[j] { assert (p + b)[j] == (q + b)[j]; }
    }
  }

  /** When the first page differs, no other one may, so the rests have the same length. */
  lemma FirstDiffers<T>(p: seq<seq<T>>, q: seq<seq<T>>)
    requires OneChanges(p, q) && p != [] && p[0] != q[0]
    ensures |Flatten(p)| - |p[0]| == |Flatten(q)| - |q[0]|
  {
    assert Differs(p, q, 0);
    assert p[1..] == q[1..];
  }

  /** No element but perhaps the last is selected, so only full pages are cut. */
  predicate Quiet<T>(s: seq<T>, cut: T -> bool) {
    forall k :: 0 <= k < |s| - 1 ==> !cut(s[k])
  }

  predicate Unselected<T>(s: seq<T>, cut: T -> bool) {
    forall k :: 0 <= k < |s| ==> !cut(s[k])
  }

  function Blocks<T>(s: seq<T>, limit: nat): seq<seq<T>>
    requires limit > 0
  {
    if s == [] then [] else if |s| <= limit then [s] else [s[..limit]] + Blocks(s[limit..], limit)
  }

  lemma {:induction false} QuietPages<T>(s: seq<T>, cut: T -> bool, limit: nat)
    requires limit > 0 && Quiet(s, cut)
    ensures Pages(s, cut, limit) == Blocks(s, limit)
    decreases |s|
  {
    if s != [] {
      if |s| <= limit {
        ClosePage(s, [], cut, limit);
        assert s + [] == s;
      } else {
        QuietPages(s[limit..], cut, limit);
        ClosePage(s[..limit], s[limit..], cut, limit);
        assert s[..limit] + s[limit..] == s;
      }
    }
  }

  lemma {:induction false} BlocksFlatten<T>(s: seq<T>, limit: nat)
    requires limit > 0
    ensures Flatten(Blocks(s, limit)) == s
    decreases |s|
  {
    if |s| > limit {
      BlocksFlatten(s[limit..], limit);
      assert Blocks(s, limit)[1..] == Blocks(s[limit..], limit);
      assert s[..limit] + s[limit..] == s;
    } else if s != [] {
      assert Flatten([s]) == s + Flatten([]);
    }
  }

  /** A full page in front stays where it is. */
  lemma FullBlock<T>(b: seq<T>, s: seq<T>, limit: nat)
    requires |b| == limit > 0
    ensures Blocks(b + s, limit) == [b] + Blocks(s, limit)
  {
    if s == [] { assert b + s == b; } else { assert (b + s)[..limit] == b && (b + s)[limit..] == s; }
  }

  /** What full pages leave over of n elements. */
  function Rest(n: nat, limit: nat): (r: nat)
    requires limit > 0
    ensures r < limit
  {
    if n < limit then n else Rest(n - limit, limit)
  }

  lemma {:induction false} RestIsRemainder(n: nat, limit: nat)
    requires limit > 0
    ensures Rest(n, limit) == n % limit
  {
    if n >= limit {
      RestIsRemainder(n - limit, limit);
      Modulus(n, limit);
    }
  }

  lemma Multiple(k: int, d: int)
    requires k >= 1 && d > 0
    ensures k * d >= d
  {
    assert (k - 1) * d >= 0;
  }

  /** Division with remainder has one solution. */
  lemma Remainder(n: nat, d: nat, q: int, r: nat)
    requires d > 0 && r < d && n == q * d + r
    ensures n % d == r
  {
    var p := n / d;
    assert n == p * d + n % d;
    assert (q - p) * d == n % d - r;
    assert (p - q) * d == r - n % d;
    if q - p >= 1 { Multiple(q - p, d); } else if p - q >= 1 { Multiple(p - q, d); }
  }

  lemma Modulus(n: nat, limit: nat)
    requires n >= limit > 0
    ensures (n - limit) % limit == n % limit
  {
    var q := n / limit;
    assert n == q * limit + n % limit;
    assert (q - 1) * limit == q * limit - limit;
    Remainder(n - limit, limit, q - 1, n % limit);
  }

  /** How many of the first elements equal e: inserting e before them or after them is the same. */
  ghost function Run<T>(s: seq<T>, e: T): (k: nat)
    ensures k <= |s| && (forall i :: 0 <= i < k ==> s[i] == e) && (k < |s| ==> s[k] != e)
  {
    if s == [] || s[0] != e then 0 else 1 + Run(s[1..], e)
  }

  /** There is a last page where e comes to lie, and it has room for one more. */
  ghost predicate Room<T>(left: seq<T>, e: T, tail: seq<T>, limit: nat)
    requires limit > 0
  {
    var k := Run(tail, e);
    1 <= Rest(|left| + k, limit) + (|tail| - k) < limit
  }

  /** Full pages in front do not matter. */
  lemma PeelLeft<T>(left: seq<T>, e: T, tail: seq<T>, limit: nat)
    requires |left| >= limit > 0
    ensures OneChanges(Blocks(left + tail, limit), Blocks(left + [e] + tail, limit))
       <==> OneChanges(Blocks(left[limit..] + tail, limit), Blocks(left[limit..] + [e] + tail, limit))
  {
    PeelBlock(left, tail, limit);
    PeelBlock(left, [e] + tail, limit);
    assert left + ([e] + tail) == left + [e] + tail && left[limit..] + ([e] + tail) == left[limit..] + [e] + tail;
    PrefixChanges([left[..limit]], Blocks(left[limit..] + tail, limit), Blocks(left[limit..] + [e] + tail, limit));
  }

  lemma PeelBlock<T>(left: seq<T>, s: seq<T>, limit: nat)
    requires |left| >= limit > 0
    ensures Blocks(left + s, limit) == [left[..limit]] + Blocks(left[limit..] + s, limit)
  {
    assert left + s == left[..limit] + (left[limit..] + s);
    FullBlock(left[..limit], left[limit..] + s, limit);
  }

  lemma NoRoom<T>(left: seq<T>, e: T, tail: seq<T>, limit: nat)
    requires |left| < limit <= |left| + |tail| && tail[0] != e
    ensures !OneChanges(Blocks(left + tail, limit), Blocks(left + [e] + tail, limit))
  {
    var s, t := left + tail, left + [e] + tail;
    var p, q := Blocks(s, limit), Blocks(t, limit);
    assert p[0] == s[..limit] && q[0] == t[..limit];
    assert s[..limit][|left|] == tail[0] && t[..limit][|left|] == e;
    BlocksFlatten(s, limit);
    BlocksFlatten(t, limit);
    if OneChanges(p, q) { FirstDiffers(p, q); }
  }

  /** Without selected elements one inserted element changes just one page if and only if there is room. */
  lemma {:induction false} BlocksInsertion<T>(left: seq<T>, e: T, tail: seq<T>, limit: nat)
    requires limit > 0 && (tail != [] ==> tail[0] != e)
    ensures OneChanges(Blocks(left + tail, limit), Blocks(left + [e] + tail, limit))
       <==> 1 <= Rest(|left|, limit) + |tail| < limit
    decreases |left|
  {
    if |left| >= limit {
      PeelLeft(left, e, tail, limit);
      BlocksInsertion(left[limit..], e, tail, limit);
    } else if |left| + |tail| >= limit {
      NoRoom(left, e, tail, limit);
    } else if left + tail == [] {
      assert Blocks(left + tail, limit) == [];
    } else {
      assert Differs(Blocks(left + tail, limit), Blocks(left + [e] + tail, limit), 0);
    }
  }

  lemma Joined<T>(a: seq<T>, b: seq<T>, c: seq<T>)
    ensures (a + b) + c == a + (b + c)
  {
  }

  /** Inserting e before a run of its equals is inserting it behind them. */
  lemma RunMoves<T>(left: seq<T>, e: T, tail: seq<T>)
    ensures var k := Run(tail, e);
      && left + tail == (left + tail[..k]) + tail[k..]
      && left + [e] + tail == (left + tail[..k]) + [e] + tail[k..]
  {
    var u, w := tail[..Run(tail, e)], tail[Run(tail, e)..];
    assert tail == u + w && [e] + u == u + [e];
    Joined(left, u, w);
    Joined(left + [e], u, w);
    Joined(left, [e], u);
    Joined(left, u, [e]);
  }

  lemma RunInsertion<T>(left: seq<T>, e: T, tail: seq<T>, limit: nat)
    requires limit > 0
    ensures OneChanges(Blocks(left + tail, limit), Blocks(left + [e] + tail, limit)) <==> Room(left, e, tail, limit)
  {
    var k := Run(tail, e);
    RunMoves(left, e, tail);
    BlocksInsertion(left + tail[..k], e, tail[k..], limit);
  }

  lemma SelectedAhead<T>(left: seq<T>, e: T, tail: seq<T>, cut: T -> bool, limit: nat)
    requires |left| < limit < |left| + |tail| && cut(e) && Quiet(tail, cut)
    ensures !OneChanges(Blocks(left + tail, limit), Blocks(left + [e], limit) + Blocks(tail, limit))
  {
    var s := left + tail;
    var p, q := Blocks(s, limit), Blocks(left + [e], limit) + Blocks(tail, limit);
    assert p[0] == s[..limit] && q[0] == left + [e];
    assert s[..limit][|left|] == tail[0];
    if |left| + 1 == limit { assert !cut(tail[0]); }
    assert (left + [e])[|left|] == e;
    BlocksFlatten(s, limit);
    BlocksFlatten(left + [e], limit);
    BlocksFlatten(tail, limit);
    FlattenAppend(Blocks(left + [e], limit), Blocks(tail, limit));
    if OneChanges(p, q) { FirstDiffers(p, q); }
  }

  /** A selected element before others adds a page or moves forced cuts; it never changes one page only. */
  lemma {:induction false} SelectedInsertion<T>(left: seq<T>, e: T, tail: seq<T>, cut: T -> bool, limit: nat)
    requires limit > 0 && cut(e) && Quiet(tail, cut) && tail != []
    ensures !OneChanges(Blocks(left + tail, limit), Blocks(left + [e], limit) + Blocks(tail, limit))
    decreases |left|
  {
    if |left| >= limit {
      var b, rest := left[..limit], left[limit..];
      SelectedInsertion(rest, e, tail, cut, limit);
      PeelBlock(left, tail, limit);
      PeelBlock(left, [e], limit);
      assert [b] + Blocks(rest + [e], limit) + Blocks(tail, limit) == [b] + (Blocks(rest + [e], limit) + Blocks(tail, limit));
      PrefixChanges([b], Blocks(rest + tail, limit), Blocks(rest + [e], limit) + Blocks(tail, limit));
    } else if |left| + |tail| > limit {
      SelectedAhead(left, e, tail, cut, limit);
    }
  }

  /** A selected element that comes to lie in the last page of its stretch splits that page in two. */
  lemma SelectedSplits<T>(left: seq<T>, e: T, tail: seq<T>, cut: T -> bool, limit: nat)
    returns (a: seq<seq<T>>, l: seq<T>)
    requires limit > 0 && cut(e) && Unselected(left, cut) && Quiet(tail, cut) && tail != []
    requires Rest(|left|, limit) + |tail| <= limit
    ensures Pages(left + tail, cut, limit) == a + [l + tail]
    ensures Pages(left + [e] + tail, cut, limit) == a + [l + [e], tail]
  {
    QuietPages(left + tail, cut, limit);
    QuietPages(left + [e], cut, limit);
    QuietPages(tail, cut, limit);
    Resynchronises(left, e, tail, cut, limit);
    a, l := LastBlock(left, limit);
    LastBlockOf(left, tail, a, l, limit);
    LastBlockOf(left, [e], a, l, limit);
    assert a + [l + [e]] + [tail] == a + [l + [e], tail];
  }

  /** The full pages of a list, and what follows them. */
  lemma {:induction false} LastBlock<T>(left: seq<T>, limit: nat) returns (a: seq<seq<T>>, l: seq<T>)
    requires limit > 0
    ensures Flatten(a) + l == left && |l| == Rest(|left|, limit) && forall i :: 0 <= i < |a| ==> |a[i]| == limit
    decreases |left|
  {
    if |left| < limit {
      a, l := [], left;
    } else {
      a, l := LastBlock(left[limit..], limit);
      a := [left[..limit]] + a;
      assert a[1..] + [] == a[1..];
    }
  }

  lemma {:induction false} LastBlockOf<T>(left: seq<T>, s: seq<T>, a: seq<seq<T>>, l: seq<T>, limit: nat)
    requires limit > 0 && Flatten(a) + l == left && (forall i :: 0 <= i < |a| ==> |a[i]| == limit) && 0 < |l| + |s| <= limit
    ensures Blocks(left + s, limit) == a + [l + s]
    decreases |a|
  {
    if a == [] {
      assert left == l;
    } else {
      var rest := Flatten(a[1..]) + l;
      assert left + s == a[0] + (rest + s);
      FullBlock(a[0], rest + s, limit);
      LastBlockOf(rest, s, a[1..], l, limit);
      assert [a[0]] + (a[1..] + [l + s]) == a + [l + s];
    }
  }

  /** One stretch between selected elements, closed or not. */
  ghost predicate Fits<T>(left: seq<T>, e: T, tail: seq<T>, cut: T -> bool, limit: nat)
    requires limit > 0
  {
    if cut(e) then tail == [] && Rest(|left|, limit) != 0 else Room(left, e, tail, limit)
  }

  lemma StretchInsertion<T>(left: seq<T>, e: T, tail: seq<T>, cut: T -> bool, limit: nat)
    requires limit > 0 && Unselected(left, cut) && Quiet(tail, cut)
    ensures OneChanges(Pages(left + tail, cut, limit), Pages(left + [e] + tail, cut, limit))
       <==> Fits(left, e, tail, cut, limit)
  {
    QuietPages(left + tail, cut, limit);
    if cut(e) && tail != [] {
      Resynchronises(left, e, tail, cut, limit);
      QuietPages(left + [e], cut, limit);
      QuietPages(tail, cut, limit);
      SelectedInsertion(left, e, tail, cut, limit);
    } else {
      QuietPages(left + [e] + tail, cut, limit);
      RunInsertion(left, e, tail, limit);
    }
  }

  lemma PagesAfter<T>(before: seq<T>, s: seq<T>, cut: T -> bool, limit: nat)
    requires limit > 0 && (before == [] || s == [] || cut(before[|before| - 1]))
    ensures Pages(before + s, cut, limit) == Pages(before, cut, limit) + Pages(s, cut, limit)
  {
    if before == [] {
      assert before + s == s;
    } else if s == [] {
      assert before + s == before;
    } else {
      var n := |before| - 1;
      assert before[..n] + [before[n]] == before;
      Resynchronises(before[..n], before[n], s, cut, limit);
    }
  }

  /** A stretch and what surrounds it are paged independently. */
  lemma Surrounded<T>(before: seq<T>, s: seq<T>, after: seq<T>, cut: T -> bool, limit: nat)
    requires limit > 0 && (before == [] || cut(before[|before| - 1])) && (after == [] || (s != [] && cut(s[|s| - 1])))
    ensures Pages(before + s + after, cut, limit) == Pages(before, cut, limit) + Pages(s, cut, limit) + Pages(after, cut, limit)
  {
    PagesAfter(before, s, cut, limit);
    PagesAfter(before + s, after, cut, limit);
  }

  lemma SurroundedInsertion<T>(before: seq<T>, left: seq<T>, e: T, tail: seq<T>, after: seq<T>, cut: T -> bool, limit: nat)
    requires limit > 0 && Unselected(left, cut) && Quiet(tail, cut)
    requires (before == [] || cut(before[|before| - 1])) && (after == [] || (tail != [] && cut(tail[|tail| - 1])))
    ensures OneChanges(Pages(before + (left + tail) + after, cut, limit), Pages(before + (left + [e] + tail) + after, cut, limit))
       <==> Fits(left, e, tail, cut, limit)
  {
    Surrounded(before, left + tail, after, cut, limit);
    Surrounded(before, left + [e] + tail, after, cut, limit);
    StretchInsertion(left, e, tail, cut, limit);
    var p, q := Pages(left + tail, cut, limit), Pages(left + [e] + tail, cut, limit);
    PrefixChanges(Pages(before, cut, limit), p, q);
    SuffixChanges(Pages(before, cut, limit) + p, Pages(before, cut, limit) + q, Pages(after, cut, limit));
  }

  /** Where the stretch around place i begins and ends. */
  function StretchStart<T>(values: seq<T>, i: nat, cut: T -> bool): (b: nat)
    requires i <= |values|
    ensures b <= i && (b == 0 || cut(values[b - 1])) && forall k :: b <= k < i ==> !cut(values[k])
  {
    if i == 0 || cut(values[i - 1]) then i else StretchStart(values, i - 1, cut)
  }

  function StretchEnd<T>(values: seq<T>, i: nat, cut: T -> bool): (j: nat)
    requires i <= |values|
    ensures i <= j <= |values| && (forall k :: i <= k < j - 1 ==> !cut(values[k]))
    ensures j < |values| ==> i < j && cut(values[j - 1])
    decreases |values| - i
  {
    if i == |values| then i else if cut(values[i]) then i + 1 else StretchEnd(values, i + 1, cut)
  }

  lemma Apart<T>(values: seq<T>, b: nat, i: nat, j: nat, e: T)
    requires b <= i <= j <= |values|
    ensures values == values[..b] + (values[b..i] + values[i..j]) + values[j..]
    ensures values[..i] + [e] + values[i..] == values[..b] + (values[b..i] + [e] + values[i..j]) + values[j..]
  {
    assert values[..i] == values[..b] + values[b..i];
    assert values[i..] == values[i..j] + values[j..];
  }

  lemma StretchParts<T>(values: seq<T>, i: nat, cut: T -> bool)
    requires i <= |values|
    ensures var b, j := StretchStart(values, i, cut), StretchEnd(values, i, cut);
      && Unselected(values[b..i], cut) && Quiet(values[i..j], cut)
      && (b == 0 || cut(values[..b][b - 1]))
      && (j == |values| || (i < j && cut(values[i..j][j - i - 1])))
  {
  }

  /** For every list, place and element: inserting it (or, read backwards, removing it) changes exactly one page if and
      only if the element is not selected and the last page of its stretch has room for it, or it is appended, selected,
      to a list whose last page is unfinished. */
  lemma OnePageChanges<T>(values: seq<T>, i: nat, e: T, cut: T -> bool, limit: nat)
    requires limit > 0 && i <= |values|
    ensures var b, j := StretchStart(values, i, cut), StretchEnd(values, i, cut);
      OneChanges(Pages(values, cut, limit), Pages(values[..i] + [e] + values[i..], cut, limit))
      <==> Fits(values[b..i], e, values[i..j], cut, limit)
  {
    var b, j := StretchStart(values, i, cut), StretchEnd(values, i, cut);
    var before, left, tail, after := values[..b], values[b..i], values[i..j], values[j..];
    Apart(values, b, i, j, e);
    StretchParts(values, i, cut);
    SurroundedInsertion(before, left, e, tail, after, cut, limit);
  }

  /** A full page and no selected element: one element in front changes more than one page. */
  lemma DocumentedRuleFails()
    ensures var values := seq(PAGE_MAXIMUM, (k: int) => k + 1);
      !OneChanges(Pages(values, (t: int) => false, PAGE_MAXIMUM), Pages([0] + values, (t: int) => false, PAGE_MAXIMUM))
  {
    var values, cut := seq(PAGE_MAXIMUM, (k: int) => k + 1), (t: int) => false;
    OnePageChanges(values, 0, 0, cut, PAGE_MAXIMUM);
    assert values[..0] + [0] + values[0..] == [0] + values;
    assert values[0] == 1 && values[0..StretchEnd(values, 0, cut)][0] == 1;
  }

  /** Where page j begins when all pages before it are full, and how many pages n elements fill. */
  function Offset(j: nat, limit: nat): nat {
    if j == 0 then 0 else Offset(j - 1, limit) + limit
  }

  function Filled(n: nat, limit: nat): nat
    requires limit > 0
  {
    if n < limit then 0 else 1 + Filled(n - limit, limit)
  }

  lemma {:induction false} BlockAt<T>(s: seq<T>, limit: nat, j: nat)
    requires limit > 0 && j < |Blocks(s, limit)|
    ensures Offset(j, limit) < |s| && Blocks(s, limit)[j] == Slice(s, Offset(j, limit), limit)
    decreases j
  {
    if j > 0 {
      BlockAt(s[limit..], limit, j - 1);
      SliceOf(s, Offset(j - 1, limit), limit);
    }
  }

  lemma {:induction false} BlockCount<T>(s: seq<T>, limit: nat, j: nat)
    requires limit > 0
    ensures j < |Blocks(s, limit)| <==> Offset(j, limit) < |s|
    decreases j
  {
    if j > 0 {
      if |s| > limit { BlockCount(s[limit..], limit, j - 1); }
    }
  }

  function Slice<T>(s: seq<T>, lo: nat, limit: nat): seq<T>
    requires lo <= |s|
  {
    if |s| <= lo + limit then s[lo..] else s[lo..lo + limit]
  }

  lemma SliceOf<T>(s: seq<T>, lo: nat, limit: nat)
    requires lo + limit <= |s|
    ensures Slice(s[limit..], lo, limit) == Slice(s, lo + limit, limit)
  {
  }

  /** A page's worth of two lists that are shifted by one from place n on. */
  lemma ShiftedSlice<T>(s: seq<T>, t: seq<T>, n: nat, lo: nat, limit: nat)
    requires limit > 0 && n < |s| && lo < |s| && |t| == |s| + 1
    requires forall k :: n <= k < |s| ==> s[k] == t[k + 1] && s[k] != t[k]
    requires n < lo + limit <= |s| || n <= lo
    ensures Slice(s, lo, limit) != Slice(t, lo, limit)
  {
    var x := if n <= lo then lo else n;
    assert Slice(s, lo, limit)[x - lo] == s[x] && Slice(t, lo, limit)[x - lo] == t[x];
  }

  /** From the page where they part on, all pages of such lists differ. */
  lemma ShiftedBlocks<T>(s: seq<T>, t: seq<T>, n: nat, limit: nat, j: nat)
    requires n < limit <= |s| && |t| == |s| + 1 && j < |Blocks(s, limit)|
    requires forall k :: n <= k < |s| ==> s[k] == t[k + 1] && s[k] != t[k]
    ensures Differs(Blocks(s, limit), Blocks(t, limit), j)
  {
    BlockAt(s, limit, j);
    BlockCount(t, limit, j);
    BlockAt(t, limit, j);
    ShiftedSlice(s, t, n, Offset(j, limit), limit);
  }

  lemma {:induction false} BlocksShift<T>(left: seq<T>, e: T, tail: seq<T>, limit: nat, j: nat)
    requires limit > 0 && Rest(|left|, limit) + |tail| >= limit && tail != [] && tail[0] != e
    requires forall k :: 0 <= k < |tail| - 1 ==> tail[k] != tail[k + 1]
    requires Filled(|left|, limit) <= j < |Blocks(left + tail, limit)|
    ensures Differs(Blocks(left + tail, limit), Blocks(left + [e] + tail, limit), j)
    decreases |left|
  {
    if |left| >= limit {
      PeelBlock(left, tail, limit);
      PeelBlock(left, [e] + tail, limit);
      BlocksShift(left[limit..], e, tail, limit, j - 1);
      assert left + ([e] + tail) == left + [e] + tail && left[limit..] + ([e] + tail) == left[limit..] + [e] + tail;
    } else {
      var s, t, n := left + tail, left + [e] + tail, |left|;
      forall k | n <= k < |s| ensures s[k] == t[k + 1] && s[k] != t[k] {
        if k > n { assert s[k] == tail[k - n] && t[k] == tail[k - n - 1]; }
      }
      ShiftedBlocks(s, t, n, limit, j);
    }
  }

  /** Without room every page from the insertion to the end of the stretch changes, unless neighbours are equal. */
  lemma ForcedCutsShift<T>(left: seq<T>, e: T, tail: seq<T>, cut: T -> bool, limit: nat, j: nat)
    requires limit > 0 && !cut(e) && Unselected(left, cut) && Quiet(tail, cut)
    requires Rest(|left|, limit) + |tail| >= limit && tail != [] && tail[0] != e
    requires forall k :: 0 <= k < |tail| - 1 ==> tail[k] != tail[k + 1]
    requires Filled(|left|, limit) <= j < |Pages(left + tail, cut, limit)|
    ensures Differs(Pages(left + tail, cut, limit), Pages(left + [e] + tail, cut, limit), j)
  {
    QuietPages(left + tail, cut, limit);
    QuietPages(left + [e] + tail, cut, limit);
    BlocksShift(left, e, tail, limit, j);
  }
}
