/** Sums of a mapping's values over a set of its keys. */
module Sums {

  ghost function SumOver<K>(s: set<K>, m: map<K, real>): real
    requires s <= m.Keys
  {
    if s == {} then 0.0
    else
      var x :| x in s;
      m[x] + SumOver(s - {x}, m)
  }

  /** Any element may be taken out first. */
  lemma {:induction false} SumTakes<K>(s: set<K>, m: map<K, real>, x: K)
    requires s <= m.Keys && x in s
    ensures SumOver(s, m) == m[x] + SumOver(s - {x}, m)
    decreases s
  {
    var y :| y in s && SumOver(s, m) == m[y] + SumOver(s - {y}, m);
    if y != x {
      SumTakes(s - {y}, m, x);
      SumTakes(s - {x}, m, y);
      assert s - {y} - {x} == s - {x} - {y};
    }
  }

  lemma {:induction false} SumAgrees<K>(s: set<K>, m: map<K, real>, n: map<K, real>)
    requires s <= m.Keys && s <= n.Keys && forall x :: x in s ==> m[x] == n[x]
    ensures SumOver(s, m) == SumOver(s, n)
    decreases s
  {
    if s != {} {
      var x :| x in s;
      SumTakes(s, m, x);
      SumTakes(s, n, x);
      SumAgrees(s - {x}, m, n);
    }
  }

  lemma {:induction false} SumSplits<K>(s: set<K>, t: set<K>, m: map<K, real>)
    requires s !! t && s + t <= m.Keys
    ensures SumOver(s + t, m) == SumOver(s, m) + SumOver(t, m)
    decreases s
  {
    if s == {} {
      assert s + t == t;
    } else {
      var x :| x in s;
      SumTakes(s, m, x);
      SumTakes(s + t, m, x);
      assert s + t - {x} == (s - {x}) + t;
      SumSplits(s - {x}, t, m);
    }
  }

  lemma {:induction false} SumBounds<K>(s: set<K>, m: map<K, real>)
    requires s <= m.Keys && forall x :: x in s ==> m[x] >= 0.0
    ensures SumOver(s, m) >= 0.0
    ensures SumOver(s, m) == 0.0 <==> forall x :: x in s ==> m[x] == 0.0
    decreases s
  {
    if s != {} {
      var x :| x in s;
      SumTakes(s, m, x);
      SumBounds(s - {x}, m);
      assert forall y :: y in s ==> y == x || y in s - {x};
    }
  }

  /** n times c, by adding. */
  ghost function Times(n: nat, c: real): real {
    if n == 0 then 0.0 else c + Times(n - 1, c)
  }

  lemma {:induction false} TimesIsProduct(n: nat, c: real)
    ensures Times(n, c) == n as real * c
  {
    if n > 0 {
      TimesIsProduct(n - 1, c);
      assert n as real * c == (n - 1) as real * c + c;
    }
  }

  /** Equal parts of a whole make the whole. */
  lemma EqualParts(n: nat, whole: real)
    requires n > 0
    ensures Times(n, whole / n as real) == whole
  {
    TimesIsProduct(n, whole / n as real);
    assert n as real * (whole / n as real) == whole;
  }

  lemma {:induction false} SumConstant<K>(s: set<K>, m: map<K, real>, c: real)
    requires s <= m.Keys && forall x :: x in s ==> m[x] == c
    ensures SumOver(s, m) == Times(|s|, c)
    decreases s
  {
    if s != {} {
      var x :| x in s;
      SumTakes(s, m, x);
      SumConstant(s - {x}, m, c);
      assert |s| == |s - {x}| + 1;
    }
  }

  // ------------------------------------------------------------------ whole numbers

  ghost function CountOver<K>(s: set<K>, m: map<K, nat>): nat
    requires s <= m.Keys
  {
    if s == {} then 0
    else
      var x :| x in s;
      m[x] + CountOver(s - {x}, m)
  }

  lemma {:induction false} CountTakes<K>(s: set<K>, m: map<K, nat>, x: K)
    requires s <= m.Keys && x in s
    ensures CountOver(s, m) == m[x] + CountOver(s - {x}, m)
    decreases s
  {
    var y :| y in s && CountOver(s, m) == m[y] + CountOver(s - {y}, m);
    if y != x {
      CountTakes(s - {y}, m, x);
      CountTakes(s - {x}, m, y);
      assert s - {y} - {x} == s - {x} - {y};
    }
  }

  lemma {:induction false} CountAgrees<K>(s: set<K>, m: map<K, nat>, n: map<K, nat>)
    requires s <= m.Keys && s <= n.Keys && forall x :: x in s ==> m[x] == n[x]
    ensures CountOver(s, m) == CountOver(s, n)
    decreases s
  {
    if s != {} {
      var x :| x in s;
      CountTakes(s, m, x);
      CountTakes(s, n, x);
      CountAgrees(s - {x}, m, n);
    }
  }

  lemma {:induction false} CountGrows<K>(s: set<K>, t: set<K>, m: map<K, nat>)
    requires s <= t <= m.Keys
    ensures CountOver(s, m) <= CountOver(t, m)
    decreases t
  {
    if s != {} {
      var x :| x in s;
      CountTakes(s, m, x);
      CountTakes(t, m, x);
      CountGrows(s - {x}, t - {x}, m);
    }
  }

  // ------------------------------------------------------------------ integers

  ghost function TotalOver<K>(s: set<K>, m: map<K, int>): int
    requires s <= m.Keys
  {
    if s == {} then 0
    else
      var x :| x in s;
      m[x] + TotalOver(s - {x}, m)
  }

  lemma {:induction false} TotalTakes<K>(s: set<K>, m: map<K, int>, x: K)
    requires s <= m.Keys && x in s
    ensures TotalOver(s, m) == m[x] + TotalOver(s - {x}, m)
    decreases s
  {
    var y :| y in s && TotalOver(s, m) == m[y] + TotalOver(s - {y}, m);
    if y != x {
      TotalTakes(s - {y}, m, x);
      TotalTakes(s - {x}, m, y);
      assert s - {y} - {x} == s - {x} - {y};
    }
  }

  lemma {:induction false} TotalAdds<K>(s: set<K>, m: map<K, int>, n: map<K, int>, both: map<K, int>)
    requires s <= m.Keys && s <= n.Keys && s <= both.Keys && forall x :: x in s ==> both[x] == m[x] + n[x]
    ensures TotalOver(s, both) == TotalOver(s, m) + TotalOver(s, n)
    decreases s
  {
    if s != {} {
      var x :| x in s;
      TotalTakes(s, m, x);
      TotalTakes(s, n, x);
      TotalTakes(s, both, x);
      TotalAdds(s - {x}, m, n, both);
    }
  }

  lemma {:induction false} TotalZero<K>(s: set<K>, m: map<K, int>)
    requires s <= m.Keys && forall x :: x in s ==> m[x] == 0
    ensures TotalOver(s, m) == 0
    decreases s
  {
    if s != {} {
      var x :| x in s;
      TotalTakes(s, m, x);
      TotalZero(s - {x}, m);
    }
  }

  /** Only the keys with a nonzero value matter. */
  lemma {:induction false} TotalNarrows<K>(s: set<K>, t: set<K>, m: map<K, int>, n: map<K, int>)
    requires t <= s <= m.Keys && t <= n.Keys
    requires forall x :: x in s ==> m[x] == if x in t then n[x] else 0
    ensures TotalOver(s, m) == TotalOver(t, n)
    decreases s
  {
    if s != {} {
      var x :| x in s;
      TotalTakes(s, m, x);
      if x in t { TotalTakes(t, n, x); } else { assert t - {x} == t; }
      TotalNarrows(s - {x}, t - {x}, m, n);
    }
  }
}
