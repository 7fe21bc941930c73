/** The JavaScript array operations the dashboard relies on: `filter`,
    de-duplication through a `Set` (first-seen order), `reduce` sums,
    `slice` with its index clamping, `Math.ceil` of a quotient, and the
    toggling of an expanded-rows `Set`. */
module Seqs {

  /** `xs.filter(f)` */
  function Filter<T>(xs: seq<T>, f: T -> bool): (r: seq<T>)
    ensures |r| <= |xs|
    ensures forall i :: 0 <= i < |r| ==> r[i] in xs && f(r[i])
    ensures forall i :: 0 <= i < |xs| && f(xs[i]) ==> xs[i] in r
  {
    if xs == [] then [] else (if f(xs[0]) then [xs[0]] else []) + Filter(xs[1..], f)
  }

  /** `sub` is `xs` with some elements dropped and the rest in their order. */
  predicate IsSubsequence<T(==)>(sub: seq<T>, xs: seq<T>)
    decreases |xs|
  {
    sub == [] ||
    (xs != [] && ((sub[0] == xs[0] && IsSubsequence(sub[1..], xs[1..])) || IsSubsequence(sub, xs[1..])))
  }

  lemma {:induction false} FilterIsSubsequence<T>(xs: seq<T>, f: T -> bool)
    ensures IsSubsequence(Filter(xs, f), xs)
  {
    if xs != [] {
      FilterIsSubsequence(xs[1..], f);
      var r := Filter(xs, f);
      if f(xs[0]) {
        assert r == [xs[0]] + Filter(xs[1..], f);
        assert r[1..] == Filter(xs[1..], f);
      } else {
        assert r == Filter(xs[1..], f);
      }
    }
  }

  lemma {:induction false} IsSubsequenceRefl<T>(xs: seq<T>)
    ensures IsSubsequence(xs, xs)
  {
    if xs != [] {
      IsSubsequenceRefl(xs[1..]);
    }
  }

  lemma {:induction false} PrefixIsSubsequence<T>(xs: seq<T>, n: nat)
    requires n <= |xs|
    ensures IsSubsequence(xs[..n], xs)
  {
    if n > 0 {
      PrefixIsSubsequence(xs[1..], n - 1);
      assert xs[..n][1..] == xs[1..][..n - 1];
    }
  }

  lemma {:induction false} SubsequenceTrans<T>(a: seq<T>, b: seq<T>, c: seq<T>)
    requires IsSubsequence(a, b) && IsSubsequence(b, c)
    ensures IsSubsequence(a, c)
    decreases |c|
  {
    if a != [] {
      assert c != [];
      if b[0] == c[0] && IsSubsequence(b[1..], c[1..]) {
        if a[0] == b[0] && IsSubsequence(a[1..], b[1..]) {
          SubsequenceTrans(a[1..], b[1..], c[1..]);
        } else {
          SubsequenceTrans(a, b[1..], c[1..]);
        }
      } else {
        SubsequenceTrans(a, b, c[1..]);
      }
    }
  }

  lemma {:induction false} SubsequenceIn<T>(sub: seq<T>, xs: seq<T>, x: T)
    requires IsSubsequence(sub, xs) && x in sub
    ensures x in xs
    decreases |xs|
  {
    if sub[0] == xs[0] && IsSubsequence(sub[1..], xs[1..]) {
      if x != sub[0] {
        SubsequenceIn(sub[1..], xs[1..], x);
      }
    } else {
      SubsequenceIn(sub, xs[1..], x);
    }
  }

  /** The parts one after the other. */
  function Concat<T>(parts: seq<seq<T>>): seq<T> {
    if parts == [] then [] else Concat(parts[..|parts| - 1]) + parts[|parts| - 1]
  }

  lemma {:induction false} ConcatIn<T>(parts: seq<seq<T>>, x: T)
    ensures x in Concat(parts) <==> exists i :: 0 <= i < |parts| && x in parts[i]
  {
    if parts != [] {
      var init := parts[..|parts| - 1];
      var last := |parts| - 1;
      ConcatIn(init, x);
      if x in Concat(init) {
        var i :| 0 <= i < |init| && x in init[i];
        assert init[i] == parts[i];
      }
      if x in parts[last] {
        assert 0 <= last < |parts| && x in parts[last];
      }
      if exists i :: 0 <= i < |parts| && x in parts[i] {
        var i :| 0 <= i < |parts| && x in parts[i];
        if i < last {
          assert init[i] == parts[i];
        }
      }
    }
  }

  lemma ConcatOne<T>(x: seq<T>)
    ensures Concat([x]) == x
  {
    assert [x][..0] == [];
  }

  lemma {:induction false} ConcatAppend<T>(a: seq<seq<T>>, b: seq<seq<T>>)
    ensures Concat(a + b) == Concat(a) + Concat(b)
    decreases |b|
  {
    if b == [] {
      assert a + b == a;
    } else {
      var init := b[..|b| - 1];
      var x := b[|b| - 1];
      assert (a + b)[..|a + b| - 1] == a + init;
      assert (a + b)[|a + b| - 1] == x;
      ConcatAppend(a, init);
      AppendAssoc(Concat(a), Concat(init), x);
    }
  }

  lemma AppendAssoc<T>(a: seq<T>, b: seq<T>, c: seq<T>)
    ensures a + (b + c) == (a + b) + c
  {
  }

  lemma {:induction false} FilterAppend<T>(xs: seq<T>, ys: seq<T>, f: T -> bool)
    ensures Filter(xs + ys, f) == Filter(xs, f) + Filter(ys, f)
  {
    if xs != [] {
      assert (xs + ys)[1..] == xs[1..] + ys;
      FilterAppend(xs[1..], ys, f);
    } else {
      assert xs + ys == ys;
    }
  }

  lemma {:induction false} FilterAll<T>(xs: seq<T>, f: T -> bool)
    requires forall x :: x in xs ==> f(x)
    ensures Filter(xs, f) == xs
  {
    if xs != [] {
      FilterAll(xs[1..], f);
    }
  }

  lemma {:induction false} FilterNone<T>(xs: seq<T>, f: T -> bool)
    requires forall i :: 0 <= i < |xs| ==> !f(xs[i])
    ensures Filter(xs, f) == []
  {
    if xs != [] {
      assert !f(xs[0]);
      FilterNone(xs[1..], f);
    }
  }

  /** Number of elements satisfying `f`. */
  function Count<T>(xs: seq<T>, f: T -> bool): (n: nat)
    ensures n <= |xs|
  {
    |Filter(xs, f)|
  }

  /** Counting under a weaker condition never gives less. */
  lemma {:induction false} CountMonotone<T>(xs: seq<T>, f: T -> bool, g: T -> bool)
    requires forall x :: f(x) ==> g(x)
    ensures Count(xs, f) <= Count(xs, g)
  {
    if xs != [] {
      CountMonotone(xs[1..], f, g);
    }
  }

  lemma {:induction false} CountAppend<T>(xs: seq<T>, ys: seq<T>, f: T -> bool)
    ensures Count(xs + ys, f) == Count(xs, f) + Count(ys, f)
  {
    if xs != [] {
      assert (xs + ys)[1..] == xs[1..] + ys;
      CountAppend(xs[1..], ys, f);
    } else {
      assert xs + ys == ys;
    }
  }

  /** Every element is counted either under `f` or under its negation. */
  lemma {:induction false} CountComplement<T>(xs: seq<T>, f: T -> bool, g: T -> bool)
    requires forall x :: g(x) == !f(x)
    ensures Count(xs, f) + Count(xs, g) == |xs|
  {
    if xs != [] {
      CountComplement(xs[1..], f, g);
    }
  }

  predicate Distinct<T(==)>(xs: seq<T>) {
    forall i, j :: 0 <= i < j < |xs| ==> xs[i] != xs[j]
  }

  /** The distinct elements of `xs` in first-seen order, as
      `Array.from(new Set(xs))` gives them. */
  function Dedup<T(==)>(xs: seq<T>): (r: seq<T>)
    ensures Distinct(r)
    ensures forall i :: 0 <= i < |r| ==> r[i] in xs
    ensures forall i :: 0 <= i < |xs| ==> xs[i] in r
    ensures |r| <= |xs|
  {
    if xs == [] then []
    else
      var d := Dedup(xs[..|xs| - 1]);
      assert forall i :: 0 <= i < |xs| - 1 ==> xs[..|xs| - 1][i] == xs[i];
      if xs[|xs| - 1] in d then d else d + [xs[|xs| - 1]]
  }

  lemma DedupSnoc<T>(xs: seq<T>, x: T)
    ensures Dedup(xs + [x]) == if x in Dedup(xs) then Dedup(xs) else Dedup(xs) + [x]
  {
    assert (xs + [x])[..|xs|] == xs;
  }

  function SumReal(xs: seq<real>): real {
    if xs == [] then 0.0 else xs[0] + SumReal(xs[1..])
  }

  lemma {:induction false} SumRealAppend(xs: seq<real>, ys: seq<real>)
    ensures SumReal(xs + ys) == SumReal(xs) + SumReal(ys)
  {
    if xs != [] {
      assert (xs + ys)[1..] == xs[1..] + ys;
      SumRealAppend(xs[1..], ys);
    } else {
      assert xs + ys == ys;
    }
  }

  function SumInt(xs: seq<int>): int {
    if xs == [] then 0 else xs[0] + SumInt(xs[1..])
  }

  lemma {:induction false} SumIntAppend(xs: seq<int>, ys: seq<int>)
    ensures SumInt(xs + ys) == SumInt(xs) + SumInt(ys)
  {
    if xs != [] {
      assert (xs + ys)[1..] == xs[1..] + ys;
      SumIntAppend(xs[1..], ys);
    } else {
      assert xs + ys == ys;
    }
  }

  /** `Math.ceil(a / b)` for a positive divisor. */
  function CeilDiv(a: int, b: int): (r: int)
    requires b > 0
    ensures (r - 1) * b < a <= r * b
  {
    var q := (-a) / b;
    var m := (-a) % b;
    assert -a == q * b + m && 0 <= m < b;
    assert -q * b == a + m;
    assert (-q - 1) * b == a + m - b;
    -q
  }

  /** `Math.ceil(n / perPage)`: the fewest pages of `perPage` items that
      hold `n` items. */
  function TotalPages(n: nat, perPage: int): (r: nat)
    requires perPage > 0
    ensures (r - 1) * perPage < n <= r * perPage
  {
    CeilDiv(n, perPage)
  }

  /** The index `Array.prototype.slice` uses for a start or end argument. */
  function SliceIndex(i: int, len: nat): (r: nat)
    ensures r <= len
  {
    if i < 0 then (if len + i < 0 then 0 else len + i) else if i > len then len else i
  }

  /** `xs.slice(start, end)` */
  function Slice<T>(xs: seq<T>, start: int, end: int): (r: seq<T>)
    ensures 0 <= start <= end <= |xs| ==> r == xs[start..end]
    ensures 0 <= start ==> |r| <= |xs| - (if start > |xs| then |xs| else start)
  {
    var s, e := SliceIndex(start, |xs|), SliceIndex(end, |xs|);
    if s >= e then [] else xs[s..e]
  }

  lemma SliceIn<T>(xs: seq<T>, start: int, end: int, x: T)
    requires x in Slice(xs, start, end)
    ensures x in xs
  {
    var s, e := SliceIndex(start, |xs|), SliceIndex(end, |xs|);
    var k :| 0 <= k < |xs[s..e]| && xs[s..e][k] == x;
    assert xs[s + k] == x;
  }

  /** The expanded-rows toggle of the screens: `key` is removed from the
      set when present and added when absent. */
  function Toggled<T(!new)>(s: set<T>, key: T): (r: set<T>)
    ensures key in r <==> key !in s
    ensures forall k :: k != key ==> (k in r <==> k in s)
  {
    if key in s then s - {key} else s + {key}
  }

  lemma ToggledTwice<T(!new)>(s: set<T>, key: T)
    ensures Toggled(Toggled(s, key), key) == s
  {
  }
}
