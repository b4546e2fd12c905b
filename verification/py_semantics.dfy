/** The few pieces of Python semantics the modelled code relies on:
    optional values, a call that either returns or raises, list slicing
    with possibly negative bounds, and small numeric helpers. */
module PySemantics {

  datatype Option<+T> = None | Some(value: T)

  /** The exceptions the modelled code raises (and mostly swallows). */
  datatype PyError = AttributeError | TypeError | IndexError | ZeroDivisionError | ValidationError

  /** What a Python call does: it returns a value or raises an exception. */
  datatype Outcome<+T> = Returned(value: T) | Raised(error: PyError)

  /** The value an `except Exception: return fallback` handler yields. */
  function Catch<T>(o: Outcome<T>, fallback: T): (r: T)
    ensures o.Returned? ==> r == o.value
    ensures o.Raised? ==> r == fallback
  {
    match o
    case Returned(v) => v
    case Raised(_) => fallback
  }

  /** How Python normalises a slice bound `k` for a list of length `n`:
      negative bounds count from the end, and both ends are clamped. */
  function ClampIndex(n: nat, k: int): (r: nat)
    ensures r <= n
    ensures 0 <= k <= n ==> r == k
    ensures -(n as int) <= k < 0 ==> r == n + k
    ensures k > n ==> r == n
    ensures k < -(n as int) ==> r == 0
  {
    if k >= 0 then (if k <= n then k else n)
    else if n + k >= 0 then n + k else 0
  }

  /** Python's `s[k:]`. */
  function SliceFrom<T>(s: seq<T>, k: int): (r: seq<T>)
    ensures |r| <= |s| && r == s[|s| - |r|..]
    ensures k < 0 ==> |r| == Min(-k, |s|)
    ensures k >= 0 ==> |r| == |s| - Min(k, |s|)
  {
    s[ClampIndex(|s|, k)..]
  }

  /** Python's `s[:k]`. */
  function SliceTo<T>(s: seq<T>, k: int): (r: seq<T>)
    ensures |r| <= |s| && r == s[..|r|]
    ensures k >= 0 ==> |r| == Min(k, |s|)
    ensures k < 0 ==> |r| == |s| - Min(-k, |s|)
  {
    s[..ClampIndex(|s|, k)]
  }

  /** The positions `lo <= k < hi` Python's `s[a:b]` selects from a list of
      length `n`: both bounds normalised, and nothing when the start is not
      before the stop. */
  function SliceRange(n: nat, a: int, b: int): (r: (nat, nat))
    ensures r.0 <= r.1 <= n
    ensures r.0 == ClampIndex(n, a)
    ensures ClampIndex(n, a) <= ClampIndex(n, b) ==> r.1 == ClampIndex(n, b)
  {
    var lo := ClampIndex(n, a);
    var hi := ClampIndex(n, b);
    (lo, if hi < lo then lo else hi)
  }

  /** Python's `s[-1]`, for a non-empty list. */
  function Last<T>(s: seq<T>): T
    requires |s| > 0
  {
    s[|s| - 1]
  }

  function Min(a: int, b: int): int
  {
    if a <= b then a else b
  }

  function MinReal(a: real, b: real): (r: real)
    ensures r <= a && r <= b && (r == a || r == b)
  {
    if a <= b then a else b
  }

  function MaxReal(a: real, b: real): (r: real)
    ensures r >= a && r >= b && (r == a || r == b)
  {
    if a >= b then a else b
  }

  function Abs(x: real): (r: real)
    ensures r >= 0.0 && (r == x || r == -x)
  {
    if x >= 0.0 then x else -x
  }

  /** The `min(x, 1.0)` clamp every strength goes through. */
  function ClampStrength(x: real): (r: real)
    ensures r <= 1.0
    ensures x >= 0.0 ==> 0.0 <= r
    ensures x <= 1.0 ==> r == x
  {
    MinReal(x, 1.0)
  }

  /** `[x for x in xs if keep(x)]`: the elements that pass, each as often
      as it occurs in `xs`. */
  function Filter<T>(xs: seq<T>, keep: T -> bool): (r: seq<T>)
    ensures |r| <= |xs|
  {
    if xs == [] then [] else (if keep(xs[0]) then [xs[0]] else []) + Filter(xs[1..], keep)
  }

  /** Every element that passes is kept as often as it occurs, and nothing
      else is kept. */
  lemma {:induction false} FilterCounts<T(!new)>(xs: seq<T>, keep: T -> bool)
    ensures forall x :: x in Filter(xs, keep) ==> keep(x)
    ensures forall x :: multiset(Filter(xs, keep))[x] == if keep(x) then multiset(xs)[x] else 0
  {
    if xs != [] {
      FilterCounts(xs[1..], keep);
      assert xs == [xs[0]] + xs[1..];
    }
  }

  /** Nothing passes, so nothing is kept. */
  lemma {:induction false} FilterNone<T>(xs: seq<T>, keep: T -> bool)
    requires forall k :: 0 <= k < |xs| ==> !keep(xs[k])
    ensures Filter(xs, keep) == []
  {
    if xs != [] {
      FilterNone(xs[1..], keep);
    }
  }

  /** Filtering never reorders: the filtered concatenation is the
      concatenation of the filtered parts. */
  lemma {:induction false} FilterConcat<T>(xs: seq<T>, ys: seq<T>, keep: T -> bool)
    ensures Filter(xs + ys, keep) == Filter(xs, keep) + Filter(ys, keep)
  {
    if xs != [] {
      var head := if keep(xs[0]) then [xs[0]] else [];
      assert (xs + ys)[0] == xs[0] && (xs + ys)[1..] == xs[1..] + ys;
      FilterConcat(xs[1..], ys, keep);
      calc {
        Filter(xs + ys, keep);
        head + Filter(xs[1..] + ys, keep);
        head + (Filter(xs[1..], keep) + Filter(ys, keep));
        (head + Filter(xs[1..], keep)) + Filter(ys, keep);
      }
    } else {
      assert xs + ys == ys;
    }
  }

  /** `xs` is `ys` with some elements removed and none reordered. */
  ghost predicate IsSubsequence<T>(xs: seq<T>, ys: seq<T>)
    decreases |ys|
  {
    xs == [] ||
    (ys != [] && ((xs[0] == ys[0] && IsSubsequence(xs[1..], ys[1..])) || IsSubsequence(xs, ys[1..])))
  }

  /** A filter keeps a subsequence of its input. */
  lemma {:induction false} FilterSubsequence<T>(xs: seq<T>, keep: T -> bool)
    ensures IsSubsequence(Filter(xs, keep), xs)
  {
    if xs != [] {
      FilterSubsequence(xs[1..], keep);
      if keep(xs[0]) {
        assert Filter(xs, keep) == [xs[0]] + Filter(xs[1..], keep);
        assert Filter(xs, keep)[1..] == Filter(xs[1..], keep);
      } else {
        assert Filter(xs, keep) == Filter(xs[1..], keep);
      }
    }
  }

  /** Removing from what was already removed from leaves a subsequence. */
  lemma {:induction false} SubsequenceTransitive<T>(xs: seq<T>, ys: seq<T>, zs: seq<T>)
    requires IsSubsequence(xs, ys) && IsSubsequence(ys, zs)
    ensures IsSubsequence(xs, zs)
    decreases |zs|
  {
    if xs != [] {
      assert ys != [] && zs != [];
      if ys[0] == zs[0] && IsSubsequence(ys[1..], zs[1..]) {
        if xs[0] == ys[0] && IsSubsequence(xs[1..], ys[1..]) {
          SubsequenceTransitive(xs[1..], ys[1..], zs[1..]);
        } else {
          SubsequenceTransitive(xs, ys[1..], zs[1..]);
        }
      } else {
        SubsequenceTransitive(xs, ys, zs[1..]);
      }
    }
  }

  /** Every sequence is a subsequence of itself. */
  lemma {:induction false} SubsequenceReflexive<T>(xs: seq<T>)
    ensures IsSubsequence(xs, xs)
  {
    if xs != [] {
      SubsequenceReflexive(xs[1..]);
    }
  }

  /** The predicate "the key equals v", to speak about ties. */
  function KeyIs<T>(key: T -> real, v: real): T -> bool
  {
    x => key(x) == v
  }

  /** Non-increasing in the key. */
  predicate Descending<T>(xs: seq<T>, key: T -> real)
  {
    forall i, j :: 0 <= i < j < |xs| ==> key(xs[i]) >= key(xs[j])
  }

  /** Inserts `x` after every element whose key is at least as large, so
      that among equal keys the element inserted earlier stays first. */
  function Insert<T>(x: T, xs: seq<T>, key: T -> real): seq<T>
  {
    if xs == [] then [x]
    else if key(xs[0]) >= key(x) then [xs[0]] + Insert(x, xs[1..], key)
    else [x] + xs
  }

  /** `sorted(xs, key=key, reverse=True)`: a stable sort into descending
      key order (Python keeps equal keys in input order also when
      reversing). */
  function SortDescending<T>(xs: seq<T>, key: T -> real): seq<T>
  {
    if xs == [] then [] else Insert(Last(xs), SortDescending(xs[..|xs| - 1], key), key)
  }

  /** Insertion adds exactly `x`. */
  lemma {:induction false} InsertAdds<T>(x: T, xs: seq<T>, key: T -> real)
    ensures multiset(Insert(x, xs, key)) == multiset(xs) + multiset{x}
  {
    if xs != [] && key(xs[0]) >= key(x) {
      InsertAdds(x, xs[1..], key);
      assert xs == [xs[0]] + xs[1..];
    }
  }

  /** Insertion adds nothing above a bound that `x` and `xs` stay below. */
  lemma {:induction false} InsertBelow<T>(x: T, xs: seq<T>, key: T -> real, bound: real)
    requires key(x) <= bound
    requires forall k :: 0 <= k < |xs| ==> key(xs[k]) <= bound
    ensures forall k :: 0 <= k < |Insert(x, xs, key)| ==> key(Insert(x, xs, key)[k]) <= bound
  {
    if xs != [] && key(xs[0]) >= key(x) {
      InsertBelow(x, xs[1..], key, bound);
    }
  }

  /** An element whose key bounds a descending list can lead it. */
  lemma DescendingCons<T>(x: T, ys: seq<T>, key: T -> real)
    requires Descending(ys, key)
    requires forall k :: 0 <= k < |ys| ==> key(ys[k]) <= key(x)
    ensures Descending([x] + ys, key)
  {
    var r := [x] + ys;
    forall i, j | 0 <= i < j < |r| ensures key(r[i]) >= key(r[j]) {
      if i > 0 {
        assert r[i] == ys[i - 1];
      }
      assert r[j] == ys[j - 1];
    }
  }

  /** A descending list stays descending without its head, and its head
      bounds the rest. */
  lemma DescendingTail<T>(xs: seq<T>, key: T -> real)
    requires Descending(xs, key) && xs != []
    ensures Descending(xs[1..], key)
    ensures forall k :: 0 <= k < |xs[1..]| ==> key(xs[1..][k]) <= key(xs[0])
  {
    var tail := xs[1..];
    forall i, j | 0 <= i < j < |tail| ensures key(tail[i]) >= key(tail[j]) {
      assert tail[i] == xs[i + 1] && tail[j] == xs[j + 1];
    }
    forall k | 0 <= k < |tail| ensures key(tail[k]) <= key(xs[0]) {
      assert tail[k] == xs[k + 1];
    }
  }

  /** Insertion into a descending list keeps it descending. */
  lemma {:induction false} InsertDescending<T>(x: T, xs: seq<T>, key: T -> real)
    requires Descending(xs, key)
    ensures Descending(Insert(x, xs, key), key)
  {
    if xs == [] {
    } else if key(xs[0]) >= key(x) {
      var tail := xs[1..];
      DescendingTail(xs, key);
      InsertDescending(x, tail, key);
      InsertBelow(x, tail, key, key(xs[0]));
      DescendingCons(xs[0], Insert(x, tail, key), key);
    } else {
      DescendingCons(x, xs, key);
    }
  }

  /** The sort is a permutation into descending order. */
  lemma {:induction false} SortSound<T>(xs: seq<T>, key: T -> real)
    ensures multiset(SortDescending(xs, key)) == multiset(xs)
    ensures Descending(SortDescending(xs, key), key)
  {
    if xs != [] {
      var init := xs[..|xs| - 1];
      SortSound(init, key);
      InsertAdds(Last(xs), SortDescending(init, key), key);
      InsertDescending(Last(xs), SortDescending(init, key), key);
      assert xs == init + [Last(xs)];
    }
  }

  /** On a descending list, insertion keeps the elements of each key in
      their order, with the new one last among its equals. */
  lemma {:induction false} InsertStable<T(!new)>(x: T, xs: seq<T>, key: T -> real, v: real)
    requires Descending(xs, key)
    ensures Filter(Insert(x, xs, key), KeyIs(key, v)) == Filter(xs, KeyIs(key, v)) + Filter([x], KeyIs(key, v))
  {
    if xs == [] {
    } else if key(xs[0]) >= key(x) {
      DescendingTail(xs, key);
      InsertStable(x, xs[1..], key, v);
      InsertStablePast(x, xs, key, v);
    } else {
      InsertStableFront(x, xs, key, v);
    }
  }

  /** Insertion past the head keeps the head in front of the tail's result. */
  lemma InsertStablePast<T>(x: T, xs: seq<T>, key: T -> real, v: real)
    requires xs != [] && key(xs[0]) >= key(x)
    requires Filter(Insert(x, xs[1..], key), KeyIs(key, v)) == Filter(xs[1..], KeyIs(key, v)) + Filter([x], KeyIs(key, v))
    ensures Filter(Insert(x, xs, key), KeyIs(key, v)) == Filter(xs, KeyIs(key, v)) + Filter([x], KeyIs(key, v))
  {
    var tie := KeyIs(key, v);
    var front := Filter([xs[0]], tie);
    InsertPastFilter(x, xs, key, tie);
    FilterHead(xs, tie);
    Rejoin(Filter(Insert(x, xs, key), tie), front, Filter(Insert(x, xs[1..], key), tie), Filter(xs[1..], tie),
           Filter([x], tie), Filter(xs, tie));
  }

  /** Regrouping an equation between concatenations. */
  lemma Rejoin<T>(whole: seq<T>, front: seq<T>, rest: seq<T>, tail: seq<T>, extra: seq<T>, before: seq<T>)
    requires whole == front + rest && rest == tail + extra && before == front + tail
    ensures whole == before + extra
  {
  }

  /** What insertion past the head lets through: the head's part, then the
      tail's. */
  lemma InsertPastFilter<T>(x: T, xs: seq<T>, key: T -> real, keep: T -> bool)
    requires xs != [] && key(xs[0]) >= key(x)
    ensures Filter(Insert(x, xs, key), keep) == Filter([xs[0]], keep) + Filter(Insert(x, xs[1..], key), keep)
  {
    FilterConcat([xs[0]], Insert(x, xs[1..], key), keep);
  }

  /** A list lets through its head's part, then its tail's. */
  lemma FilterHead<T>(xs: seq<T>, keep: T -> bool)
    requires xs != []
    ensures Filter(xs, keep) == Filter([xs[0]], keep) + Filter(xs[1..], keep)
  {
    FilterConcat([xs[0]], xs[1..], keep);
    assert [xs[0]] + xs[1..] == xs;
  }

  /** Insertion before a smaller head: no element of the list ties with the
      new one. */
  lemma InsertStableFront<T>(x: T, xs: seq<T>, key: T -> real, v: real)
    requires Descending(xs, key) && xs != [] && key(xs[0]) < key(x)
    ensures Filter(Insert(x, xs, key), KeyIs(key, v)) == Filter(xs, KeyIs(key, v)) + Filter([x], KeyIs(key, v))
  {
    if v == key(x) {
      NoTieBelow(xs, key, v);
    }
    FilterConcat([x], xs, KeyIs(key, v));
  }

  /** In a descending list whose first key is below `v`, nothing has key `v`. */
  lemma NoTieBelow<T>(xs: seq<T>, key: T -> real, v: real)
    requires Descending(xs, key) && xs != [] && key(xs[0]) < v
    ensures Filter(xs, KeyIs(key, v)) == []
  {
    forall k | 0 <= k < |xs| ensures !KeyIs(key, v)(xs[k]) {
      assert key(xs[k]) <= key(xs[0]);
    }
    FilterNone(xs, KeyIs(key, v));
  }

  /** The sort is stable: the elements of any one key come out in the order
      they went in. */
  lemma {:induction false} SortStable<T(!new)>(xs: seq<T>, key: T -> real, v: real)
    ensures Filter(SortDescending(xs, key), KeyIs(key, v)) == Filter(xs, KeyIs(key, v))
  {
    if xs != [] {
      var init := xs[..|xs| - 1];
      SortStable(init, key, v);
      SortSound(init, key);
      InsertStable(Last(xs), SortDescending(init, key), key, v);
      FilterConcat(init, [Last(xs)], KeyIs(key, v));
      assert init + [Last(xs)] == xs;
    }
  }

  /** `sorted(xs, key=key, reverse=True)[:k]` is descending, holds exactly
      `min(k, len(xs))` elements, only elements of `xs`, and all of them
      when they fit. */
  lemma TopSound<T>(xs: seq<T>, key: T -> real, k: int)
    ensures var r := SliceTo(SortDescending(xs, key), k);
      Descending(r, key) &&
      (k >= 0 ==> |r| == Min(k, |xs|)) &&
      multiset(r) <= multiset(xs) &&
      (|xs| <= k ==> multiset(r) == multiset(xs))
  {
    var sorted := SortDescending(xs, key);
    var r := SliceTo(sorted, k);
    SortSound(xs, key);
    assert |sorted| == |multiset(sorted)| == |xs|;
    assert r == sorted[..|r|];
    forall i, j | 0 <= i < j < |r| ensures key(r[i]) >= key(r[j]) {
      assert r[i] == sorted[i] && r[j] == sorted[j];
    }
    assert sorted == r + sorted[|r|..];
    assert multiset(r) <= multiset(sorted);
  }

  /** The cut only drops the smallest keys: an element of `xs` missing from
      the top `k` has a key no larger than any kept one. */
  lemma TopKeepsLargest<T>(xs: seq<T>, key: T -> real, k: int, y: T)
    requires y in xs && y !in SliceTo(SortDescending(xs, key), k)
    ensures forall x :: x in SliceTo(SortDescending(xs, key), k) ==> key(x) >= key(y)
  {
    var sorted := SortDescending(xs, key);
    var r := SliceTo(sorted, k);
    SortSound(xs, key);
    assert r == sorted[..|r|];
    assert y in multiset(sorted);
    var j :| 0 <= j < |sorted| && sorted[j] == y;
    forall x | x in r ensures key(x) >= key(y) {
      var i :| 0 <= i < |r| && r[i] == x;
      assert sorted[i] == x;
    }
  }

  /** Among equal keys the top `k` keep the input order: the kept elements
      of each key are a prefix of the input's elements of that key. */
  lemma TopKeepsTieOrder<T(!new)>(xs: seq<T>, key: T -> real, k: int, v: real)
    ensures Filter(SliceTo(SortDescending(xs, key), k), KeyIs(key, v)) <= Filter(xs, KeyIs(key, v))
  {
    var sorted := SortDescending(xs, key);
    var r := SliceTo(sorted, k);
    assert sorted == r + sorted[|r|..];
    FilterConcat(r, sorted[|r|..], KeyIs(key, v));
    SortStable(xs, key, v);
  }

  predicate IsDigit(c: char)
  {
    '0' <= c <= '9'
  }

  function DigitChar(d: int): (c: char)
    requires 0 <= d < 10
    ensures IsDigit(c)
  {
    ('0' as int + d) as char
  }

  function DigitValue(c: char): (d: int)
    requires IsDigit(c)
    ensures 0 <= d < 10
  {
    c as int - '0' as int
  }

  /** `str(n)` for a non-negative integer: its decimal digits, with no
      leading zero. */
  function Str(n: nat): (s: string)
    ensures |s| >= 1 && (forall k :: 0 <= k < |s| ==> IsDigit(s[k]))
    ensures |s| > 1 ==> s[0] != '0'
    ensures n < 10 <==> |s| == 1
  {
    if n < 10 then [DigitChar(n)] else Str(n / 10) + [DigitChar(n % 10)]
  }

  /** The number a string of decimal digits denotes (`int(s)`). */
  function DecimalValue(s: string): nat
    requires forall k :: 0 <= k < |s| ==> IsDigit(s[k])
  {
    if s == [] then 0 else DecimalValue(s[..|s| - 1]) * 10 + DigitValue(Last(s))
  }

  /** Reading back what `str` wrote gives the number. */
  lemma {:induction false} StrRoundTrip(n: nat)
    ensures DecimalValue(Str(n)) == n
  {
    if n >= 10 {
      StrRoundTrip(n / 10);
      var s := Str(n);
      assert s[..|s| - 1] == Str(n / 10);
    }
  }
}
