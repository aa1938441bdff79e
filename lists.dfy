/**
 * The JavaScript array operations the program relies on, stated once:
 * `filter`, `findIndex` / `find`, a conditional `map`, insertion into an
 * insertion-ordered `Set`, and `Array.from(new Set(xs))`.
 */
module Lists {
  import opened Wrappers

  /** `xs.filter(p)`: the elements satisfying `p`, in their original order. */
  function Filter<T(!new)>(xs: seq<T>, p: T -> bool): (r: seq<T>)
    ensures |r| <= |xs|
  {
    if xs == [] then []
    else (if p(xs[0]) then [xs[0]] else []) + Filter(xs[1..], p)
  }

  /** The kept elements are exactly the members that pass the test. */
  lemma {:induction false} FilterMembers<T(!new)>(xs: seq<T>, p: T -> bool)
    ensures forall x :: x in Filter(xs, p) <==> x in xs && p(x)
    ensures forall i :: 0 <= i < |Filter(xs, p)| ==> p(Filter(xs, p)[i])
    decreases |xs|
  {
    if xs != [] {
      FilterMembers(xs[1..], p);
      assert forall x :: x in xs <==> x == xs[0] || x in xs[1..];
    }
  }

  /** `r` can be obtained from `xs` by deleting elements (order is kept). */
  ghost predicate IsSubsequence<T>(r: seq<T>, xs: seq<T>)
    decreases |xs|
  {
    if r == [] then true
    else if xs == [] then false
    else (r[0] == xs[0] && IsSubsequence(r[1..], xs[1..])) || IsSubsequence(r, xs[1..])
  }

  lemma {:induction false} SubsequenceOfItself<T>(xs: seq<T>)
    ensures IsSubsequence(xs, xs)
    decreases |xs|
  {
    if xs != [] {
      SubsequenceOfItself(xs[1..]);
    }
  }

  lemma {:induction false} FilterIsSubsequence<T(!new)>(xs: seq<T>, p: T -> bool)
    ensures IsSubsequence(Filter(xs, p), xs)
    decreases |xs|
  {
    if xs != [] {
      FilterIsSubsequence(xs[1..], p);
      var r := Filter(xs, p);
      if p(xs[0]) {
        assert r[0] == xs[0] && r[1..] == Filter(xs[1..], p);
      } else {
        assert r == Filter(xs[1..], p);
      }
    }
  }

  /** Filtering keeps everything exactly when every element passes. */
  lemma FilterKeepsAll<T(!new)>(xs: seq<T>, p: T -> bool)
    ensures Filter(xs, p) == xs <==> forall i :: 0 <= i < |xs| ==> p(xs[i])
  {
    if forall i :: 0 <= i < |xs| ==> p(xs[i]) {
      FilterAllPass(xs, p);
    }
  }

  lemma {:induction false} FilterAllPass<T(!new)>(xs: seq<T>, p: T -> bool)
    requires forall i :: 0 <= i < |xs| ==> p(xs[i])
    ensures Filter(xs, p) == xs
    decreases |xs|
  {
    if xs != [] {
      var tail := xs[1..];
      forall j | 0 <= j < |tail|
        ensures p(tail[j])
      {
        assert tail[j] == xs[j + 1];
      }
      FilterAllPass(tail, p);
      assert Filter(xs, p) == [xs[0]] + Filter(tail, p);
      assert [xs[0]] + tail == xs;
    }
  }

  /** `filter` distributes over concatenation. */
  lemma {:induction false} FilterAppend<T(!new)>(a: seq<T>, b: seq<T>, p: T -> bool)
    ensures Filter(a + b, p) == Filter(a, p) + Filter(b, p)
    decreases |a|
  {
    if a == [] {
      assert a + b == b;
    } else {
      var head := if p(a[0]) then [a[0]] else [];
      assert (a + b)[0] == a[0] && (a + b)[1..] == a[1..] + b;
      FilterAppend(a[1..], b, p);
      calc {
        Filter(a + b, p);
        head + Filter(a[1..] + b, p);
        head + (Filter(a[1..], p) + Filter(b, p));
        (head + Filter(a[1..], p)) + Filter(b, p);
        Filter(a, p) + Filter(b, p);
      }
    }
  }

  /** When exactly position `i` fails the test, filtering splices it out. */
  lemma FilterSplice<T(!new)>(xs: seq<T>, p: T -> bool, i: nat)
    requires i < |xs| && !p(xs[i])
    requires forall j :: 0 <= j < |xs| && j != i ==> p(xs[j])
    ensures Filter(xs, p) == xs[..i] + xs[i + 1..]
  {
    var front, rest := xs[..i], xs[i..];
    var back := rest[1..];
    forall j | 0 <= j < |front|
      ensures p(front[j])
    {
      assert front[j] == xs[j];
    }
    forall j | 0 <= j < |back|
      ensures p(back[j])
    {
      assert back[j] == xs[i + 1 + j];
    }
    FilterAllPass(front, p);
    FilterAllPass(back, p);
    assert rest[0] == xs[i];
    FilterDropsHead(rest, p);
    assert xs == front + rest;
    FilterAppend(front, rest, p);
    assert back == xs[i + 1..];
  }

  /** A failing first element is dropped. */
  lemma FilterDropsHead<T(!new)>(xs: seq<T>, p: T -> bool)
    requires xs != [] && !p(xs[0])
    ensures Filter(xs, p) == Filter(xs[1..], p)
  {
  }

  /** `findIndex`: the first index whose element satisfies `p`. */
  function IndexWhere<T>(xs: seq<T>, p: T -> bool): (r: Option<nat>)
    ensures r.Some? ==> r.value < |xs| && p(xs[r.value])
    ensures r.Some? ==> forall j :: 0 <= j < r.value ==> !p(xs[j])
    ensures r.None? <==> forall j :: 0 <= j < |xs| ==> !p(xs[j])
  {
    if xs == [] then None
    else if p(xs[0]) then Some(0)
    else match IndexWhere(xs[1..], p)
      case None => None
      case Some(i) => Some(i + 1)
  }

  /** The first element `filter` keeps is the one `findIndex` finds; it keeps nothing exactly when that finds nothing. */
  lemma {:induction false} FilterHead<T(!new)>(xs: seq<T>, p: T -> bool)
    ensures Filter(xs, p) == [] <==> IndexWhere(xs, p).None?
    ensures Filter(xs, p) != [] ==> Filter(xs, p)[0] == xs[IndexWhere(xs, p).value]
    decreases |xs|
  {
    if xs != [] && !p(xs[0]) {
      FilterHead(xs[1..], p);
    }
  }

  /** `find`: the first element satisfying `p`. */
  function Find<T>(xs: seq<T>, p: T -> bool): (r: Option<T>)
  {
    match IndexWhere(xs, p)
    case None => None
    case Some(i) => Some(xs[i])
  }

  /** `xs.map(x => p(x) ? f(x) : x)`. */
  function MapWhere<T>(xs: seq<T>, p: T -> bool, f: T -> T): (r: seq<T>)
    ensures |r| == |xs|
  {
    seq(|xs|, i requires 0 <= i < |xs| => if p(xs[i]) then f(xs[i]) else xs[i])
  }

  /** Elements matching `p` are rewritten by `f`, the rest are kept; with no match nothing changes. */
  lemma MapWhereAt<T>(xs: seq<T>, p: T -> bool, f: T -> T)
    ensures |MapWhere(xs, p, f)| == |xs|
    ensures forall i :: 0 <= i < |xs| && p(xs[i]) ==> MapWhere(xs, p, f)[i] == f(xs[i])
    ensures forall i :: 0 <= i < |xs| && !p(xs[i]) ==> MapWhere(xs, p, f)[i] == xs[i]
    ensures (forall i :: 0 <= i < |xs| ==> !p(xs[i])) ==> MapWhere(xs, p, f) == xs
  {
  }

  predicate NoDuplicates<T(==)>(xs: seq<T>)
  {
    forall i, j :: 0 <= i < j < |xs| ==> xs[i] != xs[j]
  }

  /** `set.add(x)` on an insertion-ordered JavaScript `Set`, seen as the sequence of its elements. */
  function SetAdd<T(==,!new)>(s: seq<T>, x: T): (r: seq<T>)
    ensures NoDuplicates(s) ==> NoDuplicates(r)
    ensures forall y :: y in r <==> y in s || y == x
    ensures x in s ==> r == s
    ensures x !in s ==> r == s + [x]
  {
    if x in s then s else s + [x]
  }

  /** `set.delete(x)` on the same representation. */
  function SetDelete<T(==,!new)>(s: seq<T>, x: T): (r: seq<T>)
    ensures NoDuplicates(s) ==> NoDuplicates(r)
    ensures forall y :: y in r <==> y in s && y != x
  {
    FilterIsSubsequence(s, y => y != x);
    FilterMembers(s, y => y != x);
    SubsequenceNoDuplicates(Filter(s, y => y != x), s);
    Filter(s, y => y != x)
  }

  /** `Array.from(new Set(xs))`: each element once, in order of first occurrence. */
  function Dedupe<T(==,!new)>(xs: seq<T>): (r: seq<T>)
    ensures NoDuplicates(r)
    ensures forall x :: x in r <==> x in xs
    decreases |xs|
  {
    if xs == [] then []
    else SetAdd(Dedupe(xs[..|xs| - 1]), xs[|xs| - 1])
  }

  lemma {:induction false} SubsequenceNoDuplicates<T>(r: seq<T>, xs: seq<T>)
    requires IsSubsequence(r, xs)
    ensures NoDuplicates(xs) ==> NoDuplicates(r)
    decreases |xs|
  {
    if r != [] && NoDuplicates(xs) {
      assert NoDuplicates(xs[1..]) by {
        assert forall i :: 0 <= i < |xs[1..]| ==> xs[1..][i] == xs[i + 1];
      }
      if r[0] == xs[0] && IsSubsequence(r[1..], xs[1..]) {
        SubsequenceNoDuplicates(r[1..], xs[1..]);
        SubsequenceMembers(r[1..], xs[1..]);
        assert xs[0] !in xs[1..];
        assert forall j :: 1 <= j < |r| ==> r[j] == r[1..][j - 1] && r[j] in r[1..];
      } else {
        SubsequenceNoDuplicates(r, xs[1..]);
      }
    }
  }

  lemma {:induction false} SubsequenceMembers<T>(r: seq<T>, xs: seq<T>)
    requires IsSubsequence(r, xs)
    ensures forall x :: x in r ==> x in xs
    decreases |xs|
  {
    if r != [] {
      assert r == [r[0]] + r[1..] && xs == [xs[0]] + xs[1..];
      if r[0] == xs[0] && IsSubsequence(r[1..], xs[1..]) {
        SubsequenceMembers(r[1..], xs[1..]);
      } else {
        SubsequenceMembers(r, xs[1..]);
      }
    }
  }

  lemma {:induction false} SubsequenceAppendRight<T>(r: seq<T>, xs: seq<T>, x: T)
    requires IsSubsequence(r, xs)
    ensures IsSubsequence(r, xs + [x])
    decreases |xs|
  {
    if r != [] {
      assert (xs + [x])[0] == xs[0] && (xs + [x])[1..] == xs[1..] + [x];
      if r[0] == xs[0] && IsSubsequence(r[1..], xs[1..]) {
        SubsequenceAppendRight(r[1..], xs[1..], x);
      } else {
        SubsequenceAppendRight(r, xs[1..], x);
      }
    }
  }

  lemma {:induction false} SubsequenceAppendBoth<T>(r: seq<T>, xs: seq<T>, x: T)
    requires IsSubsequence(r, xs)
    ensures IsSubsequence(r + [x], xs + [x])
    decreases |xs|
  {
    if xs == [] {
      assert r == [];
      assert r + [x] == [x] == xs + [x];
      SubsequenceOfItself([x]);
    } else {
      assert (xs + [x])[0] == xs[0] && (xs + [x])[1..] == xs[1..] + [x];
      if r == [] {
        SubsequenceAppendBoth(r, xs[1..], x);
        assert r + [x] == [x];
      } else {
        assert (r + [x])[0] == r[0] && (r + [x])[1..] == r[1..] + [x];
        if r[0] == xs[0] && IsSubsequence(r[1..], xs[1..]) {
          SubsequenceAppendBoth(r[1..], xs[1..], x);
        } else {
          SubsequenceAppendBoth(r, xs[1..], x);
        }
      }
    }
  }

  /** The deduplicated list keeps the order of first occurrences. */
  lemma {:induction false} DedupeIsSubsequence<T(!new)>(xs: seq<T>)
    ensures IsSubsequence(Dedupe(xs), xs)
    decreases |xs|
  {
    if xs != [] {
      var init, last := xs[..|xs| - 1], xs[|xs| - 1];
      assert xs == init + [last];
      DedupeIsSubsequence(init);
      if last in Dedupe(init) {
        SubsequenceAppendRight(Dedupe(init), init, last);
      } else {
        SubsequenceAppendBoth(Dedupe(init), init, last);
      }
    }
  }

  /** `xs.indexOf(x)` for an element that occurs. */
  function FirstIndex<T(==)>(xs: seq<T>, x: T): (r: nat)
    requires x in xs
    ensures r < |xs| && xs[r] == x && x !in xs[..r]
    decreases |xs|
  {
    if xs[0] == x then 0
    else
      assert x in xs[1..] by { assert xs == [xs[0]] + xs[1..]; }
      var k := FirstIndex(xs[1..], x);
      assert xs[..k + 1] == [xs[0]] + xs[1..][..k];
      k + 1
  }

  /** Appending keeps the first occurrences already there, and puts a new element's at the end. */
  lemma FirstIndexSnoc<T>(xs: seq<T>, y: T, x: T)
    requires x in xs + [y]
    ensures x in xs ==> FirstIndex(xs + [y], x) == FirstIndex(xs, x)
    ensures x !in xs ==> FirstIndex(xs + [y], x) == |xs|
  {
    var k := FirstIndex(xs + [y], x);
    if x in xs {
      var j := FirstIndex(xs, x);
      assert (xs + [y])[j] == x;
      assert (xs + [y])[..k] == xs[..k] by { assert k <= j; }
    } else {
      assert (xs + [y])[..|xs|] == xs;
    }
  }

  /** `r` lists elements of `xs` in the order of their first occurrences there. */
  predicate InFirstOccurrenceOrder<T(==)>(r: seq<T>, xs: seq<T>)
  {
    && (forall x :: x in r ==> x in xs)
    && forall i, j :: 0 <= i < j < |r| ==> FirstIndex(xs, r[i]) < FirstIndex(xs, r[j])
  }

  /** `Array.from(new Set(xs))` lists each element at its first occurrence's turn. */
  lemma {:induction false} DedupeFirstOccurrenceOrder<T(!new)>(xs: seq<T>)
    ensures InFirstOccurrenceOrder(Dedupe(xs), xs)
    decreases |xs|
  {
    if xs != [] {
      var init, last := xs[..|xs| - 1], xs[|xs| - 1];
      assert xs == init + [last];
      var d := Dedupe(init);
      DedupeFirstOccurrenceOrder(init);
      forall x | x in d
        ensures FirstIndex(xs, x) == FirstIndex(init, x) < |init|
      {
        FirstIndexSnoc(init, last, x);
      }
      if last !in d {
        FirstIndexSnoc(init, last, last);
        assert Dedupe(xs) == d + [last];
        forall i, j | 0 <= i < j < |d| + 1
          ensures FirstIndex(xs, (d + [last])[i]) < FirstIndex(xs, (d + [last])[j])
        {
          assert (d + [last])[i] == d[i] && d[i] in d;
          if j < |d| {
            assert (d + [last])[j] == d[j] && d[j] in d;
          }
        }
      }
    }
  }
}
