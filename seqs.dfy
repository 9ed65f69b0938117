/** Sequence operations that mirror Swift's `firstIndex(where:)` followed by
    `remove(at:)`, used by the scene graph and the scene's renderable list. */
module Seqs {
  import opened Wrappers

  /** Swift's `firstIndex { $0 === x }`: the position of the first element
      identical to `x`, or None when there is none. */
  function FirstIndex<T(==)>(s: seq<T>, x: T): (r: Option<nat>)
    ensures r.None? <==> x !in s
    ensures r.Some? ==> r.value < |s| && s[r.value] == x && x !in s[..r.value]
  {
    if |s| == 0 then None
    else if s[0] == x then Some(0)
    else
      match FirstIndex(s[1..], x)
      case None => None
      case Some(i) =>
        assert s[..i + 1] == [s[0]] + s[1..][..i];
        Some(i + 1)
  }

  /** Swift's `remove(at:)`. */
  function RemoveAt<T>(s: seq<T>, i: nat): (r: seq<T>)
    requires i < |s|
    ensures |r| == |s| - 1
    ensures forall j :: 0 <= j < i ==> r[j] == s[j]
    ensures forall j :: i <= j < |r| ==> r[j] == s[j + 1]
  {
    s[..i] + s[i + 1..]
  }

  /** Look up the first identical element and, if there is one, remove it. */
  function RemoveFirst<T(==)>(s: seq<T>, x: T): seq<T>
  {
    match FirstIndex(s, x)
    case None => s
    case Some(i) => RemoveAt(s, i)
  }

  /** Removing the first occurrence deletes exactly one copy of `x` (none
      when `x` is absent) and nothing else. */
  lemma RemoveFirstCount<T>(s: seq<T>, x: T)
    ensures x !in s ==> RemoveFirst(s, x) == s
    ensures x in s ==> |RemoveFirst(s, x)| == |s| - 1
    ensures multiset(RemoveFirst(s, x)) == multiset(s) - multiset{x}
  {
    match FirstIndex(s, x)
    case None =>
      assert multiset(s)[x] == 0;
    case Some(i) =>
      assert s == s[..i] + [s[i]] + s[i + 1..];
      assert RemoveFirst(s, x) == s[..i] + s[i + 1..];
      assert multiset(s) == multiset(s[..i]) + multiset{x} + multiset(s[i + 1..]);
  }

  /** The other elements keep their relative order: the ones before the first
      `x` stay where they were and the ones after it move down by one. */
  lemma RemoveFirstOrder<T>(s: seq<T>, x: T, i: nat)
    requires FirstIndex(s, x) == Some(i)
    ensures forall j :: 0 <= j < i ==> RemoveFirst(s, x)[j] == s[j] && s[j] != x
    ensures forall j :: i <= j < |s| - 1 ==> RemoveFirst(s, x)[j] == s[j + 1]
  {
    forall j | 0 <= j < i ensures s[j] != x {
      assert s[j] == s[..i][j];
    }
  }

  /** The elements of `s` satisfying `p`, in their original order. */
  function Filter<T>(s: seq<T>, p: T -> bool): (r: seq<T>)
    ensures |r| <= |s|
    ensures forall k :: 0 <= k < |r| ==> p(r[k]) && r[k] in s
  {
    if |s| == 0 then []
    else if p(s[0]) then [s[0]] + Filter(s[1..], p)
    else Filter(s[1..], p)
  }

  lemma {:induction false} FilterAppend<T>(s: seq<T>, t: seq<T>, p: T -> bool)
    ensures Filter(s + t, p) == Filter(s, p) + Filter(t, p)
  {
    if |s| == 0 {
      assert s + t == t;
    } else {
      assert (s + t)[1..] == s[1..] + t;
      FilterAppend(s[1..], t, p);
    }
  }

  /** Filtering a non-empty sequence filters its last element separately. */
  lemma FilterLast<T>(s: seq<T>, p: T -> bool)
    requires |s| > 0
    ensures Filter(s, p) == Filter(s[..|s| - 1], p) + Filter([s[|s| - 1]], p)
  {
    var init, last := s[..|s| - 1], s[|s| - 1];
    SplitLast(s);
    FilterAppend(init, [last], p);
  }

  /** A non-empty sequence is its front followed by its last element. */
  lemma SplitLast<T>(s: seq<T>)
    requires |s| > 0
    ensures s == s[..|s| - 1] + [s[|s| - 1]]
  {
  }

  /** `x` survives the filter exactly when it was in `s` and satisfies `p`. */
  lemma {:induction false} FilterMembership<T>(s: seq<T>, p: T -> bool, x: T)
    ensures x in Filter(s, p) <==> x in s && p(x)
  {
    if |s| > 0 {
      FilterMembership(s[1..], p, x);
      assert s == [s[0]] + s[1..];
    }
  }

  /** The first index, stated position by position. */
  lemma FirstIndexByPosition<T>(s: seq<T>, x: T)
    ensures FirstIndex(s, x).None? <==> forall k :: 0 <= k < |s| ==> s[k] != x
    ensures FirstIndex(s, x).Some? ==> forall k :: 0 <= k < FirstIndex(s, x).value ==> s[k] != x
  {
    var r := FirstIndex(s, x);
    if r.Some? {
      assert forall k :: 0 <= k < r.value ==> s[..r.value][k] == s[k];
    }
  }

  /** The first index is the one position holding `x` with no `x` before it. */
  lemma {:induction false} FirstIndexAt<T>(s: seq<T>, x: T, i: nat)
    requires i < |s| && s[i] == x && x !in s[..i]
    ensures FirstIndex(s, x) == Some(i)
  {
    if i > 0 {
      assert s[0] == s[..i][0];
      assert s[1..][..i - 1] == s[1..i];
      assert forall y :: y in s[1..i] ==> y in s[..i];
      FirstIndexAt(s[1..], x, i - 1);
    }
  }

  /** Looking `x` up in `s + t` finds it in `s` when it is there: the
      occurrence removed is the one in `s`. */
  lemma RemoveFirstAppendFound<T>(s: seq<T>, t: seq<T>, x: T)
    requires x in s
    ensures RemoveFirst(s + t, x) == RemoveFirst(s, x) + t
  {
    var i := FirstIndex(s, x).value;
    assert (s + t)[..i] == s[..i];
    FirstIndexAt(s + t, x, i);
    calc {
      RemoveFirst(s + t, x);
      (s + t)[..i] + (s + t)[i + 1..];
      { assert (s + t)[i + 1..] == s[i + 1..] + t; }
      s[..i] + (s[i + 1..] + t);
      (s[..i] + s[i + 1..]) + t;
    }
  }

  /** When `x` is not in `s`, the occurrence removed from `s + t` is the
      first one in `t`. */
  lemma RemoveFirstAppendNotFound<T>(s: seq<T>, t: seq<T>, x: T)
    requires x !in s
    ensures RemoveFirst(s + t, x) == s + RemoveFirst(t, x)
  {
    match FirstIndex(t, x)
    case None =>
      assert x !in s + t;
    case Some(j) =>
      var k := |s| + j;
      var before, after := t[..j], t[j + 1..];
      TakeAppend(s, t, j);
      NotInAppend(s, before, x);
      FirstIndexAt(s + t, x, k);
      DropAppend(s, t, j + 1);
      AppendAssociative(s, before, after);
  }

  /** The first |s| + n elements of `s + t` are `s` and the first n of `t`. */
  lemma TakeAppend<T>(s: seq<T>, t: seq<T>, n: nat)
    requires n <= |t|
    ensures (s + t)[..|s| + n] == s + t[..n]
  {
  }

  /** Dropping |s| + n elements of `s + t` drops n elements of `t`. */
  lemma DropAppend<T>(s: seq<T>, t: seq<T>, n: nat)
    requires n <= |t|
    ensures (s + t)[|s| + n..] == t[n..]
  {
  }

  /** Dropping n <= |s| elements of `s + t` drops them from `s`. */
  lemma DropAppendLeft<T>(s: seq<T>, t: seq<T>, n: nat)
    requires n <= |s|
    ensures (s + t)[n..] == s[n..] + t
  {
  }

  /** An element in neither part is not in their concatenation. */
  lemma NotInAppend<T>(s: seq<T>, t: seq<T>, x: T)
    requires x !in s && x !in t
    ensures x !in s + t
  {
  }

  /** `k` copies of `s` in a row. */
  function Repeat<T>(s: seq<T>, k: nat): (r: seq<T>)
  {
    if k == 0 then [] else Repeat(s, k - 1) + s
  }

  /** No, one and two copies. */
  lemma RepeatSmall<T>(s: seq<T>)
    ensures Repeat(s, 0) == [] && Repeat(s, 1) == s && Repeat(s, 2) == s + s
  {
    assert Repeat(s, 1) == [] + s;
  }

  /** Appending `x` twice appends two copies of it. */
  lemma RepeatTwice<T>(a: seq<T>, x: seq<T>, b: seq<T>, c: seq<T>)
    requires b == a + x && c == b + x
    ensures c == a + Repeat(x, 2)
  {
    assert Repeat(x, 1) == [] + x;
    assert Repeat(x, 2) == [] + x + x;
    AppendAssociative(a, x, x);
  }

  /** One more copy may be put in front as well as behind. */
  lemma {:induction false} RepeatPrepend<T>(s: seq<T>, k: nat)
    ensures s + Repeat(s, k) == Repeat(s, k + 1)
    decreases k
  {
    if k > 0 {
      RepeatPrepend(s, k - 1);
      AppendAssociative(s, Repeat(s, k - 1), s);
    }
  }

  /** Concatenation is associative; stated once so that long traces are
      regrouped without comparing them element by element. */
  lemma AppendAssociative<T>(a: seq<T>, b: seq<T>, c: seq<T>)
    ensures (a + b) + c == a + (b + c)
  {
  }

  /** A trace that grew by four pieces is the trace followed by their
      concatenation. */
  lemma Nest4<T>(t: seq<T>, a: seq<T>, b: seq<T>, c: seq<T>, d: seq<T>)
    ensures t + a + b + c + d == t + (a + b + c + d)
  {
    AppendAssociative(t, a, b);
    AppendAssociative(t, a + b, c);
    AppendAssociative(t, a + b + c, d);
  }

  /** A trace that grew by an opening `m`, body pieces and a closing `e`
      is the trace followed by one pass built from those pieces. */
  lemma Regroup3<T>(t: seq<T>, m: seq<T>, a: seq<T>, e: seq<T>)
    ensures t + m + a + e == t + (m + a + e)
  {
    AppendAssociative(t, m, a);
    AppendAssociative(t, m + a, e);
  }

  lemma Regroup4<T>(t: seq<T>, m: seq<T>, a: seq<T>, b: seq<T>, e: seq<T>)
    ensures t + m + a + b + e == t + (m + (a + b) + e)
  {
    AppendAssociative(t, m, a);
    AppendAssociative(t, m + a, b);
    AppendAssociative(m, a, b);
    AppendAssociative(t, m + (a + b), e);
  }

  lemma Regroup5<T>(t: seq<T>, m: seq<T>, a: seq<T>, b: seq<T>, c: seq<T>, e: seq<T>)
    ensures t + m + a + b + c + e == t + (m + (a + b + c) + e)
  {
    Regroup4(t, m, a, b, []);
    assert t + m + a + b + [] == t + m + a + b;
    assert m + (a + b) + [] == m + (a + b);
    Regroup4(t, m, a + b, c, e);
  }

  lemma Regroup6<T>(t: seq<T>, m: seq<T>, a: seq<T>, b: seq<T>, c: seq<T>, d: seq<T>, e: seq<T>)
    ensures t + m + a + b + c + d + e == t + (m + (a + b + c + d) + e)
  {
    Regroup5(t, m, a, b, c, []);
    assert t + m + a + b + c + [] == t + m + a + b + c;
    assert m + (a + b + c) + [] == m + (a + b + c);
    Regroup4(t, m, a + b + c, d, e);
  }
}
