/** `[...s].sort(compare)`: the engine's sort is stable, so with a consistent
    comparator its result is the one of the stable insertion sort below. The
    copy is a value: the list it came from is left as it was. */
module Sorting {

  /** Puts `x` before the first element it does not compare above. */
  function Insert<T(==,!new)>(x: T, t: seq<T>, cmp: (T, T) -> int): (r: seq<T>)
    ensures multiset(r) == multiset(t) + multiset{x}
    ensures |r| == |t| + 1
    ensures forall y :: y in r <==> y == x || y in t
  {
    if t == [] || cmp(x, t[0]) <= 0 then [x] + t
    else
      assert t == [t[0]] + t[1..];
      [t[0]] + Insert(x, t[1..], cmp)
  }

  function Sort<T(==,!new)>(s: seq<T>, cmp: (T, T) -> int): (r: seq<T>)
    ensures multiset(r) == multiset(s)
    ensures |r| == |s|
    ensures forall y :: y in r <==> y in s
  {
    if s == [] then []
    else
      assert s == [s[0]] + s[1..];
      Insert(s[0], Sort(s[1..], cmp), cmp)
  }

  /** Every element compares at most equal to every later one. */
  ghost predicate Ordered<T>(r: seq<T>, cmp: (T, T) -> int)
  {
    forall i, j :: 0 <= i < j < |r| ==> cmp(r[i], r[j]) <= 0
  }

  /** On the elements of `s`, `cmp(a, b) <= 0` is a total preorder: what the
      engine needs of a comparator for a defined result. */
  ghost predicate Consistent<T(!new)>(s: seq<T>, cmp: (T, T) -> int)
  {
    && (forall a, b :: a in s && b in s ==> cmp(a, b) <= 0 || cmp(b, a) <= 0)
    && (forall a, b, c :: a in s && b in s && c in s && cmp(a, b) <= 0 && cmp(b, c) <= 0 ==> cmp(a, c) <= 0)
  }

  /** `y` compares at most equal to every element of `t`. */
  ghost predicate Below<T>(y: T, t: seq<T>, cmp: (T, T) -> int)
  {
    forall k :: 0 <= k < |t| ==> cmp(y, t[k]) <= 0
  }

  lemma OrderedCons<T>(y: T, t: seq<T>, cmp: (T, T) -> int)
    requires Ordered(t, cmp) && Below(y, t, cmp)
    ensures Ordered([y] + t, cmp)
  {
    var r := [y] + t;
    forall i, j | 0 <= i < j < |r| ensures cmp(r[i], r[j]) <= 0 {
      assert r[j] == t[j - 1];
      if i > 0 {
        assert r[i] == t[i - 1];
      }
    }
  }

  lemma FrontBelow<T(!new)>(x: T, t: seq<T>, cmp: (T, T) -> int)
    requires Ordered(t, cmp) && Consistent([x] + t, cmp)
    requires t != [] && cmp(x, t[0]) <= 0
    ensures Below(x, t, cmp)
  {
    forall k | 0 < k < |t| ensures cmp(x, t[k]) <= 0 {
      assert cmp(t[0], t[k]) <= 0;
      assert x in [x] + t && t[0] in [x] + t && t[k] in [x] + t;
    }
  }

  lemma HeadBelow<T(!new)>(x: T, t: seq<T>, cmp: (T, T) -> int)
    requires Ordered(t, cmp) && Consistent([x] + t, cmp)
    requires t != [] && cmp(x, t[0]) > 0
    ensures Below(t[0], Insert(x, t[1..], cmp), cmp)
  {
    var rest := Insert(x, t[1..], cmp);
    assert x in [x] + t && t[0] in [x] + t;
    forall k | 0 <= k < |rest| ensures cmp(t[0], rest[k]) <= 0 {
      assert rest[k] in rest;
      if rest[k] != x {
        var j :| 0 <= j < |t[1..]| && t[1..][j] == rest[k];
        assert t[j + 1] == rest[k];
      }
    }
  }

  lemma {:induction false} InsertOrdered<T(!new)>(x: T, t: seq<T>, cmp: (T, T) -> int)
    requires Ordered(t, cmp) && Consistent([x] + t, cmp)
    ensures Ordered(Insert(x, t, cmp), cmp)
    decreases |t|
  {
    if t == [] {
    } else if cmp(x, t[0]) <= 0 {
      FrontBelow(x, t, cmp);
      OrderedCons(x, t, cmp);
    } else {
      assert Ordered(t[1..], cmp) by {
        forall i, j | 0 <= i < j < |t[1..]| ensures cmp(t[1..][i], t[1..][j]) <= 0 {
          assert t[1..][i] == t[i + 1] && t[1..][j] == t[j + 1];
        }
      }
      assert Consistent([x] + t[1..], cmp) by {
        assert forall y :: y in [x] + t[1..] ==> y in [x] + t;
      }
      InsertOrdered(x, t[1..], cmp);
      HeadBelow(x, t, cmp);
      OrderedCons(t[0], Insert(x, t[1..], cmp), cmp);
    }
  }

  /** With a consistent comparator the result is in order. */
  lemma {:induction false} SortOrdered<T(!new)>(s: seq<T>, cmp: (T, T) -> int)
    requires Consistent(s, cmp)
    ensures Ordered(Sort(s, cmp), cmp)
  {
    if s != [] {
      var t := Sort(s[1..], cmp);
      assert forall y :: y in s[1..] ==> y in s;
      SortOrdered(s[1..], cmp);
      assert forall y :: y in [s[0]] + t ==> y in s by {
        forall y | y in [s[0]] + t ensures y in s {
          if y != s[0] {
            assert y in multiset(t);
          }
        }
      }
      InsertOrdered(s[0], t, cmp);
    }
  }

  /** A comparator that calls everything equal leaves the order as it was. */
  lemma {:induction false} SortAllEqual<T(!new)>(s: seq<T>, cmp: (T, T) -> int)
    requires forall a, b :: a in s && b in s ==> cmp(a, b) == 0
    ensures Sort(s, cmp) == s
  {
    if s != [] {
      assert forall y :: y in s[1..] ==> y in s;
      SortAllEqual(s[1..], cmp);
    }
  }
}
