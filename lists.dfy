/** `Array.prototype.filter` and the `filter(...).length` counts that every view
    of the board is built from. */
module Lists {

  /** `s.filter(p)`. */
  function Filter<T(==,!new)>(s: seq<T>, p: T -> bool): (r: seq<T>)
    ensures |r| <= |s|
    ensures forall x :: x in r <==> x in s && p(x)
    ensures forall x {:trigger multiset(r)[x]} :: multiset(r)[x] == if p(x) then multiset(s)[x] else 0
    ensures Subsequence(r, s)
  {
    if s == [] then []
    else
      var rest := Filter(s[1..], p);
      assert s == [s[0]] + s[1..];
      if p(s[0]) then [s[0]] + rest else SubsequenceSkip(rest, s); rest
  }

  /** `a` is `b` with some elements left out and the rest kept in order. */
  predicate Subsequence<T(==,!new)>(a: seq<T>, b: seq<T>)
    decreases |b|
  {
    a == [] || (|b| > 0 && ((a[0] == b[0] && Subsequence(a[1..], b[1..])) || Subsequence(a, b[1..])))
  }

  lemma SubsequenceSkip<T(!new)>(a: seq<T>, b: seq<T>)
    requires |b| > 0 && Subsequence(a, b[1..])
    ensures Subsequence(a, b)
  {
  }

  /** A subsequence is no longer than the list it was taken from. */
  lemma {:induction false} SubsequenceLength<T(!new)>(a: seq<T>, b: seq<T>)
    requires Subsequence(a, b)
    ensures |a| <= |b|
    decreases |b|
  {
    if a != [] {
      if a[0] == b[0] && Subsequence(a[1..], b[1..]) {
        SubsequenceLength(a[1..], b[1..]);
      } else {
        SubsequenceLength(a, b[1..]);
      }
    }
  }

  /** `s.filter(p).length`. */
  function Count<T(==,!new)>(s: seq<T>, p: T -> bool): nat
  {
    |Filter(s, p)|
  }

  lemma CountCons<T(!new)>(s: seq<T>, p: T -> bool)
    requires s != []
    ensures Count(s, p) == Count(s[1..], p) + (if p(s[0]) then 1 else 0)
  {
  }

  /** Three mutually exclusive tests count at most `|s|` elements together, and
      exactly `|s|` when every element passes one of them. */
  lemma {:induction false} CountThree<T(!new)>(s: seq<T>, p: T -> bool, q: T -> bool, r: T -> bool)
    requires forall x :: x in s ==> !(p(x) && q(x)) && !(p(x) && r(x)) && !(q(x) && r(x))
    ensures Count(s, p) + Count(s, q) + Count(s, r) <= |s|
    ensures Count(s, p) + Count(s, q) + Count(s, r) == |s| <==> forall x :: x in s ==> p(x) || q(x) || r(x)
  {
    if s != [] {
      CountCons(s, p);
      CountCons(s, q);
      CountCons(s, r);
      assert forall x :: x in s[1..] ==> x in s;
      CountThree(s[1..], p, q, r);
      if forall x :: x in s ==> p(x) || q(x) || r(x) {
        assert forall x :: x in s[1..] ==> p(x) || q(x) || r(x);
      }
      if !(forall x :: x in s ==> p(x) || q(x) || r(x)) {
        var x :| x in s && !(p(x) || q(x) || r(x));
        if x != s[0] {
          assert x in s[1..];
        }
      }
    }
  }

  /** A test that implies another counts no more elements. */
  lemma {:induction false} CountMonotonic<T(!new)>(s: seq<T>, p: T -> bool, q: T -> bool)
    requires forall x :: x in s && p(x) ==> q(x)
    ensures Count(s, p) <= Count(s, q)
  {
    if s != [] {
      CountCons(s, p);
      CountCons(s, q);
      assert forall x :: x in s[1..] ==> x in s;
      CountMonotonic(s[1..], p, q);
    }
  }
}
