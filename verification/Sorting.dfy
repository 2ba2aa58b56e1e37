/** Sorted listings. `Ascending` is the specification of `sets.List`; its uniqueness is what
    makes results independent of Go's randomised map iteration. */
module Sorting {
  import opened Text

  ghost predicate SortedBy<T(!new)>(before: (T, T) -> bool, s: seq<T>) {
    forall i, j :: 0 <= i < j < |s| ==> before(s[i], s[j])
  }

  ghost predicate Asymmetric<T(!new)>(before: (T, T) -> bool) {
    forall x, y :: before(x, y) ==> !before(y, x)
  }

  /** Two lists of the same elements, both sorted by the same asymmetric relation, are equal. */
  lemma {:induction false} SortedUnique<T(!new)>(before: (T, T) -> bool, a: seq<T>, b: seq<T>)
    requires Asymmetric(before) && SortedBy(before, a) && SortedBy(before, b)
    requires forall x :: x in a <==> x in b
    ensures a == b
  {
    assert a != [] ==> a[0] in b;
    assert b != [] ==> b[0] in a;
    if a != [] {
      assert a == [a[0]] + a[1..] && b == [b[0]] + b[1..];
      forall x
        ensures x in a[1..] <==> x in b[1..]
      {
        TailMembers(before, a, x);
        TailMembers(before, b, x);
      }
      SortedUnique(before, a[1..], b[1..]);
    }
  }

  lemma TailMembers<T(!new)>(before: (T, T) -> bool, a: seq<T>, x: T)
    requires a != [] && Asymmetric(before) && SortedBy(before, a)
    ensures x in a[1..] <==> x in a && x != a[0]
  {
    assert !before(a[0], a[0]);
  }

  lemma LessIsAsymmetric()
    ensures Asymmetric(Less)
  {
    forall x, y | Less(x, y)
      ensures !Less(y, x)
    {
      LessAsymmetric(x, y);
    }
  }

  ghost predicate StrictlyAscending(s: seq<string>) {
    SortedBy(Less, s)
  }

  /** Two strictly ascending lists of the same strings are the same list. */
  lemma AscendingUnique(a: seq<string>, b: seq<string>)
    requires StrictlyAscending(a) && StrictlyAscending(b)
    requires forall x :: x in a <==> x in b
    ensures a == b
  {
    LessIsAsymmetric();
    SortedUnique(Less, a, b);
  }

  ghost predicate IsLeast(m: string, s: set<string>) {
    m in s && forall x :: x in s && x != m ==> Less(m, x)
  }

  lemma {:induction false} LeastExists(s: set<string>)
    requires s != {}
    ensures exists m :: IsLeast(m, s)
  {
    var y :| y in s;
    if s == {y} {
      assert IsLeast(y, s);
    } else {
      LeastExists(s - {y});
      var m :| IsLeast(m, s - {y});
      LessTotal(m, y);
      if Less(m, y) {
        assert IsLeast(m, s);
      } else {
        forall x | x in s && x != y
          ensures Less(y, x)
        {
          if x != m {
            LessTransitive(y, m, x);
          }
        }
        assert IsLeast(y, s);
      }
    }
  }

  /** `sets.List`: the members of a set in ascending order. */
  ghost function Ascending(s: set<string>): (l: seq<string>)
    ensures StrictlyAscending(l)
    ensures forall x :: x in l <==> x in s
    ensures |l| == |s|
  {
    if s == {} then
      []
    else
      LeastExists(s);
      var m :| IsLeast(m, s);
      [m] + Ascending(s - {m})
  }

  /** Go's `sets.List`. The iteration order over the set is arbitrary; the result is not. */
  method SortedList(s: set<string>) returns (l: seq<string>)
    ensures l == Ascending(s)
    ensures forall x :: x in l <==> x in s
    ensures forall i, j :: 0 <= i < j < |l| ==> Less(l[i], l[j])
  {
    l := [];
    var todo := s;
    while todo != {}
      invariant todo <= s
      invariant StrictlyAscending(l)
      invariant forall x :: x in l <==> x in s - todo
    {
      var x :| x in todo;
      l := InsertString(l, x);
      todo := todo - {x};
    }
    AscendingUnique(l, Ascending(s));
  }

  method InsertString(l: seq<string>, x: string) returns (r: seq<string>)
    requires StrictlyAscending(l) && x !in l
    ensures StrictlyAscending(r)
    ensures forall y :: y in r <==> y in l || y == x
  {
    hide Less;
    var p := 0;
    while p < |l| && Less(l[p], x)
      invariant 0 <= p <= |l|
      invariant forall i :: 0 <= i < p ==> Less(l[i], x)
    {
      p := p + 1;
    }
    forall i | p <= i < |l|
      ensures Less(x, l[i])
    {
      LessTotal(x, l[p]);
      if i > p {
        LessTransitive(x, l[p], l[i]);
      }
    }
    r := l[..p] + [x] + l[p..];
    assert forall y :: y in l <==> y in l[..p] || y in l[p..];
  }
}
