/** Sequences without repetitions, and counting the elements that have a property. */
module Lists {

  ghost predicate NoDup<T>(s: seq<T>) {
    forall i, j :: 0 <= i < j < |s| ==> s[i] != s[j]
  }

  function IndexOf<T(==)>(s: seq<T>, x: T): (i: nat)
    requires x in s
    ensures i < |s| && s[i] == x && x !in s[..i]
  {
    if s[0] == x then 0 else 1 + IndexOf(s[1..], x)
  }

  function Minus<T(==)>(s: seq<T>, x: T): (r: seq<T>)
    ensures x !in s ==> r == s
    ensures x in s ==> |r| == |s| - 1
    ensures forall y :: y in r ==> y in s
    ensures forall y :: y in s && y != x ==> y in r
  {
    if x in s then
      var i := IndexOf(s, x);
      assert forall y :: y in s && y != x ==> y in s[..i] || y in s[i + 1..];
      s[..i] + s[i + 1..]
    else s
  }

  function InsertAt<T>(s: seq<T>, i: nat, x: T): (r: seq<T>)
    requires i <= |s|
    ensures |r| == |s| + 1 && r[i] == x
    ensures forall y :: y in r ==> y == x || y in s
    ensures forall y :: y in s ==> y in r
  {
    assert s == s[..i] + s[i..];
    s[..i] + [x] + s[i..]
  }

  function Filter<T>(s: seq<T>, p: T -> bool): (r: seq<T>)
    ensures |r| <= |s|
  {
    if s == [] then [] else (if p(s[0]) then [s[0]] else []) + Filter(s[1..], p)
  }

  function Count<T>(s: seq<T>, p: T -> bool): (n: nat)
    ensures n <= |s|
  {
    if s == [] then 0 else (if p(s[0]) then 1 else 0) + Count(s[1..], p)
  }

  lemma {:induction false} IndexOfIs<T>(s: seq<T>, x: T, j: nat)
    requires j < |s| && s[j] == x && x !in s[..j]
    ensures IndexOf(s, x) == j
  {
    if 0 < j {
      assert s[0] in s[..j] && s[..j][1..] == s[1..][..j - 1];
      IndexOfIs(s[1..], x, j - 1);
    }
  }

  lemma {:induction false} MinusMiddle<T>(s: seq<T>, x: T, t: seq<T>)
    requires x !in s
    ensures Minus(s + [x] + t, x) == s + t
  {
    var u := s + [x] + t;
    assert u[..|s|] == s && u[|s| + 1..] == t;
    IndexOfIs(u, x, |s|);
  }

  lemma {:induction false} MinusIsDistinct<T>(s: seq<T>, x: T)
    requires NoDup(s)
    ensures NoDup(Minus(s, x)) && x !in Minus(s, x)
  {
    if x in s {
      var i, r := IndexOf(s, x), Minus(s, x);
      assert r == s[..i] + s[i + 1..];
      hide Minus, IndexOf;
      forall k | 0 <= k < |r| ensures r[k] == s[if k < i then k else k + 1] && r[k] != s[i] {
        assert r[k] == if k < i then s[k] else s[i + 1..][k - i];
      }
    }
  }

  lemma {:induction false} InsertIsDistinct<T>(s: seq<T>, i: nat, x: T)
    requires NoDup(s) && i <= |s| && x !in s
    ensures NoDup(InsertAt(s, i, x))
  {
    var r := InsertAt(s, i, x);
    assert forall k :: 0 <= k < |r| && k != i ==> r[k] == s[if k < i then k else k - 1];
  }

  lemma {:induction false} CountConcat<T>(s: seq<T>, t: seq<T>, p: T -> bool)
    ensures Count(s + t, p) == Count(s, p) + Count(t, p)
  {
    if s == [] {
      assert s + t == t;
    } else {
      CountConcat(s[1..], t, p);
      assert (s + t)[1..] == s[1..] + t;
    }
  }

  lemma {:induction false} CountMinus<T>(s: seq<T>, x: T, p: T -> bool)
    requires x in s
    ensures Count(s, p) == Count(Minus(s, x), p) + if p(x) then 1 else 0
  {
    var i := IndexOf(s, x);
    assert s == s[..i] + ([x] + s[i + 1..]);
    CountConcat(s[..i], [x] + s[i + 1..], p);
    CountConcat([x], s[i + 1..], p);
    CountConcat(s[..i], s[i + 1..], p);
  }

  lemma {:induction false} CountInsert<T>(s: seq<T>, i: nat, x: T, p: T -> bool)
    requires i <= |s|
    ensures Count(InsertAt(s, i, x), p) == Count(s, p) + if p(x) then 1 else 0
  {
    assert s == s[..i] + s[i..];
    CountConcat(s[..i], s[i..], p);
    CountConcat(s[..i] + [x], s[i..], p);
    CountConcat(s[..i], [x], p);
  }

  /** Counting only looks at the elements. */
  lemma {:induction false} CountSame<T>(s: seq<T>, p: T -> bool, q: T -> bool)
    requires forall x :: x in s ==> p(x) == q(x)
    ensures Count(s, p) == Count(s, q)
  {
    if s != [] {
      CountSame(s[1..], p, q);
    }
  }

  /** Two properties that differ at one element of a list without repetitions. */
  lemma {:induction false} CountFlip<T>(s: seq<T>, x: T, p: T -> bool, q: T -> bool)
    requires NoDup(s) && x in s
    requires forall y :: y in s && y != x ==> p(y) == q(y)
    ensures Count(s, q) + (if p(x) then 1 else 0) == Count(s, p) + if q(x) then 1 else 0
  {
    MinusIsDistinct(s, x);
    CountMinus(s, x, p);
    CountMinus(s, x, q);
    CountSame(Minus(s, x), p, q);
  }

  lemma {:induction false} CountNone<T>(s: seq<T>, p: T -> bool)
    ensures Count(s, p) == 0 <==> forall x :: x in s ==> !p(x)
  {
    if s != [] {
      CountNone(s[1..], p);
      assert forall x :: x in s <==> x == s[0] || x in s[1..];
    }
  }

  lemma {:induction false} FilterMembers<T>(s: seq<T>, p: T -> bool)
    ensures forall x :: x in Filter(s, p) <==> x in s && p(x)
  {
    if s != [] {
      FilterMembers(s[1..], p);
      assert forall x :: x in s <==> x == s[0] || x in s[1..];
    }
  }

  lemma {:induction false} FilterConcat<T>(s: seq<T>, t: seq<T>, p: T -> bool)
    ensures Filter(s + t, p) == Filter(s, p) + Filter(t, p)
  {
    if s == [] {
      assert s + t == t;
    } else {
      var head := if p(s[0]) then [s[0]] else [];
      assert (s + t)[1..] == s[1..] + t;
      FilterConcat(s[1..], t, p);
      assert Filter(s + t, p) == head + Filter(s[1..] + t, p);
    }
  }

  lemma {:induction false} FilterSame<T>(s: seq<T>, p: T -> bool, q: T -> bool)
    requires forall x :: x in s ==> p(x) == q(x)
    ensures Filter(s, p) == Filter(s, q)
  {
    if s != [] {
      FilterSame(s[1..], p, q);
    }
  }

  lemma {:induction false} FilterIsDistinct<T>(s: seq<T>, p: T -> bool)
    requires NoDup(s)
    ensures NoDup(Filter(s, p))
  {
    if s != [] {
      assert forall i :: 0 <= i < |s| - 1 ==> s[1..][i] == s[i + 1];
      FilterIsDistinct(s[1..], p);
      FilterMembers(s[1..], p);
      assert s[0] !in s[1..];
    }
  }

  lemma {:induction false} FilterAll<T>(s: seq<T>, p: T -> bool)
    requires forall x :: x in s ==> p(x)
    ensures Filter(s, p) == s
  {
    if s != [] {
      FilterAll(s[1..], p);
    }
  }

  ghost function Elements<T>(s: seq<T>): set<T> {
    set x | x in s
  }

  lemma ElementsHead<T>(s: seq<T>)
    requires s != []
    ensures Elements(s) == Elements(s[1..]) + {s[0]} && Elements(s[..0]) == {}
  {
    assert forall x :: x in s <==> x == s[0] || x in s[1..];
  }

  /** Taking out what a filter does not let pass. */
  lemma FilterOut<T>(s: seq<T>, x: T, p: T -> bool)
    requires x in s && !p(x)
    ensures Filter(Minus(s, x), p) == Filter(s, p)
  {
    var i := IndexOf(s, x);
    assert s == s[..i] + ([x] + s[i + 1..]);
    FilterConcat(s[..i], [x] + s[i + 1..], p);
    FilterConcat([x], s[i + 1..], p);
    FilterConcat(s[..i], s[i + 1..], p);
  }
}
