/** The order of Go strings and the effect of sort.Strings. */
module Ordering {

  /** Lexicographic order, as Go's <= on strings. */
  predicate Leq(a: string, b: string) {
    a == "" || (b != "" && (a[0] < b[0] || (a[0] == b[0] && Leq(a[1..], b[1..]))))
  }

  /** The order meant: a is a beginning of b, or has the smaller character where they first differ. */
  lemma {:induction false} LeqIsLexicographic(a: string, b: string)
    ensures Leq(a, b) <==> a <= b || exists i :: SmallerAt(a, b, i)
  {
    if a != "" && b != "" {
      var x, y := a[1..], b[1..];
      assert a == [a[0]] + x && b == [b[0]] + y;
      if a[0] == b[0] {
        LeqIsLexicographic(x, y);
        forall i ensures SmallerAt(x, y, i) <==> i >= 0 && SmallerAt(a, b, i + 1) {
          if 0 <= i < |x| && i < |y| {
            assert a[..i + 1] == [a[0]] + x[..i] && b[..i + 1] == [b[0]] + y[..i];
            assert a[..i + 1][1..] == x[..i] && b[..i + 1][1..] == y[..i];
          }
        }
        assert forall i | SmallerAt(a, b, i) :: i > 0 && SmallerAt(x, y, i - 1);
        assert a <= b <==> x <= y;
      } else {
        assert SmallerAt(a, b, 0) <==> a[0] as int < b[0] as int;
        assert forall i | SmallerAt(a, b, i) && i > 0 :: a[..i][0] == b[..i][0];
      }
    }
  }

  predicate SmallerAt(a: string, b: string, i: int) {
    0 <= i < |a| && i < |b| && a[..i] == b[..i] && a[i] as int < b[i] as int
  }

  lemma Total(a: string, b: string)
    ensures Leq(a, b) || Leq(b, a)
  {
  }

  lemma {:induction false} Antisymmetric(a: string, b: string)
    requires Leq(a, b) && Leq(b, a)
    ensures a == b
  {
    if a != "" {
      Antisymmetric(a[1..], b[1..]);
      assert a == [a[0]] + a[1..] && b == [b[0]] + b[1..];
    }
  }

  lemma {:induction false} Transitive(a: string, b: string, c: string)
    requires Leq(a, b) && Leq(b, c)
    ensures Leq(a, c)
  {
    if a != "" && a[0] == b[0] == c[0] {
      Transitive(a[1..], b[1..], c[1..]);
    }
  }

  predicate Ascending(s: seq<string>) {
    forall i, j | 0 <= i < j < |s| :: Leq(s[i], s[j])
  }

  function Insert(x: string, s: seq<string>): (r: seq<string>)
    ensures multiset(r) == multiset(s) + multiset{x}
  {
    if s == [] then [x]
    else if Leq(x, s[0]) then [x] + s
    else
      assert s == [s[0]] + s[1..];
      [s[0]] + Insert(x, s[1..])
  }

  /** The ascending arrangement of s; SortedUnique shows there is only one. */
  function Sort(s: seq<string>): (r: seq<string>)
    ensures multiset(r) == multiset(s)
    ensures |r| == |s|
  {
    if s == [] then []
    else
      assert s == [s[0]] + s[1..];
      var r := Insert(s[0], Sort(s[1..]));
      assert |multiset(r)| == |r|;
      r
  }

  lemma {:induction false} InsertAscending(x: string, s: seq<string>)
    requires Ascending(s)
    ensures Ascending(Insert(x, s))
  {
    if s != [] {
      if Leq(x, s[0]) {
        forall j | 0 <= j < |s| ensures Leq(x, s[j]) {
          if j > 0 { Transitive(x, s[0], s[j]); }
        }
      } else {
        Total(x, s[0]);
        InsertAscending(x, s[1..]);
        var r := Insert(x, s[1..]);
        forall y | y in r ensures Leq(s[0], y) {
          assert y in multiset(r);
          assert y == x || y in s[1..];
        }
      }
    }
  }

  lemma {:induction false} SortAscending(s: seq<string>)
    ensures Ascending(Sort(s))
  {
    if s != [] {
      SortAscending(s[1..]);
      InsertAscending(s[0], Sort(s[1..]));
    }
  }

  lemma LeastIsHead(a: seq<string>, x: string)
    requires Ascending(a) && x in a
    ensures Leq(a[0], x)
  {
    Reflexive(x);
  }

  lemma TailMultiset(a: seq<string>)
    requires a != []
    ensures multiset(a[1..]) == multiset(a) - multiset{a[0]}
    ensures a == [a[0]] + a[1..]
  {
    assert a == [a[0]] + a[1..];
  }

  lemma SameMembers<T>(a: seq<T>, b: seq<T>)
    requires multiset(a) == multiset(b)
    ensures |a| == |b|
    ensures forall x :: x in a <==> x in b
  {
    assert |a| == |multiset(a)| && |b| == |multiset(b)|;
    forall x ensures x in a <==> x in b {
      assert x in a <==> x in multiset(a);
      assert x in b <==> x in multiset(b);
    }
  }

  /** A multiset of strings has one ascending arrangement. */
  lemma {:induction false} SortedUnique(a: seq<string>, b: seq<string>)
    requires Ascending(a) && Ascending(b)
    requires multiset(a) == multiset(b)
    ensures a == b
  {
    SameMembers(a, b);
    if a != [] {
      LeastIsHead(a, b[0]);
      LeastIsHead(b, a[0]);
      Antisymmetric(a[0], b[0]);
      TailMultiset(a);
      TailMultiset(b);
      SortedUnique(a[1..], b[1..]);
    }
  }

  lemma Reflexive(a: string)
    ensures Leq(a, a)
  {
  }

  /** Sorting erases the order of its input, and nothing else. */
  lemma SortCanonical(a: seq<string>, b: seq<string>)
    ensures Sort(a) == Sort(b) <==> multiset(a) == multiset(b)
  {
    SortAscending(a);
    SortAscending(b);
    if multiset(a) == multiset(b) {
      SortedUnique(Sort(a), Sort(b));
    }
  }

  /** sort.Strings: in place, ascending, same elements. */
  method SortStrings(a: array<string>)
    modifies a
    ensures a[..] == Sort(old(a[..]))
  {
    ghost var s := a[..];
    var n := 0;
    while n < a.Length
      invariant 0 <= n <= a.Length
      invariant Ascending(a[..n])
      invariant multiset(a[..]) == multiset(s)
    {
      InsertLast(a, n);
      n := n + 1;
    }
    assert a[..n] == a[..];
    SortAscending(s);
    SortedUnique(a[..], Sort(s));
  }

  /** One pass of the sort: inserts a[n] in its place among a[..n]. */
  method InsertLast(a: array<string>, n: nat)
    requires n < a.Length && Ascending(a[..n])
    modifies a
    ensures Ascending(a[..n + 1])
    ensures multiset(a[..]) == multiset(old(a[..]))
  {
    var r := Insert(a[n], a[..n]);
    InsertAscending(a[n], a[..n]);
    ghost var s := a[..];
    assert s == s[..n] + [s[n]] + s[n + 1..];
    assert |multiset(r)| == |r|;
    forall i | 0 <= i <= n { a[i] := r[i]; }
    assert a[..n + 1] == r;
    assert a[..] == r + s[n + 1..];
  }
}
