/** The order the queries and the Python code sort by, and the sorted listing of a set. */
module Ordering {
  /** Lexicographic order on code units. */
  predicate StringLe(a: string, b: string) {
    a == [] || (b != [] && (a[0] < b[0] || (a[0] == b[0] && StringLe(a[1..], b[1..]))))
  }

  predicate PairLe(a: (string, string), b: (string, string)) {
    if a.0 == b.0 then StringLe(a.1, b.1) else StringLe(a.0, b.0)
  }

  lemma {:induction false} StringLeTotal(a: string, b: string)
    ensures StringLe(a, b) || StringLe(b, a)
    ensures StringLe(a, b) && StringLe(b, a) ==> a == b
  {
    if a != [] && b != [] && a[0] == b[0] {
      StringLeTotal(a[1..], b[1..]);
      assert a == [a[0]] + a[1..] && b == [b[0]] + b[1..];
    }
  }

  lemma {:induction false} StringLeTransitive(a: string, b: string, c: string)
    requires StringLe(a, b) && StringLe(b, c)
    ensures StringLe(a, c)
  {
    if a != [] && a[0] == b[0] == c[0] {
      StringLeTransitive(a[1..], b[1..], c[1..]);
    }
  }

  lemma PairLeTotal(a: (string, string), b: (string, string))
    ensures PairLe(a, b) || PairLe(b, a)
    ensures PairLe(a, b) && PairLe(b, a) ==> a == b
  {
    StringLeTotal(a.0, b.0);
    StringLeTotal(a.1, b.1);
  }

  lemma PairLeTransitive(a: (string, string), b: (string, string), c: (string, string))
    requires PairLe(a, b) && PairLe(b, c)
    ensures PairLe(a, c)
  {
    if a.0 == b.0 == c.0 {
      StringLeTransitive(a.1, b.1, c.1);
    } else if a.0 != b.0 && b.0 != c.0 {
      StringLeTransitive(a.0, b.0, c.0);
      StringLeTotal(a.0, b.0);
    }
  }

  predicate IsLeastString(m: string, s: set<string>) {
    m in s && forall x :: x in s ==> StringLe(m, x)
  }

  lemma LeastStringExists(s: set<string>)
    requires s != {}
    ensures exists m :: IsLeastString(m, s)
  {
    var y :| y in s;
    StringLeTotal(y, y);
    if s == {y} {
      assert IsLeastString(y, s);
    } else {
      var rest := s - {y};
      LeastStringExists(rest);
      var m :| IsLeastString(m, rest);
      StringLeTotal(y, m);
      if StringLe(m, y) {
        assert IsLeastString(m, s);
      } else {
        forall x | x in s
          ensures StringLe(y, x)
        {
          if x != y {
            StringLeTransitive(y, m, x);
          }
        }
        assert IsLeastString(y, s);
      }
    }
  }

  ghost function LeastString(s: set<string>): (m: string)
    requires s != {}
    ensures IsLeastString(m, s)
  {
    LeastStringExists(s);
    var m :| IsLeastString(m, s);
    m
  }

  predicate IsLeastPair(m: (string, string), s: set<(string, string)>) {
    m in s && forall x :: x in s ==> PairLe(m, x)
  }

  lemma LeastPairExists(s: set<(string, string)>)
    requires s != {}
    ensures exists m :: IsLeastPair(m, s)
  {
    var y :| y in s;
    PairLeTotal(y, y);
    if s == {y} {
      assert IsLeastPair(y, s);
    } else {
      var rest := s - {y};
      LeastPairExists(rest);
      var m :| IsLeastPair(m, rest);
      PairLeTotal(y, m);
      if PairLe(m, y) {
        assert IsLeastPair(m, s);
      } else {
        forall x | x in s
          ensures PairLe(y, x)
        {
          if x != y {
            PairLeTransitive(y, m, x);
          }
        }
        assert IsLeastPair(y, s);
      }
    }
  }

  ghost function LeastPair(s: set<(string, string)>): (m: (string, string))
    requires s != {}
    ensures IsLeastPair(m, s)
  {
    LeastPairExists(s);
    var m :| IsLeastPair(m, s);
    m
  }

  ghost predicate StringsAscend(xs: seq<string>) {
    forall i, j :: 0 <= i < j < |xs| ==> StringLe(xs[i], xs[j])
  }

  ghost predicate PairsAscend(xs: seq<(string, string)>) {
    forall i, j :: 0 <= i < j < |xs| ==> PairLe(xs[i], xs[j])
  }

  /** The same elements, each once. */
  ghost predicate Lists<T(!new)>(xs: seq<T>, s: set<T>) {
    && |xs| == |s|
    && (forall x :: x in xs <==> x in s)
    && (forall i, j :: 0 <= i < j < |xs| ==> xs[i] != xs[j])
  }

  lemma ConsLists<T(!new)>(x: T, xs: seq<T>, s: set<T>)
    requires x in s && Lists(xs, s - {x})
    ensures Lists([x] + xs, s)
  {
    assert forall i :: 0 <= i < |xs| ==> xs[i] in xs;
  }

  /** A set of transaction ids in ascending order. */
  ghost function SortedStrings(s: set<string>): seq<string> {
    if s == {} then [] else [LeastString(s)] + SortedStrings(s - {LeastString(s)})
  }

  lemma {:induction false} StringsListed(s: set<string>)
    ensures Lists(SortedStrings(s), s)
    ensures StringsAscend(SortedStrings(s))
  {
    if s != {} {
      var m := LeastString(s);
      StringsListed(s - {m});
      var rest := SortedStrings(s - {m});
      ConsLists(m, rest, s);
      var xs := [m] + rest;
      assert xs == SortedStrings(s);
      forall i, j | 0 <= i < j < |xs|
        ensures StringLe(xs[i], xs[j])
      {
        if i == 0 {
          assert xs[j] in xs;
        } else {
          assert xs[i] == rest[i - 1] && xs[j] == rest[j - 1];
        }
      }
    }
  }

  /** A set of edges in ascending order. */
  ghost function SortedPairs(s: set<(string, string)>): seq<(string, string)> {
    if s == {} then [] else [LeastPair(s)] + SortedPairs(s - {LeastPair(s)})
  }

  lemma {:induction false} PairsListed(s: set<(string, string)>)
    ensures Lists(SortedPairs(s), s)
    ensures PairsAscend(SortedPairs(s))
  {
    if s != {} {
      var m := LeastPair(s);
      PairsListed(s - {m});
      var rest := SortedPairs(s - {m});
      ConsLists(m, rest, s);
      var xs := [m] + rest;
      assert xs == SortedPairs(s);
      forall i, j | 0 <= i < j < |xs|
        ensures PairLe(xs[i], xs[j])
      {
        if i == 0 {
          assert xs[j] in xs;
        } else {
          assert xs[i] == rest[i - 1] && xs[j] == rest[j - 1];
        }
      }
    }
  }

  method SortStrings(s: set<string>) returns (xs: seq<string>)
    ensures xs == SortedStrings(s)
  {
    xs := [];
    var rest := s;
    while rest != {}
      invariant xs + SortedStrings(rest) == SortedStrings(s)
      decreases rest
    {
      var m := FindLeastString(rest);
      assert xs + ([m] + SortedStrings(rest - {m})) == (xs + [m]) + SortedStrings(rest - {m});
      xs := xs + [m];
      rest := rest - {m};
    }
  }

  method FindLeastString(s: set<string>) returns (m: string)
    requires s != {}
    ensures m == LeastString(s)
  {
    LeastStringExists(s);
    m :| m in s && IsLeastString(m, s);
    StringLeTotal(m, LeastString(s));
  }

  method SortPairs(s: set<(string, string)>) returns (xs: seq<(string, string)>)
    ensures xs == SortedPairs(s)
  {
    xs := [];
    var rest := s;
    while rest != {}
      invariant xs + SortedPairs(rest) == SortedPairs(s)
      decreases rest
    {
      var m := FindLeastPair(rest);
      assert xs + ([m] + SortedPairs(rest - {m})) == (xs + [m]) + SortedPairs(rest - {m});
      xs := xs + [m];
      rest := rest - {m};
    }
  }

  method FindLeastPair(s: set<(string, string)>) returns (m: (string, string))
    requires s != {}
    ensures m == LeastPair(s)
  {
    LeastPairExists(s);
    m :| m in s && IsLeastPair(m, s);
    PairLeTotal(m, LeastPair(s));
  }

  /** The least elements of a set, in order, as many as there are up to the limit. */
  ghost predicate AreLeastPairs(xs: seq<(string, string)>, s: set<(string, string)>, limit: nat) {
    && |xs| == (if |s| <= limit then |s| else limit)
    && PairsAscend(xs)
    && (forall i, j :: 0 <= i < j < |xs| ==> xs[i] != xs[j])
    && (forall x :: x in xs ==> x in s)
    && (forall x, y :: x in xs && y in s && y !in xs ==> PairLe(x, y))
  }

  lemma PrefixIsLeast(s: set<(string, string)>, limit: nat)
    ensures var all := SortedPairs(s);
            AreLeastPairs(if |all| <= limit then all else all[..limit], s, limit)
  {
    var all := SortedPairs(s);
    PairsListed(s);
    hide SortedPairs, PairLe;
    var xs := if |all| <= limit then all else all[..limit];
    forall x, y | x in xs && y in s && y !in xs
      ensures PairLe(x, y)
    {
      var i :| 0 <= i < |xs| && xs[i] == x;
      var j :| 0 <= j < |all| && all[j] == y;
      assert j >= |xs|;
    }
  }
}
