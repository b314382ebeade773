/**
 * Row and column labels of the spend matrix. The pivot table indexes its rows by
 * user identifier and its columns by merchant name, each label once, in
 * ascending order. Labels are strings compared code point by code point, as
 * Python compares `str` values.
 */
module Labels {
  import opened Options

  /** Strict lexicographic order on strings: x is a proper prefix of y, or x is smaller at the first difference. */
  predicate Below(x: string, y: string)
  {
    |y| > 0 && (|x| == 0 || x[0] < y[0] || (x[0] == y[0] && Below(x[1..], y[1..])))
  }

  lemma {:induction false} BelowIrreflexive(x: string)
    ensures !Below(x, x)
  {
    if |x| > 0 {
      BelowIrreflexive(x[1..]);
    }
  }

  lemma {:induction false} BelowTransitive(x: string, y: string, z: string)
    requires Below(x, y) && Below(y, z)
    ensures Below(x, z)
  {
    if |x| > 0 && x[0] == y[0] && y[0] == z[0] {
      BelowTransitive(x[1..], y[1..], z[1..]);
    }
  }

  /** Any two different strings are ordered one way or the other. */
  lemma {:induction false} BelowTotal(x: string, y: string)
    ensures x == y || Below(x, y) || Below(y, x)
  {
    if |x| > 0 && |y| > 0 && x[0] == y[0] {
      BelowTotal(x[1..], y[1..]);
      if x[1..] == y[1..] {
        assert x == [x[0]] + x[1..] && y == [y[0]] + y[1..];
      }
    }
  }

  /** No string is below one that is below it. */
  lemma BelowAsymmetric(x: string, y: string)
    requires Below(x, y)
    ensures !Below(y, x)
  {
    if Below(y, x) {
      BelowTransitive(x, y, x);
      BelowIrreflexive(x);
    }
  }

  /** The values occurring in s. */
  function Elements(s: seq<string>): (r: set<string>)
    ensures forall y :: y in r <==> y in s
    ensures |s| == 0 <==> r == {}
  {
    assert |s| > 0 ==> s[0] in s;
    set y | y in s
  }

  /** Strictly ascending, hence every label occurs once. */
  predicate Increasing(s: seq<string>)
  {
    forall i, j :: 0 <= i < j < |s| ==> Below(s[i], s[j])
  }

  /** No value occurs twice. */
  predicate Distinct<T(==)>(s: seq<T>)
  {
    forall i, j :: 0 <= i < j < |s| ==> s[i] != s[j]
  }

  lemma IncreasingDistinct(s: seq<string>)
    requires Increasing(s)
    ensures Distinct(s)
  {
    forall i, j | 0 <= i < j < |s| ensures s[i] != s[j] {
      BelowIrreflexive(s[i]);
    }
  }

  /** x put into its place in an ascending sequence, unless it is there already. */
  function Insert(s: seq<string>, x: string): (r: seq<string>)
    requires Increasing(s)
    ensures Increasing(r)
    ensures Elements(r) == Elements(s) + {x}
  {
    if |s| == 0 then [x]
    else if x == s[0] then s
    else if Below(x, s[0]) then
      BelowAll(x, s);
      [x] + s
    else
      BelowTotal(x, s[0]);
      var t := Insert(s[1..], x);
      AboveHead(s, x, t);
      [s[0]] + t
  }

  /** A string below the head of an ascending sequence is below all of it. */
  lemma BelowAll(x: string, s: seq<string>)
    requires Increasing(s) && |s| > 0 && Below(x, s[0])
    ensures Increasing([x] + s)
  {
    forall j | 0 < j < |s| ensures Below(x, s[j]) {
      BelowTransitive(x, s[0], s[j]);
    }
  }

  /** The head of an ascending sequence, put before an ascending t made of its tail and a larger x, stays ascending. */
  lemma AboveHead(s: seq<string>, x: string, t: seq<string>)
    requires Increasing(s) && |s| > 0 && Below(s[0], x)
    requires Increasing(t) && Elements(t) == Elements(s[1..]) + {x}
    ensures Increasing([s[0]] + t)
    ensures Elements([s[0]] + t) == Elements(s) + {x}
  {
    ElementsCons(s[0], s[1..]);
    assert s == [s[0]] + s[1..];
    ElementsCons(s[0], t);
    forall y | y in t ensures Below(s[0], y) {
      if y != x {
        assert y in Elements(t);
        var j :| 0 <= j < |s[1..]| && s[1..][j] == y;
        assert s[j + 1] == y;
      }
    }
    ConsIncreasing(s[0], t);
  }

  /** The values of h followed by t. */
  lemma ElementsCons(h: string, t: seq<string>)
    ensures Elements([h] + t) == {h} + Elements(t)
  {
  }

  /** h put before an ascending t whose every value is above h gives an ascending sequence. */
  lemma ConsIncreasing(h: string, t: seq<string>)
    requires Increasing(t) && forall y :: y in t ==> Below(h, y)
    ensures Increasing([h] + t)
  {
    var r := [h] + t;
    forall i, j | 0 <= i < j < |r| ensures Below(r[i], r[j]) {
      assert r[j] == t[j - 1];
      if i > 0 {
        assert r[i] == t[i - 1];
      }
    }
  }

  /** The distinct values of xs in ascending order: the label order of the pivot table. */
  function SortedDistinct(xs: seq<string>): (r: seq<string>)
    ensures Increasing(r)
    ensures Elements(r) == Elements(xs)
  {
    if |xs| == 0 then []
    else
      assert Elements(xs) == {xs[0]} + Elements(xs[1..]) by {
        assert xs == [xs[0]] + xs[1..];
      }
      Insert(SortedDistinct(xs[1..]), xs[0])
  }

  /** An ascending sequence is determined by its set of values. */
  lemma {:induction false} IncreasingUnique(s: seq<string>, t: seq<string>)
    requires Increasing(s) && Increasing(t) && Elements(s) == Elements(t)
    ensures s == t
  {
    if |s| == 0 {
      assert |t| == 0;
    } else {
      assert s[0] in Elements(t);
      assert |t| > 0;
      assert t[0] in Elements(s);
      var k :| 0 <= k < |t| && t[k] == s[0];
      var i :| 0 <= i < |s| && s[i] == t[0];
      if k > 0 {
        if i > 0 {
          BelowAsymmetric(s[0], s[i]);
        } else {
          BelowIrreflexive(s[0]);
        }
      }
      assert s[0] == t[0];
      RestOfIncreasing(s);
      RestOfIncreasing(t);
      IncreasingUnique(s[1..], t[1..]);
      assert s == [s[0]] + s[1..] && t == [t[0]] + t[1..];
    }
  }

  /** The tail of an ascending sequence holds exactly the values other than its head. */
  lemma RestOfIncreasing(s: seq<string>)
    requires Increasing(s) && |s| > 0
    ensures Increasing(s[1..])
    ensures Elements(s[1..]) == Elements(s) - {s[0]}
  {
    assert s == [s[0]] + s[1..];
    forall y | y in s[1..] ensures y != s[0] {
      var j :| 0 <= j < |s[1..]| && s[1..][j] == y;
      assert s[j + 1] == y;
      BelowIrreflexive(s[0]);
    }
  }

  /** The position of the first occurrence of x in s, if there is one. */
  function IndexOf<T(==)>(s: seq<T>, x: T): (r: Option<nat>)
    ensures r.None? <==> x !in s
    ensures r.Some? ==> r.value < |s| && s[r.value] == x && x !in s[..r.value]
  {
    if |s| == 0 then None
    else if s[0] == x then Some(0)
    else
      match IndexOf(s[1..], x)
      case None => None
      case Some(i) =>
        assert s[..i + 1] == [s[0]] + s[1..][..i];
        Some(i + 1)
  }

  /** In a sequence without repeats, looking up the value at a position gives that position back. */
  lemma IndexOfDistinct<T>(s: seq<T>, k: nat)
    requires Distinct(s) && k < |s|
    ensures IndexOf(s, s[k]) == Some(k)
  {
  }
}
