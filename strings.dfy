/**
 * String helpers the core relies on: case mapping (`str.lower`, `str.upper`,
 * restricted to ASCII letters) and the ordering `sorted` uses for strings
 * (lexicographic by code point, a proper prefix first), with strictly sorted
 * sequences as the canonical listing of a set of strings.
 */
module Strings {

  function LowerChar(c: char): char
  {
    if 'A' <= c <= 'Z' then (c as int + 32) as char else c
  }

  function UpperChar(c: char): char
  {
    if 'a' <= c <= 'z' then (c as int - 32) as char else c
  }

  function Lower(s: string): (r: string)
    ensures |r| == |s|
    ensures forall i :: 0 <= i < |s| ==> r[i] == LowerChar(s[i])
  {
    seq(|s|, i requires 0 <= i < |s| => LowerChar(s[i]))
  }

  function Upper(s: string): (r: string)
    ensures |r| == |s|
    ensures forall i :: 0 <= i < |s| ==> r[i] == UpperChar(s[i])
  {
    seq(|s|, i requires 0 <= i < |s| => UpperChar(s[i]))
  }

  /** Lower-casing is idempotent, so a lower-cased key is its own key. */
  lemma LowerIdempotent(s: string)
    ensures Lower(Lower(s)) == Lower(s)
  {
    assert forall i :: 0 <= i < |s| ==> LowerChar(LowerChar(s[i])) == LowerChar(s[i]);
  }

  /** Upper-casing forgets any earlier lower-casing. */
  lemma UpperOfLower(s: string)
    ensures Upper(Lower(s)) == Upper(s)
  {
    assert forall i :: 0 <= i < |s| ==> UpperChar(LowerChar(s[i])) == UpperChar(s[i]);
  }

  /** Lower-casing forgets any earlier upper-casing. */
  lemma LowerOfUpper(s: string)
    ensures Lower(Upper(s)) == Lower(s)
  {
    assert forall i :: 0 <= i < |s| ==> LowerChar(UpperChar(s[i])) == LowerChar(s[i]);
  }

  /** Python's `<` on `str`. */
  predicate Less(a: string, b: string)
  {
    b != [] && (a == [] || a[0] < b[0] || (a[0] == b[0] && Less(a[1..], b[1..])))
  }

  lemma {:induction false} LessIrreflexive(a: string)
    ensures !Less(a, a)
  {
    if a != [] {
      LessIrreflexive(a[1..]);
    }
  }

  lemma {:induction false} LessTransitive(a: string, b: string, c: string)
    requires Less(a, b) && Less(b, c)
    ensures Less(a, c)
  {
    if a != [] && a[0] == b[0] && b[0] == c[0] {
      LessTransitive(a[1..], b[1..], c[1..]);
    }
  }

  lemma {:induction false} LessTotal(a: string, b: string)
    requires a != b
    ensures Less(a, b) || Less(b, a)
  {
    if a != [] && b != [] && a[0] == b[0] {
      assert a == [a[0]] + a[1..] && b == [b[0]] + b[1..];
      LessTotal(a[1..], b[1..]);
    }
  }

  /** Strings that agree up to position `k` and differ there are ordered by that character. */
  lemma {:induction false} LessAt(a: string, b: string, k: nat)
    requires k < |a| && k < |b| && a[..k] == b[..k] && a[k] < b[k]
    ensures Less(a, b)
  {
    if k > 0 {
      assert a[0] == a[..k][0] && b[0] == b[..k][0];
      assert a[1..][..k - 1] == a[..k][1..] && b[1..][..k - 1] == b[..k][1..];
      LessAt(a[1..], b[1..], k - 1);
    }
  }

  lemma LessAsymmetric(a: string, b: string)
    requires Less(a, b)
    ensures !Less(b, a)
  {
    if Less(b, a) {
      LessTransitive(a, b, a);
      LessIrreflexive(a);
    }
  }

  function Elems(s: seq<string>): set<string>
  {
    set x | x in s
  }

  /** Ascending order without repetitions: what `sorted` returns for a set. */
  predicate StrictlySorted(s: seq<string>)
  {
    forall i, j :: 0 <= i < j < |s| ==> Less(s[i], s[j])
  }

  /** Inserts `x` into a strictly sorted sequence at its place. */
  function Insert(s: seq<string>, x: string): (r: seq<string>)
    requires StrictlySorted(s) && x !in s
    ensures StrictlySorted(r)
    ensures Elems(r) == Elems(s) + {x}
    ensures |r| == |s| + 1
  {
    if s == [] then [x]
    else if Less(x, s[0]) then
      InsertFront(s, x);
      [x] + s
    else
      var tail := Insert(s[1..], x);
      InsertBehind(s, x, tail);
      [s[0]] + tail
  }

  /** An element below the first goes in front. */
  lemma InsertFront(s: seq<string>, x: string)
    requires StrictlySorted(s) && s != [] && Less(x, s[0])
    ensures StrictlySorted([x] + s) && Elems([x] + s) == Elems(s) + {x}
  {
    var r := [x] + s;
    forall i, j | 0 <= i < j < |r|
      ensures Less(r[i], r[j])
    {
      if i == 0 {
        assert r[j] == s[j - 1];
        if j > 1 { LessTransitive(x, s[0], s[j - 1]); }
      } else {
        assert r[i] == s[i - 1] && r[j] == s[j - 1];
      }
    }
  }

  /** An element above the first goes into the rest, which stays above the first. */
  lemma InsertBehind(s: seq<string>, x: string, tail: seq<string>)
    requires StrictlySorted(s) && s != [] && x !in s && !Less(x, s[0])
    requires StrictlySorted(tail) && Elems(tail) == Elems(s[1..]) + {x}
    ensures StrictlySorted([s[0]] + tail) && Elems([s[0]] + tail) == Elems(s) + {x}
  {
    assert Less(s[0], x) by { LessTotal(x, s[0]); }
    assert Elems(s) == {s[0]} + Elems(s[1..]) by {
      assert s == [s[0]] + s[1..];
    }
    assert forall y :: y in tail ==> Less(s[0], y) by {
      forall y | y in tail ensures Less(s[0], y) {
        assert y in Elems(tail);
        if y != x {
          var k :| 0 <= k < |s[1..]| && s[1..][k] == y;
          assert s[k + 1] == y;
        }
      }
    }
    var r := [s[0]] + tail;
    forall i, j | 0 <= i < j < |r|
      ensures Less(r[i], r[j])
    {
      if i == 0 {
        assert r[j] == tail[j - 1] && r[j] in tail;
      } else {
        assert r[i] == tail[i - 1] && r[j] == tail[j - 1];
      }
    }
  }

  /** A strictly sorted sequence lists each of its elements once. */
  lemma {:induction false} SortedCard(a: seq<string>)
    requires StrictlySorted(a)
    ensures |Elems(a)| == |a|
  {
    if a != [] {
      assert a == [a[0]] + a[1..];
      assert a[0] !in a[1..] by {
        if a[0] in a[1..] {
          var k :| 0 <= k < |a[1..]| && a[1..][k] == a[0];
          assert Less(a[0], a[k + 1]);
          LessIrreflexive(a[0]);
        }
      }
      assert Elems(a) == {a[0]} + Elems(a[1..]);
      SortedCard(a[1..]);
    }
  }

  /** Two strictly sorted listings of the same set are the same sequence. */
  lemma {:induction false} SortedUnique(a: seq<string>, b: seq<string>)
    requires StrictlySorted(a) && StrictlySorted(b)
    requires Elems(a) == Elems(b)
    ensures a == b
  {
    SortedCard(a);
    SortedCard(b);
    if a != [] {
      assert a[0] in Elems(b) && b[0] in Elems(a);
      if a[0] != b[0] {
        var i :| 0 <= i < |b| && b[i] == a[0];
        var j :| 0 <= j < |a| && a[j] == b[0];
        assert Less(b[0], a[0]) && Less(a[0], b[0]);
        LessAsymmetric(a[0], b[0]);
      }
      assert a == [a[0]] + a[1..] && b == [b[0]] + b[1..];
      assert a[0] !in a[1..] by {
        if a[0] in a[1..] {
          var k :| 0 <= k < |a[1..]| && a[1..][k] == a[0];
          assert Less(a[0], a[k + 1]);
          LessIrreflexive(a[0]);
        }
      }
      assert b[0] !in b[1..] by {
        if b[0] in b[1..] {
          var k :| 0 <= k < |b[1..]| && b[1..][k] == b[0];
          assert Less(b[0], b[k + 1]);
          LessIrreflexive(b[0]);
        }
      }
      assert Elems(a[1..]) == Elems(a) - {a[0]};
      assert Elems(b[1..]) == Elems(b) - {b[0]};
      SortedUnique(a[1..], b[1..]);
    }
  }

  /** Every finite set of strings has a strictly sorted listing. */
  lemma {:induction false} SortedExists(s: set<string>)
    ensures exists r :: StrictlySorted(r) && Elems(r) == s
    decreases |s|
  {
    if s == {} {
      assert StrictlySorted([]) && Elems([]) == s;
    } else {
      var x :| x in s;
      SortedExists(s - {x});
      var r :| StrictlySorted(r) && Elems(r) == s - {x};
      assert x !in r by { assert x !in Elems(r); }
      var r' := Insert(r, x);
      assert StrictlySorted(r') && Elems(r') == s;
    }
  }

  /** `sorted(s)` for a set of strings. */
  ghost function SortedOf(s: set<string>): (r: seq<string>)
    ensures StrictlySorted(r) && Elems(r) == s
  {
    SortedExists(s);
    var r :| StrictlySorted(r) && Elems(r) == s;
    r
  }
}
