/** The iteration order of the source's std::map and std::set containers: strings in
    lexicographic order, and the one strictly increasing sequence that lists a finite set. */
module Ordering {

  predicate Less(a: string, b: string)
  {
    b != [] && (a == [] || a[0] < b[0] || (a[0] == b[0] && Less(a[1..], b[1..])))
  }

  lemma {:induction false} LessTotal(a: string, b: string)
    ensures Less(a, b) || a == b || Less(b, a)
  {
    if a != [] && b != [] && a[0] == b[0] {
      LessTotal(a[1..], b[1..]);
      assert a == [a[0]] + a[1..] && b == [b[0]] + b[1..];
    }
  }

  lemma {:induction false} LessTransitive(a: string, b: string, c: string)
    requires Less(a, b) && Less(b, c)
    ensures Less(a, c)
  {
    if a != [] && a[0] == b[0] && b[0] == c[0] {
      LessTransitive(a[1..], b[1..], c[1..]);
    }
  }

  lemma {:induction false} LessIrreflexive(a: string)
    ensures !Less(a, a)
  {
    if a != [] { LessIrreflexive(a[1..]); }
  }

  ghost predicate Increasing(s: seq<string>)
  {
    forall i, j :: 0 <= i < j < |s| ==> Less(s[i], s[j])
  }

  function Elems<T>(s: seq<T>): set<T> { set x | x in s }

  lemma NoElems<T>(s: seq<T>)
    ensures Elems(s) == {} <==> s == []
  {
    if s != [] { assert s[0] in Elems(s); }
  }

  predicate IsLeast(m: string, s: set<string>)
  {
    m in s && forall y :: y in s ==> y == m || Less(m, y)
  }

  lemma {:induction false} LeastExists(s: set<string>)
    requires s != {}
    ensures exists m :: IsLeast(m, s)
  {
    var x :| x in s;
    if s == {x} {
      assert IsLeast(x, s);
    } else {
      LeastExists(s - {x});
      var m :| IsLeast(m, s - {x});
      LessTotal(m, x);
      if Less(x, m) {
        forall y | y in s ensures y == x || Less(x, y) {
          if y != x && y != m { LessTransitive(x, m, y); }
        }
        assert IsLeast(x, s);
      } else {
        assert IsLeast(m, s);
      }
    }
  }

  lemma LeastUnique(a: string, b: string, s: set<string>)
    requires IsLeast(a, s) && IsLeast(b, s)
    ensures a == b
  {
    if a != b { LessTransitive(a, b, a); LessIrreflexive(a); }
  }

  function Least(s: set<string>): (m: string)
    requires s != {}
    ensures IsLeast(m, s)
  {
    LeastExists(s);
    assert forall a, b | a in s && IsLeast(a, s) && b in s && IsLeast(b, s) :: a == b by {
      forall a, b | a in s && IsLeast(a, s) && b in s && IsLeast(b, s) ensures a == b { LeastUnique(a, b, s); }
    }
    var m :| m in s && IsLeast(m, s);
    m
  }

  /** The elements of a finite set in iteration order. */
  function Listing(s: set<string>): (r: seq<string>)
    ensures Elems(r) == s
    ensures Increasing(r)
  {
    if s == {} then [] else
      var m := Least(s);
      var rest := Listing(s - {m});
      assert Elems([m] + rest) == {m} + Elems(rest);
      assert forall i :: 0 <= i < |rest| ==> rest[i] in Elems(rest);
      [m] + rest
  }

  lemma ListingEmpty(s: set<string>)
    ensures Listing(s) == [] <==> s == {}
  {
    assert Elems(Listing(s)) == s;
    if s != {} {
      var x :| x in s;
      assert x in Elems(Listing(s));
    }
  }

  lemma IncreasingTail(s: seq<string>)
    requires Increasing(s) && s != []
    ensures Increasing(s[1..]) && Elems(s[1..]) == Elems(s) - {s[0]}
  {
    forall x | x in Elems(s) - {s[0]} ensures x in s[1..] {
      var i :| 0 <= i < |s| && s[i] == x;
      assert s[1..][i - 1] == x;
    }
    LessIrreflexive(s[0]);
  }

  /** A set has only one increasing listing, so std::sort after an in-order scan is the identity. */
  lemma {:induction false} ListingUnique(s: seq<string>, t: seq<string>)
    requires Increasing(s) && Increasing(t) && Elems(s) == Elems(t)
    ensures s == t
  {
    assert forall x :: x in s <==> x in t by {
      assert forall x :: x in s <==> x in Elems(s);
      assert forall x :: x in t <==> x in Elems(t);
    }
    assert t != [] ==> t[0] in s;
    assert s != [] ==> s[0] in t;
    if s != [] {
      assert IsLeast(s[0], Elems(s)) && IsLeast(t[0], Elems(t)) by {
        assert s[0] in s && t[0] in t;
      }
      LeastUnique(s[0], t[0], Elems(s));
      IncreasingTail(s);
      IncreasingTail(t);
      ListingUnique(s[1..], t[1..]);
      assert s == [s[0]] + s[1..] && t == [t[0]] + t[1..];
    }
  }

  lemma IncreasingDistinct(s: seq<string>)
    requires Increasing(s)
    ensures forall i, j :: 0 <= i < j < |s| ==> s[i] != s[j]
  {
    forall i, j | 0 <= i < j < |s| ensures s[i] != s[j] { LessIrreflexive(s[i]); }
  }

  /** What an in-order scan collects when it keeps only some elements. */
  function Kept(s: seq<string>, keep: string -> bool): seq<string>
  {
    if s == [] then [] else
      var rest := Kept(s[..|s| - 1], keep);
      if keep(s[|s| - 1]) then rest + [s[|s| - 1]] else rest
  }

  lemma KeptStep(s: seq<string>, i: nat, keep: string -> bool)
    requires i < |s|
    ensures Kept(s[..i + 1], keep) == Kept(s[..i], keep) + if keep(s[i]) then [s[i]] else []
  {
    assert s[..i + 1][..i] == s[..i];
  }

  lemma {:induction false} KeptElems(s: seq<string>, keep: string -> bool, x: string)
    ensures x in Kept(s, keep) <==> x in s && keep(x)
  {
    if s != [] {
      KeptElems(s[..|s| - 1], keep, x);
      assert s == s[..|s| - 1] + [s[|s| - 1]];
    }
  }

  lemma {:induction false} KeptIncreasing(s: seq<string>, keep: string -> bool)
    requires Increasing(s)
    ensures Increasing(Kept(s, keep))
  {
    if s != [] {
      var front := s[..|s| - 1];
      KeptIncreasing(front, keep);
      var rest := Kept(front, keep);
      forall i | 0 <= i < |rest| ensures Less(rest[i], s[|s| - 1]) {
        KeptElems(front, keep, rest[i]);
        var j :| 0 <= j < |front| && front[j] == rest[i];
        assert s[j] == rest[i];
      }
    }
  }

  /** Scanning a listing in order and keeping some elements lists exactly the kept set. */
  lemma KeptListing(s: set<string>, keep: string -> bool, kept: set<string>)
    requires forall x :: x in kept <==> x in s && keep(x)
    ensures Kept(Listing(s), keep) == Listing(kept)
  {
    KeptIncreasing(Listing(s), keep);
    forall x ensures x in Elems(Kept(Listing(s), keep)) <==> x in kept {
      KeptElems(Listing(s), keep, x);
      assert x in Elems(Listing(s)) <==> x in Listing(s);
    }
    ListingUnique(Kept(Listing(s), keep), Listing(kept));
  }

  lemma ListingMember(s: set<string>, i: nat)
    requires i < |Listing(s)|
    ensures Listing(s)[i] in s
  {
    assert Listing(s)[i] in Elems(Listing(s));
  }
}
