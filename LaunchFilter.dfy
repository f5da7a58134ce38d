/**
 * The pure part of the view model's filter: keeping the launches whose
 * `success` is `true`, and ordering launches by their `dateUtc` string with
 * String's `<` (ascending) or `>` (descending).
 */
module LaunchFilter {
  import opened Wrappers
  import opened Launches

  datatype FilterType = Asc | Desc

  // ---------------------------------------------------------------------------
  // String order

  /** String `<`: lexicographic order on characters, a proper prefix coming first. */
  predicate DateLess(a: string, b: string)
  {
    if b == [] then false
    else if a == [] then true
    else if a[0] != b[0] then a[0] < b[0]
    else DateLess(a[1..], b[1..])
  }

  lemma {:induction false} DateLessIrreflexive(a: string)
    ensures !DateLess(a, a)
  {
    if a != [] {
      DateLessIrreflexive(a[1..]);
    }
  }

  lemma {:induction false} DateLessTransitive(a: string, b: string, c: string)
    requires DateLess(a, b) && DateLess(b, c)
    ensures DateLess(a, c)
  {
    if a != [] && a[0] == b[0] && b[0] == c[0] {
      DateLessTransitive(a[1..], b[1..], c[1..]);
    }
  }

  /** Strings that agree up to position `k` and differ there are ordered by their characters at `k`. */
  lemma {:induction false} DateLessAtFirstDifference(a: string, b: string, k: nat)
    requires k < |a| && k < |b| && a[..k] == b[..k] && a[k] < b[k]
    ensures DateLess(a, b)
  {
    if k > 0 {
      assert a[0] == a[..k][0] == b[..k][0] == b[0];
      assert a[1..][..k - 1] == a[1..k] == a[..k][1..];
      assert b[1..][..k - 1] == b[1..k] == b[..k][1..];
      DateLessAtFirstDifference(a[1..], b[1..], k - 1);
    }
  }

  /**
   * Lexicographic order spelled out: `a` is a proper prefix of `b`, or the
   * two agree up to some position where `a` has the smaller character.
   */
  predicate Lexicographic(a: string, b: string)
  {
    || (|a| < |b| && a == b[..|a|])
    || exists k :: 0 <= k < |a| && k < |b| && a[..k] == b[..k] && a[k] < b[k]
  }

  /** A proper prefix comes first. */
  lemma {:induction false} DateLessOfPrefix(a: string, b: string)
    requires |a| < |b| && a == b[..|a|]
    ensures DateLess(a, b)
  {
    if a != [] {
      assert a[0] == b[0];
      assert a[1..] == b[1..][..|a| - 1];
      DateLessOfPrefix(a[1..], b[1..]);
    }
  }

  /** `DateLess` holds only for a proper prefix or at a first difference. */
  lemma {:induction false} DateLessIsLexicographicOnly(a: string, b: string)
    requires DateLess(a, b)
    ensures Lexicographic(a, b)
  {
    if a == [] {
      assert a == b[..0];
    } else if a[0] != b[0] {
      assert a[..0] == b[..0];
    } else {
      DateLessIsLexicographicOnly(a[1..], b[1..]);
      if |a[1..]| < |b[1..]| && a[1..] == b[1..][..|a[1..]|] {
        assert a == [a[0]] + a[1..] && b[..|a|] == [b[0]] + b[1..][..|a[1..]|];
      } else {
        var k :| 0 <= k < |a[1..]| && k < |b[1..]| && a[1..][..k] == b[1..][..k] && a[1..][k] < b[1..][k];
        assert a[..k + 1] == [a[0]] + a[1..][..k] && b[..k + 1] == [b[0]] + b[1..][..k];
        assert a[k + 1] < b[k + 1];
      }
    }
  }

  /** String `<` is exactly lexicographic order. */
  lemma DateLessIsLexicographic(a: string, b: string)
    ensures DateLess(a, b) <==> Lexicographic(a, b)
  {
    if DateLess(a, b) {
      DateLessIsLexicographicOnly(a, b);
    } else if |a| < |b| && a == b[..|a|] {
      DateLessOfPrefix(a, b);
    } else if k :| 0 <= k < |a| && k < |b| && a[..k] == b[..k] && a[k] < b[k] {
      DateLessAtFirstDifference(a, b, k);
    }
  }

  /** Any two strings are equal or ordered one way, and never both ways. */
  lemma {:induction false} DateLessTrichotomy(a: string, b: string)
    ensures a == b || DateLess(a, b) || DateLess(b, a)
    ensures !(DateLess(a, b) && DateLess(b, a))
  {
    if a != [] && b != [] && a[0] == b[0] {
      DateLessTrichotomy(a[1..], b[1..]);
      if a[1..] == b[1..] {
        assert a == [a[0]] + a[1..] && b == [b[0]] + b[1..];
      }
    }
  }

  // ---------------------------------------------------------------------------
  // The success filter

  /** `filter { $0.success == true }`: the launches known to have succeeded, in their original order. */
  function SuccessfulLaunches(s: seq<Launch>): (r: seq<Launch>)
    ensures |r| <= |s|
    ensures forall l :: l in r ==> l in s && l.success == Some(true)
    ensures forall l :: l in s && l.success == Some(true) ==> l in r
  {
    if s == [] then []
    else if s[0].success == Some(true) then [s[0]] + SuccessfulLaunches(s[1..])
    else SuccessfulLaunches(s[1..])
  }

  /** Filtering distributes over concatenation: the kept launches keep their relative order. */
  lemma {:induction false} SuccessfulLaunchesAppend(a: seq<Launch>, b: seq<Launch>)
    ensures SuccessfulLaunches(a + b) == SuccessfulLaunches(a) + SuccessfulLaunches(b)
  {
    if a == [] {
      assert a + b == b;
    } else {
      assert (a + b)[0] == a[0] && (a + b)[1..] == a[1..] + b;
      SuccessfulLaunchesAppend(a[1..], b);
    }
  }

  /** Each launch occurs in the filtered list exactly as often as in the input if it succeeded, and never otherwise. */
  lemma {:induction false} SuccessfulLaunchesCount(s: seq<Launch>, l: Launch)
    ensures multiset(SuccessfulLaunches(s))[l] == if l.success == Some(true) then multiset(s)[l] else 0
  {
    if s != [] {
      SuccessfulLaunchesCount(s[1..], l);
      assert s == [s[0]] + s[1..];
    }
  }

  /** The filtered list is a sub-multiset of its input. */
  lemma SuccessfulLaunchesSubMultiset(s: seq<Launch>)
    ensures multiset(SuccessfulLaunches(s)) <= multiset(s)
  {
    forall l
      ensures multiset(SuccessfulLaunches(s))[l] <= multiset(s)[l]
    {
      SuccessfulLaunchesCount(s, l);
    }
  }

  /** A list of successful launches passes the filter unchanged. */
  lemma {:induction false} SuccessfulLaunchesKeepsSuccessful(s: seq<Launch>)
    requires forall l :: l in s ==> l.success == Some(true)
    ensures SuccessfulLaunches(s) == s
  {
    if s != [] {
      SuccessfulLaunchesKeepsSuccessful(s[1..]);
    }
  }

  // ---------------------------------------------------------------------------
  // Ordering by date

  /** Whether `a` may stand before `b`: for `.asc` not `b.dateUtc < a.dateUtc`, for `.desc` not `b.dateUtc > a.dateUtc`. */
  predicate InOrder(dir: FilterType, a: Launch, b: Launch)
  {
    match dir
    case Asc => !DateLess(b.dateUtc, a.dateUtc)
    case Desc => !DateLess(a.dateUtc, b.dateUtc)
  }

  predicate SortedBy(dir: FilterType, s: seq<Launch>)
  {
    forall i, j :: 0 <= i < j < |s| ==> InOrder(dir, s[i], s[j])
  }

  lemma InOrderTotal(dir: FilterType, a: Launch, b: Launch)
    ensures InOrder(dir, a, b) || InOrder(dir, b, a)
  {
    DateLessTrichotomy(a.dateUtc, b.dateUtc);
  }

  lemma InOrderTransitive(dir: FilterType, a: Launch, b: Launch, c: Launch)
    requires InOrder(dir, a, b) && InOrder(dir, b, c)
    ensures InOrder(dir, a, c)
  {
    DateLessTrichotomy(a.dateUtc, b.dateUtc);
    DateLessTrichotomy(b.dateUtc, c.dateUtc);
    if dir == Asc {
      if DateLess(c.dateUtc, a.dateUtc) {
        if DateLess(a.dateUtc, b.dateUtc) {
          DateLessTransitive(c.dateUtc, a.dateUtc, b.dateUtc);
        }
      }
    } else {
      if DateLess(a.dateUtc, c.dateUtc) {
        if DateLess(c.dateUtc, b.dateUtc) {
          DateLessTransitive(a.dateUtc, c.dateUtc, b.dateUtc);
        }
      }
    }
  }

  /** Launches that may stand either way round have the same date. */
  lemma InOrderBothWays(dir: FilterType, a: Launch, b: Launch)
    requires InOrder(dir, a, b) && InOrder(dir, b, a)
    ensures a.dateUtc == b.dateUtc
  {
    DateLessTrichotomy(a.dateUtc, b.dateUtc);
  }

  /** Inserting `x` before the first launch it may precede. */
  function Insert(dir: FilterType, x: Launch, s: seq<Launch>): (r: seq<Launch>)
    ensures multiset(r) == multiset(s) + multiset{x}
  {
    if s == [] then [x]
    else if InOrder(dir, x, s[0]) then [x] + s
    else
      assert s == [s[0]] + s[1..];
      [s[0]] + Insert(dir, x, s[1..])
  }

  /** The order handed to the display: `sorted(by:)` with the date comparator of `dir`. */
  function SortByDate(dir: FilterType, s: seq<Launch>): (r: seq<Launch>)
    ensures multiset(r) == multiset(s)
  {
    if s == [] then []
    else
      assert s == [s[0]] + s[1..];
      Insert(dir, s[0], SortByDate(dir, s[1..]))
  }

  /** A launch that may precede every launch of a sorted list may head it. */
  lemma SortedCons(dir: FilterType, h: Launch, t: seq<Launch>)
    requires SortedBy(dir, t)
    requires forall y :: y in t ==> InOrder(dir, h, y)
    ensures SortedBy(dir, [h] + t)
  {
    var r := [h] + t;
    forall i, j | 0 <= i < j < |r|
      ensures InOrder(dir, r[i], r[j])
    {
      assert r[j] == t[j - 1];
      if i > 0 {
        assert r[i] == t[i - 1];
      }
    }
  }

  lemma {:induction false} InsertSorted(dir: FilterType, x: Launch, s: seq<Launch>)
    requires SortedBy(dir, s)
    ensures SortedBy(dir, Insert(dir, x, s))
  {
    if s == [] {
    } else if InOrder(dir, x, s[0]) {
      forall y | y in s
        ensures InOrder(dir, x, y)
      {
        var k :| 0 <= k < |s| && s[k] == y;
        if k > 0 {
          InOrderTransitive(dir, x, s[0], y);
        }
      }
      SortedCons(dir, x, s);
    } else {
      var t := s[1..];
      assert SortedBy(dir, t) by {
        forall i, j | 0 <= i < j < |t|
          ensures InOrder(dir, t[i], t[j])
        {
          assert t[i] == s[i + 1] && t[j] == s[j + 1];
        }
      }
      InOrderTotal(dir, x, s[0]);
      InsertSorted(dir, x, t);
      var tail := Insert(dir, x, t);
      forall y | y in tail
        ensures InOrder(dir, s[0], y)
      {
        assert y in multiset(tail);
        if y != x {
          assert y in multiset(t);
          var k :| 0 <= k < |t| && t[k] == y;
          assert s[k + 1] == y;
        }
      }
      SortedCons(dir, s[0], tail);
    }
  }

  /** The display order is sorted by date in the requested direction. */
  lemma {:induction false} SortByDateSorted(dir: FilterType, s: seq<Launch>)
    ensures SortedBy(dir, SortByDate(dir, s))
  {
    if s != [] {
      SortByDateSorted(dir, s[1..]);
      InsertSorted(dir, s[0], SortByDate(dir, s[1..]));
    }
  }

  /** Sorting a list that is already in order leaves it as it is. */
  lemma {:induction false} SortByDateOfSorted(dir: FilterType, s: seq<Launch>)
    requires SortedBy(dir, s)
    ensures SortByDate(dir, s) == s
  {
    if s != [] {
      assert SortedBy(dir, s[1..]) by {
        forall i, j | 0 <= i < j < |s[1..]|
          ensures InOrder(dir, s[1..][i], s[1..][j])
        {
          assert s[1..][i] == s[i + 1] && s[1..][j] == s[j + 1];
        }
      }
      SortByDateOfSorted(dir, s[1..]);
      assert s == [s[0]] + s[1..];
    }
  }

  lemma SortedTail(dir: FilterType, s: seq<Launch>)
    requires SortedBy(dir, s) && s != []
    ensures SortedBy(dir, s[1..])
  {
    forall i, j | 0 <= i < j < |s[1..]|
      ensures InOrder(dir, s[1..][i], s[1..][j])
    {
      assert s[1..][i] == s[i + 1] && s[1..][j] == s[j + 1];
    }
  }

  /** No two different launches of `s` share a date. */
  predicate DatesIdentify(s: seq<Launch>)
  {
    forall x, y :: x in s && y in s && x.dateUtc == y.dateUtc ==> x == y
  }

  /** Two sorted arrangements of the same launches, whose dates identify them, start with the same launch. */
  lemma SortedPermutationsSameHead(dir: FilterType, a: seq<Launch>, b: seq<Launch>)
    requires SortedBy(dir, a) && SortedBy(dir, b)
    requires multiset(a) == multiset(b) && a != []
    requires DatesIdentify(a)
    ensures b != [] && a[0] == b[0]
  {
    assert |b| == |multiset(b)| == |multiset(a)| == |a|;
    assert b[0] in multiset(a);
    var i :| 0 <= i < |a| && a[i] == b[0];
    assert a[0] in multiset(b);
    var j :| 0 <= j < |b| && b[j] == a[0];
    if i > 0 && j > 0 {
      assert InOrder(dir, a[0], a[i]) && InOrder(dir, b[0], b[j]);
      InOrderBothWays(dir, a[0], a[i]);
    }
  }

  /**
   * Sorting is not promised to be stable, but when dates identify launches
   * there is only one sorted arrangement of a given collection of launches.
   */
  lemma {:induction false} SortedPermutationUnique(dir: FilterType, a: seq<Launch>, b: seq<Launch>)
    requires SortedBy(dir, a) && SortedBy(dir, b)
    requires multiset(a) == multiset(b)
    requires DatesIdentify(a)
    ensures a == b
  {
    if a == [] {
      assert |b| == |multiset(b)| == 0;
    } else {
      SortedPermutationsSameHead(dir, a, b);
      assert a == [a[0]] + a[1..] && b == [b[0]] + b[1..];
      assert multiset(a) == multiset{a[0]} + multiset(a[1..]);
      assert multiset(b) == multiset{a[0]} + multiset(b[1..]);
      assert multiset(a[1..]) == multiset(a) - multiset{a[0]};
      assert multiset(b[1..]) == multiset(b) - multiset{a[0]};
      SortedTail(dir, a);
      SortedTail(dir, b);
      assert DatesIdentify(a[1..]) by {
        assert forall x :: x in a[1..] ==> x in a;
      }
      SortedPermutationUnique(dir, a[1..], b[1..]);
    }
  }

  /** Two launches with different dates have one sorted arrangement. */
  lemma SortedPairUnique(dir: FilterType, s: seq<Launch>, x: Launch, y: Launch)
    requires SortedBy(dir, s) && multiset(s) == multiset{x, y}
    requires InOrder(dir, x, y) && x.dateUtc != y.dateUtc
    ensures s == [x, y]
  {
    assert multiset([x, y]) == multiset{x, y};
    assert DatesIdentify([x, y]);
    SortedPermutationUnique(dir, [x, y], s);
  }

  function Reverse(s: seq<Launch>): (r: seq<Launch>)
    ensures |r| == |s|
    ensures forall i :: 0 <= i < |s| ==> r[i] == s[|s| - 1 - i]
  {
    if s == [] then [] else Reverse(s[1..]) + [s[0]]
  }

  lemma {:induction false} ReverseMultiset(s: seq<Launch>)
    ensures multiset(Reverse(s)) == multiset(s)
  {
    if s != [] {
      ReverseMultiset(s[1..]);
      assert s == [s[0]] + s[1..];
    }
  }

  /** Read backwards, an ascending list is descending. */
  lemma ReverseOfAscendingDescends(s: seq<Launch>)
    requires SortedBy(Asc, s)
    ensures SortedBy(Desc, Reverse(s))
  {
    var r, n := Reverse(s), |s|;
    forall i, j | 0 <= i < j < n
      ensures InOrder(Desc, r[i], r[j])
    {
      assert InOrder(Asc, s[n - 1 - j], s[n - 1 - i]);
    }
  }

  /** When dates identify launches, the descending order is the ascending order reversed. */
  lemma DescendingIsReversedAscending(s: seq<Launch>)
    requires DatesIdentify(s)
    ensures SortByDate(Desc, s) == Reverse(SortByDate(Asc, s))
  {
    var desc, asc := SortByDate(Desc, s), SortByDate(Asc, s);
    SortByDateSorted(Desc, s);
    SortByDateSorted(Asc, s);
    ReverseOfAscendingDescends(asc);
    ReverseMultiset(asc);
    assert DatesIdentify(desc) by {
      forall x, y | x in desc && y in desc && x.dateUtc == y.dateUtc
        ensures x == y
      {
        assert x in multiset(desc) && y in multiset(desc);
        assert x in s && y in s;
      }
    }
    SortedPermutationUnique(Desc, desc, Reverse(asc));
  }

  // ---------------------------------------------------------------------------
  // The filtered projection

  /** What the display shows after choosing a filter: the successful launches ordered by date. */
  function FilteredProjection(dir: FilterType, s: seq<Launch>): seq<Launch>
  {
    SortByDate(dir, SuccessfulLaunches(s))
  }

  /** The projection holds exactly the successful launches of `s`: failed and unreported ones never appear. */
  lemma FilteredProjectionMembers(dir: FilterType, s: seq<Launch>)
    ensures forall l :: l in FilteredProjection(dir, s) <==> l in s && l.success == Some(true)
  {
    var f := SuccessfulLaunches(s);
    assert forall l :: l in FilteredProjection(dir, s) <==> l in multiset(f);
  }

  /** The projection is the successful launches sorted, and both are drawn from the input. */
  lemma FilteredProjectionDrawnFrom(dir: FilterType, s: seq<Launch>)
    ensures SortedBy(dir, FilteredProjection(dir, s))
    ensures multiset(FilteredProjection(dir, s)) == multiset(SuccessfulLaunches(s))
    ensures multiset(SuccessfulLaunches(s)) <= multiset(s)
  {
    SortByDateSorted(dir, SuccessfulLaunches(s));
    SuccessfulLaunchesSubMultiset(s);
  }

  /** Filtering the projection again in the same direction changes nothing. */
  lemma FilteredProjectionIdempotent(dir: FilterType, s: seq<Launch>)
    ensures FilteredProjection(dir, FilteredProjection(dir, s)) == FilteredProjection(dir, s)
  {
    var p := FilteredProjection(dir, s);
    FilteredProjectionMembers(dir, s);
    SuccessfulLaunchesKeepsSuccessful(p);
    SortByDateSorted(dir, SuccessfulLaunches(s));
    SortByDateOfSorted(dir, p);
  }

  /** When dates identify launches, filtering the ascending projection descending reverses it. */
  lemma AscendingThenDescendingReverses(s: seq<Launch>)
    requires DatesIdentify(s)
    ensures FilteredProjection(Desc, FilteredProjection(Asc, s)) == Reverse(FilteredProjection(Asc, s))
  {
    var p := FilteredProjection(Asc, s);
    FilteredProjectionMembers(Asc, s);
    SuccessfulLaunchesKeepsSuccessful(p);
    SortByDateSorted(Asc, SuccessfulLaunches(s));
    SortByDateOfSorted(Asc, p);
    assert DatesIdentify(p);
    DescendingIsReversedAscending(p);
  }
}
