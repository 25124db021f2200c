/**
 What `dpl_insert_sorted` does to a sorted list, over one call and over a whole sequence of them.  Its search
 stops before the last node, so one position is never tried.
 */
module SortedInsert {
  import opened Basics
  import opened ListSpec

  /** The callback orders the elements of `s`. */
  ghost predicate Orders<T>(compare: (T, T) -> int, s: seq<T>) {
    && (forall x, y :: x in s && y in s ==> (compare(x, y) < 0 <==> compare(y, x) > 0))
    && (forall x, y, z :: x in s && y in s && z in s && compare(x, y) <= 0 && compare(y, z) <= 0 ==> compare(x, z) <= 0)
  }

  /** `x` belongs right before the last element of `s`. */
  ghost predicate MissesLast<T>(s: seq<T>, x: T, compare: (T, T) -> int) {
    && |s| >= 1
    && compare(x, s[|s| - 1]) < 0
    && (|s| >= 2 ==> compare(x, s[|s| - 2]) > 0)
  }

  lemma Flip<T>(compare: (T, T) -> int, s: seq<T>, x: T, y: T)
    requires Orders(compare, s) && x in s && y in s
    ensures compare(x, y) < 0 <==> compare(y, x) > 0
    ensures compare(x, y) > 0 <==> compare(y, x) < 0
  {
  }

  lemma Chain<T>(compare: (T, T) -> int, s: seq<T>, x: T, y: T, z: T)
    requires Orders(compare, s) && x in s && y in s && z in s
    requires compare(x, y) <= 0 && compare(y, z) <= 0
    ensures compare(x, z) <= 0
  {
  }

  lemma OrdersFewer<T>(compare: (T, T) -> int, s: seq<T>, r: seq<T>)
    requires Orders(compare, s) && forall y :: y in r ==> y in s
    ensures Orders(compare, r)
  {
    forall x, y, z | x in r && y in r && z in r && compare(x, y) <= 0 && compare(y, z) <= 0 ensures compare(x, z) <= 0 {
      Chain(compare, s, x, y, z);
    }
  }

  lemma {:induction false} SortedPairs<T>(s: seq<T>, compare: (T, T) -> int, i: nat, j: nat)
    requires Orders(compare, s) && Sorted(s, compare) && i < j < |s|
    ensures compare(s[i], s[j]) <= 0
    decreases j
  {
    hide Orders;
    assert compare(s[j - 1], s[j - 1 + 1]) <= 0;
    if i + 1 < j {
      SortedPairs(s, compare, i, j - 1);
      Chain(compare, s, s[i], s[j - 1], s[j]);
    }
  }

  /** `x` is above everything before an element it is above. */
  lemma AboveThrough<T>(s: seq<T>, x: T, compare: (T, T) -> int, i: nat, k: nat)
    requires Orders(compare, s + [x]) && Sorted(s, compare) && i <= k < |s| && compare(x, s[k]) > 0
    ensures compare(x, s[i]) > 0
  {
    hide Orders;
    assert x in s + [x] && s[i] in s + [x] && s[k] in s + [x];
    if i < k && compare(x, s[i]) <= 0 {
      OrdersFewer(compare, s + [x], s);
      SortedPairs(s, compare, i, k);
      Chain(compare, s + [x], x, s[i], s[k]);
    }
  }

  /** `x` is below everything after an element it is below. */
  lemma BelowFrom<T>(s: seq<T>, x: T, compare: (T, T) -> int, i: nat, k: nat)
    requires Orders(compare, s + [x]) && Sorted(s, compare) && i <= k < |s| && compare(x, s[i]) < 0
    ensures compare(x, s[k]) < 0
  {
    hide Orders;
    assert x in s + [x] && s[i] in s + [x] && s[k] in s + [x];
    if i < k && compare(x, s[k]) >= 0 {
      OrdersFewer(compare, s + [x], s);
      SortedPairs(s, compare, i, k);
      Flip(compare, s + [x], x, s[k]);
      Flip(compare, s + [x], x, s[i]);
      Equal(compare, s + [x], x, s[k]);
      Chain(compare, s + [x], s[i], s[k], x);
    }
  }

  lemma Equal<T>(compare: (T, T) -> int, s: seq<T>, x: T, y: T)
    requires Orders(compare, s) && x in s && y in s
    ensures compare(x, y) >= 0 <==> compare(y, x) <= 0
  {
  }

  /** The position that the search loop picks separates the elements below `x` from the others. */
  lemma PositionSeparates<T>(s: seq<T>, x: T, compare: (T, T) -> int)
    ensures
      var k := SortedPosition(s, x, compare);
      && (0 < k < |s| ==> compare(x, s[k - 1]) > 0)
      && (k < |s| ==> k < |s| - 1 && compare(x, s[k]) <= 0)
      && (k == |s| >= 2 ==> compare(x, s[|s| - 2]) > 0)
  {
    if s != [] {
      var k := SortedPosition(s, x, compare);
      var p := y => compare(x, y) < 1;
      assert 0 < k < |s| ==> !p(s[..|s| - 1][k - 1]);
      assert k == |s| >= 2 ==> !p(s[..|s| - 1][|s| - 2]);
    }
  }

  lemma SortedInserted<T>(s: seq<T>, k: nat, x: T, compare: (T, T) -> int)
    requires Sorted(s, compare) && k <= |s|
    requires k > 0 ==> compare(s[k - 1], x) <= 0
    requires k < |s| ==> compare(x, s[k]) <= 0
    ensures Sorted(InsertAt(s, k, x), compare)
  {
    var r := InsertAt(s, k, x);
    forall i | 0 <= i < |r| - 1 ensures compare(r[i], r[i + 1]) <= 0 {
      if i < k - 1 { assert compare(s[i], s[i + 1]) <= 0; }
      if i > k { assert compare(s[i - 1], s[i - 1 + 1]) <= 0; }
    }
  }

  /** The result of a call on a sorted list is sorted exactly when the new element does not belong right before the last. */
  lemma StaysSortedIff<T>(s: seq<T>, x: T, compare: (T, T) -> int)
    requires Orders(compare, s + [x]) && Sorted(s, compare)
    ensures Sorted(InsertAt(s, SortedPosition(s, x, compare), x), compare) <==> !MissesLast(s, x, compare)
  {
    hide Orders, SortedPosition;
    var k := SortedPosition(s, x, compare);
    PositionSeparates(s, x, compare);
    if MissesLast(s, x, compare) {
      if k < |s| && |s| >= 2 { AboveThrough(s, x, compare, k, |s| - 2); }
      var r := InsertAt(s, k, x);
      Flip(compare, s + [x], x, s[|s| - 1]);
      assert r[|s| - 1] == s[|s| - 1] && r[|s| - 1 + 1] == x;
      assert compare(r[|s| - 1], r[|s| - 1 + 1]) > 0;
    } else {
      if k > 0 { Flip(compare, s + [x], x, s[k - 1]); Equal(compare, s + [x], x, s[k - 1]); }
      SortedInserted(s, k, x, compare);
    }
  }

  // ----- loading a map line by line -----

  /** One call of `dpl_insert_sorted` on the contents of a list. */
  ghost function Insert<T>(s: seq<T>, x: T, compare: (T, T) -> int): seq<T> {
    if Sorted(s, compare) then InsertAt(s, SortedPosition(s, x, compare), x) else s
  }

  /** The list that `parse_sensor_map` makes of `s` by inserting the lines `xs` one by one. */
  ghost function LoadFrom<T>(s: seq<T>, xs: seq<T>, compare: (T, T) -> int): seq<T> {
    if xs == [] then s else Insert(LoadFrom(s, xs[..|xs| - 1], compare), xs[|xs| - 1], compare)
  }

  ghost function Load<T>(xs: seq<T>, compare: (T, T) -> int): seq<T> {
    LoadFrom([], xs, compare)
  }

  /**
   Line `j` spoils the list: exactly one earlier line is not below it, and that one is above it.
   This can be read off the map without running anything.
   */
  ghost predicate Spoils<T>(xs: seq<T>, j: nat, compare: (T, T) -> int)
    requires j < |xs|
  {
    && Tally(xs[..j], y => compare(xs[j], y) <= 0) == 1
    && Tally(xs[..j], y => compare(xs[j], y) < 0) == 1
  }

  /** The same with predicates of one's own for "not below" and "above". */
  lemma SpoilsByCount<T>(xs: seq<T>, j: nat, compare: (T, T) -> int, p: T -> bool, q: T -> bool)
    requires j < |xs| && forall y :: y in xs ==> (p(y) <==> compare(xs[j], y) <= 0) && (q(y) <==> compare(xs[j], y) < 0)
    ensures Spoils(xs, j, compare) <==> Tally(xs[..j], p) == 1 && Tally(xs[..j], q) == 1
  {
    TallySame(xs[..j], y => compare(xs[j], y) <= 0, p);
    TallySame(xs[..j], y => compare(xs[j], y) < 0, q);
  }

  lemma {:induction false} TallyPermutation<T>(a: seq<T>, b: seq<T>, p: T -> bool)
    requires multiset(a) == multiset(b)
    ensures Tally(a, p) == Tally(b, p)
  {
    if a == [] {
      assert |multiset(b)| == |b|;
    } else {
      assert a[0] in multiset(b);
      var i :| 0 <= i < |b| && b[i] == a[0];
      var rest := b[..i] + b[i + 1..];
      RemoveSame(a, b, i);
      assert a == [a[0]] + a[1..];
      TallyPermutation(a[1..], rest, p);
      TallyConcat([a[0]], a[1..], p);
      TallyConcat(b[..i] + [b[i]], b[i + 1..], p);
      TallyConcat(b[..i], [b[i]], p);
      TallyConcat(b[..i], b[i + 1..], p);
    }
  }

  lemma RemoveSame<T>(a: seq<T>, b: seq<T>, i: nat)
    requires multiset(a) == multiset(b) && a != [] && i < |b| && b[i] == a[0]
    ensures multiset(a[1..]) == multiset(b[..i] + b[i + 1..])
    ensures b == b[..i] + [b[i]] + b[i + 1..]
  {
    assert a == [a[0]] + a[1..];
    assert b == b[..i] + [b[i]] + b[i + 1..];
    assert multiset(a) == multiset{a[0]} + multiset(a[1..]);
    assert multiset(b) == multiset(b[..i]) + multiset{b[i]} + multiset(b[i + 1..]);
    assert multiset(b[..i] + b[i + 1..]) == multiset(b[..i]) + multiset(b[i + 1..]);
    assert multiset(a[1..]) == multiset(a) - multiset{a[0]};
  }

  lemma InsertPermutes<T>(s: seq<T>, x: T, compare: (T, T) -> int)
    requires Sorted(s, compare)
    ensures multiset(Insert(s, x, compare)) == multiset(s) + multiset{x}
  {
    var k := SortedPosition(s, x, compare);
    assert s == s[..k] + s[k..];
  }

  lemma TallySplit<T>(s: seq<T>, p: T -> bool)
    requires s != []
    ensures
      var front, last := s[..|s| - 1], s[|s| - 1];
      && Tally(s, p) == Tally(front, p) + (if p(last) then 1 else 0)
      && (Tally(front, p) == 0 <==> forall i :: 0 <= i < |s| - 1 ==> !p(s[i]))
  {
    TallyZeroIff(s[..|s| - 1], p);
    assert forall i :: 0 <= i < |s| - 1 ==> s[i] == s[..|s| - 1][i];
  }

  lemma MissesLastCounts<T>(s: seq<T>, x: T, compare: (T, T) -> int)
    requires Orders(compare, s + [x]) && Sorted(s, compare) && MissesLast(s, x, compare)
    ensures Tally(s, y => compare(x, y) <= 0) == 1 && Tally(s, y => compare(x, y) < 0) == 1
  {
    hide Orders, Tally, Sorted;
    TallySplit(s, y => compare(x, y) <= 0);
    TallySplit(s, y => compare(x, y) < 0);
    forall i | 0 <= i < |s| - 1 ensures compare(x, s[i]) > 0 {
      AboveThrough(s, x, compare, i, |s| - 2);
    }
  }

  lemma CountsMissLast<T>(s: seq<T>, x: T, compare: (T, T) -> int)
    requires Orders(compare, s + [x]) && Sorted(s, compare)
    requires Tally(s, y => compare(x, y) <= 0) == 1 && Tally(s, y => compare(x, y) < 0) == 1
    ensures MissesLast(s, x, compare)
  {
    var p, q := y => compare(x, y) <= 0, y => compare(x, y) < 0;
    TallyZeroIff(s, q);
    var i :| 0 <= i < |s| && q(s[i]);
    hide Orders, Tally, Sorted;
    TallySplit(s, p);
    BelowFrom(s, x, compare, i, |s| - 1);
    assert p(s[|s| - 1]);
    assert |s| >= 2 ==> !p(s[|s| - 2]);
  }

  /** On a sorted list, belonging right before the last element is a matter of counting. */
  lemma MissesLastByCount<T>(s: seq<T>, x: T, compare: (T, T) -> int)
    requires Orders(compare, s + [x]) && Sorted(s, compare)
    ensures MissesLast(s, x, compare)
      <==> Tally(s, y => compare(x, y) <= 0) == 1 && Tally(s, y => compare(x, y) < 0) == 1
  {
    hide Orders, Tally, Sorted, MissesLast;
    if MissesLast(s, x, compare) { MissesLastCounts(s, x, compare); }
    if Tally(s, y => compare(x, y) <= 0) == 1 && Tally(s, y => compare(x, y) < 0) == 1 { CountsMissLast(s, x, compare); }
  }

  lemma {:induction false} LoadPrefix<T>(xs: seq<T>, compare: (T, T) -> int)
    requires Orders(compare, xs)
    requires forall j :: 0 <= j < |xs| ==> !Spoils(xs, j, compare)
    ensures Sorted(Load(xs, compare), compare) && multiset(Load(xs, compare)) == multiset(xs)
  {
    hide Orders, Spoils, Insert;
    if xs != [] {
      var front, x := xs[..|xs| - 1], xs[|xs| - 1];
      assert xs == front + [x];
      SpoilsInPrefix(xs, |xs| - 1, compare);
      OrdersFewer(compare, xs, front);
      LoadPrefix(front, compare);
      InsertOutcome(front, x, compare);
    }
  }

  /** Spoiling depends on earlier lines only. */
  lemma SpoilsInPrefix<T>(xs: seq<T>, n: nat, compare: (T, T) -> int)
    requires n <= |xs|
    ensures forall j :: 0 <= j < n ==> (Spoils(xs[..n], j, compare) <==> Spoils(xs, j, compare))
  {
    forall j | 0 <= j < n ensures Spoils(xs[..n], j, compare) <==> Spoils(xs, j, compare) {
      assert xs[..n][..j] == xs[..j];
    }
  }

  /** The line after a sorted prefix keeps the list sorted exactly when it does not spoil it. */
  lemma InsertOutcome<T>(front: seq<T>, x: T, compare: (T, T) -> int)
    requires Orders(compare, front + [x])
    requires Sorted(Load(front, compare), compare) && multiset(Load(front, compare)) == multiset(front)
    ensures multiset(Load(front + [x], compare)) == multiset(front + [x])
    ensures Sorted(Load(front + [x], compare), compare) <==> !Spoils(front + [x], |front|, compare)
  {
    hide Orders, Insert, MissesLast;
    var xs, s := front + [x], Load(front, compare);
    assert xs[..|xs| - 1] == front;
    assert Load(xs, compare) == Insert(s, x, compare);
    InsertPermutes(s, x, compare);
    SameElements(s, front);
    OrdersFewer(compare, xs, s + [x]);
    InsertSortedIff(s, x, compare);
    MissesLastByCount(s, x, compare);
    TallyPermutation(s, front, y => compare(x, y) <= 0);
    TallyPermutation(s, front, y => compare(x, y) < 0);
    SpoilsLast(front, x, compare);
  }

  lemma SpoilsLast<T>(front: seq<T>, x: T, compare: (T, T) -> int)
    ensures Spoils(front + [x], |front|, compare)
      <==> Tally(front, y => compare(x, y) <= 0) == 1 && Tally(front, y => compare(x, y) < 0) == 1
  {
    var xs := front + [x];
    assert xs[..|front|] == front && xs[|front|] == x;
  }

  lemma InsertSortedIff<T>(s: seq<T>, x: T, compare: (T, T) -> int)
    requires Orders(compare, s + [x]) && Sorted(s, compare)
    ensures Sorted(Insert(s, x, compare), compare) <==> !MissesLast(s, x, compare)
  {
    hide Orders, MissesLast;
    StaysSortedIff(s, x, compare);
  }

  lemma SameElements<T>(a: seq<T>, b: seq<T>)
    requires multiset(a) == multiset(b)
    ensures forall y :: y in a <==> y in b
  {
    forall y ensures y in a <==> y in b {
      assert y in a <==> y in multiset(a);
      assert y in b <==> y in multiset(b);
    }
  }

  /** From an unsorted list on, every call leaves the list as it is. */
  lemma {:induction false} LoadStuck<T>(xs: seq<T>, n: nat, compare: (T, T) -> int)
    requires n <= |xs| && !Sorted(Load(xs[..n], compare), compare)
    ensures Load(xs, compare) == Load(xs[..n], compare)
  {
    if n == |xs| {
      assert xs[..n] == xs;
    } else {
      assert xs[..|xs| - 1][..n] == xs[..n];
      LoadStuck(xs[..|xs| - 1], n, compare);
    }
  }

  lemma FirstSpoiling<T>(xs: seq<T>, j: nat, compare: (T, T) -> int) returns (i: nat)
    requires j < |xs| && Spoils(xs, j, compare)
    ensures i <= j && Spoils(xs, i, compare) && forall k :: 0 <= k < i ==> !Spoils(xs, k, compare)
  {
    i := 0;
    while !Spoils(xs, i, compare)
      invariant i <= j && forall k :: 0 <= k < i ==> !Spoils(xs, k, compare)
      decreases j - i
    {
      i := i + 1;
    }
  }

  /** After the first line that spoils the list, no line is stored any more. */
  lemma SpoiledIsShort<T>(xs: seq<T>, i: nat, compare: (T, T) -> int)
    requires Orders(compare, xs) && i < |xs| && Spoils(xs, i, compare)
    requires forall k :: 0 <= k < i ==> !Spoils(xs, k, compare)
    ensures multiset(Load(xs, compare)) == multiset(xs[..i + 1])
    ensures i + 1 < |xs| ==> multiset(Load(xs, compare)) != multiset(xs)
  {
    hide Orders, Spoils, Insert;
    var front := xs[..i];
    SpoilsInPrefix(xs, i, compare);
    SpoilsInPrefix(xs, i + 1, compare);
    assert xs[..i + 1] == front + [xs[i]];
    OrdersFewer(compare, xs, front);
    OrdersFewer(compare, xs, front + [xs[i]]);
    LoadPrefix(front, compare);
    InsertOutcome(front, xs[i], compare);
    LoadStuck(xs, i + 1, compare);
    assert |multiset(xs[..i + 1])| == |xs[..i + 1]| && |multiset(xs)| == |xs|;
  }

  /** Every line of the map ends up in the list exactly when no line but the last one spoils it. */
  lemma LoadCompleteIff<T>(xs: seq<T>, compare: (T, T) -> int)
    requires Orders(compare, xs)
    ensures multiset(Load(xs, compare)) == multiset(xs)
      <==> forall j :: 0 <= j < |xs| - 1 ==> !Spoils(xs, j, compare)
  {
    hide Orders, Spoils;
    if j :| 0 <= j < |xs| - 1 && Spoils(xs, j, compare) {
      var i := FirstSpoiling(xs, j, compare);
      SpoiledIsShort(xs, i, compare);
    } else if xs != [] {
      var front := xs[..|xs| - 1];
      SpoilsInPrefix(xs, |xs| - 1, compare);
      assert xs == front + [xs[|xs| - 1]];
      OrdersFewer(compare, xs, front);
      LoadPrefix(front, compare);
      InsertOutcome(front, xs[|xs| - 1], compare);
    }
  }

  ghost predicate Ascending<T>(xs: seq<T>, compare: (T, T) -> int) {
    forall i :: 0 <= i < |xs| - 1 ==> compare(xs[i], xs[i + 1]) < 0
  }

  lemma AscendingPosition<T>(s: seq<T>, x: T, compare: (T, T) -> int)
    requires Orders(compare, s + [x]) && Sorted(s, compare) && s != [] && compare(x, s[|s| - 1]) > 0
    ensures SortedPosition(s, x, compare) == |s|
  {
    hide Orders;
    PositionSeparates(s, x, compare);
    var k := SortedPosition(s, x, compare);
    if k < |s| { AboveThrough(s, x, compare, k, |s| - 1); }
  }

  lemma SortedEmpty<T>(compare: (T, T) -> int)
    ensures Sorted([], compare)
  {
  }

  lemma AscendingFront<T>(xs: seq<T>, compare: (T, T) -> int)
    requires Ascending(xs, compare) && xs != []
    ensures Ascending(xs[..|xs| - 1], compare)
    ensures |xs| >= 2 ==> compare(xs[|xs| - 2], xs[|xs| - 1]) < 0
  {
    if |xs| >= 2 { assert compare(xs[|xs| - 2], xs[|xs| - 2 + 1]) < 0; }
  }

  lemma AppendAbove<T>(s: seq<T>, x: T, compare: (T, T) -> int)
    requires Orders(compare, s + [x]) && Sorted(s, compare) && (s != [] ==> compare(s[|s| - 1], x) < 0)
    ensures Insert(s, x, compare) == s + [x] && Sorted(s + [x], compare)
  {
    hide Orders;
    SortedInserted(s, |s|, x, compare);
    assert InsertAt(s, |s|, x) == s + [x];
    if s != [] {
      Flip(compare, s + [x], s[|s| - 1], x);
      AscendingPosition(s, x, compare);
    }
  }

  /** Strictly ascending maps are loaded completely and in order. */
  lemma {:induction false} AscendingLoads<T>(xs: seq<T>, compare: (T, T) -> int)
    requires Orders(compare, xs) && Ascending(xs, compare)
    ensures Load(xs, compare) == xs && Sorted(xs, compare)
  {
    hide Orders, Insert, Ascending, Sorted;
    if xs == [] {
      SortedEmpty(compare);
    } else {
      var front, x := xs[..|xs| - 1], xs[|xs| - 1];
      assert xs == front + [x];
      OrdersFewer(compare, xs, front);
      AscendingFront(xs, compare);
      AscendingLoads(front, compare);
      AppendAbove(front, x, compare);
    }
  }

  /** Three sensors of which the third is never stored: the second goes after the first and blocks every later call. */
  lemma DescendingPairBlocks(compare: (int, int) -> int)
    requires forall x, y :: compare(x, y) == x - y
    ensures Load([2, 1, 3], compare) == [2, 1]
  {
    assert [2, 1, 3][..2] == [2, 1] && [2, 1][..1] == [2] && [2][..0] == [];
    assert Load([], compare) == [];
    assert Load([2], compare) == [2];
    assert [2][..0] == [];
    assert SortedPosition([2], 1, compare) == 1;
    assert Load([2, 1], compare) == [2, 1];
    assert compare([2, 1][0], [2, 1][0 + 1]) > 0;
  }
}
