/** The list operations of `lab_final/lib/dplist.c` on sequences. */
module ListSpec {
  import opened Basics

  /** Index of an existing position: the first for indices below the list, the last for indices past it. */
  function Clamp(index: int, n: nat): (k: nat)
    requires n > 0
    ensures k < n
  {
    if index <= 0 then 0 else if index < n then index else n - 1
  }

  /** Where an insert at `index` puts the new element. */
  function InsertPosition(index: int, n: nat): (k: nat)
    ensures k <= n
  {
    if index <= 0 then 0 else if index < n then index else n
  }

  function InsertAt<T>(s: seq<T>, k: nat, x: T): (r: seq<T>)
    requires k <= |s|
  {
    s[..k] + [x] + s[k..]
  }

  function RemoveAt<T>(s: seq<T>, k: nat): (r: seq<T>)
    requires k < |s|
  {
    s[..k] + s[k + 1..]
  }

  function Distance(a: int, b: int): nat { if a < b then b - a else a - b }

  /** An index outside the list stands for the nearest position: of an element, or of a place to insert at. */
  lemma NearestPosition(index: int, n: nat)
    ensures n > 0 ==> forall k :: 0 <= k < n ==> Distance(index, Clamp(index, n)) <= Distance(index, k)
    ensures forall k :: 0 <= k <= n ==> Distance(index, InsertPosition(index, n)) <= Distance(index, k)
  {
  }

  lemma InsertUndone<T>(s: seq<T>, k: nat, x: T)
    requires k <= |s|
    ensures |InsertAt(s, k, x)| == |s| + 1 && InsertAt(s, k, x)[k] == x && RemoveAt(InsertAt(s, k, x), k) == s
  {
  }

  lemma RemoveUndone<T>(s: seq<T>, k: nat)
    requires k < |s|
    ensures |RemoveAt(s, k)| == |s| - 1 && InsertAt(RemoveAt(s, k), k, s[k]) == s
  {
  }

  /** Removing at an index undoes an insert at the same index, and inserting there undoes a removal. */
  lemma InsertRemoveInverse<T>(s: seq<T>, index: int, x: T)
    ensures
      var r := InsertAt(s, InsertPosition(index, |s|), x);
      |r| == |s| + 1 && r[Clamp(index, |r|)] == x && RemoveAt(r, Clamp(index, |r|)) == s
    ensures s != [] ==>
      var k := Clamp(index, |s|);
      |RemoveAt(s, k)| == |s| - 1 && InsertAt(RemoveAt(s, k), k, s[k]) == s
  {
    hide InsertAt, RemoveAt;
    InsertUndone(s, InsertPosition(index, |s|), x);
    if s != [] { RemoveUndone(s, Clamp(index, |s|)); }
  }

  /** Index of the first element satisfying `p`, or -1. */
  function FirstIndex<T>(s: seq<T>, p: T -> bool): (r: int)
    ensures -1 <= r < |s|
    ensures r >= 0 ==> p(s[r])
    ensures forall k :: 0 <= k < (if r >= 0 then r else |s|) ==> !p(s[k])
  {
    if s == [] then -1
    else if p(s[0]) then 0
    else
      var rest := FirstIndex(s[1..], p);
      if rest < 0 then -1 else rest + 1
  }

  lemma FirstIndexAt<T>(s: seq<T>, p: T -> bool, k: nat)
    requires k < |s| && p(s[k]) && forall i :: 0 <= i < k ==> !p(s[i])
    ensures FirstIndex(s, p) == k
  {
  }

  lemma FirstIndexNone<T>(s: seq<T>, p: T -> bool)
    requires forall i :: 0 <= i < |s| ==> !p(s[i])
    ensures FirstIndex(s, p) == -1
  {
  }

  /** Two searches that agree position by position find the same position. */
  lemma {:induction false} FirstIndexSame<A, B>(s: seq<A>, p: A -> bool, t: seq<B>, q: B -> bool)
    requires |s| == |t| && forall i :: 0 <= i < |s| ==> (p(s[i]) <==> q(t[i]))
    ensures FirstIndex(s, p) == FirstIndex(t, q)
  {
    if s != [] && !p(s[0]) {
      FirstIndexSame(s[1..], p, t[1..], q);
    }
  }

  /** The elements `dpl_remove_element` takes for `element`: the same pointer, or equal under the callback. */
  ghost function Matches<T>(element: T, compare: (T, T) -> int): T -> bool {
    x => element == x || compare(x, element) == 0
  }

  /** A removal by element takes the first one that is the element itself or equal to it under the callback, if there is one. */
  lemma FirstMatch<T>(s: seq<T>, element: T, compare: (T, T) -> int)
    ensures
      var k := FirstIndex(s, Matches(element, compare));
      && (k == -1 <==> forall i :: 0 <= i < |s| ==> s[i] != element && compare(s[i], element) != 0)
      && (k >= 0 ==>
            && (s[k] == element || compare(s[k], element) == 0)
            && forall i :: 0 <= i < k ==> s[i] != element && compare(s[i], element) != 0)
  {
    assert forall i :: 0 <= i < |s| && (s[i] == element || compare(s[i], element) == 0) ==> Matches(element, compare)(s[i]);
  }

  /** `dpl_is_sorted`. */
  ghost predicate Sorted<T>(s: seq<T>, compare: (T, T) -> int) {
    forall i :: 0 <= i < |s| - 1 ==> compare(s[i], s[i + 1]) <= 0
  }

  /** Where `dpl_insert_sorted` puts `x`: before the first element other than the last that is not below it, or at the end. */
  ghost function SortedPosition<T>(s: seq<T>, x: T, compare: (T, T) -> int): (k: nat)
    ensures k <= |s|
  {
    var found := if s == [] then -1 else FirstIndex(s[..|s| - 1], y => compare(x, y) < 1);
    if found == -1 then |s| else found
  }
}
