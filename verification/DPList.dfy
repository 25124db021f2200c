/**
 The doubly linked list of `lab_final/lib/dplist.c`.  A list pointer may be NULL, as in the C functions.
 `spine` is the sequence of nodes from `head` on and `contents` their elements.
 */
module DPList {
  import opened Basics
  import opened ListSpec

  class Node<T> {
    var prev: Node?<T>
    var next: Node?<T>
    var element: T

    constructor (element: T)
      ensures this.element == element && prev == null && next == null
    {
      this.element := element;
      prev, next := null, null;
    }
  }

  class List<T(==)> {
    var head: Node?<T>
    const copy: T -> T
    const compare: (T, T) -> int
    ghost var spine: seq<Node<T>>
    ghost var contents: seq<T>
    ghost var freed: seq<T>      // the elements passed to element_free so far

    ghost predicate Valid()
      reads this, spine
    {
      && head == (if |spine| == 0 then null else spine[0])
      && (forall i {:trigger spine[i].prev} :: 0 <= i < |spine| ==> spine[i].prev == if i == 0 then null else spine[i - 1])
      && (forall i {:trigger spine[i].next} :: 0 <= i < |spine| ==> spine[i].next == if i == |spine| - 1 then null else spine[i + 1])
      && (forall i, j :: 0 <= i < j < |spine| ==> spine[i] != spine[j])
      && |contents| == |spine|
      && (forall i {:trigger spine[i].element} {:trigger contents[i]} :: 0 <= i < |spine| ==> spine[i].element == contents[i])
    }

    /** `dpl_create`. */
    constructor (copy: T -> T, compare: (T, T) -> int)
      ensures Valid() && contents == [] && spine == [] && freed == []
      ensures this.copy == copy && this.compare == compare
    {
      head := null;
      this.copy := copy;
      this.compare := compare;
      spine, contents, freed := [], [], [];
    }
  }

  ghost function Nodes<T>(list: List?<T>): set<object>
    reads list
  {
    if list == null then {} else set n | n in list.spine
  }

  ghost predicate ValidOrNull<T>(list: List?<T>)
    reads list, Nodes(list)
  {
    list != null ==> list.Valid()
  }

  /** Index of a node in the list, or -1. */
  ghost function Position<T>(spine: seq<Node<T>>, reference: Node?<T>): (r: int)
    ensures -1 <= r < |spine|
    ensures if r >= 0 then spine[r] == reference else reference !in spine
  {
    FirstIndex(spine, node => node == reference)
  }

  lemma PositionAt<T>(spine: seq<Node<T>>, reference: Node?<T>, k: nat)
    requires k < |spine| && spine[k] == reference
    requires forall i :: 0 <= i < k ==> spine[i] != reference
    ensures Position(spine, reference) == k
  {
    FirstIndexAt(spine, node => node == reference, k);
  }

  lemma PositionNone<T>(spine: seq<Node<T>>, reference: Node?<T>)
    requires reference !in spine
    ensures Position(spine, reference) == -1
  {
    FirstIndexNone(spine, node => node == reference);
  }

  ghost function Following<T>(spine: seq<Node<T>>, reference: Node?<T>): Node?<T> {
    var k := Position(spine, reference);
    if k == -1 || k + 1 == |spine| then null else spine[k + 1]
  }

  ghost function Preceding<T>(spine: seq<Node<T>>, reference: Node?<T>): Node?<T> {
    var k := Position(spine, reference);
    if k <= 0 then null else spine[k - 1]
  }

  method Size<T>(list: List?<T>) returns (n: int)
    requires ValidOrNull(list)
    ensures n == if list == null then -1 else |list.contents|
  {
    n := 0;
    if list == null { return -1; }
    if list.head == null { return 0; }
    var dummy := list.head;
    while dummy.next != null
      invariant 0 <= n < |list.spine| && dummy == list.spine[n]
      decreases |list.spine| - n
    {
      n := n + 1;
      dummy := dummy.next;
    }
    n := n + 1;
  }

  method GetReferenceAtIndex<T>(list: List?<T>, index: int) returns (r: Node?<T>)
    requires ValidOrNull(list)
    ensures list == null || list.contents == [] ==> r == null
    ensures list != null && list.contents != [] ==> r == list.spine[Clamp(index, |list.spine|)]
  {
    if list == null { return null; }
    if list.head == null { return null; }
    var dummy, count := list.head, 0;
    while dummy.next != null
      invariant 0 <= count < |list.spine| && dummy == list.spine[count]
      invariant count == 0 || count <= index
      decreases |list.spine| - count
    {
      if count >= index { return dummy; }
      dummy := dummy.next;
      count := count + 1;
    }
    return dummy;
  }

  method GetElementAtIndex<T>(list: List?<T>, index: int) returns (r: Option<T>)
    requires ValidOrNull(list)
    ensures r == if list == null || list.contents == [] then None else Some(list.contents[Clamp(index, |list.contents|)])
  {
    if list == null { return None; }
    if list.head == null { return None; }
    if index <= 0 { return Some(list.head.element); }
    var dummy, count := list.head, 0;
    while dummy.next != null
      invariant 0 <= count < |list.spine| && dummy == list.spine[count]
      invariant count <= index
      decreases |list.spine| - count
    {
      if count >= index { return Some(dummy.element); }
      dummy := dummy.next;
      count := count + 1;
    }
    return Some(dummy.element);
  }

  method GetIndexOfElement<T>(list: List?<T>, element: T) returns (r: int)
    requires ValidOrNull(list)
    ensures r == if list == null then -1 else FirstIndex(list.contents, x => list.compare(x, element) == 0)
  {
    if list == null { return -1; }
    if list.head == null { return -1; }
    var dummy, count := list.head, 0;
    ghost var p := x => list.compare(x, element) == 0;
    while dummy.next != null
      invariant 0 <= count < |list.spine| && dummy == list.spine[count]
      invariant forall k :: 0 <= k < count ==> !p(list.contents[k])
      decreases |list.spine| - count
    {
      if list.compare(dummy.element, element) == 0 { FirstIndexAt(list.contents, p, count); return count; }
      dummy := dummy.next;
      count := count + 1;
    }
    if list.compare(dummy.element, element) == 0 { FirstIndexAt(list.contents, p, count); return count; }
    FirstIndexNone(list.contents, p);
    return -1;
  }

  /** The insert cases at the start of the list, which may be empty. */
  method LinkFront<T>(list: List<T>, node: Node<T>)
    requires list.Valid() && node !in list.spine && node.prev == null && node.next == null
    modifies list`head, list`spine, list`contents, list.spine, node
    ensures list.Valid() && list.spine == [node] + old(list.spine) && list.contents == [node.element] + old(list.contents)
    ensures node.element == old(node.element)
  {
    if list.head == null {
      list.head := node;
    } else {
      node.next := list.head;
      list.head.prev := node;
      list.head := node;
    }
    list.spine := [node] + list.spine;
    list.contents := [node.element] + list.contents;
  }

  /** The insert case in the middle: `node` goes before `ref`, the node at `k`. */
  method LinkBefore<T>(list: List<T>, node: Node<T>, ref: Node<T>, ghost k: nat)
    requires list.Valid() && node !in list.spine && 0 < k < |list.spine| && ref == list.spine[k]
    modifies list`spine, list`contents, list.spine, node
    ensures list.Valid() && list.spine == InsertAt(old(list.spine), k, node)
    ensures list.contents == InsertAt(old(list.contents), k, node.element) && node.element == old(node.element)
  {
    node.prev := ref.prev;
    node.next := ref;
    ref.prev.next := node;
    ref.prev := node;
    list.spine := InsertAt(list.spine, k, node);
    list.contents := InsertAt(list.contents, k, node.element);
  }

  /** The insert case at the end: `node` goes after `last`. */
  method LinkAfterLast<T>(list: List<T>, node: Node<T>, last: Node<T>)
    requires list.Valid() && node !in list.spine && |list.spine| > 0 && last == list.spine[|list.spine| - 1] && node.next == null
    modifies list`spine, list`contents, list.spine, node
    ensures list.Valid() && list.spine == old(list.spine) + [node]
    ensures list.contents == old(list.contents) + [node.element] && node.element == old(node.element)
  {
    node.prev := last;
    last.next := node;
    list.spine := list.spine + [node];
    list.contents := list.contents + [node.element];
  }

  method InsertAtIndex<T>(list: List?<T>, element: T, index: int, insertCopy: bool) returns (r: List?<T>)
    requires ValidOrNull(list)
    modifies list, Nodes(list)
    ensures r == list
    ensures list != null ==>
      var k := InsertPosition(index, old(|list.contents|));
      && list.Valid()
      && list.contents == InsertAt(old(list.contents), k, if insertCopy then list.copy(element) else element)
      && |list.spine| == old(|list.spine|) + 1 && fresh(list.spine[k])
      && list.spine == InsertAt(old(list.spine), k, list.spine[k])
      && list.freed == old(list.freed)
  {
    if list == null { return null; }
    var node := new Node<T>(if insertCopy then list.copy(element) else element);
    if list.head == null || index <= 0 {
      LinkFront(list, node);
    } else {
      var ref := GetReferenceAtIndex(list, index);
      var size := Size(list);
      if index < size {
        LinkBefore(list, node, ref, index);
      } else {
        LinkAfterLast(list, node, ref);
      }
    }
    return list;
  }

  // ----- references -----

  method GetElementAtReference<T>(list: List?<T>, reference: Node?<T>) returns (r: Option<T>)
    requires ValidOrNull(list)
    ensures r ==
      if list == null || Position(list.spine, reference) == -1 then None
      else Some(list.contents[Position(list.spine, reference)])
  {
    if list == null { return None; }
    if list.head == null { return None; }
    if reference == null { PositionNone(list.spine, reference); return None; }
    var dummy := list.head;
    ghost var k := 0;
    while dummy.next != null
      invariant 0 <= k < |list.spine| && dummy == list.spine[k]
      invariant forall i :: 0 <= i < k ==> list.spine[i] != reference
      decreases |list.spine| - k
    {
      if dummy == reference { PositionAt(list.spine, reference, k); return Some(dummy.element); }
      dummy := dummy.next;
      k := k + 1;
    }
    if dummy == reference { PositionAt(list.spine, reference, k); return Some(dummy.element); }
    PositionNone(list.spine, reference);
    return None;
  }

  method GetFirstReference<T>(list: List?<T>) returns (r: Node?<T>)
    requires ValidOrNull(list)
    ensures r == if list == null || list.spine == [] then null else list.spine[0]
  {
    if list == null { return null; }
    if list.head == null { return null; }
    return list.head;
  }

  method GetLastReference<T>(list: List?<T>) returns (r: Node?<T>)
    requires ValidOrNull(list)
    ensures r == if list == null || list.spine == [] then null else list.spine[|list.spine| - 1]
  {
    if list == null { return null; }
    if list.head == null { return null; }
    var dummy := list.head;
    ghost var k := 0;
    while dummy.next != null
      invariant 0 <= k < |list.spine| && dummy == list.spine[k]
      decreases |list.spine| - k
    {
      dummy := dummy.next;
      k := k + 1;
    }
    return dummy;
  }

  method GetIndexOfReference<T>(list: List?<T>, reference: Node?<T>) returns (r: int)
    requires ValidOrNull(list)
    ensures r == if list == null then -1 else Position(list.spine, reference)
  {
    if list == null { return -1; }
    if list.head == null { return -1; }
    if reference == null { PositionNone(list.spine, reference); return -1; }
    var dummy, count := list.head, 0;
    while dummy.next != null
      invariant 0 <= count < |list.spine| && dummy == list.spine[count]
      invariant forall i :: 0 <= i < count ==> list.spine[i] != reference
      decreases |list.spine| - count
    {
      if reference == dummy { PositionAt(list.spine, reference, count); return count; }
      dummy := dummy.next;
      count := count + 1;
    }
    if reference == dummy { PositionAt(list.spine, reference, count); return count; }
    PositionNone(list.spine, reference);
    return -1;
  }

  method GetNextReference<T>(list: List?<T>, reference: Node?<T>) returns (r: Node?<T>)
    requires ValidOrNull(list)
    ensures r == if list == null then null else Following(list.spine, reference)
  {
    if list == null { return null; }
    if list.head == null { return null; }
    if reference == null { PositionNone(list.spine, reference); return null; }
    var index := GetIndexOfReference(list, reference);
    if index == -1 { return null; }
    if reference.next == null { return null; }
    return reference.next;
  }

  method GetPreviousReference<T>(list: List?<T>, reference: Node?<T>) returns (r: Node?<T>)
    requires ValidOrNull(list)
    ensures r == if list == null then null else Preceding(list.spine, reference)
  {
    if list == null { return null; }
    if list.head == null { return null; }
    if reference == null { PositionNone(list.spine, reference); return null; }
    var index := GetIndexOfReference(list, reference);
    if index == -1 { return null; }
    if reference.prev == null { return null; }
    return reference.prev;
  }

  /** Elements are compared as pointers here, not with the callback. */
  method GetReferenceOfElement<T(==)>(list: List?<T>, element: T) returns (r: Node?<T>)
    requires ValidOrNull(list)
    ensures r ==
      if list == null || FirstIndex(list.contents, x => x == element) == -1 then null
      else list.spine[FirstIndex(list.contents, x => x == element)]
  {
    if list == null { return null; }
    if list.head == null { return null; }
    var dummy := list.head;
    ghost var k := 0;
    ghost var p := x => x == element;
    while dummy.next != null
      invariant 0 <= k < |list.spine| && dummy == list.spine[k]
      invariant forall i :: 0 <= i < k ==> !p(list.contents[i])
      decreases |list.spine| - k
    {
      if dummy.element == element { FirstIndexAt(list.contents, p, k); return dummy; }
      dummy := dummy.next;
      k := k + 1;
    }
    if dummy.element == element { FirstIndexAt(list.contents, p, k); return dummy; }
    FirstIndexNone(list.contents, p);
    return null;
  }

  /** Index and reference lookups undo each other, on every index and on every node of the list. */
  lemma ReferencesInvertIndices<T>(list: List<T>, k: nat)
    requires list.Valid() && k < |list.spine|
    ensures Position(list.spine, list.spine[Clamp(k, |list.spine|)]) == k
    ensures Following(list.spine, list.spine[k]) == list.spine[k].next
    ensures Preceding(list.spine, list.spine[k]) == list.spine[k].prev
    ensures k + 1 < |list.spine| ==> Preceding(list.spine, Following(list.spine, list.spine[k])) == list.spine[k]
    ensures k > 0 ==> Following(list.spine, Preceding(list.spine, list.spine[k])) == list.spine[k]
  {
    PositionAt(list.spine, list.spine[k], k);
    if k + 1 < |list.spine| { PositionAt(list.spine, list.spine[k + 1], k + 1); }
    if k > 0 { PositionAt(list.spine, list.spine[k - 1], k - 1); }
  }

  // ----- insertion relative to a reference, and sorted insertion -----

  method InsertAtReference<T>(list: List?<T>, element: T, reference: Node?<T>, insertCopy: bool) returns (r: List?<T>)
    requires ValidOrNull(list)
    modifies list, Nodes(list)
    ensures r == if reference == null then null else list
    ensures list != null ==>
      var k := Position(old(list.spine), reference);
      && list.Valid()
      && list.freed == old(list.freed) && fresh(Nodes(list) - old(Nodes(list)))
      && list.contents ==
        (if k == -1 then old(list.contents)
         else InsertAt(old(list.contents), k, if insertCopy then list.copy(element) else element))
      && (if k == -1 then list.spine == old(list.spine)
          else |list.spine| == old(|list.spine|) + 1 && list.spine == InsertAt(old(list.spine), k, list.spine[k]))
  {
    if list == null { return null; }
    if reference == null { PositionNone(list.spine, reference); return null; }
    if list.head == null { return list; }
    var count := GetIndexOfReference(list, reference);  // the same loop over the nodes
    if count != -1 {
      var _ := InsertAtIndex(list, element, count, insertCopy);
    }
    return list;
  }

  method IsSorted<T>(list: List?<T>) returns (r: bool)
    requires ValidOrNull(list)
    ensures r <==> list != null && Sorted(list.contents, list.compare)
  {
    if list == null { return false; }
    if list.head == null { return true; }
    var dummy := list.head;
    ghost var k := 0;
    while dummy.next != null
      invariant 0 <= k < |list.spine| && dummy == list.spine[k]
      invariant forall i :: 0 <= i < k ==> list.compare(list.contents[i], list.contents[i + 1]) <= 0
      decreases |list.spine| - k
    {
      if list.compare(dummy.element, dummy.next.element) > 0 {
        assert list.compare(list.contents[k], list.contents[k + 1]) > 0;
        return false;
      }
      dummy := dummy.next;
      k := k + 1;
    }
    return true;
  }

  /** The search loop of `dpl_insert_sorted`: it stops before the last node and passes the length when nothing stopped it. */
  method SortedIndex<T>(list: List<T>, element: T) returns (count: nat)
    requires list.Valid() && list.contents != []
    ensures count == SortedPosition(list.contents, element, list.compare)
  {
    var dummy := list.head;
    count := 0;
    ghost var s, p := list.contents, x => list.compare(element, x) < 1;
    while dummy.next != null
      invariant 0 <= count < |list.spine| && dummy == list.spine[count]
      invariant forall i :: 0 <= i < count ==> !p(s[i])
      decreases |list.spine| - count
    {
      if list.compare(element, dummy.element) < 1 {
        FirstIndexAt(s[..|s| - 1], p, count);
        return count;
      }
      dummy := dummy.next;
      count := count + 1;
    }
    FirstIndexNone(s[..|s| - 1], p);
    count := count + 1;
  }

  method InsertSorted<T>(list: List?<T>, element: T, insertCopy: bool) returns (r: List?<T>)
    requires ValidOrNull(list)
    modifies list, Nodes(list)
    ensures r == if list != null && Sorted(old(list.contents), list.compare) then list else null
    ensures list != null ==>
      && list.Valid()
      && list.freed == old(list.freed) && fresh(Nodes(list) - old(Nodes(list)))
      && var k := SortedPosition(old(list.contents), element, list.compare);
        if Sorted(old(list.contents), list.compare) then
          && list.contents == InsertAt(old(list.contents), k, if insertCopy then list.copy(element) else element)
          && |list.spine| == old(|list.spine|) + 1 && list.spine == InsertAt(old(list.spine), k, list.spine[k])
        else list.contents == old(list.contents) && list.spine == old(list.spine)
  {
    if list == null { return null; }
    var sorted := IsSorted(list);
    if sorted {
      if list.head == null {
        var _ := InsertAtIndex(list, element, 0, insertCopy);
        return list;
      }
      var count := SortedIndex(list, element);
      var _ := InsertAtIndex(list, element, count, insertCopy);
      return list;
    }
    return null;
  }

  // ----- removal -----

  /** The removal case at the start of the list. */
  method UnlinkFront<T>(list: List<T>) returns (temp: Node<T>)
    requires list.Valid() && list.spine != []
    modifies list`head, list`spine, list`contents, list.spine
    ensures list.Valid() && list.spine == old(list.spine)[1..] && list.contents == old(list.contents)[1..]
    ensures temp == old(list.spine)[0] && temp.element == old(list.contents)[0]
  {
    temp := list.head;
    if list.head.next != null {
      list.head.next.prev := null;
      list.head := list.head.next;
    } else {
      list.head := null;
    }
    list.spine := list.spine[1..];
    list.contents := list.contents[1..];
  }

  /** The removal case in the middle of the list. */
  method UnlinkMiddle<T>(list: List<T>, temp: Node<T>, ghost k: nat)
    requires list.Valid() && 0 < k < |list.spine| - 1 && temp == list.spine[k]
    modifies list`spine, list`contents, list.spine
    ensures list.Valid() && list.spine == RemoveAt(old(list.spine), k) && list.contents == RemoveAt(old(list.contents), k)
    ensures temp.element == old(list.contents)[k]
  {
    temp.prev.next := temp.next;
    temp.next.prev := temp.prev;
    list.spine := RemoveAt(list.spine, k);
    list.contents := RemoveAt(list.contents, k);
  }

  /** The removal case at the end of the list. */
  method UnlinkLast<T>(list: List<T>, temp: Node<T>)
    requires list.Valid() && list.spine != [] && temp == list.spine[|list.spine| - 1]
    modifies list`head, list`spine, list`contents, list.spine
    ensures list.Valid()
    ensures list.spine == old(list.spine)[..|old(list.spine)| - 1]
    ensures list.contents == old(list.contents)[..|old(list.contents)| - 1]
    ensures temp.element == old(list.contents)[|old(list.contents)| - 1]
  {
    if temp.prev == null {
      list.head := null;
    } else {
      temp.prev.next := null;
    }
    list.spine := list.spine[..|list.spine| - 1];
    list.contents := list.contents[..|list.contents| - 1];
  }

  /**
   `crashed` stands for the NULL dereference of the code: exactly for the index of the last of several nodes,
   which has no next node whose `prev` could be set.
   */
  method RemoveAtIndex<T>(list: List?<T>, index: int, freeElement: bool) returns (r: List?<T>, crashed: bool)
    requires ValidOrNull(list)
    modifies list, Nodes(list)
    ensures crashed <==> list != null && index == old(|list.contents|) - 1 >= 1
    ensures !crashed ==> r == list
    ensures list != null && !crashed ==> list.Valid()
    ensures list != null && !crashed && old(list.contents) == [] ==>
      list.spine == old(list.spine) && list.contents == old(list.contents) && list.freed == old(list.freed)
    ensures list != null && !crashed && old(list.contents) != [] ==>
      var k := Clamp(index, old(|list.contents|));
      && list.spine == RemoveAt(old(list.spine), k)
      && list.contents == RemoveAt(old(list.contents), k)
      && list.freed == old(list.freed) + if freeElement then [old(list.contents)[k]] else []
  {
    if list == null { return null, false; }
    if list.head == null { return list, false; }
    var temp: Node<T>;
    if index <= 0 {
      temp := UnlinkFront(list);
    } else {
      temp := GetReferenceAtIndex(list, index);
      var size := Size(list);
      if index < size {
        if temp.next == null {
          temp.prev.next := temp.next;
          return list, true;
        }
        UnlinkMiddle(list, temp, index);
      } else {
        UnlinkLast(list, temp);
      }
    }
    if freeElement { list.freed := list.freed + [temp.element]; }
    return list, false;
  }

  /** What `RemoveAtReference` and `RemoveElement` do to a list, given the position they find. */
  twostate predicate Removed<T>(list: List<T>, k: int, freeElement: bool)
    reads list, Nodes(list)
    requires -1 <= k < old(|list.contents|) && old(list.Valid())
  {
    && list.Valid()
    && (k == -1 ==> list.spine == old(list.spine) && list.contents == old(list.contents) && list.freed == old(list.freed))
    && (k >= 0 ==>
        && list.spine == RemoveAt(old(list.spine), k)
        && list.contents == RemoveAt(old(list.contents), k)
        && list.freed == old(list.freed) + if freeElement then [old(list.contents)[k]] else [])
  }

  method RemoveAtReference<T>(list: List?<T>, reference: Node?<T>, freeElement: bool) returns (r: List?<T>)
    requires ValidOrNull(list)
    modifies list, Nodes(list)
    ensures r == if reference == null then null else list
    ensures list != null ==> Removed(list, Position(old(list.spine), reference), freeElement)
  {
    if list == null { return null; }
    if reference == null { PositionNone(list.spine, reference); return null; }
    if list.head == null { return list; }
    var dummy, count := list.head, 0;
    while dummy.next != null
      invariant 0 <= count < |list.spine| && dummy == list.spine[count]
      invariant forall i :: 0 <= i < count ==> list.spine[i] != reference
      decreases |list.spine| - count
    {
      if reference == dummy {
        PositionAt(list.spine, reference, count);
        var _, crashed := RemoveAtIndex(list, count, freeElement);
        assert !crashed;
        return list;
      }
      dummy := dummy.next;
      count := count + 1;
    }
    if reference == dummy {
      PositionAt(list.spine, reference, count);
      count := count + 1;
      var _, crashed := RemoveAtIndex(list, count, freeElement);
      assert !crashed;
      return list;
    }
    PositionNone(list.spine, reference);
    return list;
  }

  /** The search loop of `dpl_remove_element`: the index it passes on, one more for the last node, or -1. */
  method RemovalIndex<T(==)>(list: List<T>, element: T) returns (index: int)
    requires list.Valid() && list.contents != []
    ensures
      var k := FirstIndex(list.contents, Matches(element, list.compare));
      index == if k == |list.contents| - 1 then k + 1 else k
    ensures index == -1 <==> forall i :: 0 <= i < |list.contents| ==> list.contents[i] != element && list.compare(list.contents[i], element) != 0
    ensures index >= 0 ==>
      var x := list.contents[Clamp(index, |list.contents|)];
      x == element || list.compare(x, element) == 0
  {
    var dummy, count := list.head, 0;
    ghost var p := Matches(element, list.compare);
    FirstMatch(list.contents, element, list.compare);
    while dummy.next != null
      invariant 0 <= count < |list.spine| && dummy == list.spine[count]
      invariant forall i :: 0 <= i < count ==> !p(list.contents[i])
      decreases |list.spine| - count
    {
      if element == dummy.element || list.compare(dummy.element, element) == 0 {
        FirstIndexAt(list.contents, p, count);
        return count;
      }
      dummy := dummy.next;
      count := count + 1;
    }
    if element == dummy.element || list.compare(dummy.element, element) == 0 {
      FirstIndexAt(list.contents, p, count);
      return count + 1;
    }
    FirstIndexNone(list.contents, p);
    return -1;
  }

  method RemoveElement<T(==)>(list: List?<T>, element: T, freeElement: bool) returns (r: List?<T>)
    requires ValidOrNull(list)
    modifies list, Nodes(list)
    ensures r == list
    ensures list != null ==>
      Removed(list, FirstIndex(old(list.contents), Matches(element, list.compare)), freeElement)
  {
    if list == null { return null; }
    if list.head == null { return list; }
    var index := RemovalIndex(list, element);
    if index != -1 {
      var _, crashed := RemoveAtIndex(list, index, freeElement);
      assert !crashed;
    }
    return list;
  }

  /** `released` lists the nodes in the order in which they are given back; none is touched afterwards. */
  method Free<T>(list: List?<T>, freeElement: bool) returns (r: List?<T>, ghost released: seq<Node<T>>)
    requires ValidOrNull(list)
    modifies list
    ensures r == null
    ensures list == null ==> released == []
    ensures list != null ==>
      && released == old(list.spine) && list.spine == old(list.spine)
      && list.freed == old(list.freed) + if freeElement then old(list.contents) else []
  {
    released := [];
    if list == null { return null, []; }
    if list.head == null {
      return null, [];
    } else if list.head.next == null {
      if freeElement { list.freed := list.freed + [list.head.element]; }
      return null, [list.head];
    }
    var current := list.head.next;
    if freeElement { list.freed := list.freed + [current.prev.element]; }
    released := released + [current.prev];
    while current.next != null
      invariant list.Valid() && list.spine == old(list.spine) && list.contents == old(list.contents)
      invariant 1 <= |released| < |list.spine| && released == list.spine[..|released|] && current == list.spine[|released|]
      invariant current !in released
      invariant list.freed == old(list.freed) + if freeElement then list.contents[..|released|] else []
      decreases |list.spine| - |released|
    {
      current := current.next;
      if freeElement { list.freed := list.freed + [current.prev.element]; }
      released := released + [current.prev];
    }
    if freeElement { list.freed := list.freed + [current.element]; }
    released := released + [current];
    return null, released;
  }
}
