/** The double-ended token queue used by the recursive-descent parser, and
    the integer membership search that sits beside it. The Go queue wraps a
    doubly linked list; here its contents are the sequence `items`, front
    first. */
module Queues {
  import opened Wrappers

  /** Linear search over a slice of integers. */
  method IsContainInt(items: seq<int>, item: int) returns (b: bool)
    ensures b <==> item in items
  {
    var i := 0;
    while i < |items|
      invariant 0 <= i <= |items|
      invariant item !in items[..i]
    {
      if items[i] == item {
        return true;
      }
      i := i + 1;
    }
    assert items[..i] == items;
    return false;
  }

  class Queue<T> {
    /** The elements, front first. */
    var items: seq<T>

    /** `New`: an empty queue. */
    constructor()
      ensures items == []
    {
      items := [];
    }

    method PushBack(value: T)
      modifies this
      ensures items == old(items) + [value]
    {
      items := items + [value];
    }

    method PushFront(value: T)
      modifies this
      ensures items == [value] + old(items)
    {
      items := [value] + items;
    }

    /** The first element, or nothing when the queue is empty. */
    function Front(): (r: Option<T>)
      reads this
      ensures r.None? <==> |items| == 0
      ensures r.Some? ==> r.value == items[0]
    {
      if |items| > 0 then Some(items[0]) else None
    }

    /** The last element, or nothing when the queue is empty. */
    function Back(): (r: Option<T>)
      reads this
      ensures r.None? <==> |items| == 0
      ensures r.Some? ==> r.value == items[|items| - 1]
    {
      if |items| > 0 then Some(items[|items| - 1]) else None
    }

    /** Removes and returns the first element; an empty queue stays as it is. */
    method Pop() returns (r: Option<T>)
      modifies this
      ensures r == old(Front())
      ensures |old(items)| == 0 ==> items == old(items)
      ensures |old(items)| > 0 ==> items == old(items)[1..]
    {
      if |items| > 0 {
        r := Some(items[0]);
        items := items[1..];
      } else {
        r := None;
      }
    }

    function Size(): (n: nat)
      reads this
      ensures n == |items|
    {
      |items|
    }

    function Empty(): (b: bool)
      reads this
      ensures b <==> Size() == 0
      ensures b <==> Front().None?
    {
      |items| == 0
    }

    /** Pops until the queue is empty. */
    method Clear()
      modifies this
      ensures items == []
    {
      while !Empty()
        decreases |items|
      {
        var dropped := Pop();
      }
    }

    /** Pushing to the front and popping gives the value back and restores the queue. */
    method PushFrontThenPop(value: T) returns (r: Option<T>)
      modifies this
      ensures r == Some(value)
      ensures items == old(items)
    {
      PushFront(value);
      r := Pop();
      assert items == ([value] + old(items))[1..];
    }

    /** Pushing to the back of an empty queue and popping also round-trips. */
    method PushBackThenPop(value: T) returns (r: Option<T>)
      requires items == []
      modifies this
      ensures r == Some(value)
      ensures items == []
    {
      PushBack(value);
      r := Pop();
    }
  }
}
