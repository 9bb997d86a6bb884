/** `ThreadSafeQueue`: each call runs under the queue's own mutex, so it is one atomic step. */
module ThreadSafeQueue {
  import opened Wrappers

  /** The handler the confirmation UI session installs: erase the older half. */
  function DropFrontHalf<T>(items: seq<T>): seq<T> {
    items[|items| / 2..]
  }

  /** What the full-queue handler leaves, given the limit (0 means no limit). */
  function Trimmed<T>(items: seq<T>, max: nat, handler: seq<T> -> seq<T>): seq<T> {
    if max != 0 && max == |items| then handler(items) else items
  }

  /** A push is refused when the handler made no room. */
  predicate Accepts<T>(items: seq<T>, max: nat, handler: seq<T> -> seq<T>) {
    max == 0 || |Trimmed(items, max, handler)| != max
  }

  function Pushed<T>(items: seq<T>, max: nat, handler: seq<T> -> seq<T>, x: T): seq<T> {
    Trimmed(items, max, handler) + (if Accepts(items, max, handler) then [x] else [])
  }

  class Queue<T> {
    const max: nat
    const handler: seq<T> -> seq<T>
    var items: seq<T>

    constructor (max: nat, handler: seq<T> -> seq<T>)
      ensures items == [] && this.max == max && this.handler == handler
    {
      this.max, this.handler, this.items := max, handler, [];
    }

    method DropItemsIfAtCapacity() returns (hasRoom: bool)
      modifies this
      ensures items == Trimmed(old(items), max, handler)
      ensures hasRoom == Accepts(old(items), max, handler)
    {
      if max != 0 && max == |items| {
        items := handler(items);
      }
      hasRoom := !(max != 0 && max == |items|);
    }

    method Push(x: T) returns (pushed: bool)
      modifies this
      ensures pushed == Accepts(old(items), max, handler)
      ensures items == Pushed(old(items), max, handler, x)
    {
      pushed := DropItemsIfAtCapacity();
      if pushed {
        items := items + [x];
      }
    }

    /** `Pop` waits while the queue is empty; `None` stands for "still waiting". */
    method Pop() returns (x: Option<T>)
      modifies this
      ensures old(items) == [] ==> x == None && items == []
      ensures old(items) != [] ==> x == Some(old(items)[0]) && items == old(items)[1..]
    {
      if items == [] {
        return None;
      }
      x, items := Some(items[0]), items[1..];
    }
  }

  /** With the half-dropping handler, a queue within its limit stays within it and keeps a
      suffix of what was pushed; the push is refused exactly when the limit is one and taken. */
  lemma HalfDroppingPush<T>(items: seq<T>, max: nat, x: T)
    requires max == 0 || |items| <= max
    ensures Accepts(items, max, DropFrontHalf) <==> !(max == 1 && |items| == 1)
    ensures Accepts(items, max, DropFrontHalf) ==>
              var q := Pushed(items, max, DropFrontHalf, x);
              && (max == 0 || |q| <= max)
              && |q| <= |items| + 1
              && q == (items + [x])[|items| + 1 - |q|..]
              && (|q| <= |items| ==> |items| == max && |q| == max - max / 2 + 1)
  {
    if Accepts(items, max, DropFrontHalf) {
      var q := Pushed(items, max, DropFrontHalf, x);
      assert q == (items + [x])[|items| + 1 - |q|..];
    }
  }
}
