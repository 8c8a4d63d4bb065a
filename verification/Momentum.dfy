/** Momentum scrolling (src/core/kext/RemapFunc/PointingRelativeToScroll.cpp:283-325): every tick emits the front of a
    queue and queues half of it again, until nothing is left.  However items interleave, an item emits an exact total.
 */
module Momentum {
  import opened Modifiers

  datatype Delta = Delta(delta1: int, delta2: int)
  {
    /** Axis 1 or axis 2. */
    function On(first: bool): int { if first then delta1 else delta2 }
  }

  function Abs(d: int): nat { if d >= 0 then d else -d }

  function Sign(d: int): int { if d > 0 then 1 else if d < 0 then -1 else 0 }

  /** C's division by two, which truncates toward zero. */
  function Half(d: int): int { if d >= 0 then d / 2 else -(-d / 2) }

  /** All that one axis of an item will emit. */
  function Total(d: int): int
    decreases Abs(d)
  {
    if d == 0 then 0 else d + Total(Half(d))
  }

  function PopCount(n: nat): nat { if n == 0 then 0 else n % 2 + PopCount(n / 2) }

  /** The total in closed form. */
  lemma {:induction false} TotalClosed(d: int)
    ensures Total(d) == Sign(d) * (2 * Abs(d) - PopCount(Abs(d)))
    decreases Abs(d)
  {
    if d != 0 {
      TotalClosed(Half(d));
      assert Abs(Half(d)) == Abs(d) / 2;
      if Abs(d) == 1 {
        assert PopCount(0) == 0;
      }
    }
  }

  lemma {:induction false} PopCountPositive(n: nat)
    requires n > 0
    ensures PopCount(n) >= 1
  {
    if n % 2 == 0 {
      PopCountPositive(n / 2);
    }
  }

  lemma {:induction false} PopCountBound(n: nat)
    ensures PopCount(n) <= n
  {
    if n > 0 {
      PopCountBound(n / 2);
    }
  }

  /** It stays below twice the first delta, and never changes direction. */
  lemma TotalBound(d: int)
    requires d != 0
    ensures Abs(d) <= Abs(Total(d)) < 2 * Abs(d) && Sign(Total(d)) == Sign(d)
  {
    TotalClosed(d);
    PopCountPositive(Abs(d));
    PopCountBound(Abs(d));
  }

  // ---------------------------------------------------------------------------------------------
  // Queues

  /** The ticks an item needs: one for each halving and one for the zero at the end. */
  function Ticks(item: Delta): nat
    decreases Abs(item.delta1) + Abs(item.delta2)
  {
    if item.delta1 == 0 && item.delta2 == 0 then 1 else 1 + Ticks(Delta(Half(item.delta1), Half(item.delta2)))
  }

  function Work(queue: seq<Delta>): nat {
    if queue == [] then 0 else Ticks(queue[0]) + Work(queue[1..])
  }

  /** What a queue will emit on an axis. */
  function Pending(queue: seq<Delta>, first: bool): int {
    if queue == [] then 0 else Total(queue[0].On(first)) + Pending(queue[1..], first)
  }

  /** The same in closed form. */
  function Closed(queue: seq<Delta>, first: bool): int {
    if queue == [] then 0
    else
      var d := queue[0].On(first);
      Sign(d) * (2 * Abs(d) - PopCount(Abs(d))) + Closed(queue[1..], first)
  }

  lemma {:induction false} PendingClosed(queue: seq<Delta>, first: bool)
    ensures Pending(queue, first) == Closed(queue, first)
  {
    if queue != [] {
      TotalClosed(queue[0].On(first));
      PendingClosed(queue[1..], first);
    }
  }

  function Sum(items: seq<Delta>, first: bool): int {
    if items == [] then 0 else items[0].On(first) + Sum(items[1..], first)
  }

  function Signed(reverse: bool, d: int): int { if reverse then -d else d }

  lemma {:induction false} WorkAppend(queue: seq<Delta>, item: Delta)
    ensures Work(queue + [item]) == Work(queue) + Ticks(item)
  {
    if queue == [] {
      assert queue + [item] == [item] && [item][1..] == [];
    } else {
      WorkAppend(queue[1..], item);
      assert (queue + [item])[1..] == queue[1..] + [item];
    }
  }

  lemma {:induction false} PendingAppend(queue: seq<Delta>, item: Delta, first: bool)
    ensures Pending(queue + [item], first) == Pending(queue, first) + Total(item.On(first))
  {
    if queue == [] {
      assert queue + [item] == [item] && [item][1..] == [];
    } else {
      PendingAppend(queue[1..], item, first);
      assert (queue + [item])[1..] == queue[1..] + [item];
    }
  }

  lemma {:induction false} SumAppend(items: seq<Delta>, item: Delta, first: bool)
    ensures Sum(items + [item], first) == Sum(items, first) + item.On(first)
  {
    if items == [] {
      assert items + [item] == [item] && [item][1..] == [];
    } else {
      SumAppend(items[1..], item, first);
      assert (items + [item])[1..] == items[1..] + [item];
    }
  }

  /** The modifiers are changed for one event only: the temporary counters come back to where they were. */
  lemma TemporaryRestored(items: seq<Item>, from: set<ModifierFlag>, to: set<ModifierFlag>)
    ensures var during := Applied(Applied(items, TemporaryDecrease, ZERO, from), TemporaryIncrease, ZERO, to);
            Applied(Applied(during, TemporaryDecrease, ZERO, to), TemporaryIncrease, ZERO, from) == items
  {
    var during := Applied(Applied(items, TemporaryDecrease, ZERO, from), TemporaryIncrease, ZERO, to);
    var after := Applied(Applied(during, TemporaryDecrease, ZERO, to), TemporaryIncrease, ZERO, from);
    forall i | 0 <= i < |items| ensures after[i] == items[i] {
    }
  }

  class PointingRelativeToScroll {
    var queue: seq<Delta>
    /** The scroll events fired so far. */
    var emitted: seq<Delta>
    var timerActive: bool

    ghost predicate Valid()
      reads this
    {
      queue != [] ==> timerActive
    }

    constructor ()
      ensures Valid() && queue == [] && emitted == []
    {
      queue, emitted, timerActive := [], [], false;
    }

    method Push(item: Delta)
      requires Valid()
      modifies this
      ensures Valid() && queue == old(queue) + [item] && emitted == old(emitted)
    {
      queue := queue + [item];
      timerActive := true;
    }

    /** The timer callback.  The two flags reverse the axes, and `momentum` keeps items going. */
    method Tick(reverse1: bool, reverse2: bool, momentum: bool)
      requires Valid() && timerActive
      modifies this
      ensures Valid()
      ensures old(queue) == [] ==> queue == [] && emitted == old(emitted)
      ensures old(queue) != [] ==>
        var d1, d2 := old(queue)[0].delta1, old(queue)[0].delta2;
        emitted == old(emitted) + [Delta(Signed(reverse1, d1), Signed(reverse2, d2))] &&
        queue == if momentum && (d1 != 0 || d2 != 0) then old(queue)[1..] + [Delta(Half(d1), Half(d2))] else old(queue)[1..]
    {
      timerActive := false;
      if queue == [] {
        return;
      }
      var d1, d2 := queue[0].delta1, queue[0].delta2;
      queue := queue[1..];
      emitted := emitted + [Delta(Signed(reverse1, d1), Signed(reverse2, d2))];
      if momentum && (d1 != 0 || d2 != 0) {
        queue := queue + [Delta(Half(d1), Half(d2))];
      }
      timerActive := true;
    }

    /** Without new input the queue drains after exactly its work in ticks, having emitted exactly what was pending. */
    method Drain(reverse1: bool, reverse2: bool) returns (ticks: nat)
      requires Valid()
      modifies this
      ensures Valid() && queue == [] && ticks == Work(old(queue))
      ensures Sum(emitted, true) == Sum(old(emitted), true) + Signed(reverse1, Closed(old(queue), true))
      ensures Sum(emitted, false) == Sum(old(emitted), false) + Signed(reverse2, Closed(old(queue), false))
    {
      ticks := 0;
      PendingClosed(queue, true);
      PendingClosed(queue, false);
      while queue != []
        invariant Valid() && ticks + Work(queue) == Work(old(queue))
        invariant Sum(emitted, true) + Signed(reverse1, Pending(queue, true)) ==
                  Sum(old(emitted), true) + Signed(reverse1, Pending(old(queue), true))
        invariant Sum(emitted, false) + Signed(reverse2, Pending(queue, false)) ==
                  Sum(old(emitted), false) + Signed(reverse2, Pending(old(queue), false))
        decreases Work(queue)
      {
        Progress(queue, true);
        Progress(queue, false);
        ghost var fired := Delta(Signed(reverse1, queue[0].delta1), Signed(reverse2, queue[0].delta2));
        SumAppend(emitted, fired, true);
        SumAppend(emitted, fired, false);
        Tick(reverse1, reverse2, true);
        ticks := ticks + 1;
      }
    }
  }

  /** One tick takes one unit of work and what it emits. */
  lemma Progress(queue: seq<Delta>, first: bool)
    requires queue != []
    ensures var d1, d2 := queue[0].delta1, queue[0].delta2;
            var next := if d1 != 0 || d2 != 0 then queue[1..] + [Delta(Half(d1), Half(d2))] else queue[1..];
            Work(next) + 1 == Work(queue) && Pending(queue, first) == queue[0].On(first) + Pending(next, first)
  {
    var half := Delta(Half(queue[0].delta1), Half(queue[0].delta2));
    WorkAppend(queue[1..], half);
    PendingAppend(queue[1..], half, first);
  }
}
