/** Input scheduling (src/core/kext/Classes/EventInputQueue.cpp): events wait in a queue until a timer fires, and
    while a BlockUntilKeyUp key is down they are held back in a second queue, from which the key's release may be
    moved forward to its press.

    Delivery: every event is fired exactly once and the events of each key keep their order.  Progress: a non-empty
    queue has its timer armed, and every timer step brings both queues closer to empty.
 */
module InputQueue {
  import opened Wrappers
  import opened Sequences
  import opened InputEvents
  import Bouncing

  datatype Pressing = Pressing(key: Key, ignore: bool)

  // ---------------------------------------------------------------------------------------------
  // BlockUntilKeyUp as functions

  function Requeued(s: seq<Item>): (r: seq<Item>)
    ensures |r| == |s|
    ensures forall i :: 0 <= i < |r| ==> r[i] == s[i].(requeued := true)
  {
    seq(|s|, i requires 0 <= i < |s| => s[i].(requeued := true))
  }

  function Without(pressing: seq<Pressing>, key: Key): (r: seq<Pressing>)
    ensures forall p :: p in r <==> p in pressing && p.key != key
  {
    if pressing == [] then []
    else
      var n := |pressing| - 1;
      Without(pressing[..n], key) + if pressing[n].key == key then [] else [pressing[n]]
  }

  function PressingAfter(pressing: seq<Pressing>, event: Event): seq<Pressing>
    requires !event.Other?
  {
    Without(pressing, event.key) + if event.Down? then [Pressing(event.key, false)] else []
  }

  function IgnoreAll(pressing: seq<Pressing>): (r: seq<Pressing>)
    ensures |r| == |pressing|
    ensures forall i :: 0 <= i < |r| ==> r[i] == pressing[i].(ignore := true)
  {
    seq(|pressing|, i requires 0 <= i < |pressing| => pressing[i].(ignore := true))
  }

  /** A blocking key is down, or moves now. */
  predicate NeedToBlock(blockers: set<Key>, pressing: seq<Pressing>, key: Key) {
    key in blockers || exists p :: p in pressing && !p.ignore && p.key in blockers
  }

  predicate HasDown(s: seq<Item>, key: Key) {
    exists i :: 0 <= i < |s| && s[i].event == Down(key)
  }

  /** Some release on hold has no press before it: the key was down when blocking began. */
  predicate HasOrphanUp(s: seq<Item>) {
    exists i :: 0 <= i < |s| && s[i].event.Up? && !HasDown(s[..i], s[i].event.key)
  }

  /** Put a release right behind the latest press of its key, or in front if there is none. */
  function InsertUp(s: seq<Item>, up: Item): seq<Item>
    requires up.event.Up?
  {
    if s == [] then [up]
    else
      var n := |s| - 1;
      if s[n].event == Down(up.event.key) then s + [up]
      else InsertUp(s[..n], up) + [s[n]]
  }

  /** `endBlocking`: the events on hold go back in front of the queue. */
  function Resumed(held: seq<Item>, queue: seq<Item>): seq<Item> { Requeued(held) + queue }

  datatype State = State(queue: seq<Item>, blocked: seq<Item>, pressing: seq<Pressing>)

  /** What happens to the event in front: it may be put on hold, or blocking ends and the held events go back in
      front of the queue.  The flag tells whether something is to be fired now. */
  function Handled(blockers: set<Key>, s: State): (State, bool)
    requires s.queue != []
  {
    var front := s.queue[0];
    if front.requeued || front.event.Other? then (s, true)
    else
      var key, pressing := front.event.key, PressingAfter(s.pressing, front.event);
      if !NeedToBlock(blockers, pressing, key) then
        (State(Resumed(s.blocked, s.queue), [], pressing), true)
      else if front.event.Up? && key in blockers then
        (State(Resumed(InsertUp(s.blocked, front), s.queue[1..]), [], pressing), true)
      else if front.event.Up? && !HasOrphanUp(s.blocked) && HasDown(s.blocked, key) then
        (State(Resumed(s.blocked + [front], s.queue[1..]), [], IgnoreAll(pressing)), true)
      else
        (State(s.queue[1..], s.blocked + [front], pressing), false)
  }

  // ---------------------------------------------------------------------------------------------
  // Delivery

  datatype Stamp = Stamp(event: Event, id: nat)

  /** The events of one key (or, for None, those of no key) in the order they stand. */
  function Of(s: seq<Item>, key: Option<Key>): seq<Stamp> { OfFirst(s, |s|, key) }

  function OfFirst(s: seq<Item>, n: nat, key: Option<Key>): seq<Stamp>
    requires n <= |s|
  {
    if n == 0 then [] else OfFirst(s, n - 1, key) + StampFor(s[n - 1], key)
  }

  function StampFor(item: Item, key: Option<Key>): seq<Stamp> {
    if item.event.KeyOf() == key then [Stamp(item.event, item.id)] else []
  }

  lemma {:induction false} OfPrefix(s: seq<Item>, t: seq<Item>, n: nat, key: Option<Key>)
    requires n <= |s| && n <= |t| && forall i :: 0 <= i < n ==> StampFor(s[i], key) == StampFor(t[i], key)
    ensures OfFirst(s, n, key) == OfFirst(t, n, key)
  {
    if n > 0 {
      OfPrefix(s, t, n - 1, key);
    }
  }

  lemma {:induction false} OfAppendFirst(a: seq<Item>, b: seq<Item>, m: nat, key: Option<Key>)
    requires m <= |b|
    ensures OfFirst(a + b, |a| + m, key) == Of(a, key) + OfFirst(b, m, key)
  {
    if m == 0 {
      OfPrefix(a + b, a, |a|, key);
    } else {
      OfAppendFirst(a, b, m - 1, key);
    }
  }

  lemma OfAppend(a: seq<Item>, b: seq<Item>, key: Option<Key>)
    ensures Of(a + b, key) == Of(a, key) + Of(b, key)
  {
    OfAppendFirst(a, b, |b|, key);
  }

  lemma OfOne(item: Item, key: Option<Key>)
    ensures Of([item], key) == StampFor(item, key)
  {
    assert OfFirst([item], 1, key) == OfFirst([item], 0, key) + StampFor(item, key);
  }

  lemma OfRequeued(s: seq<Item>, key: Option<Key>)
    ensures Of(Requeued(s), key) == Of(s, key)
  {
    OfPrefix(Requeued(s), s, |s|, key);
  }

  /** What the reordering is for: a release goes right behind the latest press of its key, before whatever was typed
      meanwhile. */
  lemma {:induction false} InsertUpBehindDown(a: seq<Item>, down: Item, b: seq<Item>, up: Item)
    requires up.event.Up? && down.event == Down(up.event.key) && !HasDown(b, up.event.key)
    ensures InsertUp(a + [down] + b, up) == a + [down, up] + b
  {
    if b == [] {
      assert a + [down] + b == a + [down];
      InsertUpLast(a, down, up);
    } else {
      var n := |b| - 1;
      assert forall i :: 0 <= i < n ==> b[..n][i] == b[i];
      InsertUpBehindDown(a, down, b[..n], up);
      assert a + [down] + b == a + [down] + b[..n] + [b[n]];
      InsertUpLast(a + [down] + b[..n], b[n], up);
      assert a + [down, up] + b[..n] + [b[n]] == a + [down, up] + b;
    }
  }

  lemma InsertUpLast(s: seq<Item>, last: Item, up: Item)
    requires up.event.Up?
    ensures InsertUp(s + [last], up) ==
            if last.event == Down(up.event.key) then s + [last, up] else InsertUp(s, up) + [last]
  {
    assert (s + [last])[..|s|] == s;
  }

  /** One step of the walk backwards. */
  lemma InsertUpBack(s: seq<Item>, up: Item, j: nat)
    requires up.event.Up? && 0 < j <= |s| && s[j - 1].event != Down(up.event.key)
    ensures InsertUp(s[..j], up) + s[j..] == InsertUp(s[..j - 1], up) + s[j - 1..]
  {
    assert s[..j] == s[..j - 1] + [s[j - 1]];
    InsertUpLast(s[..j - 1], s[j - 1], up);
    SeqAssoc(InsertUp(s[..j - 1], up), [s[j - 1]], s[j..]);
    assert [s[j - 1]] + s[j..] == s[j - 1..];
  }

  /** A release of the key stands behind its latest press. */
  predicate TrailingUp(s: seq<Item>, key: Key) {
    s != [] &&
    var last := s[|s| - 1].event;
    last == Up(key) || (last != Down(key) && TrailingUp(s[..|s| - 1], key))
  }

  /** Moving a release forward past other keys changes the order of no key, as long as no release of its own key
      already stands behind the press. */
  lemma {:induction false} OfInsertUp(s: seq<Item>, up: Item, key: Option<Key>)
    requires up.event.Up? && !TrailingUp(s, up.event.key)
    ensures Of(InsertUp(s, up), key) == Of(s + [up], key)
  {
    if s == [] {
      assert s + [up] == [up];
    } else {
      var n := |s| - 1;
      if s[n].event != Down(up.event.key) {
        OfInsertUp(s[..n], up, key);
        SwapLast(s[..n], InsertUp(s[..n], up), up, s[n], key);
        assert s == s[..n] + [s[n]];
      }
    }
  }

  lemma SwapLast(s: seq<Item>, inserted: seq<Item>, up: Item, last: Item, key: Option<Key>)
    requires Of(inserted, key) == Of(s + [up], key)
    requires last.event.KeyOf() != up.event.KeyOf()
    ensures Of(inserted + [last], key) == Of(s + [last] + [up], key)
  {
    OfAppend(inserted, [last], key);
    OfAppend(s, [up], key);
    OfAppend(s + [last], [up], key);
    OfAppend(s, [last], key);
    OfOne(last, key);
    OfOne(up, key);
    SeqSwap(Of(s, key), Of([up], key), Of([last], key));
  }

  lemma SeqSwap<T>(a: seq<T>, b: seq<T>, c: seq<T>)
    requires b == [] || c == []
    ensures a + b + c == a + c + b
  {
  }

  lemma {:induction false} TrailingUpStaysLast(s: seq<Item>, up: Item)
    requires up.event.Up? && TrailingUp(s, up.event.key)
    requires forall i :: 0 <= i < |s| ==> s[i].id != up.id
    ensures var stamps := Of(InsertUp(s, up), Some(up.event.key));
            stamps != [] && stamps[|stamps| - 1].id != up.id
  {
    var n := |s| - 1;
    OfAppend(InsertUp(s[..n], up), [s[n]], Some(up.event.key));
    OfOne(s[n], Some(up.event.key));
    if s[n].event != Up(up.event.key) {
      TrailingUpStaysLast(s[..n], up);
    }
  }

  /** The exact condition: without it the two releases of the key change places.  With a fixed set of blocking keys
      it always holds (`Held`); it can fail when a key becomes a blocking key while releases of it are on hold. */
  lemma InsertUpKeepsOrderIff(s: seq<Item>, up: Item)
    requires up.event.Up? && forall i :: 0 <= i < |s| ==> s[i].id != up.id
    ensures (forall key :: Of(InsertUp(s, up), key) == Of(s + [up], key)) <==> !TrailingUp(s, up.event.key)
  {
    if TrailingUp(s, up.event.key) {
      var key := Some(up.event.key);
      TrailingUpStaysLast(s, up);
      OfAppend(s, [up], key);
      OfOne(up, key);
      assert Of(InsertUp(s, up), key) != Of(s + [up], key);
    } else {
      forall key { OfInsertUp(s, up, key); }
    }
  }

  lemma {:induction false} NoTrailingUp(s: seq<Item>, key: Key)
    requires forall i :: 0 <= i < |s| && s[i].event.Up? ==> s[i].event.key != key
    ensures !TrailingUp(s, key)
  {
    if s != [] {
      NoTrailingUp(s[..|s| - 1], key);
    }
  }

  // What the bounce filter leaves of a key's events

  /** `a` is `b` with some elements left out. */
  predicate Within<T(==)>(a: seq<T>, b: seq<T>)
    decreases |b|
  {
    a == [] ||
    (b != [] &&
     ((a[|a| - 1] == b[|b| - 1] && Within(a[..|a| - 1], b[..|b| - 1])) || Within(a, b[..|b| - 1])))
  }

  lemma {:induction false} WithinSelf<T>(a: seq<T>)
    ensures Within(a, a)
  {
    if a != [] {
      WithinSelf(a[..|a| - 1]);
    }
  }

  lemma WithinAppend<T>(a: seq<T>, b: seq<T>, x: T)
    requires Within(a, b)
    ensures Within(a + [x], b + [x]) && Within(a, b + [x])
  {
    assert (a + [x])[..|a|] == a && (b + [x])[..|b|] == b;
  }

  lemma WithinMore<T>(a: seq<T>, b: seq<T>, c: seq<T>)
    requires Within(a, b) && |c| <= 1
    ensures Within(a + c, b + c) && Within(a, b + c)
  {
    if c == [] {
      assert a + c == a && b + c == b;
    } else {
      var x := c[0];
      assert a + c == a + [x] && b + c == b + [x];
      WithinAppend(a, b, x);
    }
  }

  lemma {:induction false} WithinHead<T>(c: seq<T>, a: seq<T>, b: seq<T>)
    requires Within(a, b)
    ensures Within(c + a, c + b)
    decreases |b|
  {
    if b == [] {
      WithinSelf(c);
      assert c + a == c && c + b == c;
    } else {
      var n, x := |b| - 1, b[|b| - 1];
      assert c + b == c + b[..n] + [x];
      if a != [] && a[|a| - 1] == x && Within(a[..|a| - 1], b[..n]) {
        WithinHead(c, a[..|a| - 1], b[..n]);
        WithinAppend(c + a[..|a| - 1], c + b[..n], x);
        assert c + a == c + a[..|a| - 1] + [x];
      } else {
        WithinHead(c, a, b[..n]);
        WithinAppend(c + a, c + b[..n], x);
      }
    }
  }

  lemma {:induction false} WithinTwice<T>(a: seq<T>, b: seq<T>, c: seq<T>)
    requires Within(a, b) && Within(b, c)
    ensures Within(a, c)
    decreases |c|
  {
    if a != [] && b != [] && c != [] {
      if b[|b| - 1] == c[|c| - 1] && Within(b[..|b| - 1], c[..|c| - 1]) {
        if a[|a| - 1] == b[|b| - 1] && Within(a[..|a| - 1], b[..|b| - 1]) {
          WithinTwice(a[..|a| - 1], b[..|b| - 1], c[..|c| - 1]);
        } else {
          WithinTwice(a, b[..|b| - 1], c[..|c| - 1]);
        }
      } else {
        WithinTwice(a, b, c[..|c| - 1]);
      }
    }
  }

  /** Presses minus releases. */
  function NetOf(stamps: seq<Stamp>): int {
    if stamps == [] then 0
    else
      var last := stamps[|stamps| - 1].event;
      NetOf(stamps[..|stamps| - 1]) + if last.Down? then 1 else if last.Up? then -1 else 0
  }

  lemma {:induction false} NetOfAppend(a: seq<Stamp>, b: seq<Stamp>)
    ensures NetOf(a + b) == NetOf(a) + NetOf(b)
  {
    if b == [] {
      assert a + b == a;
    } else {
      assert (a + b)[..|a + b| - 1] == a + b[..|b| - 1];
      NetOfAppend(a, b[..|b| - 1]);
    }
  }

  lemma {:induction false} NetOfItems(s: seq<Item>, n: nat, key: Key)
    requires n <= |s|
    ensures NetOf(OfFirst(s, n, Some(key))) == Bouncing.Net(s[..n], key)
  {
    if n > 0 {
      NetOfItems(s, n - 1, key);
      assert s[..n][..n - 1] == s[..n - 1];
      NetOfAppend(OfFirst(s, n - 1, Some(key)), StampFor(s[n - 1], Some(key)));
      NetOfStamp(s[n - 1], key);
    }
  }

  lemma NetOfStamp(item: Item, key: Key)
    ensures NetOf(StampFor(item, Some(key))) == Bouncing.Step(item, key)
  {
    if item.event.KeyOf() == Some(key) {
      var stamps := [Stamp(item.event, item.id)];
      assert stamps[..0] == [];
    }
  }

  lemma {:induction false} NetOfNone(s: seq<Item>, n: nat)
    requires n <= |s|
    ensures NetOf(OfFirst(s, n, None)) == 0
  {
    if n > 0 {
      NetOfNone(s, n - 1);
      NetOfAppend(OfFirst(s, n - 1, None), StampFor(s[n - 1], None));
      if s[n - 1].event.Other? {
        var stamps := [Stamp(s[n - 1].event, s[n - 1].id)];
        assert stamps[..0] == [];
      }
    }
  }

  /** What was let through of a key's events: all of them, or with the bounce filter on, some of them in the same order
      with as many presses more than releases. */
  predicate LetThrough(filtered: bool, a: seq<Stamp>, b: seq<Stamp>) {
    if filtered then Within(a, b) && NetOf(a) == NetOf(b) else a == b
  }

  /** What is known at rest: per key, what was fired, what is on hold and what is queued make up what was let through;
      items that come from the blocked queue stand in front, and only while nothing is on hold; releases of blocking
      keys are never on hold. */
  ghost predicate Delivering(filtered: bool, blockers: set<Key>, arrived: seq<Item>, fired: seq<Item>, s: State) {
    (forall key :: LetThrough(filtered, Of(fired + s.blocked + s.queue, key), Of(arrived, key))) &&
    Held(blockers, s)
  }

  ghost predicate Held(blockers: set<Key>, s: State) {
    (forall i, j :: 0 <= i < j < |s.queue| && s.queue[j].requeued ==> s.queue[i].requeued) &&
    (s.blocked != [] ==> forall i :: 0 <= i < |s.queue| ==> !s.queue[i].requeued) &&
    (forall i :: 0 <= i < |s.blocked| ==> !s.blocked[i].event.Other?) &&
    (forall i :: 0 <= i < |s.blocked| && s.blocked[i].event.Up? ==> s.blocked[i].event.key !in blockers)
  }

  lemma OfThree(a: seq<Item>, b: seq<Item>, c: seq<Item>, key: Option<Key>)
    ensures Of(a + b + c, key) == Of(a, key) + Of(b, key) + Of(c, key)
  {
    OfAppend(a + b, c, key);
    OfAppend(a, b, key);
  }

  /** Ending blocking after the front event joined the events on hold, wherever it was put. */
  lemma OfResumed(fired: seq<Item>, blocked: seq<Item>, held: seq<Item>, front: Item, rest: seq<Item>, key: Option<Key>)
    requires Of(held, key) == Of(blocked + [front], key)
    ensures Of(fired + [] + Resumed(held, rest), key) == Of(fired + blocked + ([front] + rest), key)
  {
    OfThree(fired, [], Resumed(held, rest), key);
    OfAppend(Requeued(held), rest, key);
    OfRequeued(held, key);
    OfAppend(blocked, [front], key);
    OfThree(fired, blocked, [front] + rest, key);
    OfAppend([front], rest, key);
  }

  lemma OfResumedQueue(fired: seq<Item>, blocked: seq<Item>, queue: seq<Item>, key: Option<Key>)
    ensures Of(fired + [] + Resumed(blocked, queue), key) == Of(fired + blocked + queue, key)
  {
    OfThree(fired, [], Resumed(blocked, queue), key);
    OfAppend(Requeued(blocked), queue, key);
    OfRequeued(blocked, key);
    OfThree(fired, blocked, queue, key);
  }

  lemma HandledOrder(blockers: set<Key>, fired: seq<Item>, s: State, key: Option<Key>)
    requires s.queue != [] && Held(blockers, s)
    ensures var h := Handled(blockers, s).0;
            Of(fired + h.blocked + h.queue, key) == Of(fired + s.blocked + s.queue, key)
  {
    var front, rest := s.queue[0], s.queue[1..];
    assert s.queue == [front] + rest;
    if !(front.requeued || front.event.Other?) {
      var k, pressing := front.event.key, PressingAfter(s.pressing, front.event);
      if !NeedToBlock(blockers, pressing, k) {
        OfResumedQueue(fired, s.blocked, s.queue, key);
      } else if front.event.Up? && k in blockers {
        NoTrailingUp(s.blocked, k);
        OfInsertUp(s.blocked, front, key);
        OfResumed(fired, s.blocked, InsertUp(s.blocked, front), front, rest, key);
      } else if front.event.Up? && !HasOrphanUp(s.blocked) && HasDown(s.blocked, k) {
        OfResumed(fired, s.blocked, s.blocked + [front], front, rest, key);
      } else {
        assert fired + (s.blocked + [front]) + rest == fired + s.blocked + ([front] + rest);
      }
    }
  }

  lemma HeldResumed(blockers: set<Key>, held: seq<Item>, queue: seq<Item>, pressing: seq<Pressing>)
    requires forall i, j :: 0 <= i < j < |queue| && queue[j].requeued ==> queue[i].requeued
    ensures Held(blockers, State(Resumed(held, queue), [], pressing))
  {
  }

  lemma HandledHeld(blockers: set<Key>, s: State)
    requires s.queue != [] && Held(blockers, s)
    ensures Held(blockers, Handled(blockers, s).0)
    ensures var (h, fire) := Handled(blockers, s);
            fire ==> h.queue != [] && (h.queue[0].event.Other? || h.blocked == [])
  {
    var front, rest := s.queue[0], s.queue[1..];
    if !(front.requeued || front.event.Other?) {
      var key, pressing := front.event.key, PressingAfter(s.pressing, front.event);
      if !NeedToBlock(blockers, pressing, key) {
        HeldResumed(blockers, s.blocked, s.queue, pressing);
      } else if front.event.Up? && key in blockers {
        HeldResumed(blockers, InsertUp(s.blocked, front), rest, pressing);
        InsertUpLength(s.blocked, front);
      } else if front.event.Up? && !HasOrphanUp(s.blocked) && HasDown(s.blocked, key) {
        HeldResumed(blockers, s.blocked + [front], rest, IgnoreAll(pressing));
      }
    }
  }

  /** Firing the event in front. */
  function Popped(s: State): State
    requires s.queue != []
  {
    s.(queue := s.queue[1..])
  }

  lemma FiredOrder(fired: seq<Item>, s: State, key: Option<Key>)
    requires s.queue != [] && (s.queue[0].event.Other? || s.blocked == [])
    requires forall i :: 0 <= i < |s.blocked| ==> !s.blocked[i].event.Other?
    ensures Of(fired + [s.queue[0]] + s.blocked + s.queue[1..], key) == Of(fired + s.blocked + s.queue, key)
  {
    var front, rest := s.queue[0], s.queue[1..];
    assert s.queue == [front] + rest;
    if s.blocked == [] {
      assert fired + [front] + [] + rest == fired + [] + s.queue;
    } else {
      FiredOtherOrder(fired, front, s.blocked, rest, key);
    }
  }

  /** An event of no key may overtake the events on hold. */
  lemma FiredOtherOrder(fired: seq<Item>, front: Item, blocked: seq<Item>, rest: seq<Item>, key: Option<Key>)
    requires front.event.Other? && forall i :: 0 <= i < |blocked| ==> !blocked[i].event.Other?
    ensures Of(fired + [front] + blocked + rest, key) == Of(fired + blocked + ([front] + rest), key)
  {
    OfThree(fired + [front], blocked, rest, key);
    OfAppend(fired, [front], key);
    OfThree(fired, blocked, [front] + rest, key);
    OfAppend([front], rest, key);
    OfOne(front, key);
    if key.None? {
      NoneOf(blocked, |blocked|);
    }
    SeqSwap(Of(fired, key), Of([front], key), Of(blocked, key));
    SeqAssoc(Of(fired, key) + Of(blocked, key), Of([front], key), Of(rest, key));
  }

  lemma {:induction false} NoneOf(s: seq<Item>, n: nat)
    requires n <= |s| && forall i :: 0 <= i < |s| ==> !s[i].event.Other?
    ensures OfFirst(s, n, None) == []
  {
    if n > 0 {
      NoneOf(s, n - 1);
    }
  }

  // The bounce filter

  lemma OfMore(s: seq<Item>, key: Option<Key>)
    requires s != []
    ensures Of(s, key) == Of(s[..|s| - 1], key) + StampFor(s[|s| - 1], key)
  {
    var n := |s| - 1;
    assert s == s[..n] + [s[n]];
    OfAppend(s[..n], [s[n]], key);
    OfOne(s[n], key);
  }

  /** A subsequence of the queue has a subsequence of every key's events. */
  lemma {:induction false} OfSelected(s: seq<Item>, kept: seq<nat>, r: seq<Item>, key: Option<Key>)
    requires Bouncing.Selects(s, kept, r)
    ensures Within(Of(r, key), Of(s, key))
    decreases |s|
  {
    if s == [] {
      assert r == [];
    } else {
      var n := |s| - 1;
      OfMore(s, key);
      Bouncing.SelectsFewer(s, kept, r);
      if r != [] && kept[|r| - 1] == n {
        OfSelected(s[..n], kept[..|r| - 1], r[..|r| - 1], key);
        OfMore(r, key);
        WithinMore(Of(r[..|r| - 1], key), Of(s[..n], key), StampFor(s[n], key));
      } else {
        OfSelected(s[..n], kept, r, key);
        WithinMore(Of(r, key), Of(s[..n], key), StampFor(s[n], key));
      }
    }
  }

  lemma DebouncedNetOf(t: Bouncing.Thresholds, s: seq<Item>, key: Option<Key>)
    ensures NetOf(Of(Bouncing.Debounced(t, s), key)) == NetOf(Of(s, key))
  {
    var r := Bouncing.Debounced(t, s);
    match key
    case None =>
      NetOfNone(r, |r|);
      NetOfNone(s, |s|);
    case Some(k) =>
      NetOfItems(r, |r|, k);
      NetOfItems(s, |s|, k);
      assert r[..|r|] == r && s[..|s|] == s;
      Bouncing.DebouncedNet(t, s, k);
  }

  lemma DebouncedLetsThrough(t: Bouncing.Thresholds, arrived: seq<Item>, fired: seq<Item>, s: State, key: Option<Key>)
    requires LetThrough(true, Of(fired + s.blocked + s.queue, key), Of(arrived, key))
    ensures LetThrough(true, Of(fired + s.blocked + Bouncing.Debounced(t, s.queue), key), Of(arrived, key))
  {
    var r, before := Bouncing.Debounced(t, s.queue), fired + s.blocked;
    Bouncing.DebouncedCorrect(t, s.queue);
    var kept :| Bouncing.Selects(s.queue, kept, r);
    OfSelected(s.queue, kept, r, key);
    OfAppend(before, r, key);
    OfAppend(before, s.queue, key);
    WithinHead(Of(before, key), Of(r, key), Of(s.queue, key));
    WithinTwice(Of(before + r, key), Of(before + s.queue, key), Of(arrived, key));
    NetOfAppend(Of(before, key), Of(r, key));
    NetOfAppend(Of(before, key), Of(s.queue, key));
    DebouncedNetOf(t, s.queue, key);
  }

  lemma SelectedHeld(blockers: set<Key>, s: State, kept: seq<nat>, r: seq<Item>)
    requires Held(blockers, s) && Bouncing.Selects(s.queue, kept, r)
    ensures Held(blockers, s.(queue := r))
  {
  }

  /** Taking bounces out lets a part of every key's events through, in order and with as many presses more than
      releases. */
  lemma DebouncedDelivers(t: Bouncing.Thresholds, blockers: set<Key>, arrived: seq<Item>, fired: seq<Item>, s: State)
    requires Delivering(true, blockers, arrived, fired, s)
    ensures Delivering(true, blockers, arrived, fired, s.(queue := Bouncing.Debounced(t, s.queue)))
  {
    var r := Bouncing.Debounced(t, s.queue);
    Bouncing.DebouncedCorrect(t, s.queue);
    var kept :| Bouncing.Selects(s.queue, kept, r);
    SelectedHeld(blockers, s, kept, r);
    forall key ensures LetThrough(true, Of(fired + s.blocked + r, key), Of(arrived, key)) {
      DebouncedLetsThrough(t, arrived, fired, s, key);
    }
  }

  lemma LetThroughOneMore(filtered: bool, a: seq<Stamp>, b: seq<Stamp>, more: seq<Stamp>)
    requires LetThrough(filtered, a, b) && |more| <= 1
    ensures LetThrough(filtered, a + more, b + more)
  {
    if filtered {
      WithinMore(a, b, more);
      NetOfAppend(a, more);
      NetOfAppend(b, more);
    }
  }

  lemma OneMoreArrived(filtered: bool, before: seq<Item>, queue: seq<Item>, arrived: seq<Item>, item: Item, key: Option<Key>)
    requires LetThrough(filtered, Of(before + queue, key), Of(arrived, key))
    ensures LetThrough(filtered, Of(before + (queue + [item]), key), Of(arrived + [item], key))
  {
    assert before + (queue + [item]) == before + queue + [item];
    OfAppend(before + queue, [item], key);
    OfAppend(arrived, [item], key);
    OfOne(item, key);
    LetThroughOneMore(filtered, Of(before + queue, key), Of(arrived, key), Of([item], key));
  }

  // ---------------------------------------------------------------------------------------------
  // Progress

  function Hardware(queue: seq<Item>): nat {
    if queue == [] then 0
    else Hardware(queue[..|queue| - 1]) + if queue[|queue| - 1].requeued then 0 else 1
  }

  lemma {:induction false} HardwareAppend(a: seq<Item>, b: seq<Item>)
    ensures Hardware(a + b) == Hardware(a) + Hardware(b)
  {
    if b == [] {
      assert a + b == a;
    } else {
      assert (a + b)[..|a + b| - 1] == a + b[..|b| - 1];
      HardwareAppend(a, b[..|b| - 1]);
    }
  }

  lemma {:induction false} HardwareRequeued(s: seq<Item>)
    ensures Hardware(Requeued(s)) == 0
  {
    if s != [] {
      assert Requeued(s)[..|s| - 1] == Requeued(s[..|s| - 1]);
      HardwareRequeued(s[..|s| - 1]);
    }
  }

  /** Work left: an event from the hardware can still be put on hold and requeued before it is fired. */
  function Work(s: State): nat {
    2 * Hardware(s.queue) + |s.queue| + 2 * |s.blocked|
  }

  lemma {:induction false} InsertUpLength(s: seq<Item>, up: Item)
    requires up.event.Up?
    ensures |InsertUp(s, up)| == |s| + 1
  {
    if s != [] {
      InsertUpLength(s[..|s| - 1], up);
    }
  }

  lemma WorkResumed(held: seq<Item>, queue: seq<Item>, pressing: seq<Pressing>)
    ensures Work(State(Resumed(held, queue), [], pressing)) == Work(State(queue, [], pressing)) + |held|
  {
    HardwareRequeued(held);
    HardwareAppend(Requeued(held), queue);
  }

  lemma WorkPopped(s: State)
    requires s.queue != []
    ensures Work(Popped(s)) < Work(s)
    ensures !s.queue[0].requeued ==> Work(Popped(s)) == Work(s) - 3
  {
    assert s.queue == [s.queue[0]] + s.queue[1..];
    assert [s.queue[0]][..0] == [];
    HardwareAppend([s.queue[0]], s.queue[1..]);
  }

  /** Every step does some of the work. */
  lemma HandledWork(blockers: set<Key>, s: State)
    requires s.queue != []
    ensures var (h, fire) := Handled(blockers, s);
            Work(h) <= Work(s) && (!fire ==> Work(h) < Work(s)) && (fire ==> h.queue != [])
  {
    var front, rest := s.queue[0], s.queue[1..];
    if !(front.requeued || front.event.Other?) {
      var pressing := PressingAfter(s.pressing, front.event);
      WorkPopped(s);
      WorkResumed(s.blocked, s.queue, pressing);
      WorkResumed(s.blocked + [front], rest, IgnoreAll(pressing));
      if front.event.Up? {
        InsertUpLength(s.blocked, front);
        WorkResumed(InsertUp(s.blocked, front), rest, pressing);
      }
    }
  }

  lemma {:induction false} HardwareSelected(s: seq<Item>, kept: seq<nat>, r: seq<Item>)
    requires Bouncing.Selects(s, kept, r)
    ensures |r| <= |s| && Hardware(r) <= Hardware(s)
    decreases |s|
  {
    if s == [] {
      assert r == [];
    } else {
      var n := |s| - 1;
      Bouncing.SelectsFewer(s, kept, r);
      if r != [] && kept[|r| - 1] == n {
        HardwareSelected(s[..n], kept[..|r| - 1], r[..|r| - 1]);
      } else {
        HardwareSelected(s[..n], kept, r);
      }
    }
  }

  /** Taking bounces out adds no work. */
  lemma DebouncedWork(t: Bouncing.Thresholds, s: State)
    ensures Work(s.(queue := Bouncing.Debounced(t, s.queue))) <= Work(s)
  {
    Bouncing.DebouncedCorrect(t, s.queue);
    var r := Bouncing.Debounced(t, s.queue);
    var kept :| Bouncing.Selects(s.queue, kept, r);
    HardwareSelected(s.queue, kept, r);
  }

  // ---------------------------------------------------------------------------------------------
  // What is fired and when

  /** One timer step without bounce filter: the state after it and what is fired. */
  function Tick(blockers: set<Key>, s: State): (State, seq<Item>) {
    if s.queue == [] then (s, [])
    else
      var (h, fire) := Handled(blockers, s);
      if fire && h.queue != [] then (Popped(h), [h.queue[0]]) else (h, [])
  }

  /** A blocking key other than `key` is down and still counts. */
  ghost predicate OtherBlocking(blockers: set<Key>, pressing: seq<Pressing>, key: Key) {
    exists p :: p in pressing && p.key != key && !p.ignore && p.key in blockers
  }

  /** A press from the hardware is put on hold when its key is a blocking key or another one is down, and otherwise it
      ends blocking: what is on hold comes first, and then it. */
  lemma TickPress(blockers: set<Key>, s: State)
    requires s.queue != [] && !s.queue[0].requeued && s.queue[0].event.Down?
    ensures var front, rest := s.queue[0], s.queue[1..];
            var (t, out) := Tick(blockers, s);
            if front.event.key in blockers || OtherBlocking(blockers, s.pressing, front.event.key)
            then out == [] && t.queue == rest && t.blocked == s.blocked + [front]
            else |out| == 1 && t.blocked == [] && out + t.queue == Requeued(s.blocked) + s.queue
    ensures forall p :: p in Tick(blockers, s).0.pressing ==> p in s.pressing || p == Pressing(s.queue[0].event.key, false)
  {
    var key, after := s.queue[0].event.key, PressingAfter(s.pressing, s.queue[0].event);
    assert forall p :: p in after <==> (p in s.pressing && p.key != key) || p == Pressing(key, false);
    assert NeedToBlock(blockers, after, key) <==> key in blockers || OtherBlocking(blockers, s.pressing, key);
  }

  /** The key `b` is down and still blocks. */
  ghost predicate Blocks(blockers: set<Key>, pressing: seq<Pressing>, b: Key) {
    b in blockers && Pressing(b, false) in pressing
  }

  /** While `b` blocks, an event of another, not blocking key is put on hold, unless it is the release of a key that has
      been pressed since, with no release of an earlier press before it. */
  lemma TickHold(blockers: set<Key>, s: State, b: Key)
    requires s.queue != [] && !s.queue[0].requeued && !s.queue[0].event.Other? && Blocks(blockers, s.pressing, b)
    requires var front := s.queue[0];
             front.event.key !in blockers &&
             (front.event.Up? ==> HasOrphanUp(s.blocked) || !HasDown(s.blocked, front.event.key))
    ensures var (t, out) := Tick(blockers, s);
            out == [] && t.queue == s.queue[1..] && t.blocked == s.blocked + [s.queue[0]] && Blocks(blockers, t.pressing, b)
    ensures forall p :: p in Tick(blockers, s).0.pressing ==> p in s.pressing || p == Pressing(s.queue[0].event.key, false)
  {
    assert Pressing(b, false) in PressingAfter(s.pressing, s.queue[0].event);
  }

  /** A list of events of keys that do not block, during which nothing ends the wait for the blocking key: every release
      of a key that goes down in the list comes after a release of a key that was down before. */
  ghost predicate Quick(blockers: set<Key>, typed: seq<Item>) {
    (forall i :: 0 <= i < |typed| ==>
      !typed[i].requeued && !typed[i].event.Other? && typed[i].event.key !in blockers) &&
    (forall i :: 0 <= i < |typed| && typed[i].event.Up? && DownBefore(typed, i) ==> OrphanBefore(typed, i))
  }

  /** A key that was down before the list begins has gone up before `i`. */
  ghost predicate OrphanBefore(typed: seq<Item>, i: nat)
    requires i < |typed| && forall k :: 0 <= k < |typed| ==> !typed[k].event.Other?
  {
    exists j :: 0 <= j < i && typed[j].event.Up? && !DownBefore(typed, j)
  }

  /** The key that moves at `i` has gone down before. */
  ghost predicate DownBefore(typed: seq<Item>, i: nat)
    requires i < |typed| && !typed[i].event.Other?
  {
    exists j :: 0 <= j < i && typed[j].event == Down(typed[i].event.key)
  }

  lemma QuickHolds(blockers: set<Key>, down: Item, typed: seq<Item>, i: nat)
    requires Quick(blockers, typed) && i < |typed| && typed[i].event.Up?
    requires down.event.Down? && down.event.key in blockers
    ensures HasOrphanUp([down] + typed[..i]) || !HasDown([down] + typed[..i], typed[i].event.key)
  {
    var held := [down] + typed[..i];
    if HasDown(held, typed[i].event.key) {
      var k :| 0 <= k < |held| && held[k].event == Down(typed[i].event.key);
      assert typed[k - 1].event == Down(typed[i].event.key) && DownBefore(typed, i);
      var j :| 0 <= j < i && typed[j].event.Up? && !DownBefore(typed, j);
      OrphanHeld(blockers, down, typed, i, j);
    }
  }

  lemma OrphanHeld(blockers: set<Key>, down: Item, typed: seq<Item>, i: nat, j: nat)
    requires j < i < |typed| && typed[j].event.Up? && !DownBefore(typed, j)
    requires typed[j].event.key !in blockers && down.event.Down? && down.event.key in blockers
    ensures HasOrphanUp([down] + typed[..i])
  {
    var held := [down] + typed[..i];
    assert held[j + 1] == typed[j];
    var before := held[..j + 1];
    forall k | 0 <= k < |before| ensures before[k].event != Down(typed[j].event.key) {
      if k > 0 {
        assert held[k] == typed[k - 1];
      }
    }
  }

  /** The release of a blocking key ends the wait: its press and itself come first, then what was typed meanwhile. */
  lemma TickRelease(blockers: set<Key>, s: State, down: Item, typed: seq<Item>, up: Item, rest: seq<Item>)
    requires s.blocked == [down] + typed && s.queue == [up] + rest
    requires !up.requeued && up.event.Up? && down.event == Down(up.event.key)
    requires up.event.key in blockers && !HasDown(typed, up.event.key)
    ensures var (t, out) := Tick(blockers, s);
            out == [down.(requeued := true)] && t.blocked == [] &&
            t.queue == Requeued([up] + typed) + rest &&
            forall p :: p in t.pressing ==> p in s.pressing && p.key != up.event.key
  {
    InsertUpBehindDown([], down, typed, up);
    assert [] + [down] + typed == [down] + typed && [] + [down, up] + typed == [down, up] + typed;
    assert s.queue[1..] == rest;
    assert Requeued([down, up] + typed) == [down.(requeued := true)] + Requeued([up] + typed);
    var resumed := Resumed([down, up] + typed, rest);
    assert resumed[0] == down.(requeued := true) && resumed[1..] == Requeued([up] + typed) + rest;
  }

  lemma NoDown(blockers: set<Key>, typed: seq<Item>, b: Key)
    requires Quick(blockers, typed) && b in blockers
    ensures !HasDown(typed, b)
  {
  }

  /** The release of a key that went down since ends the wait too: everything comes in the order it arrived, and the
      keys that are down no longer block. */
  lemma TickStroke(blockers: set<Key>, s: State, b: Key, held: seq<Item>, up: Item, rest: seq<Item>)
    requires s.blocked == held && held != [] && s.queue == [up] + rest && Blocks(blockers, s.pressing, b)
    requires !up.requeued && up.event.Up? && up.event.key !in blockers
    requires (forall i :: 0 <= i < |held| ==> held[i].event.Down?) && HasDown(held, up.event.key)
    ensures var (t, out) := Tick(blockers, s);
            out == [held[0].(requeued := true)] && t.blocked == [] &&
            t.queue == Requeued(held[1..] + [up]) + rest && forall p :: p in t.pressing ==> p.ignore
  {
    assert Pressing(b, false) in PressingAfter(s.pressing, up.event);
    assert s.queue[1..] == rest;
    var resumed := Resumed(held + [up], rest);
    assert resumed[0] == held[0].(requeued := true) && resumed[1..] == Requeued(held[1..] + [up]) + rest;
  }

  /** After that a press of a key that does not block is fired as soon as its turn comes. */
  lemma PassesAtOnce(blockers: set<Key>, s: State)
    requires s.queue != [] && !s.queue[0].requeued && s.queue[0].event.Down? && s.queue[0].event.key !in blockers
    requires s.blocked == [] && forall p :: p in s.pressing ==> p.ignore || p.key !in blockers
    ensures Tick(blockers, s).1 == [s.queue[0]] && Tick(blockers, s).0.queue == s.queue[1..]
  {
    TickPress(blockers, s);
    assert Requeued([]) + s.queue == s.queue;
    assert s.queue == [s.queue[0]] + s.queue[1..];
  }

  // ---------------------------------------------------------------------------------------------

  class EventInputQueue {
    const blockers: set<Key>
    const thresholds: Bouncing.Thresholds
    const ignoreBouncing: bool

    var queue: seq<Item>
    var blocked: seq<Item>
    var pressing: seq<Pressing>
    var fireTimer: bool
    var blockingTimer: bool
    var fired: seq<Item>
    ghost var arrived: seq<Item>

    constructor (blockers: set<Key>, thresholds: Bouncing.Thresholds, ignoreBouncing: bool)
      ensures this.blockers == blockers && this.thresholds == thresholds && this.ignoreBouncing == ignoreBouncing
      ensures Valid() && arrived == fired == []
    {
      this.blockers, this.thresholds, this.ignoreBouncing := blockers, thresholds, ignoreBouncing;
      queue, blocked, pressing, fired, arrived := [], [], [], [], [];
      fireTimer, blockingTimer := false, false;
    }

    ghost function Current(): State
      reads this
    {
      State(queue, blocked, pressing)
    }

    /** No stall: work in a queue means that its timer is armed. */
    ghost predicate Armed()
      reads this
    {
      (queue != [] ==> fireTimer) && (blockingTimer <==> blocked != [])
    }

    ghost predicate Valid()
      reads this
    {
      Armed() && Delivering(ignoreBouncing, blockers, arrived, fired, Current())
    }

    /** An event arrives from a device. */
    method Enqueue(event: Event, id: nat, time: nat)
      requires Valid()
      modifies this`queue, this`fireTimer, this`arrived
      ensures Valid() && arrived == old(arrived) + [Item(event, id, time, false)]
      ensures queue == old(queue) + [Item(event, id, time, false)]
    {
      var item := Item(event, id, time, false);
      queue := queue + [item];
      arrived := arrived + [item];
      SetTimer();
      forall key ensures LetThrough(ignoreBouncing, Of(fired + blocked + queue, key), Of(arrived, key)) {
        OneMoreArrived(ignoreBouncing, fired + blocked, old(queue), old(arrived), item, key);
      }
    }

    method SetTimer()
      modifies this`fireTimer
      ensures fireTimer == (old(fireTimer) || queue != [])
    {
      if queue != [] {
        fireTimer := true;
      }
    }

    /** `endBlocking` */
    method EndBlocking()
      modifies this`queue, this`blocked, this`blockingTimer
      ensures queue == Resumed(old(blocked), old(queue)) && blocked == [] && !blockingTimer
    {
      while blocked != []
        invariant blocked <= old(blocked)
        invariant queue == Requeued(old(blocked)[|blocked|..]) + old(queue)
        decreases |blocked|
      {
        var n := |blocked| - 1;
        queue := [blocked[n].(requeued := true)] + queue;
        assert Requeued(old(blocked)[n..]) == [blocked[n].(requeued := true)] + Requeued(old(blocked)[n + 1..]);
        blocked := blocked[..n];
      }
      assert old(blocked)[0..] == old(blocked);
      blockingTimer := false;
    }

    method IsTargetDownEventInBlockedQueue(key: Key) returns (r: bool)
      ensures r <==> HasDown(blocked, key)
    {
      for i := 0 to |blocked|
        invariant forall j :: 0 <= j < i ==> blocked[j].event != Down(key)
      {
        if blocked[i].event == Down(key) {
          return true;
        }
      }
      return false;
    }

    method IsOrphanKeyUpEventExistsInBlockedQueue() returns (r: bool)
      ensures r <==> HasOrphanUp(blocked)
    {
      for i := 0 to |blocked|
        invariant forall j :: 0 <= j < i && blocked[j].event.Up? ==> HasDown(blocked[..j], blocked[j].event.key)
      {
        if blocked[i].event.Up? {
          var key, found, q := blocked[i].event.key, false, i + 1;
          while q > 0
            invariant 0 <= q <= i + 1
            invariant found <==> exists j :: q <= j <= i && blocked[j].event == Down(key)
          {
            q := q - 1;
            if blocked[q].event == Down(key) {
              found := true;
            }
          }
          if !found {
            return true;
          }
          ghost var w :| 0 <= w <= i && blocked[w].event == Down(key);
          assert blocked[..i][w].event == Down(key);
        }
      }
      return false;
    }

    /** Move a release behind the latest press of its key. */
    method MoveUpAfterDown(up: Item)
      requires up.event.Up?
      modifies this`blocked
      ensures blocked == InsertUp(old(blocked), up)
    {
      var j := |blocked|;
      assert blocked[..j] == blocked && InsertUp(blocked, up) + [] == InsertUp(blocked, up);
      while j > 0
        invariant 0 <= j <= |blocked| && blocked == old(blocked)
        invariant InsertUp(blocked, up) == InsertUp(blocked[..j], up) + blocked[j..]
      {
        if blocked[j - 1].event == Down(up.event.key) {
          blocked := blocked[..j] + [up] + blocked[j..];
          return;
        }
        InsertUpBack(blocked, up, j);
        j := j - 1;
      }
      blocked := [up] + blocked;
    }

    method UpdatePressing(event: Event)
      requires !event.Other?
      modifies this`pressing
      ensures pressing == PressingAfter(old(pressing), event)
    {
      var kept: seq<Pressing> := [];
      for i := 0 to |pressing|
        invariant kept == Without(pressing[..i], event.key)
      {
        assert pressing[..i + 1][..i] == pressing[..i];
        if pressing[i].key != event.key {
          kept := kept + [pressing[i]];
        }
      }
      assert pressing[..|pressing|] == pressing;
      pressing := kept;
      if event.Down? {
        pressing := pressing + [Pressing(event.key, false)];
      }
    }

    method IsBlocking(key: Key) returns (r: bool)
      ensures r <==> NeedToBlock(blockers, pressing, key)
    {
      for i := 0 to |pressing|
        invariant forall j :: 0 <= j < i ==> pressing[j].ignore || pressing[j].key !in blockers
      {
        if !pressing[i].ignore && pressing[i].key in blockers {
          return true;
        }
      }
      return key in blockers;
    }

    /** `doBlockUntilKeyUp`: tells whether something is to be fired. */
    method DoBlockUntilKeyUp() returns (fire: bool)
      requires queue != [] && (blockingTimer <==> blocked != [])
      modifies this`queue, this`blocked, this`pressing, this`blockingTimer
      ensures (Current(), fire) == Handled(blockers, old(Current()))
      ensures blockingTimer <==> blocked != []
    {
      var front := queue[0];
      if front.requeued || front.event.Other? {
        return true;
      }
      UpdatePressing(front.event);
      var block := IsBlocking(front.event.key);
      if !block {
        EndBlocking();
        return true;
      }
      blockingTimer := true;
      if front.event.Up? && front.event.key in blockers {
        MoveUpAfterDown(front);
        queue := queue[1..];
        EndBlocking();
        return true;
      }
      if front.event.Up? {
        var orphan := IsOrphanKeyUpEventExistsInBlockedQueue();
        if !orphan {
          var target := IsTargetDownEventInBlockedQueue(front.event.key);
          if target {
            pressing := IgnoreAll(pressing);
            blocked := blocked + [front];
            queue := queue[1..];
            EndBlocking();
            return true;
          }
        }
      }
      blocked := blocked + [front];
      queue := queue[1..];
      return false;
    }

    /** `fire_timer_callback`, with no simultaneous-press rules: one event is put on hold or fired. */
    method FireTimerCallback()
      requires Valid() && fireTimer
      modifies this`queue, this`blocked, this`pressing, this`fireTimer, this`blockingTimer, this`fired
      ensures Valid()
      ensures var before := if ignoreBouncing then old(Current()).(queue := Bouncing.Debounced(thresholds, old(queue)))
                            else old(Current());
              var (after, out) := Tick(blockers, before);
              Current() == after && fired == old(fired) + out
      ensures old(queue) != [] ==> Work(Current()) < old(Work(Current()))
      ensures old(queue) == [] ==> Current() == old(Current()) && !fireTimer && blockingTimer == old(blockingTimer)
    {
      fireTimer := false;
      if ignoreBouncing {
        DebouncedWork(thresholds, Current());
        DebouncedDelivers(thresholds, blockers, arrived, fired, Current());
        queue := Bouncing.RemoveBounces(thresholds, queue);
      }
      if queue == [] {
        return;
      }
      HandleFront();
      SetTimer();
    }

    /** Handle the event in front and fire if asked to. */
    method HandleFront()
      requires queue != [] && (blockingTimer <==> blocked != [])
      modifies this`queue, this`blocked, this`pressing, this`blockingTimer, this`fired
      ensures blockingTimer <==> blocked != []
      ensures var (after, out) := Tick(blockers, old(Current()));
              Current() == after && fired == old(fired) + out
      ensures Work(Current()) < old(Work(Current()))
      ensures old(Delivering(ignoreBouncing, blockers, arrived, fired, Current())) ==>
              Delivering(ignoreBouncing, blockers, arrived, fired, Current())
    {
      ghost var s, fired0 := Current(), fired;
      var fire := DoBlockUntilKeyUp();
      HandledWork(blockers, s);
      if fire {
        WorkPopped(Current());
        fired := fired + [queue[0]];
        queue := queue[1..];
      }
      if Delivering(ignoreBouncing, blockers, arrived, fired0, s) {
        HandledDelivers(ignoreBouncing, blockers, arrived, fired0, s);
      }
    }

    /** The blocking timeout: the events on hold are let go and the keys now down no longer block. */
    method BlockingTimeout()
      requires Valid() && blockingTimer
      modifies this`queue, this`blocked, this`pressing, this`fireTimer, this`blockingTimer
      ensures Valid() && Work(Current()) < old(Work(Current()))
      ensures queue == Resumed(old(blocked), old(queue)) && blocked == []
      ensures |pressing| == |old(pressing)| &&
              forall i :: 0 <= i < |pressing| ==> pressing[i] == Pressing(old(pressing)[i].key, true)
    {
      blockingTimer := false;
      ghost var s := Current();
      EndBlocking();
      pressing := IgnoreAll(pressing);
      SetTimer();
      WorkResumed(s.blocked, s.queue, pressing);
      forall key ensures LetThrough(ignoreBouncing, Of(fired + blocked + queue, key), Of(arrived, key)) {
        OfResumedQueue(fired, s.blocked, s.queue, key);
      }
    }

    // Blocking as a user sees it, without bounce filter

    /** A press in front is put on hold when its key is a blocking key or another one is down, and otherwise it ends
        blocking. */
    method StepPress()
      requires Valid() && !ignoreBouncing && queue != [] && !queue[0].requeued && queue[0].event.Down?
      modifies this`queue, this`blocked, this`pressing, this`fireTimer, this`blockingTimer, this`fired
      ensures Valid()
      ensures var front := old(queue[0]);
              if front.event.key in blockers || OtherBlocking(blockers, old(pressing), front.event.key)
              then fired == old(fired) && queue == old(queue[1..]) && blocked == old(blocked) + [front]
              else |fired| == |old(fired)| + 1 && blocked == [] &&
                   fired + queue == old(fired) + Requeued(old(blocked)) + old(queue)
      ensures old(queue[0]).event.key in blockers ==> Blocks(blockers, pressing, old(queue[0]).event.key)
      ensures forall p :: p in pressing ==> p in old(pressing) || p == Pressing(old(queue[0]).event.key, false)
    {
      TickPress(blockers, Current());
      ghost var out := Tick(blockers, Current()).1;
      FireTimerCallback();
      SeqAssoc(old(fired), out, queue);
      SeqAssoc(old(fired), Requeued(old(blocked)), old(queue));
    }

    method StepHold(ghost b: Key)
      requires Valid() && !ignoreBouncing && queue != [] && !queue[0].requeued && !queue[0].event.Other?
      requires Blocks(blockers, pressing, b) && queue[0].event.key !in blockers
      requires queue[0].event.Up? ==> HasOrphanUp(blocked) || !HasDown(blocked, queue[0].event.key)
      modifies this`queue, this`blocked, this`pressing, this`fireTimer, this`blockingTimer, this`fired
      ensures Valid() && fired == old(fired) && queue == old(queue[1..]) && blocked == old(blocked) + [old(queue[0])]
      ensures Blocks(blockers, pressing, b)
      ensures forall p :: p in pressing ==> p in old(pressing) || p == Pressing(old(queue[0]).event.key, false)
    {
      TickHold(blockers, Current(), b);
      FireTimerCallback();
      assert old(fired) + [] == old(fired);
    }

    method StepRequeued()
      requires Valid() && !ignoreBouncing && queue != [] && queue[0].requeued
      modifies this`queue, this`blocked, this`pressing, this`fireTimer, this`blockingTimer, this`fired
      ensures Valid() && fired == old(fired) + [old(queue[0])] && queue == old(queue[1..])
      ensures blocked == old(blocked) && pressing == old(pressing)
    {
      FireTimerCallback();
    }

    /** A blocking key goes down and other keys are typed quickly: nothing is fired, everything is on hold. */
    method HoldQuick(down: Item, typed: seq<Item>, rest: seq<Item>)
      requires Valid() && !ignoreBouncing && blocked == [] && queue == [down] + typed + rest
      requires !down.requeued && down.event.Down? && down.event.key in blockers && Quick(blockers, typed)
      modifies this`queue, this`blocked, this`pressing, this`fireTimer, this`blockingTimer, this`fired
      ensures Valid() && fired == old(fired) && queue == rest && blocked == [down] + typed
      ensures Blocks(blockers, pressing, down.event.key)
      ensures forall p :: p in pressing && p.key in blockers ==> p in old(pressing) || p.key == down.event.key
    {
      StepPress();
      assert blocked == [down] + typed[..0] && queue == typed[0..] + rest;
      for i := 0 to |typed|
        invariant Valid() && fired == old(fired) && queue == typed[i..] + rest && blocked == [down] + typed[..i]
        invariant Blocks(blockers, pressing, down.event.key)
        invariant forall p :: p in pressing && p.key in blockers ==> p in old(pressing) || p.key == down.event.key
      {
        assert queue[0] == typed[i] && queue[1..] == typed[i + 1..] + rest;
        assert [down] + typed[..i] + [typed[i]] == [down] + typed[..i + 1];
        if typed[i].event.Up? {
          QuickHolds(blockers, down, typed, i);
        }
        StepHold(down.event.key);
      }
      assert typed[..|typed|] == typed && typed[|typed|..] + rest == rest;
    }

    /** What comes back from the blocked queue is fired one by one. */
    method Flush(held: seq<Item>, rest: seq<Item>)
      requires Valid() && !ignoreBouncing && queue == held + rest && forall i :: 0 <= i < |held| ==> held[i].requeued
      modifies this`queue, this`blocked, this`pressing, this`fireTimer, this`blockingTimer, this`fired
      ensures Valid() && fired == old(fired) + held && queue == rest && blocked == old(blocked) && pressing == old(pressing)
    {
      assert held[0..] + rest == queue && old(fired) + held[..0] == fired;
      for i := 0 to |held|
        invariant Valid() && fired == old(fired) + held[..i] && queue == held[i..] + rest
        invariant blocked == old(blocked) && pressing == old(pressing)
      {
        assert queue[0] == held[i] && queue[1..] == held[i + 1..] + rest;
        assert old(fired) + held[..i] + [held[i]] == old(fired) + held[..i + 1];
        StepRequeued();
      }
      assert held[..|held|] == held && held[|held|..] + rest == rest;
    }

    /** The release of the blocking key. */
    method StepRelease(down: Item, typed: seq<Item>, up: Item, rest: seq<Item>)
      requires Valid() && !ignoreBouncing && blocked == [down] + typed && queue == [up] + rest
      requires !up.requeued && up.event.Up? && down.event == Down(up.event.key)
      requires up.event.key in blockers && !HasDown(typed, up.event.key)
      modifies this`queue, this`blocked, this`pressing, this`fireTimer, this`blockingTimer, this`fired
      ensures Valid() && fired == old(fired) + [down.(requeued := true)] && blocked == []
      ensures queue == Requeued([up] + typed) + rest
      ensures forall p :: p in pressing ==> p in old(pressing) && p.key != up.event.key
    {
      TickRelease(blockers, Current(), down, typed, up, rest);
      FireTimerCallback();
    }

    /** A blocking key is pressed and released around quickly typed keys: nothing is fired until its release, and then the
        blocking key's press and release come before what was typed, whatever follows. */
    method BlockingKeyTyped(down: Item, typed: seq<Item>, up: Item, rest: seq<Item>) returns (ghost waiting: seq<Item>)
      requires Valid() && !ignoreBouncing && blocked == [] && queue == [down] + typed + ([up] + rest)
      requires !down.requeued && !up.requeued && down.event.Down? && down.event.key in blockers
      requires up.event == Up(down.event.key) && Quick(blockers, typed)
      modifies this`queue, this`blocked, this`pressing, this`fireTimer, this`blockingTimer, this`fired
      // What has been fired when the release is next.
      ensures waiting == old(fired)
      ensures Valid() && fired == old(fired) + Requeued([down, up] + typed) && queue == rest && blocked == []
      // The key no longer blocks.
      ensures forall p :: p in pressing && p.key in blockers ==> p in old(pressing) && p.key != down.event.key
    {
      HoldQuick(down, typed, [up] + rest);
      waiting := fired;
      NoDown(blockers, typed, up.event.key);
      StepRelease(down, typed, up, rest);
      Flush(Requeued([up] + typed), rest);
      TogetherInOrder(old(fired), down, [up] + typed, [down, up] + typed);
    }

    static lemma TogetherInOrder(fired: seq<Item>, first: Item, more: seq<Item>, all: seq<Item>)
      requires all == [first] + more
      ensures fired + [first.(requeued := true)] + Requeued(more) == fired + Requeued(all)
    {
      assert Requeued(all) == [first.(requeued := true)] + Requeued(more);
    }

    /** The release of a key that went down since. */
    method StepStroke(ghost b: Key, held: seq<Item>, up: Item, rest: seq<Item>)
      requires Valid() && !ignoreBouncing && blocked == held != [] && queue == [up] + rest && Blocks(blockers, pressing, b)
      requires !up.requeued && up.event.Up? && up.event.key !in blockers
      requires (forall i :: 0 <= i < |held| ==> held[i].event.Down?) && HasDown(held, up.event.key)
      modifies this`queue, this`blocked, this`pressing, this`fireTimer, this`blockingTimer, this`fired
      ensures Valid() && fired == old(fired) + [held[0].(requeued := true)] && blocked == []
      ensures queue == Requeued(held[1..] + [up]) + rest && forall p :: p in pressing ==> p.ignore
    {
      TickStroke(blockers, Current(), b, held, up, rest);
      FireTimerCallback();
    }

    /** A blocking key and other keys go down and one of those goes up again: nothing is fired until then, then all of it
        in the order it arrived, and from then on the keys that are down no longer block. */
    method OtherKeyTyped(down: Item, typed: seq<Item>, up: Item, rest: seq<Item>) returns (ghost waiting: seq<Item>)
      requires Valid() && !ignoreBouncing && blocked == [] && queue == [down] + typed + ([up] + rest)
      requires !down.requeued && !up.requeued && down.event.Down? && down.event.key in blockers
      requires forall i :: 0 <= i < |typed| ==>
        !typed[i].requeued && typed[i].event.Down? && typed[i].event.key !in blockers
      requires up.event.Up? && up.event.key !in blockers && HasDown(typed, up.event.key)
      modifies this`queue, this`blocked, this`pressing, this`fireTimer, this`blockingTimer, this`fired
      ensures waiting == old(fired)
      ensures Valid() && fired == old(fired) + Requeued([down] + typed + [up]) && queue == rest && blocked == []
      ensures forall p :: p in pressing ==> p.ignore
    {
      HoldQuick(down, typed, [up] + rest);
      waiting := fired;
      ghost var k :| 0 <= k < |typed| && typed[k].event == Down(up.event.key);
      assert ([down] + typed)[k + 1].event == Down(up.event.key);
      StepStroke(down.event.key, [down] + typed, up, rest);
      assert ([down] + typed)[1..] == typed;
      Flush(Requeued(typed + [up]), rest);
      TogetherInOrder(old(fired), down, typed + [up], [down] + typed + [up]);
    }

    /** With no new arrivals both queues drain, in whatever order the two timers fire; and then every event that
        arrived has been fired, exactly once, each key's events in the order they arrived.  With the bounce filter on,
        what has been fired of a key is a part of what arrived, in that order, with as many presses more than releases. */
    method Drain()
      requires Valid()
      modifies this`queue, this`blocked, this`pressing, this`fireTimer, this`blockingTimer, this`fired
      ensures Valid() && queue == [] && blocked == []
      ensures !ignoreBouncing ==> forall key :: Of(fired, key) == Of(arrived, key)
      ensures forall key :: Within(Of(fired, key), Of(arrived, key)) && NetOf(Of(fired, key)) == NetOf(Of(arrived, key))
    {
      while fireTimer || blockingTimer
        invariant Valid()
        decreases Work(Current()), fireTimer
      {
        var timeout: bool := *;
        if blockingTimer && (timeout || !fireTimer) {
          BlockingTimeout();
        } else {
          FireTimerCallback();
        }
      }
      assert fired + [] + [] == fired;
      forall key
        ensures Within(Of(fired, key), Of(arrived, key)) && NetOf(Of(fired, key)) == NetOf(Of(arrived, key))
      {
        assert LetThrough(ignoreBouncing, Of(fired + blocked + queue, key), Of(arrived, key));
        WithinSelf(Of(arrived, key));
      }
    }
  }

  /** One handled event keeps what is known at rest. */
  lemma HandledDelivers(filtered: bool, blockers: set<Key>, arrived: seq<Item>, fired: seq<Item>, s: State)
    requires s.queue != [] && Delivering(filtered, blockers, arrived, fired, s)
    ensures var (h, fire) := Handled(blockers, s);
            if fire then h.queue != [] && Delivering(filtered, blockers, arrived, fired + [h.queue[0]], Popped(h))
            else Delivering(filtered, blockers, arrived, fired, h)
  {
    var (h, fire) := Handled(blockers, s);
    HandledHeld(blockers, s);
    forall key ensures LetThrough(filtered, Of(fired + h.blocked + h.queue, key), Of(arrived, key)) {
      HandledOrder(blockers, fired, s, key);
    }
    if fire {
      forall key ensures LetThrough(filtered, Of(fired + [h.queue[0]] + h.blocked + h.queue[1..], key), Of(arrived, key)) {
        FiredOrder(fired, h, key);
      }
    }
  }
}
