/** Removal of key bounces, the first part of EventInputQueue::fire_timer_callback
    (src/core/kext/Classes/EventInputQueue.cpp:489-537): a release followed too soon by a press of the same key is
    taken out of the queue together with that press, again and again until no such pair is left.
 */
module Bouncing {
  import opened Wrappers
  import opened InputEvents

  /** The two thresholds, in milliseconds. */
  datatype Thresholds = Thresholds(keyboard: nat, mice: nat)
  {
    function For(key: Key): nat { if key.Button? then mice else keyboard }
  }

  /** The distance of two arrivals, computed in 32-bit unsigned arithmetic. */
  function Interval(up: Item, down: Item): nat { (down.time - up.time) % 0x1_0000_0000 }

  /** The pair the filter is about. */
  ghost predicate IsBounce(t: Thresholds, s: seq<Item>, p: nat, q: nat) {
    p < q < |s| && s[p].event.Up? && s[q].event == Down(s[p].event.key) &&
    Interval(s[p], s[q]) < t.For(s[p].event.key) &&
    forall i :: p < i < q ==> s[i].event != s[p].event
  }

  /** The press that makes the release at `p` a bounce, looked for from `q` on; another release ends the search. */
  function FindDown(t: Thresholds, s: seq<Item>, p: nat, q: nat): (r: Option<nat>)
    requires p < q <= |s| && s[p].event.Up?
    requires forall i :: p < i < q ==> s[i].event != s[p].event
    ensures r.Some? ==> q <= r.value && IsBounce(t, s, p, r.value)
    ensures r.None? ==> forall i :: q <= i ==> !IsBounce(t, s, p, i)
    decreases |s| - q
  {
    if q == |s| || s[q].event == s[p].event then None
    else if s[q].event == Down(s[p].event.key) && Interval(s[p], s[q]) < t.For(s[p].event.key) then Some(q)
    else FindDown(t, s, p, q + 1)
  }

  /** The first release from `p` on that is a bounce, with its press. */
  function FindBounce(t: Thresholds, s: seq<Item>, p: nat): (r: Option<(nat, nat)>)
    requires p <= |s|
    ensures r.Some? ==> IsBounce(t, s, r.value.0, r.value.1)
    ensures r.None? ==> forall i, j :: p <= i ==> !IsBounce(t, s, i, j)
    decreases |s| - p
  {
    if p == |s| then None
    else if s[p].event.Up? && FindDown(t, s, p, p + 1).Some? then Some((p, FindDown(t, s, p, p + 1).value))
    else FindBounce(t, s, p + 1)
  }

  function Remove(s: seq<Item>, p: nat): seq<Item>
    requires p < |s|
  {
    s[..p] + s[p + 1..]
  }

  /** The queue without bounces. */
  function Debounced(t: Thresholds, s: seq<Item>): seq<Item>
    decreases |s|
  {
    var bounce := FindBounce(t, s, 0);
    if bounce.None? then s
    else Debounced(t, Remove(Remove(s, bounce.value.1), bounce.value.0))
  }

  /** The source's two nested loops. */
  method SearchBounce(t: Thresholds, s: seq<Item>) returns (r: Option<(nat, nat)>)
    ensures r == FindBounce(t, s, 0)
  {
    for p := 0 to |s|
      invariant FindBounce(t, s, 0) == FindBounce(t, s, p)
    {
      if s[p].event.Up? {
        var q := p + 1;
        while q < |s| && s[q].event != s[p].event
          invariant p < q <= |s|
          invariant forall i :: p < i < q ==> s[i].event != s[p].event
          invariant FindDown(t, s, p, p + 1) == FindDown(t, s, p, q)
        {
          if s[q].event == Down(s[p].event.key) {
            if Interval(s[p], s[q]) < t.For(s[p].event.key) {
              return Some((p, q));
            }
          }
          q := q + 1;
        }
      }
    }
    return None;
  }

  /** After every removal the search starts over. */
  method RemoveBounces(t: Thresholds, queue: seq<Item>) returns (r: seq<Item>)
    ensures r == Debounced(t, queue)
  {
    r := queue;
    while true
      invariant Debounced(t, r) == Debounced(t, queue)
      decreases |r|
    {
      var bounce := SearchBounce(t, r);
      if bounce.None? {
        break;
      }
      r := Remove(Remove(r, bounce.value.1), bounce.value.0);
    }
  }

  // ---------------------------------------------------------------------------------------------
  // What the filter promises

  /** `kept` are positions in `s`, in order, and `r` is what stands there. */
  ghost predicate Selects(s: seq<Item>, kept: seq<nat>, r: seq<Item>) {
    |kept| == |r| &&
    (forall i :: 0 <= i < |kept| ==> kept[i] < |s| && r[i] == s[kept[i]]) &&
    (forall i, j :: 0 <= i < j < |kept| ==> kept[i] < kept[j])
  }

  ghost predicate IsSubsequence(r: seq<Item>, s: seq<Item>) {
    exists kept :: Selects(s, kept, r)
  }

  /** Without the last item, the selection loses that item or nothing. */
  lemma SelectsFewer(s: seq<Item>, kept: seq<nat>, r: seq<Item>)
    requires Selects(s, kept, r) && s != []
    ensures var n := |s| - 1;
            if r != [] && kept[|r| - 1] == n then Selects(s[..n], kept[..|r| - 1], r[..|r| - 1]) && r[|r| - 1] == s[n]
            else Selects(s[..n], kept, r)
  {
    assert forall i :: 0 <= i < |kept| ==> kept[i] <= kept[|kept| - 1];
  }

  lemma RemoveSelects(s: seq<Item>, kept: seq<nat>, r: seq<Item>, p: nat)
    requires Selects(s, kept, r) && p < |r|
    ensures Selects(s, kept[..p] + kept[p + 1..], Remove(r, p))
  {
  }

  lemma {:induction false} DebouncedSelects(t: Thresholds, s: seq<Item>, kept: seq<nat>, r: seq<Item>)
    requires Selects(s, kept, r)
    ensures IsSubsequence(Debounced(t, r), s)
    decreases |r|
  {
    var bounce := FindBounce(t, r, 0);
    if bounce.Some? {
      var (p, q) := bounce.value;
      RemoveSelects(s, kept, r, q);
      var kept1 := kept[..q] + kept[q + 1..];
      RemoveSelects(s, kept1, Remove(r, q), p);
      DebouncedSelects(t, s, kept1[..p] + kept1[p + 1..], Remove(Remove(r, q), p));
    }
  }

  /** Presses minus releases of a key. */
  function Net(s: seq<Item>, key: Key): int {
    if s == [] then 0 else Net(s[..|s| - 1], key) + Step(s[|s| - 1], key)
  }

  function Step(item: Item, key: Key): int {
    if item.event == Down(key) then 1 else if item.event == Up(key) then -1 else 0
  }

  lemma {:induction false} NetRemove(s: seq<Item>, p: nat, key: Key)
    requires p < |s|
    ensures Net(Remove(s, p), key) == Net(s, key) - Step(s[p], key)
  {
    var n := |s| - 1;
    if p == n {
      assert Remove(s, p) == s[..n];
    } else {
      assert Remove(s, p)[..n - 1] == Remove(s[..n], p);
      assert Remove(s, p)[n - 1] == s[n];
      NetRemove(s[..n], p, key);
    }
  }

  /** For every queue: what is left is a subsequence, the net presses of every key are as before, and no bounce is
      left. */
  lemma {:induction false} DebouncedCorrect(t: Thresholds, s: seq<Item>)
    ensures IsSubsequence(Debounced(t, s), s)
    ensures forall key :: Net(Debounced(t, s), key) == Net(s, key)
    ensures forall p, q :: !IsBounce(t, Debounced(t, s), p, q)
  {
    DebouncedSelects(t, s, seq(|s|, i requires 0 <= i => i), s);
    NoBounceLeft(t, s);
    forall key ensures Net(Debounced(t, s), key) == Net(s, key) {
      DebouncedNet(t, s, key);
    }
  }

  lemma {:induction false} NoBounceLeft(t: Thresholds, s: seq<Item>)
    ensures forall p, q :: !IsBounce(t, Debounced(t, s), p, q)
    decreases |s|
  {
    var bounce := FindBounce(t, s, 0);
    if bounce.Some? {
      NoBounceLeft(t, Remove(Remove(s, bounce.value.1), bounce.value.0));
    }
  }

  lemma {:induction false} DebouncedNet(t: Thresholds, s: seq<Item>, key: Key)
    ensures Net(Debounced(t, s), key) == Net(s, key)
    decreases |s|
  {
    var bounce := FindBounce(t, s, 0);
    if bounce.Some? {
      var (p, q) := bounce.value;
      NetRemove(s, q, key);
      NetRemove(Remove(s, q), p, key);
      DebouncedNet(t, Remove(Remove(s, q), p), key);
    }
  }

  /** A queue without bounces is left alone; in particular the filter is idempotent. */
  lemma {:induction false} DebouncedIdempotent(t: Thresholds, s: seq<Item>)
    ensures Debounced(t, s) == s <==> forall p, q :: !IsBounce(t, s, p, q)
    ensures Debounced(t, Debounced(t, s)) == Debounced(t, s)
  {
    NoBounceLeft(t, s);
    DebouncedShorter(t, s);
    var r := Debounced(t, s);
    assert FindBounce(t, r, 0).None?;
  }

  lemma {:induction false} DebouncedShorter(t: Thresholds, s: seq<Item>)
    ensures |Debounced(t, s)| <= |s|
    ensures FindBounce(t, s, 0).Some? ==> |Debounced(t, s)| < |s|
    decreases |s|
  {
    var bounce := FindBounce(t, s, 0);
    if bounce.Some? {
      DebouncedShorter(t, Remove(Remove(s, bounce.value.1), bounce.value.0));
    }
  }

  /** In milliseconds: a release and the press that follows it go when less than the threshold of the key's kind lies
      between them, and stay otherwise. */
  lemma PairFiltered(t: Thresholds, up: Item, down: Item)
    requires up.event.Up? && down.event == Down(up.event.key) && up.time <= down.time < up.time + 0x1_0000_0000
    ensures Debounced(t, [up, down]) ==
            if down.time - up.time < (if up.event.key.Button? then t.mice else t.keyboard) then [] else [up, down]
  {
    var s := [up, down];
    if down.time - up.time < (if up.event.key.Button? then t.mice else t.keyboard) {
      assert IsBounce(t, s, 0, 1);
      assert FindBounce(t, s, 0) == Some((0, 1));
      assert Remove(Remove(s, 1), 0) == [];
    } else {
      assert forall p, q :: !IsBounce(t, s, p, q);
      DebouncedIdempotent(t, s);
    }
  }

  /** Typing that is slow enough is left alone. */
  lemma SlowTypingKept(t: Thresholds, s: seq<Item>)
    requires forall p, q :: 0 <= p < q < |s| && s[p].event.Up? && s[q].event == Down(s[p].event.key) ==>
      (if s[p].event.key.Button? then t.mice else t.keyboard) <= s[q].time - s[p].time < 0x1_0000_0000
    ensures Debounced(t, s) == s
  {
    assert forall p, q :: !IsBounce(t, s, p, q);
    DebouncedIdempotent(t, s);
  }
}
