/** Simultaneous key presses (src/core/kext/RemapFunc/SimultaneousKeyPresses.*): when all keys of a rule are pressed
    together, their presses are taken out of the input queue and one press of a virtual key is put in front; the
    releases are swallowed as they come, and the last one releases the virtual key.

    The law: over every run the virtual presses that are still outstanding are the activations with a key still down,
    and the presses taken minus the releases swallowed are the entries still active.
 */
module Simultaneous {
  import opened Wrappers
  import opened Sequences
  import opened InputEvents

  type Device = nat

  /** An event in the input queue.  Only events from the hardware are targets; virtual and reposted ones are not. */
  datatype QueueItem = QueueItem(event: Event, device: Device, target: bool, id: nat)

  /** `virtualKey` is None for VK_NONE, for which nothing is put in the queue. */
  datatype Rule = Rule(virtualKey: Option<Key>, fromKeys: seq<Key>, strictOrder: bool, postFromEventsAsRaw: bool)

  /** A from key that is down as part of an activation, identified by the serial number of the input event. */
  datatype Entry = Entry(rule: nat, index: nat, device: Device, frontDevice: Device, serial: nat)

  datatype Result = NotChanged | Applied | QueueChanged

  /** What is recorded of a run: virtual presses and releases, presses taken into activations and
      releases that ended an entry, and the reset that forgets all entries. */
  datatype Record = VirtualDown(rule: nat) | VirtualUp(rule: nat) | Took(rule: nat) | Released(rule: nat) | Cleared

  // ---------------------------------------------------------------------------------------------
  // The search for an activation

  function IndexOf(keys: seq<Key>, key: Key): (r: Option<nat>)
    ensures r.Some? ==> r.value < |keys| && keys[r.value] == key
    ensures r.None? <==> key !in keys
  {
    if keys == [] then None
    else if keys[0] == key then Some(0)
    else
      var r := IndexOf(keys[1..], key);
      if r.None? then None else Some(r.value + 1)
  }

  predicate AllFound(found: seq<Option<nat>>) {
    forall i :: 0 <= i < |found| ==> found[i].Some?
  }

  function Values(found: seq<Option<nat>>): (r: seq<nat>)
    requires AllFound(found)
    ensures |r| == |found| && forall i :: 0 <= i < |found| ==> found[i] == Some(r[i])
  {
    if found == [] then []
    else
      var n := |found| - 1;
      Values(found[..n]) + [found[n].value]
  }

  predicate OutOfOrder(found: seq<Option<nat>>) {
    exists i, j :: 0 <= i < j < |found| && found[i].None? && found[j].Some?
  }

  /** Walk the queue from `pos`: remember where each from key goes down, give up when one goes up, and stop at the
      first moment all are down.  The result is the position of each from key's press. */
  function Scan(rule: Rule, queue: seq<QueueItem>, pos: nat, found: seq<Option<nat>>): (r: Option<seq<nat>>)
    requires |found| == |rule.fromKeys| && pos <= |queue|
    requires Located(rule, queue, pos, found)
    ensures r.Some? ==> Chosen(rule, queue, r.value) && Apart(r.value)
    decreases |queue| - pos
  {
    if pos == |queue| then None
    else
      var item := queue[pos];
      if !item.target then Scan(rule, queue, pos + 1, found)
      else if item.event.Up? && item.event.key in rule.fromKeys then None
      else
        var next := Note(rule, queue, pos, found);
        if rule.strictOrder && OutOfOrder(next) then None
        else if AllFound(next) then Some(Values(next))
        else Scan(rule, queue, pos + 1, next)
  }

  function Note(rule: Rule, queue: seq<QueueItem>, pos: nat, found: seq<Option<nat>>): (r: seq<Option<nat>>)
    requires |found| == |rule.fromKeys| && pos < |queue| && queue[pos].target
    requires Located(rule, queue, pos, found)
    ensures |r| == |found| && Located(rule, queue, pos + 1, r)
  {
    var item := queue[pos];
    if item.event.Down? && IndexOf(rule.fromKeys, item.event.key).Some?
    then found[IndexOf(rule.fromKeys, item.event.key).value := Some(pos)]
    else found
  }

  /** The whole search: nothing has been found yet at the front of the queue. */
  function Search(rule: Rule, queue: seq<QueueItem>): (r: Option<seq<nat>>)
    ensures r.Some? ==> Chosen(rule, queue, r.value) && Apart(r.value)
  {
    Scan(rule, queue, 0, seq(|rule.fromKeys|, _ => None))
  }

  /** Positions found so far: before `pos`, each a press of its own key, no two the same. */
  ghost predicate Located(rule: Rule, queue: seq<QueueItem>, pos: nat, found: seq<Option<nat>>) {
    |found| == |rule.fromKeys| && pos <= |queue| &&
    (forall i :: 0 <= i < |found| && found[i].Some? ==>
      found[i].value < pos && queue[found[i].value].target && queue[found[i].value].event == Down(rule.fromKeys[i])) &&
    (forall i, j :: 0 <= i < j < |found| && found[i].Some? && found[j].Some? ==> found[i].value != found[j].value)
  }

  /** One press for each from key. */
  ghost predicate Chosen(rule: Rule, queue: seq<QueueItem>, positions: seq<nat>) {
    |positions| == |rule.fromKeys| &&
    forall i :: 0 <= i < |positions| ==>
      positions[i] < |queue| && queue[positions[i]].target && queue[positions[i]].event == Down(rule.fromKeys[i])
  }

  ghost predicate Apart(positions: seq<nat>) {
    forall i, j :: 0 <= i < j < |positions| ==> positions[i] != positions[j]
  }

  /** The flags isAllKeysDown and, for the strict order, whether a key is down while one before it is not. */
  method Examine(found: seq<Option<nat>>) returns (allDown: bool, outOfOrder: bool)
    ensures allDown <==> AllFound(found)
    ensures outOfOrder <==> OutOfOrder(found)
  {
    allDown, outOfOrder := true, false;
    for i := 0 to |found|
      invariant allDown <==> forall j :: 0 <= j < i ==> found[j].Some?
      invariant outOfOrder <==> exists j, k :: 0 <= j < k < i && found[j].None? && found[k].Some?
    {
      if found[i].None? {
        allDown := false;
      } else if !allDown {
        outOfOrder := true;
      }
    }
  }

  method SearchDownKeys(rule: Rule, queue: seq<QueueItem>) returns (r: Option<seq<nat>>)
    ensures r == Search(rule, queue)
  {
    var found: seq<Option<nat>> := seq(|rule.fromKeys|, _ => None);
    var pos := 0;
    while pos < |queue|
      invariant pos <= |queue| && |found| == |rule.fromKeys| && Located(rule, queue, pos, found)
      invariant Search(rule, queue) == Scan(rule, queue, pos, found)
    {
      var item := queue[pos];
      if item.target {
        if item.event.Up? && item.event.key in rule.fromKeys {
          return None;
        }
        found := Note(rule, queue, pos, found);
        var allDown, outOfOrder := Examine(found);
        if rule.strictOrder && outOfOrder {
          return None;
        }
        if allDown {
          return Some(Values(found));
        }
      }
      pos := pos + 1;
    }
    return None;
  }

  // When the search succeeds

  /** The key number `i` goes down before position `p`. */
  ghost predicate Seen(rule: Rule, queue: seq<QueueItem>, i: nat, p: nat)
    requires i < |rule.fromKeys| && p <= |queue|
  {
    exists q :: 0 <= q < p && queue[q].target && queue[q].event == Down(rule.fromKeys[i])
  }

  /** Some key is down while one before it is not. */
  ghost predicate Disordered(rule: Rule, queue: seq<QueueItem>, p: nat)
    requires p <= |queue|
  {
    exists i, j :: 0 <= i < j < |rule.fromKeys| && !Seen(rule, queue, i, p) && Seen(rule, queue, j, p)
  }

  /** Up to `p` no key goes up, and if order matters they go down in order. */
  ghost predicate Clean(rule: Rule, queue: seq<QueueItem>, p: nat)
    requires p <= |queue|
  {
    (forall q :: 0 <= q < p && queue[q].target && queue[q].event.Up? ==> queue[q].event.key !in rule.fromKeys) &&
    (rule.strictOrder ==> forall q :: 0 <= q <= p ==> !Disordered(rule, queue, q))
  }

  ghost predicate Ready(rule: Rule, queue: seq<QueueItem>, p: nat)
    requires p <= |queue|
  {
    Clean(rule, queue, p) && forall i :: 0 <= i < |rule.fromKeys| ==> Seen(rule, queue, i, p)
  }

  ghost predicate DistinctKeys(keys: seq<Key>) {
    forall i, j :: 0 <= i < j < |keys| ==> keys[i] != keys[j]
  }

  /** `found` knows which keys have been seen. */
  ghost predicate Tracks(rule: Rule, queue: seq<QueueItem>, pos: nat, found: seq<Option<nat>>) {
    pos <= |queue| && |found| == |rule.fromKeys| &&
    forall i :: 0 <= i < |found| ==> (found[i].Some? <==> Seen(rule, queue, i, pos))
  }

  lemma SeenMore(rule: Rule, queue: seq<QueueItem>, i: nat, p: nat)
    requires i < |rule.fromKeys| && p < |queue|
    ensures Seen(rule, queue, i, p + 1) <==>
            Seen(rule, queue, i, p) || (queue[p].target && queue[p].event == Down(rule.fromKeys[i]))
  {
  }

  lemma TracksNote(rule: Rule, queue: seq<QueueItem>, pos: nat, found: seq<Option<nat>>)
    requires DistinctKeys(rule.fromKeys) && pos < |queue| && queue[pos].target
    requires Located(rule, queue, pos, found) && Tracks(rule, queue, pos, found)
    ensures Tracks(rule, queue, pos + 1, Note(rule, queue, pos, found))
  {
    forall i | 0 <= i < |found|
      ensures Note(rule, queue, pos, found)[i].Some? <==> Seen(rule, queue, i, pos + 1)
    {
      SeenMore(rule, queue, i, pos);
    }
  }

  lemma TracksSkip(rule: Rule, queue: seq<QueueItem>, pos: nat, found: seq<Option<nat>>)
    requires pos < |queue| && !queue[pos].target && Tracks(rule, queue, pos, found)
    ensures Tracks(rule, queue, pos + 1, found)
  {
    forall i | 0 <= i < |found| ensures found[i].Some? <==> Seen(rule, queue, i, pos + 1) {
      SeenMore(rule, queue, i, pos);
    }
  }

  lemma TracksOrder(rule: Rule, queue: seq<QueueItem>, pos: nat, found: seq<Option<nat>>)
    requires Tracks(rule, queue, pos, found)
    ensures OutOfOrder(found) <==> Disordered(rule, queue, pos)
    ensures AllFound(found) <==> forall i :: 0 <= i < |rule.fromKeys| ==> Seen(rule, queue, i, pos)
  {
  }

  lemma CleanMore(rule: Rule, queue: seq<QueueItem>, pos: nat)
    requires pos < |queue| && Clean(rule, queue, pos)
    ensures Clean(rule, queue, pos + 1) <==>
            !(queue[pos].target && queue[pos].event.Up? && queue[pos].event.key in rule.fromKeys) &&
            (rule.strictOrder ==> !Disordered(rule, queue, pos + 1))
  {
  }

  lemma CleanLess(rule: Rule, queue: seq<QueueItem>, p: nat, q: nat)
    requires p <= q <= |queue| && Clean(rule, queue, q)
    ensures Clean(rule, queue, p)
  {
  }

  lemma {:induction false} ScanFrom(rule: Rule, queue: seq<QueueItem>, pos: nat, found: seq<Option<nat>>)
    requires DistinctKeys(rule.fromKeys) && pos <= |queue| && !AllFound(found)
    requires Located(rule, queue, pos, found) && Tracks(rule, queue, pos, found) && Clean(rule, queue, pos)
    ensures Scan(rule, queue, pos, found).Some? <==> exists p :: pos <= p <= |queue| && Ready(rule, queue, p)
    decreases |queue| - pos
  {
    TracksOrder(rule, queue, pos, found);
    if pos < |queue| {
      CleanMore(rule, queue, pos);
      assert Clean(rule, queue, pos + 1) || forall p :: pos < p <= |queue| ==> !Clean(rule, queue, p) by {
        forall p | pos < p <= |queue| && Clean(rule, queue, p) ensures Clean(rule, queue, pos + 1) {
          CleanLess(rule, queue, pos + 1, p);
        }
      }
      if !queue[pos].target {
        TracksSkip(rule, queue, pos, found);
        TracksOrder(rule, queue, pos + 1, found);
        ScanFrom(rule, queue, pos + 1, found);
      } else if !(queue[pos].event.Up? && queue[pos].event.key in rule.fromKeys) {
        var next := Note(rule, queue, pos, found);
        TracksNote(rule, queue, pos, found);
        TracksOrder(rule, queue, pos + 1, next);
        if !(rule.strictOrder && OutOfOrder(next)) {
          if AllFound(next) {
            assert Ready(rule, queue, pos + 1);
          } else {
            ScanFrom(rule, queue, pos + 1, next);
          }
        }
      }
    }
  }

  /** The search succeeds exactly when all keys go down before any of them goes up, in order if order matters. */
  lemma SearchSucceeds(rule: Rule, queue: seq<QueueItem>)
    requires DistinctKeys(rule.fromKeys) && rule.fromKeys != []
    ensures Search(rule, queue).Some? <==>
            exists p :: 0 <= p <= |queue| && Ready(rule, queue, p)
  {
    var none: seq<Option<nat>> := seq(|rule.fromKeys|, _ => None);
    assert none[0].None?;
    ScanFrom(rule, queue, 0, none);
  }

  /** From `start` to `pos` the key number `i` does not go down. */
  ghost predicate Quiet(rule: Rule, queue: seq<QueueItem>, i: nat, start: nat, pos: nat)
    requires i < |rule.fromKeys| && pos <= |queue|
  {
    forall q :: start <= q < pos && queue[q].target ==> queue[q].event != Down(rule.fromKeys[i])
  }

  function After(found: Option<nat>): nat {
    if found.Some? then found.value + 1 else 0
  }

  /** What is found is the latest press of each key. */
  ghost predicate AllLatest(rule: Rule, queue: seq<QueueItem>, pos: nat, found: seq<Option<nat>>)
    requires |found| == |rule.fromKeys| && pos <= |queue|
  {
    forall i :: 0 <= i < |found| ==> Quiet(rule, queue, i, After(found[i]), pos)
  }

  lemma LatestNote(rule: Rule, queue: seq<QueueItem>, pos: nat, found: seq<Option<nat>>)
    requires DistinctKeys(rule.fromKeys) && pos < |queue| && queue[pos].target
    requires Located(rule, queue, pos, found) && AllLatest(rule, queue, pos, found)
    ensures AllLatest(rule, queue, pos + 1, Note(rule, queue, pos, found))
  {
    var next := Note(rule, queue, pos, found);
    forall i | 0 <= i < |next| ensures Quiet(rule, queue, i, After(next[i]), pos + 1) {
      assert Quiet(rule, queue, i, After(found[i]), pos);
    }
  }

  lemma LatestSkip(rule: Rule, queue: seq<QueueItem>, pos: nat, found: seq<Option<nat>>)
    requires |found| == |rule.fromKeys| && pos < |queue| && !queue[pos].target && AllLatest(rule, queue, pos, found)
    ensures AllLatest(rule, queue, pos + 1, found)
  {
    forall i | 0 <= i < |found| ensures Quiet(rule, queue, i, After(found[i]), pos + 1) {
      assert Quiet(rule, queue, i, After(found[i]), pos);
    }
  }

  /** Before `p` some key has not gone down. */
  ghost predicate Incomplete(rule: Rule, queue: seq<QueueItem>, p: nat)
    requires p <= |queue|
  {
    exists i :: 0 <= i < |rule.fromKeys| && Quiet(rule, queue, i, 0, p)
  }

  /** The group of presses a search takes: before its last press at `p - 1` one of the keys has not gone down, and each
      of its presses is the latest of its key. */
  ghost predicate FirstGroup(rule: Rule, queue: seq<QueueItem>, positions: seq<nat>, p: nat) {
    0 < p <= |queue| && |positions| == |rule.fromKeys| && Incomplete(rule, queue, p - 1) &&
    (forall i :: 0 <= i < |positions| ==> positions[i] < p && Quiet(rule, queue, i, positions[i] + 1, p))
  }

  ghost predicate IsFirstGroup(rule: Rule, queue: seq<QueueItem>, positions: seq<nat>) {
    exists p :: FirstGroup(rule, queue, positions, p)
  }

  lemma GroupFound(rule: Rule, queue: seq<QueueItem>, pos: nat, found: seq<Option<nat>>, next: seq<Option<nat>>,
                   positions: seq<nat>)
    requires |found| == |next| == |rule.fromKeys| && pos < |queue|
    requires !AllFound(found) && AllLatest(rule, queue, pos, found) && AllLatest(rule, queue, pos + 1, next)
    requires |positions| == |next| && forall i :: 0 <= i < |next| ==> next[i] == Some(positions[i]) && positions[i] <= pos
    ensures FirstGroup(rule, queue, positions, pos + 1)
  {
    var i :| 0 <= i < |found| && found[i].None?;
    assert Quiet(rule, queue, i, After(found[i]), pos);
    forall j | 0 <= j < |positions| ensures Quiet(rule, queue, j, positions[j] + 1, pos + 1) {
      assert Quiet(rule, queue, j, After(next[j]), pos + 1);
    }
  }

  lemma {:induction false} ScanLatest(rule: Rule, queue: seq<QueueItem>, pos: nat, found: seq<Option<nat>>)
    requires DistinctKeys(rule.fromKeys) && pos <= |queue| && !AllFound(found)
    requires Located(rule, queue, pos, found) && AllLatest(rule, queue, pos, found)
    requires Scan(rule, queue, pos, found).Some?
    ensures IsFirstGroup(rule, queue, Scan(rule, queue, pos, found).value)
    decreases |queue| - pos
  {
    if !queue[pos].target {
      LatestSkip(rule, queue, pos, found);
      ScanLatest(rule, queue, pos + 1, found);
    } else {
      var next := Note(rule, queue, pos, found);
      LatestNote(rule, queue, pos, found);
      if AllFound(next) {
        GroupFound(rule, queue, pos, found, next, Scan(rule, queue, pos, found).value);
      } else {
        ScanLatest(rule, queue, pos + 1, next);
      }
    }
  }

  /** The search takes the group that is complete first, with the latest press of each key. */
  lemma SearchTakesFirstGroup(rule: Rule, queue: seq<QueueItem>)
    requires DistinctKeys(rule.fromKeys) && rule.fromKeys != []
    requires Search(rule, queue).Some?
    ensures IsFirstGroup(rule, queue, Search(rule, queue).value)
  {
    var none: seq<Option<nat>> := seq(|rule.fromKeys|, _ => None);
    assert none[0].None?;
    ScanLatest(rule, queue, 0, none);
  }

  // Two keys, in their own words

  lemma NoteKey(rule: Rule, queue: seq<QueueItem>, pos: nat, found: seq<Option<nat>>, i: nat)
    requires DistinctKeys(rule.fromKeys) && |found| == |rule.fromKeys| && Located(rule, queue, pos, found)
    requires i < |found| && pos < |queue| && queue[pos].target && queue[pos].event == Down(rule.fromKeys[i])
    ensures Note(rule, queue, pos, found) == found[i := Some(pos)]
  {
  }

  lemma ScanNote(rule: Rule, queue: seq<QueueItem>, pos: nat, found: seq<Option<nat>>, next: seq<Option<nat>>)
    requires |found| == |rule.fromKeys| && pos < |queue| && Located(rule, queue, pos, found)
    requires queue[pos].target && queue[pos].event.Down? && next == Note(rule, queue, pos, found)
    ensures rule.strictOrder && OutOfOrder(next) ==> Scan(rule, queue, pos, found).None?
    ensures !(rule.strictOrder && OutOfOrder(next)) && AllFound(next) ==>
            Scan(rule, queue, pos, found) == Some(Values(next))
    ensures !(rule.strictOrder && OutOfOrder(next)) && !AllFound(next) ==>
            Scan(rule, queue, pos, found) == Scan(rule, queue, pos + 1, next)
  {
  }

  /** Key number `i` goes down at `pos` and key number `j` right after it. */
  ghost predicate TwoDown(rule: Rule, queue: seq<QueueItem>, pos: nat, i: nat, j: nat) {
    |rule.fromKeys| == 2 && DistinctKeys(rule.fromKeys) && i < 2 && j < 2 && i != j &&
    pos + 1 < |queue| && queue[pos].target && queue[pos + 1].target &&
    queue[pos].event == Down(rule.fromKeys[i]) && queue[pos + 1].event == Down(rule.fromKeys[j])
  }

  /** The last key that is missing completes the group. */
  lemma LastKey(rule: Rule, queue: seq<QueueItem>, pos: nat, found: seq<Option<nat>>, j: nat)
    requires DistinctKeys(rule.fromKeys) && |found| == |rule.fromKeys| && Located(rule, queue, pos, found)
    requires j < |found| && pos < |queue| && queue[pos].target && queue[pos].event == Down(rule.fromKeys[j])
    requires forall i :: 0 <= i < |found| && i != j ==> found[i].Some?
    ensures var r := Scan(rule, queue, pos, found);
            r.Some? && r.value[j] == pos && forall i :: 0 <= i < |found| && i != j ==> found[i] == Some(r.value[i])
  {
    NoteKey(rule, queue, pos, found, j);
    ScanNote(rule, queue, pos, found, found[j := Some(pos)]);
  }

  lemma TwoKeysFrom(rule: Rule, queue: seq<QueueItem>, pos: nat, i: nat, j: nat, none: seq<Option<nat>>)
    requires TwoDown(rule, queue, pos, i, j) && |none| == 2 && none[0].None? && none[1].None?
    ensures var r := Scan(rule, queue, pos, none);
            if rule.strictOrder && j < i then r.None? else r.Some? && r.value[i] == pos && r.value[j] == pos + 1
  {
    NoteKey(rule, queue, pos, none, i);
    var one := none[i := Some(pos)];
    assert one[j].None? && one[i].Some?;
    ScanNote(rule, queue, pos, none, one);
    if !(rule.strictOrder && j < i) {
      LastKey(rule, queue, pos + 1, one, j);
    }
  }

  /** Two keys pressed one right after the other are taken, unless the order matters and is not that of the rule. */
  lemma TwoKeysTogether(rule: Rule, queue: seq<QueueItem>, i: nat, j: nat)
    requires TwoDown(rule, queue, 0, i, j)
    ensures var r := Search(rule, queue);
            if rule.strictOrder && j < i then r.None? else r.Some? && r.value[i] == 0 && r.value[j] == 1
  {
    TwoKeysFrom(rule, queue, 0, i, j, seq(|rule.fromKeys|, _ => None));
  }

  /** A key that goes up before the other goes down spoils it. */
  lemma TwoKeysApart(rule: Rule, queue: seq<QueueItem>, i: nat)
    requires |rule.fromKeys| == 2 && DistinctKeys(rule.fromKeys) && i < 2
    requires |queue| >= 2 && queue[0].target && queue[1].target
    requires queue[0].event == Down(rule.fromKeys[i]) && queue[1].event == Up(rule.fromKeys[i])
    ensures Search(rule, queue).None?
  {
    var none: seq<Option<nat>> := seq(|rule.fromKeys|, _ => None);
    NoteKey(rule, queue, 0, none, i);
    assert none[i := Some(0)][1 - i].None?;
    ScanNote(rule, queue, 0, none, none[i := Some(0)]);
  }

  // ---------------------------------------------------------------------------------------------
  // Bookkeeping

  /** The activations of a rule that still have a key down. */
  ghost function Serials(active: seq<Entry>, rule: nat): set<nat> {
    set e | e in active && e.rule == rule :: e.serial
  }

  function Entries(active: seq<Entry>, rule: nat): nat {
    if active == [] then 0
    else Entries(active[..|active| - 1], rule) + if active[|active| - 1].rule == rule then 1 else 0
  }

  /** Virtual presses minus virtual releases, since the last reset. */
  function Virtual(log: seq<Record>, rule: nat): int {
    if log == [] then 0
    else
      var last := log[|log| - 1];
      if last.Cleared? then 0
      else
        Virtual(log[..|log| - 1], rule) +
        if last == VirtualDown(rule) then 1 else if last == VirtualUp(rule) then -1 else 0
  }

  /** Presses taken minus releases matched, since the last reset. */
  function Taken(log: seq<Record>, rule: nat): int {
    if log == [] then 0
    else
      var last := log[|log| - 1];
      if last.Cleared? then 0
      else
        Taken(log[..|log| - 1], rule) +
        if last == Took(rule) then 1 else if last == Released(rule) then -1 else 0
  }

  lemma LogAppend(log: seq<Record>, record: Record, rule: nat)
    requires !record.Cleared?
    ensures Virtual(log + [record], rule) ==
            Virtual(log, rule) + if record == VirtualDown(rule) then 1 else if record == VirtualUp(rule) then -1 else 0
    ensures Taken(log + [record], rule) ==
            Taken(log, rule) + if record == Took(rule) then 1 else if record == Released(rule) then -1 else 0
  {
    assert (log + [record])[..|log|] == log;
  }

  lemma EntriesAppend(active: seq<Entry>, e: Entry, rule: nat)
    ensures Entries(active + [e], rule) == Entries(active, rule) + if e.rule == rule then 1 else 0
    ensures Serials(active + [e], rule) == Serials(active, rule) + if e.rule == rule then {e.serial} else {}
  {
    assert (active + [e])[..|active|] == active;
    assert forall x :: x in active + [e] <==> x in active || x == e;
  }

  function Erase<T>(s: seq<T>, k: nat): seq<T>
    requires k < |s|
  {
    s[..k] + s[k + 1..]
  }

  lemma {:induction false} EntriesErase(active: seq<Entry>, k: nat, rule: nat)
    requires k < |active|
    ensures Entries(Erase(active, k), rule) == Entries(active, rule) - if active[k].rule == rule then 1 else 0
  {
    var n := |active| - 1;
    if k == n {
      assert Erase(active, k) == active[..n];
    } else {
      assert Erase(active, k)[..n - 1] == Erase(active[..n], k);
      EntriesErase(active[..n], k, rule);
    }
  }

  ghost predicate IsActiveBySerial(active: seq<Entry>, rule: nat, serial: nat) {
    exists e :: e in active && e.rule == rule && e.serial == serial
  }

  /** An activation ends exactly when its last entry goes. */
  lemma SerialsErase(active: seq<Entry>, k: nat, rule: nat)
    requires k < |active|
    ensures var rest, e := Erase(active, k), active[k];
            Serials(rest, rule) ==
            if e.rule != rule || IsActiveBySerial(rest, rule, e.serial) then Serials(active, rule)
            else Serials(active, rule) - {e.serial}
  {
    var rest, e := Erase(active, k), active[k];
    forall x ensures x in active <==> x in rest || x == e {
      if x in active && x != e {
        var i :| 0 <= i < |active| && active[i] == x;
        assert x == if i < k then rest[i] else rest[i - 1];
      }
    }
  }

  function Targets(queue: seq<QueueItem>): nat {
    if queue == [] then 0
    else Targets(queue[..|queue| - 1]) + if queue[|queue| - 1].target then 1 else 0
  }

  lemma {:induction false} TargetsAppend(a: seq<QueueItem>, b: seq<QueueItem>)
    ensures Targets(a + b) == Targets(a) + Targets(b)
  {
    if b == [] {
      assert a + b == a;
    } else {
      assert (a + b)[..|a + b| - 1] == a + b[..|b| - 1];
      TargetsAppend(a, b[..|b| - 1]);
    }
  }

  lemma TargetsFront(item: QueueItem, rest: seq<QueueItem>)
    ensures Targets([item] + rest) == Targets(rest) + if item.target then 1 else 0
  {
    assert [item][..0] == [];
    TargetsAppend([item], rest);
  }

  /** The queue without the items with these ids. */
  function Without(queue: seq<QueueItem>, ids: set<nat>): seq<QueueItem> {
    if queue == [] then []
    else
      var n := |queue| - 1;
      Without(queue[..n], ids) + if queue[n].id in ids then [] else [queue[n]]
  }

  lemma {:induction false} WithoutNone(queue: seq<QueueItem>)
    ensures Without(queue, {}) == queue
  {
    if queue != [] {
      WithoutNone(queue[..|queue| - 1]);
    }
  }

  lemma WithoutLast(queue: seq<QueueItem>, item: QueueItem, ids: set<nat>)
    ensures Without(queue + [item], ids) == if item.id in ids then Without(queue, ids) else Without(queue, ids) + [item]
  {
    assert (queue + [item])[..|queue|] == queue;
  }

  lemma {:induction false} WithoutTwice(queue: seq<QueueItem>, a: set<nat>, b: set<nat>)
    ensures Without(Without(queue, a), b) == Without(queue, a + b)
  {
    if queue != [] {
      var n := |queue| - 1;
      WithoutTwice(queue[..n], a, b);
      assert queue == queue[..n] + [queue[n]];
      WithoutLast(queue[..n], queue[n], a);
      WithoutLast(queue[..n], queue[n], a + b);
      WithoutLast(Without(queue[..n], a), queue[n], b);
    }
  }

  lemma {:induction false} WithoutAppend(a: seq<QueueItem>, b: seq<QueueItem>, ids: set<nat>)
    ensures Without(a + b, ids) == Without(a, ids) + Without(b, ids)
  {
    if b == [] {
      assert a + b == a;
    } else {
      assert (a + b)[..|a + b| - 1] == a + b[..|b| - 1];
      WithoutAppend(a, b[..|b| - 1], ids);
    }
  }

  lemma {:induction false} WithoutUntouched(queue: seq<QueueItem>, ids: set<nat>)
    requires forall i :: 0 <= i < |queue| ==> queue[i].id !in ids
    ensures Without(queue, ids) == queue
  {
    if queue != [] {
      WithoutUntouched(queue[..|queue| - 1], ids);
    }
  }

  lemma TargetsLast(queue: seq<QueueItem>, item: QueueItem)
    ensures Targets(queue + [item]) == Targets(queue) + if item.target then 1 else 0
  {
    assert (queue + [item])[..|queue|] == queue;
  }

  lemma {:induction false} WithoutTargets(queue: seq<QueueItem>, ids: set<nat>)
    ensures Targets(Without(queue, ids)) <= Targets(queue)
  {
    if queue != [] {
      var n := |queue| - 1;
      WithoutTargets(queue[..n], ids);
      if queue[n].id !in ids {
        TargetsLast(Without(queue[..n], ids), queue[n]);
      } else {
        assert Without(queue, ids) == Without(queue[..n], ids);
      }
    }
  }

  lemma {:induction false} WithoutTarget(queue: seq<QueueItem>, ids: set<nat>, i: nat)
    requires i < |queue| && queue[i].target && queue[i].id in ids
    ensures Targets(Without(queue, ids)) < Targets(queue)
  {
    var n := |queue| - 1;
    if i < n {
      WithoutTarget(queue[..n], ids, i);
    } else {
      WithoutTargets(queue[..n], ids);
    }
    if queue[n].id !in ids {
      TargetsLast(Without(queue[..n], ids), queue[n]);
    } else {
      assert Without(queue, ids) == Without(queue[..n], ids);
    }
  }

  lemma {:induction false} WithoutKeeps(queue: seq<QueueItem>, ids: set<nat>)
    ensures forall x :: x in Without(queue, ids) <==> x in queue && x.id !in ids
  {
    if queue != [] {
      var n := |queue| - 1;
      WithoutKeeps(queue[..n], ids);
      assert queue == queue[..n] + [queue[n]];
    }
  }

  ghost function IdsOf(queue: seq<QueueItem>): set<nat> {
    set x | x in queue :: x.id
  }

  /** Every queued item has its own number, and numbers from `next` on are unused. */
  ghost predicate Numbered(queue: seq<QueueItem>, next: nat) {
    queue == [] || (queue[0].id < next && queue[0].id !in IdsOf(queue[1..]) && Numbered(queue[1..], next))
  }

  lemma {:induction false} NumberedBelow(queue: seq<QueueItem>, next: nat)
    requires Numbered(queue, next)
    ensures forall i :: 0 <= i < |queue| ==> queue[i].id < next
    ensures Numbered(queue, next + 1)
  {
    if queue != [] {
      NumberedBelow(queue[1..], next);
      assert forall i :: 0 < i < |queue| ==> queue[i] == queue[1..][i - 1];
    }
  }

  lemma {:induction false} NumberedDistinct(queue: seq<QueueItem>, next: nat, i: nat, j: nat)
    requires Numbered(queue, next) && i < j < |queue|
    ensures queue[i].id != queue[j].id
  {
    if i > 0 {
      NumberedDistinct(queue[1..], next, i - 1, j - 1);
    } else {
      assert queue[j] == queue[1..][j - 1];
    }
  }

  lemma NumberedFront(queue: seq<QueueItem>, item: QueueItem, next: nat)
    requires Numbered(queue, next) && item.id == next
    ensures Numbered([item] + queue, next + 1)
  {
    NumberedBelow(queue, next);
    assert ([item] + queue)[1..] == queue;
  }

  lemma {:induction false} NumberedBack(queue: seq<QueueItem>, item: QueueItem, next: nat)
    requires Numbered(queue, next) && item.id == next
    ensures Numbered(queue + [item], next + 1)
  {
    if queue != [] {
      NumberedBack(queue[1..], item, next);
      assert (queue + [item])[1..] == queue[1..] + [item];
    }
  }

  lemma WithoutFirst(item: QueueItem, rest: seq<QueueItem>, ids: set<nat>)
    ensures Without([item] + rest, ids) == if item.id in ids then Without(rest, ids) else [item] + Without(rest, ids)
  {
    WithoutAppend([item], rest, ids);
    WithoutLast([], item, ids);
    assert [] + [item] == [item];
  }

  lemma {:induction false} NumberedWithout(queue: seq<QueueItem>, next: nat, ids: set<nat>)
    requires Numbered(queue, next)
    ensures Numbered(Without(queue, ids), next)
  {
    if queue != [] {
      var rest := Without(queue[1..], ids);
      NumberedWithout(queue[1..], next, ids);
      WithoutKeeps(queue[1..], ids);
      assert queue == [queue[0]] + queue[1..];
      WithoutFirst(queue[0], queue[1..], ids);
      if queue[0].id !in ids {
        assert ([queue[0]] + rest)[1..] == rest;
      }
    }
  }

  lemma FrontDropped(queue: seq<QueueItem>, next: nat)
    requires queue != [] && queue[0].target && Numbered(queue, next)
    ensures Numbered(queue[1..], next) && Targets(queue[1..]) < Targets(queue)
    ensures Numbered([queue[0].(target := false)] + queue[1..], next)
    ensures Targets([queue[0].(target := false)] + queue[1..]) < Targets(queue)
  {
    var item, rest := queue[0], queue[1..];
    assert queue == [item] + rest;
    assert ([item.(target := false)] + rest)[1..] == rest;
    TargetsFront(item, rest);
    TargetsFront(item.(target := false), rest);
  }

  // ---------------------------------------------------------------------------------------------
  // The law, on values

  /** Entries belong to keys of rules. */
  ghost predicate EntriesOk(rules: seq<Rule>, active: seq<Entry>) {
    forall e :: e in active ==> e.rule < |rules| && e.index < |rules[e.rule].fromKeys|
  }

  /** What every run keeps. */
  ghost predicate Balanced(rules: seq<Rule>, active: seq<Entry>, log: seq<Record>) {
    (forall r: nat :: Taken(log, r) == Entries(active, r)) &&
    (forall r: nat :: r < |rules| && rules[r].virtualKey.Some? ==> Virtual(log, r) == |Serials(active, r)|)
  }

  /** An activation with the current serial number blocks further changes by its virtual event in front. */
  ghost predicate Shielded(rules: seq<Rule>, active: seq<Entry>, serial: nat, queue: seq<QueueItem>) {
    forall e :: e in active && e.rule < |rules| ==>
      e.serial <= serial &&
      (e.serial == serial && rules[e.rule].virtualKey.Some? ==> queue != [] && !queue[0].target)
  }

  /** All activations with a virtual key are older than the current serial number. */
  ghost predicate Past(rules: seq<Rule>, active: seq<Entry>, serial: nat) {
    forall e :: e in active && e.rule < |rules| && rules[e.rule].virtualKey.Some? ==> e.serial < serial
  }

  lemma EraseSubset<T>(s: seq<T>, k: nat)
    requires k < |s|
    ensures forall x :: x in Erase(s, k) ==> x in s
  {
  }

  /** Taking an entry out keeps the balance if the virtual key goes up with the last one. */
  lemma BalancedErase(rules: seq<Rule>, active: seq<Entry>, log: seq<Record>, k: nat)
    requires k < |active| && EntriesOk(rules, active) && Balanced(rules, active, log)
    ensures var e, rest := active[k], Erase(active, k);
            var log' := log + [Released(e.rule)];
            Balanced(rules, rest,
                     if !IsActiveBySerial(rest, e.rule, e.serial) && rules[e.rule].virtualKey.Some?
                     then log' + [VirtualUp(e.rule)] else log')
  {
    var e, rest := active[k], Erase(active, k);
    var log' := log + [Released(e.rule)];
    var up := !IsActiveBySerial(rest, e.rule, e.serial) && rules[e.rule].virtualKey.Some?;
    forall r: nat
      ensures Taken(if up then log' + [VirtualUp(e.rule)] else log', r) == Entries(rest, r)
      ensures r < |rules| && rules[r].virtualKey.Some? ==>
              Virtual(if up then log' + [VirtualUp(e.rule)] else log', r) == |Serials(rest, r)|
    {
      LogAppend(log, Released(e.rule), r);
      LogAppend(log', VirtualUp(e.rule), r);
      EntriesErase(active, k, r);
      SerialsErase(active, k, r);
      assert e.serial in Serials(active, e.rule);
    }
  }

  // ---------------------------------------------------------------------------------------------
  // The queue with its rules

  /** Does this event release the key of this entry? */
  ghost predicate Releases(rules: seq<Rule>, item: QueueItem, e: Entry) {
    e.rule < |rules| && e.index < |rules[e.rule].fromKeys| &&
    e.device == item.device && item.event == Up(rules[e.rule].fromKeys[e.index])
  }

  /** Nothing is left to do for a rule about the front event: it releases no active entry, and it does not begin a group of
      presses of all the rule's keys (said for rules whose keys are distinct). */
  ghost predicate Idle(rules: seq<Rule>, active: seq<Entry>, queue: seq<QueueItem>, r: nat, modifiersOn: bool)
    requires r < |rules| && queue != []
  {
    (forall e :: e in active && e.rule == r && e.index < |rules[r].fromKeys| ==>
      !(e.device == queue[0].device && queue[0].event == Up(rules[r].fromKeys[e.index]))) &&
    (modifiersOn && queue[0].event.Down? && queue[0].event.key in rules[r].fromKeys && DistinctKeys(rules[r].fromKeys) ==>
      forall p :: 0 <= p <= |queue| ==> !Ready(rules[r], queue, p))
  }

  ghost predicate AllIdle(rules: seq<Rule>, active: seq<Entry>, queue: seq<QueueItem>, consulted: set<nat>, modifiersOn: set<nat>)
    requires queue != []
  {
    queue[0].target ==>
      forall r :: 0 <= r < |rules| && r in consulted ==> Idle(rules, active, queue, r, r in modifiersOn)
  }

  /** What a release of an active key does: entry `k` goes, the event is swallowed (or, for a rule that posts its events,
      kept as it is), and if `k` was the last one of its activation, the virtual key goes up in front. */
  ghost predicate Swallows(rules: seq<Rule>, r: nat, k: nat, next: nat,
                           queue: seq<QueueItem>, active: seq<Entry>, log: seq<Record>,
                           queue': seq<QueueItem>, active': seq<Entry>, log': seq<Record>, result: Result)
    requires r < |rules| && queue != []
  {
    k < |active| && active[k].rule == r && active[k].index < |rules[r].fromKeys| &&
    active[k].device == queue[0].device && queue[0].event == Up(rules[r].fromKeys[active[k].index]) &&
    active' == Erase(active, k) &&
    var rest := (if rules[r].postFromEventsAsRaw then [queue[0].(target := false)] else []) + queue[1..];
    if exists e :: e in active' && e.rule == r && e.serial == active[k].serial
    then result.QueueChanged? && queue' == rest && log' == log + [Released(r)]
    else if rules[r].virtualKey.None?
    then result.Applied? && queue' == rest && log' == log + [Released(r)]
    else result.Applied? && log' == log + [Released(r)] + [VirtualUp(r)] &&
         queue' == [QueueItem(Up(rules[r].virtualKey.value), active[k].frontDevice, false, next)] + rest
  }

  /** What an activation does: the presses of the first complete group go, each has its entry, and the virtual key goes down
      in front. */
  ghost predicate Takeover(rules: seq<Rule>, r: nat, positions: seq<nat>, serial: nat, next: nat, id: nat,
                           queue: seq<QueueItem>, active: seq<Entry>, log: seq<Record>,
                           queue': seq<QueueItem>, active': seq<Entry>, log': seq<Record>)
    requires r < |rules| && queue != []
  {
    Chosen(rules[r], queue, positions) && Apart(positions) &&
    (DistinctKeys(rules[r].fromKeys) ==> IsFirstGroup(rules[r], queue, positions)) &&
    queue' == Activated(rules[r], queue, positions, next, id) &&
    active' == active + NewEntries(r, queue, positions, serial, 0) &&
    log' == log + Takes(r, |positions|) + if rules[r].virtualKey.Some? then [VirtualDown(r)] else []
  }

  /** What a pass works on. */
  datatype State = State(queue: seq<QueueItem>, active: seq<Entry>, log: seq<Record>, next: nat)

  /** A rule is applied: it swallows the front as the release of an active key, or takes over a group of presses that
      begins with the front. */
  ghost predicate RuleActs(rules: seq<Rule>, r: nat, modifiersOn: bool, serial: nat, s: State, t: State) {
    r < |rules| && s.queue != [] && s.queue[0].target &&
    if s.queue[0].event.Up?
    then exists k, result :: Swallows(rules, r, k, s.next, s.queue, s.active, s.log, t.queue, t.active, t.log, result)
    else modifiersOn && s.queue[0].event.Down? && s.queue[0].event.key in rules[r].fromKeys &&
         exists positions, id ::
           Takeover(rules, r, positions, serial, s.next, id, s.queue, s.active, s.log, t.queue, t.active, t.log)
  }

  /** A rule has its turn: it is applied, or there is nothing for it to do. */
  ghost predicate RuleTurn(rules: seq<Rule>, r: nat, modifiersOn: bool, serial: nat, s: State, t: State) {
    r < |rules| &&
    if s == t then s.queue == [] || !s.queue[0].target || Idle(rules, s.active, s.queue, r, modifiersOn)
    else RuleActs(rules, r, modifiersOn, serial, s, t)
  }

  /** Every consulted rule has its turn, in the order of the rules. */
  ghost predicate PassTrace(rules: seq<Rule>, consulted: set<nat>, modifiersOn: set<nat>, serial: nat, states: seq<State>) {
    |states| == |rules| + 1 &&
    forall r :: 0 <= r < |rules| ==>
      if r in consulted then RuleTurn(rules, r, r in modifiersOn, serial, states[r], states[r + 1])
      else states[r + 1] == states[r]
  }

  /** One pass after another, each starting where the one before ended. */
  ghost predicate Follow(rules: seq<Rule>, serial: nat, consulted: nat -> set<nat>, modifiersOn: nat -> set<nat>,
                         history: seq<seq<State>>) {
    (forall i :: 0 <= i < |history| ==> PassTrace(rules, consulted(i), modifiersOn(i), serial, history[i])) &&
    (forall i :: 0 < i < |history| ==> history[i][0] == history[i - 1][|rules|])
  }

  /** The passes lead from one state to another. */
  ghost predicate Lead(rules: seq<Rule>, history: seq<seq<State>>, from: State, to: State) {
    history != [] && history[0] != [] && history[0][0] == from &&
    |history[|history| - 1]| > |rules| && history[|history| - 1][|rules|] == to
  }

  lemma FollowMore(rules: seq<Rule>, serial: nat, consulted: nat -> set<nat>, modifiersOn: nat -> set<nat>,
                   history: seq<seq<State>>, states: seq<State>, from: State)
    requires Follow(rules, serial, consulted, modifiersOn, history)
    requires PassTrace(rules, consulted(|history|), modifiersOn(|history|), serial, states)
    requires if history == [] then states[0] == from else Lead(rules, history, from, states[0])
    ensures Follow(rules, serial, consulted, modifiersOn, history + [states])
    ensures Lead(rules, history + [states], from, states[|rules|])
  {
  }

  lemma IdleAfterSearch(rules: seq<Rule>, active: seq<Entry>, queue: seq<QueueItem>, r: nat, modifiersOn: bool)
    requires r < |rules| && queue != []
    requires forall e :: e in active && e.rule == r ==> !Releases(rules, queue[0], e)
    requires modifiersOn && queue[0].event.Down? && queue[0].event.key in rules[r].fromKeys ==>
             Search(rules[r], queue).None?
    ensures Idle(rules, active, queue, r, modifiersOn)
  {
    if modifiersOn && queue[0].event.Down? && queue[0].event.key in rules[r].fromKeys && DistinctKeys(rules[r].fromKeys) {
      SearchSucceeds(rules[r], queue);
    }
  }

  /** The numbers of the items at these positions. */
  ghost function IdsAt(queue: seq<QueueItem>, positions: seq<nat>, from: nat): set<nat>
    requires forall i :: 0 <= i < |positions| ==> positions[i] < |queue|
  {
    set i | from <= i < |positions| :: queue[positions[i]].id
  }

  /** Raw copies of the presses from index `from` on, in the order of the rule's keys. */
  ghost function Copies(keys: seq<Key>, device: Device, next: nat, from: nat): seq<QueueItem>
    requires from <= |keys|
    decreases |keys| - from
  {
    if from == |keys| then []
    else [QueueItem(Down(keys[from]), device, false, next + |keys| - 1 - from)] + Copies(keys, device, next, from + 1)
  }

  lemma {:induction false} CopiesFresh(keys: seq<Key>, device: Device, next: nat, from: nat)
    requires from <= |keys|
    ensures forall x :: x in Copies(keys, device, next, from) ==> !x.target && x.id >= next
    decreases |keys| - from
  {
    if from < |keys| {
      CopiesFresh(keys, device, next, from + 1);
    }
  }

  /** The copies stand in the order of the rule's keys, and none of them is a target. */
  lemma {:induction false} CopiesAt(keys: seq<Key>, device: Device, next: nat, from: nat, i: nat)
    requires from <= i < |keys|
    ensures var copies := Copies(keys, device, next, from);
            |copies| == |keys| - from &&
            copies[i - from] == QueueItem(Down(keys[i]), device, false, next + |keys| - 1 - i)
    decreases |keys| - from
  {
    if from < i {
      CopiesAt(keys, device, next, from + 1, i);
    } else if from + 1 < |keys| {
      CopiesAt(keys, device, next, from + 1, from + 1);
    }
  }

  /** One entry for every key from index `from` on, the last key first. */
  ghost function NewEntries(r: nat, queue: seq<QueueItem>, positions: seq<nat>, serial: nat, from: nat): seq<Entry>
    requires queue != [] && from <= |positions| && forall i :: 0 <= i < |positions| ==> positions[i] < |queue|
    decreases |positions| - from
  {
    if from == |positions| then []
    else NewEntries(r, queue, positions, serial, from + 1) +
         [Entry(r, from, queue[positions[from]].device, queue[0].device, serial)]
  }

  /** Every key of an activation has the entry with its own number and the device of its own press; the device of the
      front and the serial number are the same for all. */
  lemma {:induction false} NewEntriesAt(r: nat, queue: seq<QueueItem>, positions: seq<nat>, serial: nat, from: nat, i: nat)
    requires queue != [] && from <= i < |positions| && forall i :: 0 <= i < |positions| ==> positions[i] < |queue|
    ensures var entries := NewEntries(r, queue, positions, serial, from);
            |entries| == |positions| - from &&
            entries[|positions| - 1 - i] == Entry(r, i, queue[positions[i]].device, queue[0].device, serial)
    decreases |positions| - from
  {
    if from < i {
      NewEntriesAt(r, queue, positions, serial, from + 1, i);
    } else if from + 1 < |positions| {
      NewEntriesAt(r, queue, positions, serial, from + 1, from + 1);
    }
  }

  lemma NewEntriesMore(active: seq<Entry>, before: seq<Entry>, r: nat, queue: seq<QueueItem>, positions: seq<nat>,
                       serial: nat, i: nat)
    requires queue != [] && i < |positions| && forall i :: 0 <= i < |positions| ==> positions[i] < |queue|
    requires active == before + NewEntries(r, queue, positions, serial, i + 1)
    ensures active + [Entry(r, i, queue[positions[i]].device, queue[0].device, serial)] ==
            before + NewEntries(r, queue, positions, serial, i)
  {
  }

  /** The records of taking `n` presses. */
  ghost function Takes(r: nat, n: nat): seq<Record> {
    if n == 0 then [] else Takes(r, n - 1) + [Took(r)]
  }

  lemma TakesMore(log: seq<Record>, before: seq<Record>, r: nat, n: nat, m: nat)
    requires log == before + Takes(r, n) && m == n + 1
    ensures log + [Took(r)] == before + Takes(r, m)
  {
  }

  /** The queue when the keys from index `i` on have been activated, the last key first: the raw copy of the press
      goes to the front and the press itself out. */
  ghost function TakenOut(rule: Rule, was: seq<QueueItem>, positions: seq<nat>, device: Device, first: nat, i: nat): seq<QueueItem>
    requires Chosen(rule, was, positions) && i <= |positions|
    decreases |positions| - i
  {
    if i == |positions| then was
    else
      var queue, item := TakenOut(rule, was, positions, device, first, i + 1), was[positions[i]];
      var copy := QueueItem(item.event, device, false, first + |positions| - 1 - i);
      Without(if rule.postFromEventsAsRaw then [copy] + queue else queue, {item.id})
  }

  lemma TakenOutMore(rule: Rule, was: seq<QueueItem>, positions: seq<nat>, device: Device, first: nat, i: nat,
                     next: nat, queue: seq<QueueItem>)
    requires Chosen(rule, was, positions) && i < |positions|
    requires rule.postFromEventsAsRaw ==> next == first + |positions| - (i + 1)
    requires queue == TakenOut(rule, was, positions, device, first, i + 1)
    ensures var item := was[positions[i]];
            if rule.postFromEventsAsRaw
            then TakenOut(rule, was, positions, device, first, i) ==
                 Without([QueueItem(item.event, device, false, next)] + queue, {item.id})
            else TakenOut(rule, was, positions, device, first, i) == Without(queue, {item.id})
  {
  }

  /** The queue after an activation; `id` is the number of the virtual press. */
  ghost function Activated(rule: Rule, queue: seq<QueueItem>, positions: seq<nat>, next: nat, id: nat): seq<QueueItem>
    requires Chosen(rule, queue, positions) && queue != []
  {
    var rest := TakenOut(rule, queue, positions, queue[0].device, next, 0);
    if rule.virtualKey.None? then rest
    else [QueueItem(Down(rule.virtualKey.value), queue[0].device, false, id)] + rest
  }

  lemma EraseStep(copies: seq<QueueItem>, queue: seq<QueueItem>, ids: set<nat>, id: nat)
    requires forall x :: x in copies ==> x.id != id
    ensures Without(copies + Without(queue, ids), {id}) == copies + Without(queue, ids + {id})
  {
    WithoutAppend(copies, Without(queue, ids), {id});
    WithoutUntouched(copies, {id});
    WithoutTwice(queue, ids, {id});
  }

  lemma {:induction false} NoTargets(queue: seq<QueueItem>)
    requires forall i :: 0 <= i < |queue| ==> !queue[i].target
    ensures Targets(queue) == 0
  {
    if queue != [] {
      NoTargets(queue[..|queue| - 1]);
    }
  }

  /** The queue without the presses of the keys from index `i` on, behind their raw copies if the rule posts them. */
  ghost function Remaining(rule: Rule, was: seq<QueueItem>, positions: seq<nat>, device: Device, first: nat, i: nat): seq<QueueItem>
    requires Chosen(rule, was, positions) && i <= |positions|
  {
    if rule.postFromEventsAsRaw
    then Copies(rule.fromKeys, device, first, i) + Without(was, IdsAt(was, positions, i))
    else Without(was, IdsAt(was, positions, i))
  }

  /** An activation takes exactly the chosen presses out of the queue. */
  lemma {:induction false} TakenOutCorrect(rule: Rule, was: seq<QueueItem>, positions: seq<nat>, device: Device,
                                           first: nat, i: nat)
    requires Chosen(rule, was, positions) && Numbered(was, first) && i <= |positions|
    ensures TakenOut(rule, was, positions, device, first, i) == Remaining(rule, was, positions, device, first, i)
    decreases |positions| - i
  {
    if i == |positions| {
      NothingTakenOut(rule, was, positions, device, first);
    } else {
      TakenOutCorrect(rule, was, positions, device, first, i + 1);
      NumberedBelow(was, first);
      TakenOutStep(rule, was, positions, device, first, i);
    }
  }

  lemma NothingTakenOut(rule: Rule, was: seq<QueueItem>, positions: seq<nat>, device: Device, first: nat)
    requires Chosen(rule, was, positions)
    ensures Remaining(rule, was, positions, device, first, |positions|) == was
  {
    WithoutNone(was);
    assert IdsAt(was, positions, |positions|) == {};
    assert [] + was == was;
  }

  lemma TakenOutStep(rule: Rule, was: seq<QueueItem>, positions: seq<nat>, device: Device, first: nat, i: nat)
    requires Chosen(rule, was, positions) && i < |positions| && was[positions[i]].id < first
    requires TakenOut(rule, was, positions, device, first, i + 1) == Remaining(rule, was, positions, device, first, i + 1)
    ensures TakenOut(rule, was, positions, device, first, i) == Remaining(rule, was, positions, device, first, i)
  {
    var item, ids := was[positions[i]], IdsAt(was, positions, i + 1);
    var next, queue := first + |positions| - (i + 1), TakenOut(rule, was, positions, device, first, i + 1);
    assert IdsAt(was, positions, i) == ids + {item.id};
    TakenOutMore(rule, was, positions, device, first, i, next, queue);
    if rule.postFromEventsAsRaw {
      var copy, copies := QueueItem(item.event, device, false, next), Copies(rule.fromKeys, device, first, i + 1);
      CopiesFresh(rule.fromKeys, device, first, i + 1);
      CopiesMore(rule.fromKeys, device, first, i, copy);
      EraseStep([copy] + copies, was, ids, item.id);
      SeqAssoc([copy], copies, Without(was, ids));
    } else {
      WithoutTwice(was, ids, {item.id});
    }
  }

  lemma CopiesMore(keys: seq<Key>, device: Device, first: nat, i: nat, copy: QueueItem)
    requires i < |keys| && copy == QueueItem(Down(keys[i]), device, false, first + |keys| - 1 - i)
    ensures Copies(keys, device, first, i) == [copy] + Copies(keys, device, first, i + 1)
  {
  }

  /** An activation leaves fewer targets. */
  lemma TakenTargets(rule: Rule, queue: seq<QueueItem>, positions: seq<nat>, device: Device, first: nat)
    requires positions != [] && Chosen(rule, queue, positions) && Numbered(queue, first)
    ensures Targets(TakenOut(rule, queue, positions, device, first, 0)) < Targets(queue)
  {
    TakenOutCorrect(rule, queue, positions, device, first, 0);
    var ids := IdsAt(queue, positions, 0);
    assert queue[positions[0]].id in ids;
    WithoutTarget(queue, ids, positions[0]);
    if rule.postFromEventsAsRaw {
      var copies := Copies(rule.fromKeys, device, first, 0);
      CopiesFresh(rule.fromKeys, device, first, 0);
      NoTargets(copies);
      TargetsAppend(copies, Without(queue, ids));
    }
  }

  /** During an activation: every key so far has its entry and its record, and nothing else has changed. */
  ghost predicate Activating(rules: seq<Rule>, r: nat, serial: nat, some: bool,
                             active: seq<Entry>, log: seq<Record>, active': seq<Entry>, log': seq<Record>) {
    EntriesOk(rules, active') &&
    (forall q: nat :: Taken(log', q) == Entries(active', q) && Virtual(log', q) == Virtual(log, q)) &&
    (forall q: nat :: Serials(active', q) == Serials(active, q) + if q == r && some then {serial} else {}) &&
    (forall e :: e in active' ==> e in active || (e.rule == r && e.serial == serial))
  }

  lemma ActivatingStart(rules: seq<Rule>, r: nat, serial: nat, active: seq<Entry>, log: seq<Record>)
    requires EntriesOk(rules, active) && Balanced(rules, active, log)
    ensures Activating(rules, r, serial, false, active, log, active, log)
  {
  }

  lemma ActivatingStep(rules: seq<Rule>, serial: nat, some: bool,
                       active: seq<Entry>, log: seq<Record>, active': seq<Entry>, log': seq<Record>, e: Entry)
    requires Activating(rules, e.rule, serial, some, active, log, active', log')
    requires e.serial == serial && e.rule < |rules| && e.index < |rules[e.rule].fromKeys|
    ensures Activating(rules, e.rule, serial, true, active, log, active' + [e], log' + [Took(e.rule)])
  {
    forall q: nat
      ensures Taken(log' + [Took(e.rule)], q) == Entries(active' + [e], q)
      ensures Virtual(log' + [Took(e.rule)], q) == Virtual(log, q)
      ensures Serials(active' + [e], q) == Serials(active, q) + if q == e.rule then {serial} else {}
    {
      LogAppend(log', Took(e.rule), q);
      EntriesAppend(active', e, q);
    }
  }

  lemma ActivatingDone(rules: seq<Rule>, r: nat, serial: nat,
                       active: seq<Entry>, log: seq<Record>, active': seq<Entry>, log': seq<Record>)
    requires Activating(rules, r, serial, true, active, log, active', log') && Balanced(rules, active, log)
    requires r < |rules|
    requires rules[r].virtualKey.Some? ==> forall e :: e in active && e.rule == r ==> e.serial != serial
    ensures Balanced(rules, active', if rules[r].virtualKey.Some? then log' + [VirtualDown(r)] else log')
  {
    forall q: nat
      ensures Taken(if rules[r].virtualKey.Some? then log' + [VirtualDown(r)] else log', q) == Entries(active', q)
      ensures q < |rules| && rules[q].virtualKey.Some? ==>
              Virtual(if rules[r].virtualKey.Some? then log' + [VirtualDown(r)] else log', q) == |Serials(active', q)|
    {
      LogAppend(log', VirtualDown(r), q);
      if q == r && rules[r].virtualKey.Some? {
        assert serial !in Serials(active, r);
      }
    }
  }

  /** Each key from number `i` on has its entry and its record. */
  ghost predicate Entered(rules: seq<Rule>, r: nat, serial: nat, was: seq<QueueItem>, positions: seq<nat>, i: nat,
                          active: seq<Entry>, log: seq<Record>, active': seq<Entry>, log': seq<Record>)
    requires r < |rules| && was != [] && Chosen(rules[r], was, positions) && i <= |positions|
  {
    Activating(rules, r, serial, i < |positions|, active, log, active', log') &&
    active' == active + NewEntries(r, was, positions, serial, i) && log' == log + Takes(r, |positions| - i)
  }

  /** The press of each key from number `i` on is out of the queue. */
  ghost predicate Dequeued(rule: Rule, was: seq<QueueItem>, positions: seq<nat>, i: nat, first: nat,
                           queue: seq<QueueItem>, next: nat)
    requires was != [] && Chosen(rule, was, positions) && i <= |positions|
  {
    queue == TakenOut(rule, was, positions, was[0].device, first, i) &&
    next == (first + if rule.postFromEventsAsRaw then |positions| - i else 0) && Numbered(queue, next)
  }

  lemma EnteredStep(rules: seq<Rule>, r: nat, serial: nat, was: seq<QueueItem>, positions: seq<nat>, i: nat,
                    active: seq<Entry>, log: seq<Record>, active': seq<Entry>, log': seq<Record>)
    requires r < |rules| && was != [] && Chosen(rules[r], was, positions) && i < |positions|
    requires Entered(rules, r, serial, was, positions, i + 1, active, log, active', log')
    ensures Entered(rules, r, serial, was, positions, i, active, log,
                    active' + [Entry(r, i, was[positions[i]].device, was[0].device, serial)], log' + [Took(r)])
  {
    var e := Entry(r, i, was[positions[i]].device, was[0].device, serial);
    ActivatingStep(rules, serial, i + 1 < |positions|, active, log, active', log', e);
    NewEntriesMore(active', active, r, was, positions, serial, i);
    TakesMore(log', log, r, |positions| - (i + 1), |positions| - i);
  }

  lemma DequeuedStep(rule: Rule, was: seq<QueueItem>, positions: seq<nat>, i: nat, first: nat,
                     queue: seq<QueueItem>, next: nat)
    requires was != [] && Chosen(rule, was, positions) && i < |positions|
    requires Dequeued(rule, was, positions, i + 1, first, queue, next)
    ensures var item := was[positions[i]];
            if rule.postFromEventsAsRaw
            then Dequeued(rule, was, positions, i, first,
                          Without([QueueItem(item.event, was[0].device, false, next)] + queue, {item.id}), next + 1)
            else Dequeued(rule, was, positions, i, first, Without(queue, {item.id}), next)
  {
    if rule.postFromEventsAsRaw {
      DequeuedRaw(rule, was, positions, i, first, queue, next);
    } else {
      TakenOutMore(rule, was, positions, was[0].device, first, i, next, queue);
      NumberedWithout(queue, next, {was[positions[i]].id});
    }
  }

  lemma DequeuedRaw(rule: Rule, was: seq<QueueItem>, positions: seq<nat>, i: nat, first: nat,
                    queue: seq<QueueItem>, next: nat)
    requires was != [] && Chosen(rule, was, positions) && i < |positions| && rule.postFromEventsAsRaw
    requires Dequeued(rule, was, positions, i + 1, first, queue, next)
    ensures var item := was[positions[i]];
            Dequeued(rule, was, positions, i, first,
                     Without([QueueItem(item.event, was[0].device, false, next)] + queue, {item.id}), next + 1)
  {
    var item := was[positions[i]];
    var copy := QueueItem(item.event, was[0].device, false, next);
    TakenOutMore(rule, was, positions, was[0].device, first, i, next, queue);
    NumberedFront(queue, copy, next);
    NumberedWithout([copy] + queue, next + 1, {item.id});
  }

  lemma ActivationKeeps(rules: seq<Rule>, r: nat, serial: nat, active: seq<Entry>, log: seq<Record>, queue: seq<QueueItem>,
                        active': seq<Entry>, log': seq<Record>, queue': seq<QueueItem>)
    requires EntriesOk(rules, active) && Balanced(rules, active, log) && Shielded(rules, active, serial, queue)
    requires queue != [] && queue[0].target && Activating(rules, r, serial, true, active, log, active', log')
    requires r < |rules| && (rules[r].virtualKey.Some? ==> queue' != [] && !queue'[0].target)
    ensures EntriesOk(rules, active') && Shielded(rules, active', serial, queue')
    ensures Balanced(rules, active', if rules[r].virtualKey.Some? then log' + [VirtualDown(r)] else log')
  {
    ActivatingDone(rules, r, serial, active, log, active', log');
  }

  class Simultaneity {
    const rules: seq<Rule>
    var queue: seq<QueueItem>
    var active: seq<Entry>
    var serial: nat
    var nextId: nat
    var log: seq<Record>

    ghost predicate Valid()
      reads this
    {
      EntriesOk(rules, active) && Balanced(rules, active, log) && Shielded(rules, active, serial, queue) &&
      Numbered(queue, nextId)
    }

    constructor (rules: seq<Rule>)
      ensures Valid() && this.rules == rules && Now() == State([], [], [], 0) && Past(rules, active, serial)
    {
      this.rules := rules;
      queue, active, serial, nextId, log := [], [], 0, 0, [];
    }

    /** ActiveFromInfos::find. */
    method Find(r: nat, index: nat, device: Device) returns (k: Option<nat>)
      ensures k.Some? ==> k.value < |active| && active[k.value].rule == r && active[k.value].index == index &&
                          active[k.value].device == device
      ensures k.None? ==> forall e :: e in active ==> !(e.rule == r && e.index == index && e.device == device)
    {
      for i := 0 to |active|
        invariant forall j :: 0 <= j < i ==>
          !(active[j].rule == r && active[j].index == index && active[j].device == device)
      {
        if active[i].rule == r && active[i].index == index && active[i].device == device {
          return Some(i);
        }
      }
      return None;
    }

    /** ActiveFromInfos::find_by_serial_number for every key of the rule. */
    method IsAllDeactivated(r: nat, s: nat) returns (b: bool)
      requires r < |rules| && EntriesOk(rules, active)
      ensures b <==> !IsActiveBySerial(active, r, s)
    {
      b := true;
      for j := 0 to |rules[r].fromKeys|
        invariant b <==> forall e :: e in active && e.rule == r && e.serial == s ==> e.index >= j
      {
        for i := 0 to |active|
          invariant b <==> (forall e :: e in active && e.rule == r && e.serial == s ==> e.index >= j) &&
                           (forall k :: 0 <= k < i && active[k].rule == r && active[k].serial == s ==> active[k].index != j)
        {
          if active[i].rule == r && active[i].index == j && active[i].serial == s {
            b := false;
          }
        }
      }
    }

    /** push_remapped and the raw copies: an item that is not a target, in front. */
    method PushFront(event: Event, device: Device)
      requires Numbered(queue, nextId)
      modifies this`queue, this`nextId
      ensures Numbered(queue, nextId) && nextId == old(nextId) + 1
      ensures queue == [QueueItem(event, device, false, old(nextId))] + old(queue)
      ensures Targets(queue) == Targets(old(queue))
    {
      TargetsFront(QueueItem(event, device, false, nextId), queue);
      NumberedFront(queue, QueueItem(event, device, false, nextId), nextId);
      queue := [QueueItem(event, device, false, nextId)] + queue;
      nextId := nextId + 1;
    }

    /** The first half: a release of an active key is matched by exactly one entry; the last one of an activation
        releases the virtual key.  Anything else leaves everything as it is. */
    method KeyUp(r: nat) returns (result: Result, k: nat)
      requires Valid() && r < |rules| && queue != [] && queue[0].target
      modifies this`queue, this`active, this`nextId, this`log
      ensures Valid()
      ensures result.NotChanged? <==> forall e :: e in old(active) && e.rule == r ==> !Releases(rules, old(queue[0]), e)
      ensures result.NotChanged? ==>
        queue == old(queue) && active == old(active) && log == old(log) && nextId == old(nextId)
      ensures !result.NotChanged? ==>
        Targets(queue) < Targets(old(queue)) &&
        Swallows(rules, r, k, old(nextId), old(queue), old(active), old(log), queue, active, log, result)
    {
      var front := queue[0];
      k := 0;
      for i := 0 to |rules[r].fromKeys|
        invariant queue == old(queue) && active == old(active) && log == old(log) && nextId == old(nextId)
        invariant forall e :: e in active && e.rule == r && Releases(rules, front, e) ==> e.index >= i
      {
        var found := Find(r, i, front.device);
        if found.Some? && front.event == Up(rules[r].fromKeys[i]) {
          k := found.value;
          assert active[k] in active;
          result := Deactivate(k);
          return;
        }
      }
      result := NotChanged;
    }

    method Deactivate(k: nat) returns (result: Result)
      requires Valid() && queue != [] && queue[0].target && k < |active|
      modifies this`queue, this`active, this`nextId, this`log
      ensures Valid()
      ensures active == Erase(old(active), k) && Targets(queue) < Targets(old(queue))
      ensures
        var e := old(active)[k];
        var rule := rules[e.rule];
        var rest := (if rule.postFromEventsAsRaw then [old(queue[0]).(target := false)] else []) + old(queue[1..]);
        if IsActiveBySerial(active, e.rule, e.serial)
        then result.QueueChanged? && queue == rest && log == old(log) + [Released(e.rule)]
        else if rule.virtualKey.None?
        then result.Applied? && queue == rest && log == old(log) + [Released(e.rule)]
        else result.Applied? && log == old(log) + [Released(e.rule)] + [VirtualUp(e.rule)] &&
             queue == [QueueItem(Up(rule.virtualKey.value), e.frontDevice, false, old(nextId))] + rest
    {
      var e := active[k];
      var rule := rules[e.rule];
      BalancedErase(rules, active, log, k);
      EraseSubset(active, k);
      DropFront(rule.postFromEventsAsRaw);
      active := Erase(active, k);
      log := log + [Released(e.rule)];
      assert EntriesOk(rules, active);
      var all := IsAllDeactivated(e.rule, e.serial);
      if !all {
        return QueueChanged;
      }
      if rule.virtualKey.Some? {
        PushFront(Up(rule.virtualKey.value), e.frontDevice);
        log := log + [VirtualUp(e.rule)];
      }
      result := Applied;
    }

    method DropFront(keep: bool)
      requires queue != [] && queue[0].target && Numbered(queue, nextId)
      modifies this`queue
      ensures queue == (if keep then [old(queue[0]).(target := false)] else []) + old(queue[1..])
      ensures Numbered(queue, nextId) && Targets(queue) < Targets(old(queue))
    {
      FrontDropped(queue, nextId);
      if keep {
        queue := [queue[0].(target := false)] + queue[1..];
      } else {
        queue := queue[1..];
        assert queue == [] + queue;
      }
    }

    /** One key of an activation. */
    method ActivateOne(e: Entry, item: QueueItem)
      requires e.rule < |rules| && Numbered(queue, nextId)
      modifies this`queue, this`active, this`nextId, this`log
      ensures active == old(active) + [e] && log == old(log) + [Took(e.rule)]
      ensures rules[e.rule].postFromEventsAsRaw ==>
        nextId == old(nextId) + 1 &&
        queue == Without([QueueItem(item.event, e.frontDevice, false, old(nextId))] + old(queue), {item.id})
      ensures !rules[e.rule].postFromEventsAsRaw ==>
        nextId == old(nextId) && queue == Without(old(queue), {item.id})
    {
      active := active + [e];
      log := log + [Took(e.rule)];
      if rules[e.rule].postFromEventsAsRaw {
        PushFront(item.event, e.frontDevice);
      }
      queue := Without(queue, {item.id});
    }

    /** The keys of an activation, the last one first. */
    method ActivateAll(r: nat, positions: seq<nat>)
      requires EntriesOk(rules, active) && Balanced(rules, active, log) && Numbered(queue, nextId)
      requires r < |rules| && queue != [] && positions != [] && Chosen(rules[r], queue, positions)
      modifies this`queue, this`active, this`nextId, this`log
      ensures Numbered(queue, nextId)
      ensures Activating(rules, r, serial, true, old(active), old(log), active, log)
      ensures active == old(active) + NewEntries(r, old(queue), positions, serial, 0)
      ensures log == old(log) + Takes(r, |positions|)
      ensures queue == TakenOut(rules[r], old(queue), positions, old(queue[0].device), old(nextId), 0)
      ensures nextId == old(nextId) + if rules[r].postFromEventsAsRaw then |positions| else 0
    {
      var i, was, front := |positions|, queue, queue[0].device;
      ActivatingStart(rules, r, serial, active, log);
      assert log == log + Takes(r, 0);
      while i > 0
        invariant 0 <= i <= |positions|
        invariant Underway(r, was, positions, i, old(nextId), old(active), old(log))
      {
        i := i - 1;
        ActivateAt(r, was, positions, i, front, old(nextId), old(active), old(log));
      }
    }

    /** The keys from number `i` on have been activated, and the others not yet. */
    ghost predicate Underway(r: nat, was: seq<QueueItem>, positions: seq<nat>, i: nat, first: nat,
                             active0: seq<Entry>, log0: seq<Record>)
      requires r < |rules| && was != [] && Chosen(rules[r], was, positions) && i <= |positions|
      reads this
    {
      Entered(rules, r, serial, was, positions, i, active0, log0, active, log) &&
      Dequeued(rules[r], was, positions, i, first, queue, nextId)
    }

    /** Key number `i` of an activation. */
    method ActivateAt(r: nat, was: seq<QueueItem>, positions: seq<nat>, i: nat, front: Device, ghost first: nat,
                      ghost active0: seq<Entry>, ghost log0: seq<Record>)
      requires r < |rules| && was != [] && Chosen(rules[r], was, positions) && i < |positions| && front == was[0].device
      requires Underway(r, was, positions, i + 1, first, active0, log0)
      modifies this`queue, this`active, this`nextId, this`log
      ensures Underway(r, was, positions, i, first, active0, log0)
    {
      EnteredStep(rules, r, serial, was, positions, i, active0, log0, active, log);
      DequeuedStep(rules[r], was, positions, i, first, queue, nextId);
      ActivateOne(Entry(r, i, was[positions[i]].device, front, serial), was[positions[i]]);
    }

    /** An activation takes exactly the chosen presses out of the queue, enters each of them, and puts the virtual
        press in front. */
    method Activate(r: nat, positions: seq<nat>) returns (id: nat)
      requires Valid() && r < |rules| && queue != [] && queue[0].target
      requires positions != [] && Chosen(rules[r], queue, positions)
      modifies this`queue, this`active, this`nextId, this`log
      ensures Valid() && Targets(queue) < Targets(old(queue))
      ensures active == old(active) + NewEntries(r, old(queue), positions, serial, 0)
      ensures queue == Activated(rules[r], old(queue), positions, old(nextId), id)
      ensures log == old(log) + Takes(r, |positions|) + if rules[r].virtualKey.Some? then [VirtualDown(r)] else []
    {
      var front := queue[0].device;
      ghost var rest := TakenOut(rules[r], queue, positions, front, nextId, 0);
      TakenTargets(rules[r], queue, positions, front, nextId);
      ActivateAll(r, positions);
      assert queue == rest;
      id := nextId;
      PushVirtual(r, front, old(active), old(log), old(queue));
    }

    /** The virtual press of an activation, if the rule has a virtual key. */
    method PushVirtual(r: nat, front: Device, ghost active0: seq<Entry>, ghost log0: seq<Record>, ghost queue0: seq<QueueItem>)
      requires r < |rules| && queue0 != [] && queue0[0].target && Numbered(queue, nextId)
      requires EntriesOk(rules, active0) && Balanced(rules, active0, log0) && Shielded(rules, active0, serial, queue0)
      requires Activating(rules, r, serial, true, active0, log0, active, log)
      modifies this`queue, this`nextId, this`log
      ensures Valid() && Targets(queue) == old(Targets(queue))
      ensures queue == if rules[r].virtualKey.None? then old(queue)
                       else [QueueItem(Down(rules[r].virtualKey.value), front, false, old(nextId))] + old(queue)
      ensures log == old(log) + if rules[r].virtualKey.Some? then [VirtualDown(r)] else []
    {
      ghost var taken := log;
      if rules[r].virtualKey.Some? {
        PushFront(Down(rules[r].virtualKey.value), front);
        log := log + [VirtualDown(r)];
      }
      ActivationKeeps(rules, r, serial, active0, log0, queue0, active, taken, queue);
    }

    /** The second half: if the front is a press of one of the keys, search for the others. */
    method KeyDown(r: nat, modifiersOn: bool) returns (result: Result, id: nat)
      requires Valid() && r < |rules| && queue != [] && queue[0].target
      modifies this`queue, this`active, this`nextId, this`log
      ensures Valid()
      ensures
        var chosen := Search(rules[r], old(queue));
        if modifiersOn && old(queue[0]).event.Down? && old(queue[0]).event.key in rules[r].fromKeys && chosen.Some?
        then result.Applied? && Targets(queue) < Targets(old(queue)) &&
             Takeover(rules, r, chosen.value, serial, old(nextId), id, old(queue), old(active), old(log), queue, active, log)
        else result.NotChanged? && Now() == old(Now())
    {
      if !modifiersOn || !queue[0].event.Down? || IndexOf(rules[r].fromKeys, queue[0].event.key).None? {
        return NotChanged, 0;
      }
      var chosen := SearchDownKeys(rules[r], queue);
      if chosen.None? {
        return NotChanged, 0;
      }
      if DistinctKeys(rules[r].fromKeys) {
        SearchTakesFirstGroup(rules[r], queue);
      }
      id := Activate(r, chosen.value);
      result := Applied;
    }

    /** The second half with the event known not to be a release of an active key: if nothing changes, nothing was to do. */
    method TakeOver(r: nat, modifiersOn: bool) returns (result: Result, ghost positions: seq<nat>, ghost id: nat)
      requires Valid() && r < |rules| && queue != [] && queue[0].target
      requires forall e :: e in active && e.rule == r ==> !Releases(rules, queue[0], e)
      modifies this`queue, this`active, this`nextId, this`log
      ensures Valid()
      ensures result.NotChanged? ==> Now() == old(Now()) && Idle(rules, active, queue, r, modifiersOn)
      ensures !result.NotChanged? ==>
        result.Applied? && Targets(queue) < Targets(old(queue)) &&
        modifiersOn && old(queue[0]).event.Down? && old(queue[0]).event.key in rules[r].fromKeys &&
        Takeover(rules, r, positions, serial, old(nextId), id, old(queue), old(active), old(log), queue, active, log)
    {
      ghost var chosen := Search(rules[r], queue);
      var virtual;
      result, virtual := KeyDown(r, modifiersOn);
      positions, id := [], virtual;
      if result.NotChanged? {
        IdleAfterSearch(rules, active, queue, r, modifiersOn);
      } else {
        positions := chosen.value;
      }
    }

    /** One call of remapSimultaneousKeyPresses for one rule: if the front is a target, it is swallowed as the release of
        an active key, or taken over with the presses of all keys, and only if there is neither to do, nothing changes. */
    method RemapRule(r: nat, modifiersOn: bool) returns (result: Result)
      requires Valid() && r < |rules|
      modifies this`queue, this`active, this`nextId, this`log
      ensures Valid()
      ensures result.NotChanged? ==> Now() == old(Now())
      ensures result.NotChanged? && queue != [] && queue[0].target ==> Idle(rules, active, queue, r, modifiersOn)
      ensures !result.NotChanged? ==> Targets(queue) < Targets(old(queue))
      ensures !result.NotChanged? ==> RuleActs(rules, r, modifiersOn, serial, old(Now()), Now())
    {
      if queue == [] || !queue[0].target {
        return NotChanged;
      }
      var k;
      result, k := KeyUp(r);
      if result.NotChanged? {
        ghost var positions, id;
        result, positions, id := TakeOver(r, modifiersOn);
      }
    }

    ghost function Now(): (s: State)
      reads this
    {
      State(queue, active, log, nextId)
    }

    /** All rules once, in order.  `consulted` are the rules whose gates (pass-through, enabled, filters, active items) let
        the event through. */
    method Pass(consulted: set<nat>, modifiersOn: set<nat>) returns (changed: bool, ghost states: seq<State>)
      requires Valid()
      modifies this`queue, this`active, this`nextId, this`log
      ensures Valid()
      ensures PassTrace(rules, consulted, modifiersOn, serial, states)
      ensures states[0] == old(Now()) && states[|rules|] == Now()
      ensures changed ==> Targets(queue) < Targets(old(queue))
      ensures !changed ==> Now() == old(Now())
      ensures !changed && queue != [] ==> AllIdle(rules, active, queue, consulted, modifiersOn)
    {
      changed := false;
      states := [Now()];
      for r := 0 to |rules|
        invariant Valid() && |states| == r + 1 && states[0] == old(Now()) && states[r] == Now()
        invariant changed ==> Targets(queue) < Targets(old(queue))
        invariant !changed ==> Now() == old(Now())
        invariant !changed && queue != [] && queue[0].target ==>
          forall q :: 0 <= q < r && q in consulted ==> Idle(rules, active, queue, q, q in modifiersOn)
        invariant forall q :: 0 <= q < r ==>
          if q in consulted then RuleTurn(rules, q, q in modifiersOn, serial, states[q], states[q + 1])
          else states[q + 1] == states[q]
      {
        if r in consulted {
          var result := RemapRule(r, r in modifiersOn);
          changed := changed || !result.NotChanged?;
        }
        states := states + [Now()];
      }
    }

    /** Passes until nothing changes or nothing is left.  Gates and modifiers may differ from pass to pass. */
    method Passes(consulted: nat -> set<nat>, modifiersOn: nat -> set<nat>)
      returns (passes: nat, ghost history: seq<seq<State>>)
      requires Valid()
      modifies this`queue, this`active, this`nextId, this`log
      ensures Valid()
      ensures |history| == passes && Follow(rules, serial, consulted, modifiersOn, history)
      ensures passes == 0 <==> old(queue) == []
      ensures passes == 0 ==> Now() == old(Now())
      ensures passes > 0 ==> Lead(rules, history, old(Now()), Now())
      ensures queue != [] ==>
        passes > 0 && AllIdle(rules, active, queue, consulted(passes - 1), modifiersOn(passes - 1))
    {
      passes := 0;
      history := [];
      var changed := true;
      while changed && queue != []
        invariant Valid()
        invariant |history| == passes && Follow(rules, serial, consulted, modifiersOn, history)
        invariant passes == 0 ==> changed && Now() == old(Now())
        invariant passes > 0 ==> old(queue) != [] && Lead(rules, history, old(Now()), Now())
        invariant !changed && queue != [] ==>
          passes > 0 && AllIdle(rules, active, queue, consulted(passes - 1), modifiersOn(passes - 1))
        decreases changed, Targets(queue)
      {
        ghost var states;
        changed, states := Pass(consulted(passes), modifiersOn(passes));
        FollowMore(rules, serial, consulted, modifiersOn, history, states, old(Now()));
        assert changed || queue == [] || AllIdle(rules, active, queue, consulted(passes), modifiersOn(passes));
        history := history + [states];
        passes := passes + 1;
      }
    }

    /** The timer callback: all passes, then the front leaves the queue. */
    method FireTimerCallback(consulted: nat -> set<nat>, modifiersOn: nat -> set<nat>)
      returns (front: Option<QueueItem>, passes: nat, ghost history: seq<seq<State>>)
      requires Valid() && Past(rules, active, serial)
      modifies this`queue, this`active, this`nextId, this`log, this`serial
      ensures Valid() && Past(rules, active, serial)
      // The passes follow one another from the state before to the one whose front leaves.
      ensures |history| == passes && Follow(rules, old(serial), consulted, modifiersOn, history)
      ensures passes == 0 <==> old(queue) == []
      ensures passes == 0 ==> front.None? && Now() == old(Now())
      ensures passes > 0 ==>
        history[0][0] == old(Now()) &&
        history[passes - 1][|rules|] == State(if front.Some? then [front.value] + queue else [], active, log, nextId)
      ensures front.None? ==> queue == [] && serial == old(serial)
      ensures front.Some? ==> serial == old(serial) + 1 && passes > 0
      // The event that leaves the queue is one no consulted rule had anything to do with in the last pass.
      ensures front.Some? ==>
        AllIdle(rules, active, [front.value] + queue, consulted(passes - 1), modifiersOn(passes - 1))
    {
      passes, history := Passes(consulted, modifiersOn);
      if queue == [] {
        return None, passes, history;
      }
      assert queue == [queue[0]] + queue[1..];
      front := Some(queue[0]);
      serial := serial + 1;
      queue := queue[1..];
    }

    /** An event from the hardware. */
    method Enqueue(event: Event, device: Device)
      requires Valid() && Past(rules, active, serial)
      modifies this`queue, this`nextId
      ensures Valid() && queue == old(queue) + [QueueItem(event, device, true, old(nextId))] && nextId == old(nextId) + 1
    {
      NumberedBack(queue, QueueItem(event, device, true, nextId), nextId);
      queue := queue + [QueueItem(event, device, true, nextId)];
      nextId := nextId + 1;
    }

    /** An event comes back from the blocked queue. */
    method PutBack(event: Event, device: Device, target: bool)
      requires Valid() && Past(rules, active, serial)
      modifies this`queue, this`nextId
      ensures Valid() && queue == [QueueItem(event, device, target, old(nextId))] + old(queue) && nextId == old(nextId) + 1
    {
      NumberedFront(queue, QueueItem(event, device, target, nextId), nextId);
      queue := [QueueItem(event, device, target, nextId)] + queue;
      nextId := nextId + 1;
    }

    /** The reset when all keys are up and the queue is empty: every entry is forgotten, and with it the virtual presses
        whose releases will not come. */
    method ClearActive()
      requires Valid() && queue == []
      modifies this`active, this`log
      ensures Valid() && active == [] && log == old(log) + [Cleared] && Past(rules, active, serial)
    {
      forall r: nat ensures Serials([], r) == {} && Virtual(log + [Cleared], r) == 0 == Taken(log + [Cleared], r) {
      }
      active := [];
      log := log + [Cleared];
    }

    /** The bounce filter takes events away. */
    method Remove(ids: set<nat>)
      requires Valid() && Past(rules, active, serial)
      modifies this`queue
      ensures Valid() && queue == Without(old(queue), ids)
    {
      NumberedWithout(queue, nextId, ids);
      queue := Without(queue, ids);
    }
  }

  // ---------------------------------------------------------------------------------------------
  // Every run

  datatype Step =
    | Arrive(event: Event, device: Device)
    | Return(event: Event, device: Device, target: bool)
    | Bounce(ids: set<nat>)
    | Timer(consulted: nat -> set<nat>, modifiersOn: nat -> set<nat>)
    | Reset

  /** Once no key of a rule is active any more, its virtual key has gone up as often as down. */
  lemma AllReleased(rules: seq<Rule>, active: seq<Entry>, log: seq<Record>, r: nat)
    requires Balanced(rules, active, log) && r < |rules| && rules[r].virtualKey.Some?
    requires forall e :: e in active ==> e.rule != r
    ensures Virtual(log, r) == 0
  {
    assert Serials(active, r) == {};
  }

  /** What each step does to the queue, the entries and the records; the serial number counts the events that have left
      the queue. */
  ghost predicate Ran(rules: seq<Rule>, step: Step, s: State, serial: nat, t: State, serial': nat) {
    match step
    case Arrive(event, device) =>
      serial' == serial && t == s.(queue := s.queue + [QueueItem(event, device, true, s.next)], next := s.next + 1)
    case Return(event, device, target) =>
      serial' == serial && t == s.(queue := [QueueItem(event, device, target, s.next)] + s.queue, next := s.next + 1)
    case Bounce(ids) => serial' == serial && t == s.(queue := Without(s.queue, ids))
    case Timer(consulted, modifiersOn) =>
      if s.queue == [] then t == s && serial' == serial
      else exists front, history :: Stepped(rules, serial, consulted, modifiersOn, history, front, s, t, serial')
    case Reset =>
      serial' == serial && t == if s.queue == [] then s.(active := [], log := s.log + [Cleared]) else s
  }

  /** The passes of one timer step, and the event that leaves the queue. */
  ghost predicate Stepped(rules: seq<Rule>, serial: nat, consulted: nat -> set<nat>, modifiersOn: nat -> set<nat>,
                          history: seq<seq<State>>, front: Option<QueueItem>, s: State, t: State, serial': nat) {
    history != [] && Follow(rules, serial, consulted, modifiersOn, history) && history[0][0] == s &&
    var n := |history| - 1;
    history[n][|rules|] == t.(queue := if front.Some? then [front.value] + t.queue else []) &&
    if front.Some?
    then serial' == serial + 1 && AllIdle(rules, t.active, [front.value] + t.queue, consulted(n), modifiersOn(n))
    else serial' == serial && t.queue == []
  }

  /** Along every run the outstanding virtual presses of a rule are its activations with a key still down, and the
      presses it took minus the releases it matched are its active entries, both counted since the last reset. */
  method Run(rules: seq<Rule>, script: seq<Step>)
    returns (active: seq<Entry>, log: seq<Record>, ghost history: seq<(State, nat)>)
    ensures forall r: nat :: Taken(log, r) == Entries(active, r)
    ensures forall r: nat :: r < |rules| && rules[r].virtualKey.Some? ==> Virtual(log, r) == |Serials(active, r)|
    // The state goes through the script step by step.
    ensures |history| == |script| + 1 && history[0].0 == State([], [], [], 0)
    ensures history[|script|].0.active == active && history[|script|].0.log == log
    ensures forall k :: 0 <= k < |script| ==>
      Ran(rules, script[k], history[k].0, history[k].1, history[k + 1].0, history[k + 1].1)
  {
    var s := new Simultaneity(rules);
    history := [(s.Now(), s.serial)];
    for i := 0 to |script|
      invariant s.Valid() && s.rules == rules && Past(rules, s.active, s.serial)
      invariant |history| == i + 1 && history[i] == (s.Now(), s.serial) && history[0].0 == State([], [], [], 0)
      invariant forall k :: 0 <= k < i ==>
        Ran(rules, script[k], history[k].0, history[k].1, history[k + 1].0, history[k + 1].1)
    {
      Do(s, script[i]);
      history := history + [(s.Now(), s.serial)];
    }
    active, log := s.active, s.log;
  }

  method Do(s: Simultaneity, step: Step)
    requires s.Valid() && Past(s.rules, s.active, s.serial)
    modifies s
    ensures s.Valid() && Past(s.rules, s.active, s.serial)
    ensures Ran(s.rules, step, old(s.Now()), old(s.serial), s.Now(), s.serial)
  {
    match step
    case Arrive(event, device) => s.Enqueue(event, device);
    case Return(event, device, target) => s.PutBack(event, device, target);
    case Bounce(ids) => s.Remove(ids);
    case Timer(consulted, modifiersOn) =>
      var front, passes, history := s.FireTimerCallback(consulted, modifiersOn);
      if passes > 0 {
        assert Stepped(s.rules, old(s.serial), consulted, modifiersOn, history, front, old(s.Now()), s.Now(), s.serial);
      }
    case Reset =>
      if s.queue == [] {
        s.ClearActive();
      }
  }
}
