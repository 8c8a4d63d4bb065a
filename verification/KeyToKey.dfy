/** The key-to-key rule (src/core/kext/RemapFunc/KeyToKey.cpp) on top of the modifier counters, the list of
    outstanding presses (Classes/FromEvent.*) and the events it sends (Classes/ToEvent.cpp).

    The law: whatever the rules, and in whatever order they are called, each modifier's count is what the
    physical keyboard contributed plus one fixed amount for every outstanding press of a rule, and the keys
    held down by the rules are exactly those of the outstanding presses.
 */
module KeyToKey {
  import opened Sequences
  import opened Modifiers

  type KeyId = nat

  datatype Kind = NoEvent | Key | ConsumerKey | PointingButton

  /** `keyFlag` is the modifier a key stands for (ZERO for ordinary keys); `keyLike` says whether the key
      acts like a modifier (VK_LAZY_*, VK_MOUSEKEY_*, VK_CONFIG_SYNC_*). */
  datatype ToEvent = ToEvent(kind: Kind, code: nat, keyFlag: ModifierFlag, keyLike: bool, flags: set<ModifierFlag>)
  {
    function Flag(): ModifierFlag { if kind == Key then keyFlag else ZERO }

    predicate Like() {
      match kind
      case Key => keyLike
      case PointingButton => true
      case _ => false
    }
  }

  /** `on` says whether the key's own modifier has just been raised or lowered. */
  datatype EventType = Down | Up | Modify(on: bool)

  /** The part of a modifier's block that rules move. */
  datatype Counter = Counter(flag: ModifierFlag, count: int, temporary: int)

  /** What the rules send: one event of a key, or, for a modifier at the end of several keys, only a refresh of the
      modifiers.  `under` are the counters at that moment, from which the modifiers shown with the event are taken. */
  datatype Output =
    | Fired(to: ToEvent, event: EventType, under: seq<Counter>)
    | ModifiersOnly(to: ToEvent, on: bool, under: seq<Counter>)
  {
    /** Whether a key goes down, and if not, it goes up. */
    predicate GoesDown() {
      if ModifiersOnly? then on else if event.Modify? then event.on else event == EventType.Down
    }
  }

  datatype Event = KeyEvent(key: KeyId, down: bool) | OtherEvent

  datatype Rule = Rule(from: KeyId, fromFlag: ModifierFlag, fromFlags: set<ModifierFlag>,
                       toKeys: seq<ToEvent>, beforeKeys: seq<ToEvent>, afterKeys: seq<seq<ToEvent>>,
                       delayedKeys: seq<ToEvent>, canceledDefaultKeys: seq<ToEvent>,
                       canceledByKeys: seq<seq<ToEvent>>, increaseFlags: seq<ToEvent>)
  {
    /** The modifiers of the condition other than the one the key itself stands for. */
    function PureFromFlags(): set<ModifierFlag> { fromFlags - {fromFlag} }

    function IncreasedFlags(): set<ModifierFlag> {
      if increaseFlags == [] then {} else increaseFlags[|increaseFlags| - 1].flags
    }

    /** The last event sent is a modifier or acts like one, so it stays in force while the key is held. */
    predicate HoldsModifier() {
      toKeys != [] && var last := toKeys[|toKeys| - 1]; last.Flag() != ZERO || last.Like()
    }
  }

  function Bit(b: bool): int { if b then 1 else 0 }

  // ---------------------------------------------------------------------------------------------
  // What one outstanding press is worth

  /** The quantities the law is about: the count of a modifier, and how often a key is held down. */
  datatype Quantity = Count(flag: ModifierFlag) | HeldDown(kind: Kind, code: nat)

  /** The part that is due to a modifier the rule keeps in force. */
  function HeldWeight(rule: Rule, f: ModifierFlag): int {
    if rule.HoldsModifier() then
      var last := rule.toKeys[|rule.toKeys| - 1];
      Bit(f == last.Flag() || f in last.flags) - Bit(f in rule.PureFromFlags())
    else 0
  }

  function Weight(rule: Rule, q: Quantity): int {
    match q
    case Count(f) =>
      Bit(f in rule.IncreasedFlags()) - Bit(f == rule.fromFlag) + HeldWeight(rule, f)
    case HeldDown(kind, code) =>
      if rule.toKeys == [] then 0
      else
        var last := rule.toKeys[|rule.toKeys| - 1];
        Bit(last.kind == kind && last.code == code && kind != NoEvent &&
            if |rule.toKeys| == 1 then last.Flag() == ZERO else last.Like())
  }

  predicate Within(s: seq<nat>, n: nat) {
    forall k :: 0 <= k < |s| ==> s[k] < n
  }

  /** The total worth of the outstanding presses. */
  function Total(rules: seq<Rule>, pressing: seq<nat>, q: Quantity): int
    requires Within(pressing, |rules|)
  {
    if pressing == [] then 0
    else Weight(rules[pressing[0]], q) + Total(rules, pressing[1..], q)
  }

  lemma {:induction false} EraseFirstRemovesOne(s: seq<nat>, x: nat)
    requires x in s
    ensures multiset(EraseFirst(s, x)) == multiset(s) - multiset{x}
  {
    assert s == [s[0]] + s[1..];
    if s[0] != x {
      EraseFirstRemovesOne(s[1..], x);
    }
  }

  lemma {:induction false} TotalPush(rules: seq<Rule>, pressing: seq<nat>, r: nat, q: Quantity)
    requires Within(pressing, |rules|)
    requires r < |rules|
    ensures Total(rules, pressing + [r], q) == Total(rules, pressing, q) + Weight(rules[r], q)
  {
    if pressing != [] {
      assert (pressing + [r])[1..] == pressing[1..] + [r];
      TotalPush(rules, pressing[1..], r, q);
    }
  }

  lemma {:induction false} TotalErase(rules: seq<Rule>, pressing: seq<nat>, r: nat, q: Quantity)
    requires Within(pressing, |rules|)
    requires r in pressing
    ensures Within(EraseFirst(pressing, r), |rules|)
    ensures Total(rules, EraseFirst(pressing, r), q) == Total(rules, pressing, q) - Weight(rules[r], q)
  {
    EraseFirstIn(pressing, r);
    if pressing[0] != r {
      TotalErase(rules, pressing[1..], r, q);
      assert ([pressing[0]] + EraseFirst(pressing[1..], r))[1..] == EraseFirst(pressing[1..], r);
    }
  }

  /** The list of outstanding presses after a press or release of rule `r`. */
  function Pressed(pressing: seq<nat>, r: nat, down: bool): seq<nat> {
    if down then pressing + [r] else EraseFirst(pressing, r)
  }

  lemma TotalPressed(rules: seq<Rule>, pressing: seq<nat>, r: nat, down: bool, q: Quantity)
    requires Within(pressing, |rules|) && r < |rules| && (down || r in pressing)
    ensures Within(Pressed(pressing, r, down), |rules|)
    ensures Total(rules, Pressed(pressing, r, down), q) ==
            Total(rules, pressing, q) + Signed(down, Weight(rules[r], q))
  {
    if down {
      TotalPush(rules, pressing, r, q);
    } else {
      TotalErase(rules, pressing, r, q);
    }
  }

  lemma PressedMultiset(pressing: seq<nat>, r: nat, down: bool)
    requires down || r in pressing
    ensures forall y: nat :: multiset(Pressed(pressing, r, down))[y] ==
                             multiset(pressing)[y] + if y == r then Signed(down, 1) else 0
  {
    if !down {
      EraseFirstRemovesOne(pressing, r);
    }
  }

  function Signed(positive: bool, n: int): int { if positive then n else -n }

  // ---------------------------------------------------------------------------------------------
  // What a rule sends

  function Counters(items: seq<Item>): (v: seq<Counter>)
    ensures |v| == |items|
    ensures forall i :: 0 <= i < |v| ==> v[i] == Counter(items[i].flag, items[i].count, items[i].temporary)
  {
    seq(|items|, i requires 0 <= i < |items| => Counter(items[i].flag, items[i].count, items[i].temporary))
  }

  /** These modifiers for one event only. */
  function Shown(v: seq<Counter>, named: set<ModifierFlag>, n: int): (r: seq<Counter>)
    ensures |r| == |v|
    ensures forall i :: 0 <= i < |v| ==>
      r[i] == if v[i].flag in named then v[i].(temporary := v[i].temporary + n) else v[i]
  {
    seq(|v|, i requires 0 <= i < |v| =>
      if v[i].flag in named then v[i].(temporary := v[i].temporary + n) else v[i])
  }

  /** The count of this modifier, which CapsLock does not have, one higher. */
  function Counted(v: seq<Counter>, flag: ModifierFlag): (r: seq<Counter>)
    ensures |r| == |v|
    ensures forall i :: 0 <= i < |v| ==>
      r[i] == if v[i].flag == flag != CAPSLOCK then v[i].(count := v[i].count + 1) else v[i]
  {
    seq(|v|, i requires 0 <= i < |v| =>
      if v[i].flag == flag != CAPSLOCK then v[i].(count := v[i].count + 1) else v[i])
  }

  /** One key is typed; a modifier key counts while it is down. */
  function DownUp(t: ToEvent, v: seq<Counter>): seq<Output> {
    if t.kind == NoEvent then []
    else if t.Flag() != ZERO then [Fired(t, Modify(true), Counted(v, t.Flag())), Fired(t, Modify(false), v)]
    else [Fired(t, Down, v), Fired(t, Up, v)]
  }

  /** Keys are typed one after the other, each under its own modifiers. */
  function DownUps(ts: seq<ToEvent>, v: seq<Counter>): seq<Output> {
    if ts == [] then []
    else
      var last := ts[|ts| - 1];
      DownUps(ts[..|ts| - 1], v) + DownUp(last, Shown(v, last.flags, 1))
  }

  function Fire(t: ToEvent, event: EventType, v: seq<Counter>): seq<Output> {
    if t.kind == NoEvent then [] else [Fired(t, event, v)]
  }

  function Edge(t: ToEvent, down: bool): EventType {
    if t.Flag() != ZERO then Modify(down) else if down then Down else Up
  }

  /** The event at the end of several keys. */
  function LastOutput(last: ToEvent, down: bool, v: seq<Counter>): seq<Output> {
    if last.Like() then Fire(last, if down then Down else Up, v) else [ModifiersOnly(last, down, v)]
  }

  /** The keys that are typed when the rule's key goes down: all, except one that is held. */
  function Typed(rule: Rule): seq<ToEvent> {
    if |rule.toKeys| > 0 && (|rule.toKeys| == 1 || rule.HoldsModifier()) then rule.toKeys[..|rule.toKeys| - 1]
    else rule.toKeys
  }

  /** The key that is held as long as the rule's key. */
  function HeldKey(rule: Rule): seq<ToEvent> {
    if |rule.toKeys| > 0 && (|rule.toKeys| == 1 || rule.HoldsModifier()) then rule.toKeys[|rule.toKeys| - 1..]
    else []
  }

  function TypedOutput(rule: Rule, down: bool, v: seq<Counter>): seq<Output> {
    if down then DownUps(Typed(rule), v) else []
  }

  function HeldOutput(rule: Rule, down: bool, w: seq<Counter>): seq<Output> {
    if HeldKey(rule) == [] then []
    else if |rule.toKeys| == 1 then Fire(HeldKey(rule)[0], Edge(HeldKey(rule)[0], down), w)
    else LastOutput(HeldKey(rule)[0], down, w)
  }

  /** What `toKeys_` send: keys are typed under `v`, the held key moves under `w`. */
  function ToKeysOutput(rule: Rule, down: bool, v: seq<Counter>, w: seq<Counter>): seq<Output> {
    TypedOutput(rule, down, v) + HeldOutput(rule, down, w)
  }

  /** The counters while the rule's own modifiers are hidden. */
  function Hidden(rule: Rule, v: seq<Counter>): seq<Counter> { Shown(v, rule.PureFromFlags(), -1) }

  function AfterOutput(rule: Rule, group: nat, v: seq<Counter>): seq<Output> {
    if group < |rule.afterKeys| && rule.afterKeys[group] != []
    then DownUps(rule.afterKeys[group][1..], Hidden(rule, Shown(v, rule.afterKeys[group][0].flags, -1)))
    else []
  }

  /** The counters once the key itself no longer counts as the modifier it is, and the extra modifiers count. */
  function Swapped(rule: Rule, v: seq<Counter>): (r: seq<Counter>)
    ensures |r| == |v|
    ensures forall i :: 0 <= i < |v| ==>
      r[i] == v[i].(count := v[i].count + if v[i].flag == CAPSLOCK then 0 else
        Bit(v[i].flag in rule.IncreasedFlags()) - Bit(v[i].flag == rule.fromFlag))
  {
    seq(|v|, i requires 0 <= i < |v| =>
      v[i].(count := v[i].count + if v[i].flag == CAPSLOCK then 0 else
        Bit(v[i].flag in rule.IncreasedFlags()) - Bit(v[i].flag == rule.fromFlag)))
  }

  /** The counts of these modifiers, which CapsLock does not have, one lower. */
  function Uncounted(v: seq<Counter>, named: set<ModifierFlag>): (r: seq<Counter>)
    ensures |r| == |v|
    ensures forall i :: 0 <= i < |v| ==>
      r[i] == if v[i].flag in named && v[i].flag != CAPSLOCK then v[i].(count := v[i].count - 1) else v[i]
  {
    seq(|v|, i requires 0 <= i < |v| =>
      if v[i].flag in named && v[i].flag != CAPSLOCK then v[i].(count := v[i].count - 1) else v[i])
  }

  /** The counters a delayed action is to be typed under: those of the press without the rule's own modifiers. */
  function Recorded(rule: Rule, v: seq<Counter>): seq<Counter> { Uncounted(Swapped(rule, v), rule.PureFromFlags()) }

  /** The counters after a taken event, before any after-key-up group. */
  function Moved(rule: Rule, down: bool, v: seq<Counter>): (r: seq<Counter>)
    ensures |r| == |v|
    ensures forall i :: 0 <= i < |v| ==>
      r[i] == Counter(v[i].flag,
                      v[i].count + (if v[i].flag == CAPSLOCK then 0 else Signed(down, Weight(rule, Count(v[i].flag)))),
                      v[i].temporary + TemporaryShift(rule, down, v[i].flag))
  {
    seq(|v|, i requires 0 <= i < |v| =>
      Counter(v[i].flag,
              v[i].count + (if v[i].flag == CAPSLOCK then 0 else Signed(down, Weight(rule, Count(v[i].flag)))),
              v[i].temporary + TemporaryShift(rule, down, v[i].flag)))
  }

  function Cleared(v: seq<Counter>): (r: seq<Counter>)
    ensures |r| == |v|
    ensures forall i :: 0 <= i < |v| ==> r[i] == v[i].(temporary := 0)
  {
    seq(|v|, i requires 0 <= i < |v| => v[i].(temporary := 0))
  }

  /** Everything a rule sends for one event that arrives under counters `v`; `group` is the after-key-up group whose
      condition held, if any. */
  function Outputs(rule: Rule, down: bool, group: nat, v: seq<Counter>): seq<Output> {
    if down then
      var hidden := Hidden(rule, Swapped(rule, v));
      DownUps(rule.beforeKeys, hidden) + ToKeysOutput(rule, true, hidden, Moved(rule, true, v))
    else
      var moved := Moved(rule, false, v);
      ToKeysOutput(rule, false, [], moved) + AfterOutput(rule, group, Cleared(moved))
  }

  /** What a taken press does to the counters of a modifier.  The key no longer counts as the modifier it is, and the
      extra modifiers count.  A rule for
      one ordinary key shows that key's modifiers instead of its own for the event; a rule that ends in a modifier holds
      that one and its modifiers instead of its own until the release; any other rule leaves the counters alone. */
  lemma PressCounts(rule: Rule, v: seq<Counter>, i: nat)
    requires i < |v| && v[i].flag != CAPSLOCK
    ensures var w, f, n, m := Moved(rule, true, v)[i], v[i].flag, |rule.toKeys|, |rule.increaseFlags|;
            var own := f in rule.fromFlags && f != rule.fromFlag;
            var key := (if f == rule.fromFlag then 1 else 0) -
                       if m > 0 && f in rule.increaseFlags[m - 1].flags then 1 else 0;
            if n > 0 && (rule.toKeys[n - 1].Flag() != ZERO || rule.toKeys[n - 1].Like()) then
              w.temporary == v[i].temporary &&
              w.count == v[i].count - key - (if own then 1 else 0) +
                         if f == rule.toKeys[n - 1].Flag() || f in rule.toKeys[n - 1].flags then 1 else 0
            else if n == 1 then
              w.count == v[i].count - key &&
              w.temporary == v[i].temporary - (if own then 1 else 0) + if f in rule.toKeys[0].flags then 1 else 0
            else
              w.count == v[i].count - key && w.temporary == v[i].temporary - if n > 1 && own then 1 else 0
  {
  }

  /** The release takes back what the press counted. */
  lemma ReleaseCounts(rule: Rule, v: seq<Counter>, i: nat)
    requires i < |v|
    ensures Moved(rule, false, Moved(rule, true, v))[i].count == v[i].count
    ensures Moved(rule, true, Moved(rule, false, v))[i].count == v[i].count
  {
  }

  // The order in which keys move

  /** The keys that go down, or up, in what was sent, one after the other. */
  function Moves(log: seq<Output>, down: bool): seq<ToEvent> {
    if log == [] then []
    else
      var o := log[|log| - 1];
      Moves(log[..|log| - 1], down) +
      if o.GoesDown() == down then [o.to] else []
  }

  /** The keys that stand for an event at all. */
  function Real(ts: seq<ToEvent>): seq<ToEvent> {
    if ts == [] then []
    else Real(ts[..|ts| - 1]) + if ts[|ts| - 1].kind == NoEvent then [] else [ts[|ts| - 1]]
  }

  lemma {:induction false} MovesAppend(a: seq<Output>, b: seq<Output>, down: bool)
    ensures Moves(a + b, down) == Moves(a, down) + Moves(b, down)
  {
    if b == [] {
      assert a + b == a;
    } else {
      assert (a + b)[..|a + b| - 1] == a + b[..|b| - 1];
      MovesAppend(a, b[..|b| - 1], down);
    }
  }

  lemma MovesOne(o: Output, down: bool)
    ensures Moves([o], down) == if o.GoesDown() == down then [o.to] else []
  {
    assert [o][..0] == [];
  }

  lemma MovesTwo(o: Output, p: Output, down: bool)
    ensures Moves([o, p], down) ==
            (if o.GoesDown() == down then [o.to] else []) + if p.GoesDown() == down then [p.to] else []
  {
    assert [o, p] == [o] + [p];
    MovesAppend([o], [p], down);
    MovesOne(o, down);
    MovesOne(p, down);
  }

  lemma MovesDownUp(t: ToEvent, v: seq<Counter>, down: bool)
    ensures Moves(DownUp(t, v), down) == if t.kind == NoEvent then [] else [t]
  {
    if t.kind != NoEvent {
      MovesTwo(DownUp(t, v)[0], DownUp(t, v)[1], down);
    }
  }

  lemma {:induction false} MovesDownUps(ts: seq<ToEvent>, v: seq<Counter>, down: bool)
    ensures Moves(DownUps(ts, v), down) == Real(ts)
  {
    if ts != [] {
      var n := |ts| - 1;
      MovesDownUps(ts[..n], v, down);
      MovesDownUp(ts[n], Shown(v, ts[n].flags, 1), down);
      MovesAppend(DownUps(ts[..n], v), DownUp(ts[n], Shown(v, ts[n].flags, 1)), down);
    }
  }

  /** Typed keys by position: each takes two places, its press and then its release. */
  lemma {:induction false} DownUpsAt(ts: seq<ToEvent>, v: seq<Counter>, i: nat)
    requires i < |ts| && forall k :: 0 <= k < |ts| ==> ts[k].kind != NoEvent
    ensures |DownUps(ts, v)| == 2 * |ts|
    ensures var press, release := DownUps(ts, v)[2 * i], DownUps(ts, v)[2 * i + 1];
            press.Fired? && release.Fired? && press.to == ts[i] == release.to &&
            (if ts[i].Flag() == ZERO then press.event == Down && release.event == Up
             else press.event == Modify(true) && release.event == Modify(false)) &&
            release.under == Shown(v, ts[i].flags, 1)
  {
    var n := |ts| - 1;
    if i < n {
      DownUpsAt(ts[..n], v, i);
    } else if n > 0 {
      DownUpsAt(ts[..n], v, 0);
    } else {
      assert DownUps(ts[..0], v) == [];
    }
  }

  lemma RealAppend(a: seq<ToEvent>, t: ToEvent)
    ensures Real(a + [t]) == Real(a) + if t.kind == NoEvent then [] else [t]
  {
    assert (a + [t])[..|a|] == a;
  }

  lemma RealOne(t: ToEvent)
    ensures Real([t]) == if t.kind == NoEvent then [] else [t]
  {
    assert [t][..0] == [];
  }

  lemma MovesHeld(t: ToEvent, down: bool, w: seq<Counter>, moved: bool)
    ensures Moves(Fire(t, Edge(t, down), w), moved) == if down == moved then Real([t]) else []
  {
    RealOne(t);
    if t.kind != NoEvent {
      MovesOne(Fired(t, Edge(t, down), w), moved);
    }
  }

  lemma MovesLast(last: ToEvent, down: bool, w: seq<Counter>, moved: bool)
    requires last.Flag() != ZERO || last.Like()
    ensures Moves(LastOutput(last, down, w), moved) == if down == moved then Real([last]) else []
  {
    RealOne(last);
    if last.Like() {
      MovesOne(Fired(last, if down then Down else Up, w), moved);
    } else {
      MovesOne(ModifiersOnly(last, down, w), moved);
    }
  }

  lemma MovesHeldKey(rule: Rule, down: bool, w: seq<Counter>, moved: bool)
    ensures Moves(HeldOutput(rule, down, w), moved) == if down == moved then Real(HeldKey(rule)) else []
  {
    var held := HeldKey(rule);
    if held != [] {
      assert held == [held[0]];
      if |rule.toKeys| == 1 {
        MovesHeld(held[0], down, w, moved);
      } else {
        MovesLast(held[0], down, w, moved);
      }
    }
  }

  lemma MovesTyped(rule: Rule, down: bool, v: seq<Counter>, moved: bool)
    ensures Moves(TypedOutput(rule, down, v), moved) == if down then Real(Typed(rule)) else []
  {
    if down {
      MovesDownUps(Typed(rule), v, moved);
    }
  }

  lemma MovesToKeys(rule: Rule, down: bool, v: seq<Counter>, w: seq<Counter>, moved: bool)
    ensures Moves(ToKeysOutput(rule, down, v, w), moved) ==
            (if down then Real(Typed(rule)) else []) + if down == moved then Real(HeldKey(rule)) else []
  {
    MovesTyped(rule, down, v, moved);
    MovesHeldKey(rule, down, w, moved);
    MovesAppend(TypedOutput(rule, down, v), HeldOutput(rule, down, w), moved);
  }

  /** The keys that go down when a rule takes a press are the before keys and then the to keys, and when it takes the
      release, those of the after-key-up group; what is typed goes up again at once, and the held key with the release. */
  lemma MovesOutputs(rule: Rule, down: bool, group: nat, v: seq<Counter>, moved: bool)
    ensures Moves(Outputs(rule, down, group, v), moved) ==
            if down then Real(rule.beforeKeys) + Real(if moved then rule.toKeys else Typed(rule))
            else (if moved then [] else Real(HeldKey(rule))) + Real(AfterKeys(rule, group))
  {
    if down {
      MovesPress(rule, Hidden(rule, Swapped(rule, v)), Moved(rule, true, v), moved);
    } else {
      MovesRelease(rule, group, Moved(rule, false, v), moved);
    }
  }

  lemma MovesPress(rule: Rule, v: seq<Counter>, w: seq<Counter>, moved: bool)
    ensures Moves(DownUps(rule.beforeKeys, v) + ToKeysOutput(rule, true, v, w), moved) ==
            Real(rule.beforeKeys) + Real(if moved then rule.toKeys else Typed(rule))
  {
    MovesDownUps(rule.beforeKeys, v, moved);
    MovesToKeys(rule, true, v, w, moved);
    MovesAppend(DownUps(rule.beforeKeys, v), ToKeysOutput(rule, true, v, w), moved);
    TypedAndHeld(rule);
  }

  lemma MovesRelease(rule: Rule, group: nat, w: seq<Counter>, moved: bool)
    ensures Moves(ToKeysOutput(rule, false, [], w) + AfterOutput(rule, group, Cleared(w)), moved) ==
            (if moved then [] else Real(HeldKey(rule))) + Real(AfterKeys(rule, group))
  {
    MovesAfterKeys(rule, group, Cleared(w), moved);
    MovesToKeys(rule, false, [], w, moved);
    MovesAppend(ToKeysOutput(rule, false, [], w), AfterOutput(rule, group, Cleared(w)), moved);
  }

  lemma MovesAfterKeys(rule: Rule, group: nat, v: seq<Counter>, moved: bool)
    ensures Moves(AfterOutput(rule, group, v), moved) == Real(AfterKeys(rule, group))
  {
    if group < |rule.afterKeys| && rule.afterKeys[group] != [] {
      MovesDownUps(AfterKeys(rule, group), Hidden(rule, Shown(v, rule.afterKeys[group][0].flags, -1)), moved);
    }
  }

  lemma TypedAndHeld(rule: Rule)
    ensures Real(Typed(rule)) + Real(HeldKey(rule)) == Real(rule.toKeys)
  {
    var n := |rule.toKeys|;
    if HeldKey(rule) != [] {
      var last := rule.toKeys[n - 1];
      assert HeldKey(rule) == [] + [last] && rule.toKeys == Typed(rule) + [last];
      RealAppend([], last);
      RealAppend(Typed(rule), last);
    }
  }

  function AfterKeys(rule: Rule, group: nat): seq<ToEvent> {
    if group < |rule.afterKeys| && rule.afterKeys[group] != [] then rule.afterKeys[group][1..] else []
  }

  /** Presses minus releases of one key in what was sent. */
  function Net(log: seq<Output>, kind: Kind, code: nat): int {
    if log == [] then 0
    else
      var o := log[|log| - 1];
      Net(log[..|log| - 1], kind, code) +
      if o.Fired? && o.to.kind == kind && o.to.code == code
      then Bit(o.event == Down) - Bit(o.event == Up) else 0
  }

  lemma {:induction false} NetAppend(a: seq<Output>, b: seq<Output>, kind: Kind, code: nat)
    ensures Net(a + b, kind, code) == Net(a, kind, code) + Net(b, kind, code)
  {
    if b == [] {
      assert a + b == a;
    } else {
      assert (a + b)[..|a + b| - 1] == a + b[..|b| - 1];
      NetAppend(a, b[..|b| - 1], kind, code);
    }
  }

  lemma NetDownUp(t: ToEvent, v: seq<Counter>, kind: Kind, code: nat)
    ensures Net(DownUp(t, v), kind, code) == 0
  {
    var s := DownUp(t, v);
    if s != [] {
      assert s[..1] == [s[0]];
      assert Net(s, kind, code) == Net(s[..1], kind, code) + Net([s[1]], kind, code) by {
        assert s == s[..1] + [s[1]];
        NetAppend(s[..1], [s[1]], kind, code);
      }
    }
  }

  lemma {:induction false} NetDownUps(ts: seq<ToEvent>, v: seq<Counter>, kind: Kind, code: nat)
    ensures Net(DownUps(ts, v), kind, code) == 0
  {
    if ts != [] {
      var n := |ts| - 1;
      NetDownUps(ts[..n], v, kind, code);
      NetDownUp(ts[n], Shown(v, ts[n].flags, 1), kind, code);
      NetAppend(DownUps(ts[..n], v), DownUp(ts[n], Shown(v, ts[n].flags, 1)), kind, code);
    }
  }

  lemma NetOne(o: Output, kind: Kind, code: nat)
    ensures Net([o], kind, code) ==
            if o.Fired? && o.to.kind == kind && o.to.code == code then Bit(o.event == Down) - Bit(o.event == Up) else 0
  {
    assert [o][..0] == [];
  }

  lemma NetFire(t: ToEvent, event: EventType, v: seq<Counter>, kind: Kind, code: nat)
    ensures Net(Fire(t, event, v), kind, code) ==
            if t.kind != NoEvent && t.kind == kind && t.code == code then Bit(event == Down) - Bit(event == Up) else 0
  {
    if t.kind != NoEvent {
      NetOne(Fired(t, event, v), kind, code);
    }
  }

  lemma OneKeyOutput(rule: Rule, down: bool, v: seq<Counter>, w: seq<Counter>)
    requires |rule.toKeys| == 1
    ensures ToKeysOutput(rule, down, v, w) == Fire(rule.toKeys[0], Edge(rule.toKeys[0], down), w)
  {
    assert Typed(rule) == [];
  }

  lemma NetLast(last: ToEvent, down: bool, w: seq<Counter>, kind: Kind, code: nat)
    requires last.Flag() != ZERO || last.Like()
    ensures Net(LastOutput(last, down, w), kind, code) ==
            Signed(down, Bit(last.Like() && last.kind == kind && last.code == code))
  {
    if last.Like() {
      NetFire(last, if down then Down else Up, w, kind, code);
    } else {
      NetOne(ModifiersOnly(last, down, w), kind, code);
    }
  }

  lemma NetHeldKey(rule: Rule, down: bool, w: seq<Counter>, kind: Kind, code: nat)
    ensures Net(HeldOutput(rule, down, w), kind, code) == Signed(down, Weight(rule, HeldDown(kind, code)))
  {
    if HeldKey(rule) != [] {
      var held := HeldKey(rule)[0];
      assert held == rule.toKeys[|rule.toKeys| - 1];
      if |rule.toKeys| == 1 {
        NetFire(held, Edge(held, down), w, kind, code);
      } else {
        NetLast(held, down, w, kind, code);
      }
    }
  }

  lemma NetTyped(rule: Rule, down: bool, v: seq<Counter>, kind: Kind, code: nat)
    ensures Net(TypedOutput(rule, down, v), kind, code) == 0
  {
    if down {
      NetDownUps(Typed(rule), v, kind, code);
    }
  }

  lemma NetToKeys(rule: Rule, down: bool, v: seq<Counter>, w: seq<Counter>, kind: Kind, code: nat)
    ensures Net(ToKeysOutput(rule, down, v, w), kind, code) == Signed(down, Weight(rule, HeldDown(kind, code)))
  {
    NetTyped(rule, down, v, kind, code);
    NetHeldKey(rule, down, w, kind, code);
    NetAppend(TypedOutput(rule, down, v), HeldOutput(rule, down, w), kind, code);
  }

  /** A taken press leaves exactly the rule's own key held down, and the release lets it go again. */
  lemma NetOutputs(rule: Rule, down: bool, group: nat, v: seq<Counter>, kind: Kind, code: nat)
    ensures Net(Outputs(rule, down, group, v), kind, code) == Signed(down, Weight(rule, HeldDown(kind, code)))
  {
    if down {
      var hidden := Hidden(rule, Swapped(rule, v));
      var out := ToKeysOutput(rule, true, hidden, Moved(rule, true, v));
      NetToKeys(rule, true, hidden, Moved(rule, true, v), kind, code);
      NetDownUps(rule.beforeKeys, hidden, kind, code);
      NetAppend(DownUps(rule.beforeKeys, hidden), out, kind, code);
    } else {
      var moved := Moved(rule, false, v);
      NetToKeys(rule, false, [], moved, kind, code);
      if AfterOutput(rule, group, Cleared(moved)) != [] {
        NetDownUps(AfterKeys(rule, group), Hidden(rule, Shown(Cleared(moved), rule.afterKeys[group][0].flags, -1)),
                   kind, code);
      }
      NetAppend(ToKeysOutput(rule, false, [], moved), AfterOutput(rule, group, Cleared(moved)), kind, code);
    }
  }

  // ---------------------------------------------------------------------------------------------

  /** Two counter vectors with the same counts and temporaries; locks, stickies and lazies may differ. */
  predicate SameCounters(a: seq<Item>, b: seq<Item>) {
    |a| == |b| &&
    forall i :: 0 <= i < |a| ==>
      a[i].flag == b[i].flag && a[i].count == b[i].count && a[i].temporary == b[i].temporary
  }

  lemma CountersSame(a: seq<Item>, b: seq<Item>)
    requires SameCounters(a, b)
    ensures Counters(a) == Counters(b)
  {
  }

  /** A temporary change shows. */
  lemma CountersShown(a: seq<Item>, b: seq<Item>, named: set<ModifierFlag>, n: int)
    requires |a| == |b|
    requires forall i :: 0 <= i < |a| ==>
      b[i].flag == a[i].flag && b[i].count == a[i].count &&
      b[i].temporary == a[i].temporary + if a[i].flag in named then n else 0
    ensures Counters(b) == Shown(Counters(a), named, n)
  {
  }

  /** Whether an after-key-up group is to be sent. */
  predicate Suits(keys: seq<ToEvent>, items: seq<Item>) {
    keys != [] && AllOn(ClearTemporary(items), keys[0].flags)
  }

  /** A group is sent when the modifiers of its first entry are on, the temporary ones not counted: at least these, or
      exactly these if NONE is among them. */
  lemma GroupCondition(keys: seq<ToEvent>, items: seq<Item>)
    requires WellFormed(items)
    ensures var on := OnFlags(ClearTemporary(items));
            Suits(keys, items) <==>
            keys != [] && if NONE in keys[0].flags then keys[0].flags - {ZERO, NONE} == on else keys[0].flags - {ZERO} <= on
  {
    if keys != [] {
      ConditionMeaning(ClearTemporary(items), keys[0].flags);
    }
  }

  /** The first group to be sent, or none. */
  ghost predicate FirstSuiting(rule: Rule, items: seq<Item>, group: nat) {
    group <= |rule.afterKeys| && (forall k :: 0 <= k < group ==> !Suits(rule.afterKeys[k], items)) &&
    (group < |rule.afterKeys| ==> Suits(rule.afterKeys[group], items))
  }

  /** The first cancellation group that waits for the pressed key and whose modifiers are on, or none. */
  ghost predicate FirstWaiting(rule: Rule, targets: set<nat>, items: seq<Item>, k: nat) {
    k <= |rule.canceledByKeys| &&
    (forall j :: 0 <= j < k ==> !(j in targets && Suits(rule.canceledByKeys[j], items))) &&
    (k < |rule.canceledByKeys| ==> k in targets && Suits(rule.canceledByKeys[k], items))
  }

  /** What a delayed action sends when the counters look like `v`; the first entry of a cancellation group is the key
      that cancels, and its modifiers are hidden. */
  function Delayed(keys: seq<ToEvent>, canceledBy: bool, v: seq<Counter>): seq<Output> {
    if canceledBy && keys != [] then DownUps(keys[1..], Shown(v, keys[0].flags, -1)) else DownUps(keys, v)
  }

  /** The entry that names the cancelling key is not typed. */
  lemma MovesDelayed(keys: seq<ToEvent>, canceledBy: bool, v: seq<Counter>, down: bool)
    ensures Moves(Delayed(keys, canceledBy, v), down) == Real(if canceledBy && keys != [] then keys[1..] else keys)
  {
    if canceledBy && keys != [] {
      MovesDownUps(keys[1..], Shown(v, keys[0].flags, -1), down);
    } else {
      MovesDownUps(keys, v, down);
    }
  }

  /** What a cancelled delayed action types: the group that waits for the key, else the default, else the delayed keys. */
  function CanceledKeys(rule: Rule, k: nat): seq<ToEvent> {
    if k < |rule.canceledByKeys| then (if rule.canceledByKeys[k] == [] then [] else rule.canceledByKeys[k][1..])
    else if rule.canceledDefaultKeys != [] then rule.canceledDefaultKeys
    else rule.delayedKeys
  }

  function CountStep(op: Op): int { Bit(op == Increase) - Bit(op == Decrease) }

  function TemporaryStep(op: Op): int { Bit(op == TemporaryIncrease) - Bit(op == TemporaryDecrease) }

  /** What a taken event adds to the temporaries before any after-key-up group. */
  function TemporaryShift(rule: Rule, down: bool, f: ModifierFlag): int {
    var pure, n := Bit(f in rule.PureFromFlags()), |rule.toKeys|;
    if n == 0 then 0
    else if n == 1 then
      if rule.HoldsModifier() && down then 0 else Bit(f in rule.toKeys[0].flags) - pure
    else if rule.HoldsModifier() == down then 0
    else -pure
  }

  lemma BracketPreserves(a: Item, d: int)
    ensures EnterItem(a, d).flag == a.flag && EnterItem(a, d).temporary == a.temporary
    ensures LeaveItem(a, d).flag == a.flag && LeaveItem(a, d).temporary == a.temporary
    ensures EnterItem(a, d).count == if a.flag == CAPSLOCK then a.count else a.count - d
    ensures LeaveItem(a, d).count == if a.flag == CAPSLOCK then a.count else a.count + d
  {
    var n := if d >= 0 then d else -d;
    TimesCount(a, n);
    CapsLockCounters(a, n);
  }

  lemma EnterCounters(items: seq<Item>, d: seq<int>)
    requires |items| == |d|
    ensures forall i :: 0 <= i < |items| ==>
      Enter(items, d)[i].flag == items[i].flag == Leave(items, d)[i].flag &&
      Enter(items, d)[i].temporary == items[i].temporary == Leave(items, d)[i].temporary &&
      Enter(items, d)[i].count == (if items[i].flag == CAPSLOCK then items[i].count else items[i].count - d[i]) &&
      Leave(items, d)[i].count == (if items[i].flag == CAPSLOCK then items[i].count else items[i].count + d[i])
  {
    forall i | 0 <= i < |items| {
      BracketPreserves(items[i], d[i]);
    }
  }

  lemma {:induction false} CapsLockCounters(a: Item, n: nat)
    ensures a.flag == CAPSLOCK ==> Times(a, Increase, n).count == a.count && Times(a, Increase, n).temporary == a.temporary
    ensures Times(a, Increase, n).flag == a.flag
  {
    if n > 0 {
      CapsLockCounters(a, n - 1);
    }
  }

  lemma DoCounters(a: Item, op: Op)
    ensures a.Do(op).flag == a.flag
    ensures a.Do(op).count == a.count + if a.flag == CAPSLOCK then 0 else CountStep(op)
    ensures a.Do(op).temporary == a.temporary + TemporaryStep(op)
  {
  }

  /** What is left of the counts once the outstanding presses are accounted for (CapsLock aside). */
  ghost function ResidueOf(rules: seq<Rule>, pressing: seq<nat>, items: seq<Item>): (r: seq<int>)
    requires Within(pressing, |rules|)
    ensures |r| == |items|
    ensures forall i :: 0 <= i < |items| ==>
      r[i] == if items[i].flag == CAPSLOCK then 0
              else items[i].count - Total(rules, pressing, Count(items[i].flag))
  {
    seq(|items|, i requires 0 <= i < |items| =>
      if items[i].flag == CAPSLOCK then 0
      else items[i].count - Total(rules, pressing, Count(items[i].flag)))
  }

  function Minus(flags: seq<ModifierFlag>, residues: seq<int>, excess: seq<int>): (r: seq<int>)
    requires |flags| == |residues| == |excess|
    ensures |r| == |flags|
    ensures forall i :: 0 <= i < |r| ==> r[i] == if flags[i] == CAPSLOCK then residues[i] else residues[i] - excess[i]
  {
    seq(|flags|, i requires 0 <= i < |flags| =>
      if flags[i] == CAPSLOCK then residues[i] else residues[i] - excess[i])
  }

  lemma MinusInjective(flags: seq<ModifierFlag>, a: seq<int>, b: seq<int>, excess: seq<int>)
    requires |flags| == |a| == |b| == |excess| && Minus(flags, a, excess) == Minus(flags, b, excess)
    ensures a == b
  {
    forall i | 0 <= i < |flags| ensures a[i] == b[i] {
      assert Minus(flags, a, excess)[i] == Minus(flags, b, excess)[i];
    }
  }

  /** The keys held down by what was sent are exactly those of the outstanding presses. */
  ghost predicate Sends(rules: seq<Rule>, pressing: seq<nat>, log: seq<Output>)
    requires Within(pressing, |rules|)
  {
    forall kind, code :: Net(log, kind, code) == Total(rules, pressing, HeldDown(kind, code))
  }

  class Kernel {
    const rules: seq<Rule>
    const flags: seq<ModifierFlag>
    var items: seq<Item>
    var pressing: seq<nat>
    var pushed: seq<Output>

    // The one delayed action all rules share.
    var timerArmed: bool
    var timerTarget: nat
    var snapshot: seq<Item>

    /** The contribution of the physical keyboard, counted by `set`. */
    ghost var physical: seq<int>

    /** A counter vector for exactly the registered modifiers. */
    ghost predicate Carries(v: seq<Item>) {
      |v| == |flags| && forall i :: 0 <= i < |v| ==> v[i].flag == flags[i]
    }

    ghost predicate Ok()
      reads this
    {
      ZERO !in flags && Carries(items) && Carries(snapshot) && |physical| == |flags| &&
      Within(pressing, |rules|) &&
      (timerArmed ==> timerTarget < |rules|)
    }

    ghost function Residues(): seq<int>
      requires Ok()
      reads this
    {
      ResidueOf(rules, pressing, items)
    }

    /** Conservation of counts and of pressed keys. */
    ghost predicate Law()
      requires Ok()
      reads this
    {
      (forall i :: 0 <= i < |flags| && flags[i] != CAPSLOCK ==> Residues()[i] == physical[i]) &&
      Sends(rules, pressing, pushed)
    }

    constructor (rules: seq<Rule>, flags: seq<ModifierFlag>)
      requires ZERO !in flags
      ensures this.rules == rules && this.flags == flags && Ok() && Law() && pressing == [] && pushed == [] && !timerArmed
      ensures forall i :: 0 <= i < |flags| ==> physical[i] == 0
    {
      this.rules, this.flags, pressing, pushed := rules, flags, [], [];
      items := seq(|flags|, i requires 0 <= i < |flags| => Item(flags[i], 0, 0, 0, 0, 0, 0, false));
      snapshot := seq(|flags|, i requires 0 <= i < |flags| => Item(flags[i], 0, 0, 0, 0, 0, 0, false));
      physical := seq(|flags|, _ => 0);
      timerArmed, timerTarget := false, 0;
    }

    /** One call of a counter method of the global FlagStatus. */
    method Adjust(op: Op, flag: ModifierFlag, named: set<ModifierFlag>)
      requires Ok()
      modifies this`items
      ensures Ok()
      ensures forall i :: 0 <= i < |flags| ==>
        items[i].count == old(items[i].count) +
          (if (flags[i] == flag || flags[i] in named) && flags[i] != CAPSLOCK then CountStep(op) else 0) &&
        items[i].temporary == old(items[i].temporary) +
          (if flags[i] == flag || flags[i] in named then TemporaryStep(op) else 0)
      ensures items == Applied(old(items), op, flag, named)
    {
      forall i | 0 <= i < |flags| {
        DoCounters(items[i], op);
      }
      items := Applied(items, op, flag, named);
    }

    /** Virtual key handlers and the output queue may change locks, stickies and lazies. */
    method Disturb()
      requires Ok()
      modifies this`items
      ensures Ok() && SameCounters(old(items), items)
      ensures Residues() == old(Residues())
    {
      assert SameCounters(items, items);
      var next: seq<Item> :| SameCounters(items, next);
      assert SameCounters(items, next);
      items := next;
    }

    method FireEvent(t: ToEvent, event: EventType)
      requires Ok()
      modifies this`items, this`pushed
      ensures Ok() && SameCounters(old(items), items)
      ensures Counters(items) == old(Counters(items))
      ensures pushed == old(pushed) + Fire(t, event, Counters(items))
    {
      if t.kind != NoEvent {
        pushed := pushed + [Fired(t, event, Counters(items))];
        Disturb();
        CountersSame(old(items), items);
      }
    }

    method FireDownUp(t: ToEvent)
      requires Ok()
      modifies this`items, this`pushed
      ensures Ok() && SameCounters(old(items), items)
      ensures pushed == old(pushed) + DownUp(t, old(Counters(items)))
    {
      if t.kind == NoEvent {
      } else if t.Flag() != ZERO {
        Adjust(Increase, t.Flag(), {});
        assert Counters(items) == Counted(old(Counters(items)), t.Flag());
        FireEvent(t, Modify(true));
        Adjust(Decrease, t.Flag(), {});
        CountersSame(old(items), items);
        FireEvent(t, Modify(false));
      } else {
        FireEvent(t, Down);
        FireEvent(t, Up);
      }
    }

    /** Press and release each event in turn, each under its own modifiers. */
    method FireAll(ts: seq<ToEvent>)
      requires Ok()
      modifies this`items, this`pushed
      ensures Ok() && SameCounters(old(items), items)
      ensures pushed == old(pushed) + DownUps(ts, old(Counters(items)))
    {
      for k := 0 to |ts|
        invariant Ok() && SameCounters(old(items), items)
        invariant pushed == old(pushed) + DownUps(ts[..k], old(Counters(items)))
      {
        CountersSame(old(items), items);
        FireUnderFlags(ts[k]);
        assert ts[..k + 1][..k] == ts[..k];
      }
      assert ts[..|ts|] == ts;
    }

    method FireUnderFlags(t: ToEvent)
      requires Ok()
      modifies this`items, this`pushed
      ensures Ok() && SameCounters(old(items), items)
      ensures pushed == old(pushed) + DownUp(t, Shown(old(Counters(items)), t.flags, 1))
    {
      Adjust(TemporaryIncrease, ZERO, t.flags);
      CountersShown(old(items), items, t.flags, 1);
      FireDownUp(t);
      Adjust(TemporaryDecrease, ZERO, t.flags);
    }

    /** The effect of `toKeys_` on the counters. */
    static ghost predicate ToKeysDone(rule: Rule, down: bool, before: seq<Item>, after: seq<Item>) {
      |before| == |after| &&
      forall i :: 0 <= i < |after| ==>
        after[i].count == before[i].count +
          (if before[i].flag == CAPSLOCK then 0
           else if down then HeldWeight(rule, before[i].flag) else -HeldWeight(rule, before[i].flag)) &&
        after[i].temporary == before[i].temporary + TemporaryShift(rule, down, before[i].flag)
    }

    /** `toKeys_` of a taken event. */
    method RemapToKeys(rule: Rule, down: bool)
      requires Ok()
      modifies this`items, this`pushed
      ensures Ok() && ToKeysDone(rule, down, old(items), items)
      ensures pushed == old(pushed) + ToKeysOutput(rule, down, Hidden(rule, old(Counters(items))), Counters(items))
    {
      if |rule.toKeys| == 1 {
        RemapOneToKey(rule, down);
      } else if |rule.toKeys| > 1 {
        if down {
          TypeManyToKeys(rule);
        } else {
          ReleaseManyToKeys(rule);
        }
      }
    }

    /** A single event is pressed and released together with the key. */
    method RemapOneToKey(rule: Rule, down: bool)
      requires Ok() && |rule.toKeys| == 1
      modifies this`items, this`pushed
      ensures Ok() && ToKeysDone(rule, down, old(items), items)
      ensures pushed == old(pushed) + ToKeysOutput(rule, down, Hidden(rule, old(Counters(items))), Counters(items))
    {
      MoveOneToKey(rule, down);
      ghost var moved := items;
      FireEvent(rule.toKeys[0], Edge(rule.toKeys[0], down));
      OneKeyOutput(rule, down, Hidden(rule, old(Counters(items))), Counters(items));
      DoneKept(rule, down, old(items), moved, items);
    }

    static lemma DoneKept(rule: Rule, down: bool, a: seq<Item>, b: seq<Item>, c: seq<Item>)
      requires ToKeysDone(rule, down, a, b) && SameCounters(b, c)
      ensures ToKeysDone(rule, down, a, c)
    {
    }

    /** The counters for a single event. */
    method MoveOneToKey(rule: Rule, down: bool)
      requires Ok() && |rule.toKeys| == 1
      modifies this`items
      ensures Ok() && ToKeysDone(rule, down, old(items), items)
    {
      var to, pure := rule.toKeys[0], rule.PureFromFlags();
      if to.Flag() == ZERO && !to.Like() {
        ShowFlags(pure, to.flags);
      } else {
        HoldModifier(to, pure, down);
        if !down {
          ShowFlags(pure, to.flags);
        }
      }
    }

    /** For this event only, show the event's modifiers instead of the rule's own. */
    method ShowFlags(pure: set<ModifierFlag>, shown: set<ModifierFlag>)
      requires Ok()
      modifies this`items
      ensures Ok()
      ensures forall i :: 0 <= i < |items| ==>
        items[i].count == old(items[i].count) &&
        items[i].temporary == old(items[i].temporary) + Bit(items[i].flag in shown) - Bit(items[i].flag in pure)
    {
      Adjust(TemporaryDecrease, ZERO, pure);
      Adjust(TemporaryIncrease, ZERO, shown);
    }

    /** Several events are typed in turn; a modifier at the end stays until the key is up. */
    method TypeManyToKeys(rule: Rule)
      requires Ok() && |rule.toKeys| > 1
      modifies this`items, this`pushed
      ensures Ok() && ToKeysDone(rule, true, old(items), items)
      ensures pushed == old(pushed) + ToKeysOutput(rule, true, Hidden(rule, old(Counters(items))), Counters(items))
    {
      HideAndType(rule);
      var last := rule.toKeys[|rule.toKeys| - 1];
      if last.Flag() != ZERO || last.Like() {
        HoldLast(last, rule.PureFromFlags());
      }
    }

    /** The rule's own modifiers are hidden while its keys are typed. */
    method HideAndType(rule: Rule)
      requires Ok() && |rule.toKeys| > 1
      modifies this`items, this`pushed
      ensures Ok()
      ensures forall i :: 0 <= i < |items| ==>
        items[i].count == old(items[i].count) &&
        items[i].temporary == old(items[i].temporary) - Bit(items[i].flag in rule.PureFromFlags())
      ensures pushed == old(pushed) + TypedOutput(rule, true, Hidden(rule, old(Counters(items))))
    {
      var n := |rule.toKeys|;
      var last := rule.toKeys[n - 1];
      Adjust(TemporaryDecrease, ZERO, rule.PureFromFlags());
      CountersShown(old(items), items, rule.PureFromFlags(), -1);
      FireAll(if last.Flag() != ZERO || last.Like() then rule.toKeys[..n - 1] else rule.toKeys);
    }

    /** The rule's own modifiers come back and are traded for the modifier at the end. */
    method HoldLast(last: ToEvent, pure: set<ModifierFlag>)
      requires Ok()
      modifies this`items, this`pushed
      ensures Ok()
      ensures forall i :: 0 <= i < |items| ==>
        items[i].count == old(items[i].count) +
          (if items[i].flag == CAPSLOCK then 0
           else Bit(items[i].flag == last.Flag() || items[i].flag in last.flags) - Bit(items[i].flag in pure)) &&
        items[i].temporary == old(items[i].temporary) + Bit(items[i].flag in pure)
      ensures pushed == old(pushed) + LastOutput(last, true, Counters(items))
    {
      Adjust(TemporaryIncrease, ZERO, pure);
      HoldModifier(last, pure, true);
      FireLast(last, true);
    }

    /** Only a modifier at the end is still there to be released. */
    method ReleaseManyToKeys(rule: Rule)
      requires Ok() && |rule.toKeys| > 1
      modifies this`items, this`pushed
      ensures Ok() && ToKeysDone(rule, false, old(items), items)
      ensures pushed == old(pushed) + ToKeysOutput(rule, false, Hidden(rule, old(Counters(items))), Counters(items))
    {
      var pure, last := rule.PureFromFlags(), rule.toKeys[|rule.toKeys| - 1];
      if last.Flag() != ZERO || last.Like() {
        HoldModifier(last, pure, false);
        Adjust(TemporaryDecrease, ZERO, pure);
        FireLast(last, false);
      }
    }

    /** Trade the rule's own modifiers for the modifier it stands for, or back. */
    method HoldModifier(to: ToEvent, pure: set<ModifierFlag>, down: bool)
      requires Ok()
      modifies this`items
      ensures Ok()
      ensures forall i :: 0 <= i < |items| ==>
        items[i].count == old(items[i].count) +
          (if items[i].flag == CAPSLOCK then 0 else
             var w := Bit(items[i].flag == to.Flag() || items[i].flag in to.flags) - Bit(items[i].flag in pure);
             if down then w else -w) &&
        items[i].temporary == old(items[i].temporary)
    {
      if down {
        Adjust(Increase, to.Flag(), to.flags);
        Adjust(Decrease, ZERO, pure);
      } else {
        Adjust(Decrease, to.Flag(), to.flags);
        Adjust(Increase, ZERO, pure);
      }
    }

    method FireLast(last: ToEvent, down: bool)
      requires Ok()
      modifies this`items, this`pushed
      ensures Ok() && SameCounters(old(items), items)
      ensures pushed == old(pushed) + LastOutput(last, down, Counters(items))
    {
      if last.Like() {
        FireEvent(last, if down then Down else Up);
      } else {
        pushed := pushed + [ModifiersOnly(last, down, Counters(items))];
        Disturb();
        CountersSame(old(items), items);
      }
    }

    /** The first after-key-up group whose modifiers are on is sent; looking at a group drops the temporaries. */
    method RemapAfterKeys(rule: Rule) returns (ghost group: nat)
      requires Ok()
      modifies this`items, this`pushed
      ensures Ok()
      ensures SameCounters(items, if rule.afterKeys == [] then old(items) else ClearTemporary(old(items)))
      ensures FirstSuiting(rule, old(items), group)
      ensures pushed == old(pushed) + AfterOutput(rule, group, Cleared(old(Counters(items))))
    {
      group := |rule.afterKeys|;
      for k := 0 to |rule.afterKeys|
        invariant Ok() && pushed == old(pushed) && group == |rule.afterKeys|
        invariant items == if k == 0 then old(items) else ClearTemporary(old(items))
        invariant forall j :: 0 <= j < k ==> !Suits(rule.afterKeys[j], old(items))
      {
        items := ClearTemporary(items);
        assert items == ClearTemporary(old(items));
        var toEvents := rule.afterKeys[k];
        if toEvents != [] && AllOn(items, toEvents[0].flags) {
          group := k;
          assert Counters(items) == Cleared(old(Counters(items)));
          FireGroup(rule, toEvents);
          return;
        }
      }
    }

    method FireGroup(rule: Rule, toEvents: seq<ToEvent>)
      requires Ok() && toEvents != []
      modifies this`items, this`pushed
      ensures Ok() && SameCounters(old(items), items)
      ensures pushed == old(pushed) +
        DownUps(toEvents[1..], Hidden(rule, Shown(old(Counters(items)), toEvents[0].flags, -1)))
    {
      Adjust(TemporaryDecrease, ZERO, toEvents[0].flags);
      CountersShown(old(items), items, toEvents[0].flags, -1);
      ghost var hidden := items;
      Adjust(TemporaryDecrease, ZERO, rule.PureFromFlags());
      CountersShown(hidden, items, rule.PureFromFlags(), -1);
      FireAll(toEvents[1..]);
      Adjust(TemporaryIncrease, ZERO, rule.PureFromFlags());
      Adjust(TemporaryIncrease, ZERO, toEvents[0].flags);
    }

    static ghost predicate FromFlagsSwapped(rule: Rule, down: bool, before: seq<Item>, after: seq<Item>) {
      |before| == |after| &&
      forall i :: 0 <= i < |after| ==>
        after[i].flag == before[i].flag && after[i].temporary == before[i].temporary &&
        after[i].count == before[i].count +
          if before[i].flag == CAPSLOCK then 0 else
            var w := Bit(before[i].flag in rule.IncreasedFlags()) - Bit(before[i].flag == rule.fromFlag);
            if down then w else -w
    }

    /** While pressed, the key no longer counts as the modifier it is, and the extra modifiers count. */
    method SwapFromFlags(rule: Rule, down: bool)
      requires Ok()
      modifies this`items
      ensures Ok() && FromFlagsSwapped(rule, down, old(items), items)
    {
      if down {
        Adjust(Decrease, rule.fromFlag, {});
        if rule.increaseFlags != [] {
          Adjust(Increase, ZERO, rule.IncreasedFlags());
        }
      } else {
        Adjust(Increase, rule.fromFlag, {});
        if rule.increaseFlags != [] {
          Adjust(Decrease, ZERO, rule.IncreasedFlags());
        }
      }
    }

    /** The counters after a taken event; an after-key-up group, looked at or sent, leaves no temporaries. */
    static ghost function AfterEvent(rule: Rule, down: bool, v: seq<Counter>): seq<Counter> {
      if !down && rule.afterKeys != [] then Cleared(Moved(rule, down, v)) else Moved(rule, down, v)
    }

    static lemma MovedInSteps(rule: Rule, down: bool, a: seq<Item>, b: seq<Item>, c: seq<Item>, d: seq<Item>)
      requires FromFlagsSwapped(rule, down, a, b) && SameCounters(b, c) && ToKeysDone(rule, down, c, d)
      requires SameFlags(c, d)
      ensures Counters(d) == Moved(rule, down, Counters(a))
    {
    }

    static lemma SwappedBy(rule: Rule, a: seq<Item>, b: seq<Item>)
      requires FromFlagsSwapped(rule, true, a, b)
      ensures Counters(b) == Swapped(rule, Counters(a))
    {
    }

    /** The steps of a press put together. */
    static lemma PressDone(rule: Rule, a: seq<Item>, b: seq<Item>, c: seq<Item>, d: seq<Item>,
                           log: seq<Output>, log1: seq<Output>, log2: seq<Output>)
      requires FromFlagsSwapped(rule, true, a, b) && SameCounters(b, c) && ToKeysDone(rule, true, c, d) && SameFlags(c, d)
      requires log1 == log + DownUps(rule.beforeKeys, Hidden(rule, Counters(b)))
      requires log2 == log1 + ToKeysOutput(rule, true, Hidden(rule, Counters(c)), Counters(d))
      ensures Counters(d) == AfterEvent(rule, true, Counters(a)) && log2 == log + Outputs(rule, true, 0, Counters(a))
    {
      MovedInSteps(rule, true, a, b, c, d);
      SwappedBy(rule, a, b);
      CountersSame(b, c);
      SeqAssoc(log, DownUps(rule.beforeKeys, Hidden(rule, Counters(b))),
               ToKeysOutput(rule, true, Hidden(rule, Counters(b)), Counters(d)));
    }

    /** The steps of a release put together. */
    static lemma ReleaseDone(rule: Rule, a: seq<Item>, b: seq<Item>, c: seq<Item>, d: seq<Item>, group: nat,
                             log: seq<Output>, log1: seq<Output>, log2: seq<Output>)
      requires FromFlagsSwapped(rule, false, a, b) && ToKeysDone(rule, false, b, c) && SameFlags(b, c)
      requires SameCounters(d, if rule.afterKeys == [] then c else ClearTemporary(c))
      requires log1 == log + ToKeysOutput(rule, false, Hidden(rule, Counters(b)), Counters(c))
      requires log2 == log1 + AfterOutput(rule, group, Cleared(Counters(c)))
      ensures Counters(c) == Moved(rule, false, Counters(a)) && Counters(d) == AfterEvent(rule, false, Counters(a))
      ensures log2 == log + Outputs(rule, false, group, Counters(a))
    {
      MovedInSteps(rule, false, a, b, b, c);
      CountersSame(d, if rule.afterKeys == [] then c else ClearTemporary(c));
      CountersCleared(c);
      ReleaseSends(rule, Hidden(rule, Counters(b)), Counters(c));
      SeqAssoc(log, ToKeysOutput(rule, false, [], Counters(c)), AfterOutput(rule, group, Cleared(Counters(c))));
    }

    static lemma CountersCleared(items: seq<Item>)
      ensures Counters(ClearTemporary(items)) == Cleared(Counters(items))
    {
    }

    static lemma ReleaseSends(rule: Rule, v: seq<Counter>, w: seq<Counter>)
      ensures ToKeysOutput(rule, false, v, w) == ToKeysOutput(rule, false, [], w)
    {
    }

    method Press(r: nat)
      requires Ok() && r < |rules|
      modifies this`items, this`pushed, this`timerArmed, this`timerTarget, this`snapshot
      ensures Ok() && Counters(items) == AfterEvent(rules[r], true, old(Counters(items)))
      ensures pushed == old(pushed) + Outputs(rules[r], true, 0, old(Counters(items)))
      ensures if rules[r].delayedKeys != [] || rules[r].canceledDefaultKeys != [] || rules[r].canceledByKeys != []
              then timerArmed && timerTarget == r && Counters(snapshot) == Recorded(rules[r], old(Counters(items)))
              else timerArmed == old(timerArmed) && timerTarget == old(timerTarget) && snapshot == old(snapshot)
    {
      var rule := rules[r];
      SwapFromFlags(rule, true);
      ghost var swapped := items;
      SwappedBy(rule, old(items), swapped);
      if rule.delayedKeys != [] || rule.canceledDefaultKeys != [] || rule.canceledByKeys != [] {
        StartDelayedAction(r);
      }
      FireBeforeKeys(rule);
      ghost var fired, log := items, pushed;
      RemapToKeys(rule, true);
      PressDone(rule, old(items), swapped, fired, items, old(pushed), log, pushed);
    }

    method StartDelayedAction(r: nat)
      requires Ok() && r < |rules|
      modifies this`timerArmed, this`timerTarget, this`snapshot
      ensures Ok() && timerArmed && timerTarget == r
      ensures snapshot == Applied(items, Decrease, ZERO, rules[r].PureFromFlags())
      ensures Counters(snapshot) == Uncounted(Counters(items), rules[r].PureFromFlags())
    {
      timerTarget, timerArmed := r, true;
      snapshot := Applied(items, Decrease, ZERO, rules[r].PureFromFlags());
      forall i | 0 <= i < |flags| {
        DoCounters(items[i], Decrease);
      }
    }

    method FireBeforeKeys(rule: Rule)
      requires Ok()
      modifies this`items, this`pushed
      ensures Ok() && SameCounters(old(items), items)
      ensures pushed == old(pushed) + DownUps(rule.beforeKeys, Hidden(rule, old(Counters(items))))
    {
      Adjust(TemporaryDecrease, ZERO, rule.PureFromFlags());
      CountersShown(old(items), items, rule.PureFromFlags(), -1);
      FireAll(rule.beforeKeys);
      Adjust(TemporaryIncrease, ZERO, rule.PureFromFlags());
    }

    /** `seen` are the counters by which the after-key-up group is chosen. */
    method Release(r: nat) returns (ghost group: nat, ghost seen: seq<Item>)
      requires Ok() && r < |rules|
      modifies this`items, this`pushed
      ensures Ok() && Counters(items) == AfterEvent(rules[r], false, old(Counters(items)))
      ensures pushed == old(pushed) + Outputs(rules[r], false, group, old(Counters(items)))
      ensures Counters(seen) == Moved(rules[r], false, old(Counters(items))) && FirstSuiting(rules[r], seen, group)
    {
      var rule := rules[r];
      SwapFromFlags(rule, false);
      ghost var swapped := items;
      RemapToKeys(rule, false);
      seen := items;
      ghost var log := pushed;
      group := RemapAfterKeys(rule);
      ReleaseDone(rule, old(items), swapped, seen, items, group, old(pushed), log, pushed);
    }

    /** `FromEvent::changePressingState`: a press is recorded when the key is the rule's and the modifiers are
        on, a release is accepted when a press of the rule is outstanding. */
    method ChangePressingState(r: nat, event: Event) returns (changed: bool)
      requires Ok() && r < |rules|
      modifies this`pressing
      ensures Ok()
      ensures changed <==> event.KeyEvent? && event.key == rules[r].from &&
                           if event.down then AllOn(items, rules[r].fromFlags) else r in old(pressing)
      ensures pressing == if !changed then old(pressing)
                          else Pressed(old(pressing), r, event.down)
    {
      if event.OtherEvent? || event.key != rules[r].from {
        return false;
      }
      if event.down {
        changed := AllOn(items, rules[r].fromFlags);
        if changed {
          pressing := pressing + [r];
        }
      } else {
        changed := r in pressing;
        if changed {
          EraseFirstIn(pressing, r);
          pressing := EraseFirst(pressing, r);
        }
      }
    }

    /** One event offered to one rule. */
    method Remap(r: nat, event: Event, isRemapped: bool) returns (taken: bool, ghost group: nat, ghost seen: seq<Item>)
      requires Ok() && r < |rules|
      modifies this`items, this`pressing, this`pushed, this`timerArmed, this`timerTarget, this`snapshot
      ensures Ok()
      // It is taken when the key is the rule's and the modifiers are on (down), or the rule has it pressed (up).
      ensures taken <==> !isRemapped && event.KeyEvent? && event.key == rules[r].from &&
                         if event.down then AllOn(old(items), rules[r].fromFlags) else r in old(pressing)
      ensures pressing == if !taken then old(pressing)
                          else Pressed(old(pressing), r, event.down)
      ensures pushed == old(pushed) + if taken then Outputs(rules[r], event.down, group, old(Counters(items))) else []
      ensures if taken then Counters(items) == AfterEvent(rules[r], event.down, old(Counters(items)))
              else items == old(items)
      // The keys that go down are, in this order, the before keys and the to keys, or those of the first after-key-up
      // group whose modifiers are on when the release has been sent.
      ensures taken ==>
        Moves(pushed[|old(pushed)|..], true) ==
        if event.down then Real(rules[r].beforeKeys) + Real(rules[r].toKeys) else Real(AfterKeys(rules[r], group))
      ensures taken && !event.down ==>
        Counters(seen) == Moved(rules[r], false, old(Counters(items))) && FirstSuiting(rules[r], seen, group)
      // A press of a rule with a delayed action starts the shared timer for it and records the modifiers.
      ensures if taken && event.down &&
                 (rules[r].delayedKeys != [] || rules[r].canceledDefaultKeys != [] || rules[r].canceledByKeys != [])
              then timerArmed && timerTarget == r && Counters(snapshot) == Recorded(rules[r], old(Counters(items)))
              else timerArmed == old(timerArmed) && timerTarget == old(timerTarget) && snapshot == old(snapshot)
    {
      taken, group, seen := false, 0, [];
      if !isRemapped {
        taken := ChangePressingState(r, event);
        if taken {
          if event.down {
            Press(r);
          } else {
            group, seen := Release(r);
          }
          MovesSent(rules[r], event.down, group, old(Counters(items)), old(pushed), pushed);
        }
      }
    }

    static lemma MovesSent(rule: Rule, down: bool, group: nat, v: seq<Counter>, before: seq<Output>, after: seq<Output>)
      requires after == before + Outputs(rule, down, group, v)
      ensures Moves(after[|before|..], true) ==
              if down then Real(rule.beforeKeys) + Real(rule.toKeys) else Real(AfterKeys(rule, group))
    {
      assert after[|before|..] == Outputs(rule, down, group, v);
      MovesOutputs(rule, down, group, v, true);
    }

    /** Send keys under the modifiers recorded at the press; nothing is left of it in the counters. */
    method DoDelayedAction(keys: seq<ToEvent>, canceledBy: bool)
      requires Ok()
      modifies this`items, this`pushed
      ensures Ok() && SameCounters(old(items), items)
      ensures pushed == old(pushed) +
        Delayed(keys, canceledBy, Counters(Enter(old(items), Excess(old(items), snapshot))))
    {
      if keys != [] {
        var excess := Excess(items, snapshot);
        EnterCounters(items, excess);
        items := Enter(items, excess);
        FireDelayed(keys, canceledBy);
        EnterCounters(items, excess);
        items := Leave(items, excess);
      }
    }

    method FireDelayed(keys: seq<ToEvent>, canceledBy: bool)
      requires Ok() && keys != []
      modifies this`items, this`pushed
      ensures Ok() && SameCounters(old(items), items)
      ensures pushed == old(pushed) + Delayed(keys, canceledBy, old(Counters(items)))
    {
      if canceledBy {
        Adjust(TemporaryDecrease, ZERO, keys[0].flags);
        CountersShown(old(items), items, keys[0].flags, -1);
      }
      FireAll(if canceledBy then keys[1..] else keys);
      if canceledBy {
        Adjust(TemporaryIncrease, ZERO, keys[0].flags);
      }
    }

    /** Make the counters look like the snapshot, or undo that. */
    method EnterSnapshot(excess: seq<int>)
      requires Ok() && |excess| == |flags|
      modifies this`items
      ensures Ok() && items == Enter(old(items), excess)
      ensures Residues() == Minus(flags, old(Residues()), excess)
    {
      EnterCounters(items, excess);
      items := Enter(items, excess);
    }

    method LeaveSnapshot(excess: seq<int>)
      requires Ok() && |excess| == |flags|
      modifies this`items
      ensures Ok() && items == Leave(old(items), excess)
      ensures old(Residues()) == Minus(flags, Residues(), excess)
    {
      EnterCounters(items, excess);
      items := Leave(items, excess);
    }

    /** Any key press cancels the delayed action of the rule; `targets` are the cancellation groups that wait for
        the pressed key.  The first of them whose modifiers are on is typed, otherwise the default keys, or without any
        the delayed keys themselves. */
    method Prepare(r: nat, event: Event, targets: set<nat>) returns (ghost k: nat)
      requires Ok() && r < |rules|
      modifies this`items, this`pushed, this`timerArmed
      ensures Ok()
      ensures if event.KeyEvent? && event.down && old(timerArmed)
              then !timerArmed && SameCounters(ClearTemporary(old(items)), items) &&
                   FirstWaiting(rules[r], targets, old(items), k) &&
                   pushed == old(pushed) + Canceled(rules[r], k, ClearTemporary(old(items)), snapshot)
              else items == old(items) && pushed == old(pushed) && timerArmed == old(timerArmed)
      ensures event.KeyEvent? && event.down && old(timerArmed) ==>
        Moves(pushed[|old(pushed)|..], true) == Real(CanceledKeys(rules[r], k))
      ensures forall kind, code :: Net(pushed, kind, code) == old(Net(pushed, kind, code))
      ensures Residues() == old(Residues())
    {
      k := 0;
      if event.KeyEvent? && event.down && timerArmed {
        k := CancelTimer(rules[r], targets);
        MovesCanceled(old(pushed), rules[r], k, ClearTemporary(old(items)), pushed);
      }
    }

    method CancelTimer(rule: Rule, targets: set<nat>) returns (ghost k: nat)
      requires Ok() && timerArmed
      modifies this`items, this`pushed, this`timerArmed
      ensures Ok() && !timerArmed && SameCounters(ClearTemporary(old(items)), items)
      ensures FirstWaiting(rule, targets, old(items), k)
      ensures pushed == old(pushed) + Canceled(rule, k, ClearTemporary(old(items)), snapshot)
      ensures forall kind, code :: Net(pushed, kind, code) == old(Net(pushed, kind, code))
      ensures Residues() == old(Residues())
    {
      timerArmed := false;
      items := ClearTemporary(items);
      k := Cancel(rule, targets);
      NetCanceled(old(pushed), rule, k, ClearTemporary(old(items)));
    }

    /** What a cancelled delayed action types, with the counters made to look like the snapshot. */
    static ghost function Canceled(rule: Rule, k: nat, items: seq<Item>, snapshot: seq<Item>): seq<Output>
      requires |items| == |snapshot|
    {
      var v := Counters(Enter(items, Excess(items, snapshot)));
      if k < |rule.canceledByKeys| then Delayed(rule.canceledByKeys[k], true, v)
      else DownUps(if rule.canceledDefaultKeys != [] then rule.canceledDefaultKeys else rule.delayedKeys, v)
    }

    method Cancel(rule: Rule, targets: set<nat>) returns (ghost k: nat)
      requires Ok() && ClearTemporary(items) == items
      modifies this`items, this`pushed
      ensures Ok() && SameCounters(old(items), items)
      ensures FirstWaiting(rule, targets, old(items), k)
      ensures pushed == old(pushed) + Canceled(rule, k, old(items), snapshot)
    {
      for j := 0 to |rule.canceledByKeys|
        invariant Ok() && items == old(items) && pushed == old(pushed)
        invariant forall i :: 0 <= i < j ==> !(i in targets && Suits(rule.canceledByKeys[i], items))
      {
        if rule.canceledByKeys[j] != [] && j in targets && AllOn(items, rule.canceledByKeys[j][0].flags) {
          k := j;
          DoDelayedAction(rule.canceledByKeys[j], true);
          return;
        }
      }
      k := |rule.canceledByKeys|;
      DoDelayedAction(if rule.canceledDefaultKeys != [] then rule.canceledDefaultKeys else rule.delayedKeys, false);
    }

    lemma MovesCanceled(log: seq<Output>, rule: Rule, k: nat, items: seq<Item>, log': seq<Output>)
      requires |items| == |snapshot| && log' == log + Canceled(rule, k, items, snapshot)
      ensures Moves(log'[|log|..], true) == Real(CanceledKeys(rule, k))
    {
      assert log'[|log|..] == Canceled(rule, k, items, snapshot);
      var v := Counters(Enter(items, Excess(items, snapshot)));
      if k < |rule.canceledByKeys| {
        MovesDelayed(rule.canceledByKeys[k], true, v, true);
      } else {
        MovesDownUps(if rule.canceledDefaultKeys != [] then rule.canceledDefaultKeys else rule.delayedKeys, v, true);
      }
    }

    lemma NetCanceled(log: seq<Output>, rule: Rule, k: nat, items: seq<Item>)
      requires |items| == |snapshot|
      ensures forall kind, code ::
        Net(log + Canceled(rule, k, items, snapshot), kind, code) == Net(log, kind, code)
    {
      var v := Counters(Enter(items, Excess(items, snapshot)));
      if k < |rule.canceledByKeys| {
        SilentDelayedAction(log, rule.canceledByKeys[k], true, v);
      } else {
        SilentDelayedAction(log, if rule.canceledDefaultKeys != [] then rule.canceledDefaultKeys else rule.delayedKeys,
                            false, v);
      }
    }

    static lemma SilentDelayedAction(log: seq<Output>, keys: seq<ToEvent>, canceledBy: bool, v: seq<Counter>)
      ensures forall kind, code :: Net(log + Delayed(keys, canceledBy, v), kind, code) == Net(log, kind, code)
    {
      forall kind, code ensures Net(log + Delayed(keys, canceledBy, v), kind, code) == Net(log, kind, code) {
        NetAppend(log, Delayed(keys, canceledBy, v), kind, code);
        if canceledBy && keys != [] {
          NetDownUps(keys[1..], Shown(v, keys[0].flags, -1), kind, code);
        } else {
          NetDownUps(keys, v, kind, code);
        }
      }
    }

    /** The shared timer runs out. */
    method Timer()
      requires Ok() && timerArmed
      modifies this`items, this`pushed, this`timerArmed
      ensures Ok() && SameCounters(old(items), items) && !timerArmed
      ensures pushed == old(pushed) +
        DownUps(rules[timerTarget].delayedKeys, Counters(Enter(old(items), Excess(old(items), snapshot))))
      ensures forall kind, code :: Net(pushed, kind, code) == old(Net(pushed, kind, code))
      ensures Residues() == old(Residues())
    {
      timerArmed := false;
      DoDelayedAction(rules[timerTarget].delayedKeys, false);
      SilentDelayedAction(old(pushed), rules[timerTarget].delayedKeys, false,
                          Counters(Enter(old(items), Excess(old(items), snapshot))));
    }

    /** A physical key moved (`FlagStatus::set(key, flags)`): `flag` is its modifier, if it is one. */
    method SetPhysical(flag: ModifierFlag, on: bool)
      requires Ok()
      modifies this`items, this`physical
      ensures Ok() && items == KeySet(old(items), flag, on)
      ensures forall i :: 0 <= i < |flags| && flags[i] != CAPSLOCK ==>
        physical[i] == old(physical[i]) + PhysicalStep(flag, on, flags[i]) &&
        items[i].count == old(items[i].count) + PhysicalStep(flag, on, flags[i])
    {
      items := KeySet(items, flag, on);
      physical := seq(|flags|, i requires 0 <= i < |flags| && |physical| == |flags| reads this =>
        physical[i] + PhysicalStep(flag, on, flags[i]));
    }

    /** All keys are up: counters and outstanding presses are forgotten, and a new log begins. */
    method Reset()
      requires Ok()
      modifies this`items, this`pressing, this`pushed, this`physical
      ensures Ok() && Law() && pressing == [] && pushed == [] && items == ResetAll(old(items))
      ensures forall i :: 0 <= i < |flags| ==> physical[i] == 0
    {
      items, pressing, pushed := ResetAll(items), [], [];
      physical := seq(|items|, _ => 0);
    }

    ghost function Now(): Snapshot
      reads this
    {
      Snapshot(items, pressing, pushed, timerArmed, timerTarget, snapshot)
    }

    /** One step of a run keeps the law. */
    method Do(step: Step)
      requires Ok() && Law() && step.WithinRules(|rules|)
      modifies this
      ensures Ok() && Law()
      ensures Follows(rules, step, old(Now()), Now())
      ensures forall i :: 0 <= i < |flags| && flags[i] != CAPSLOCK ==>
        physical[i] == if step.AllKeysReleased? then 0 else old(physical[i]) + step.Contribution(flags[i])
    {
      match step
      case KeyMoved(flag, on) =>
        SetPhysical(flag, on);
      case Offered(r, event, isRemapped) =>
        Offer(r, event, isRemapped);
      case KeyPrepared(r, event, targets) =>
        ghost var k := Prepare(r, event, targets);
      case TimerFired =>
        if timerArmed {
          Timer();
        }
      case TemporariesCleared =>
        items := ClearTemporary(items);
      case VirtualKeyHandled =>
        Disturb();
      case AllKeysReleased =>
        Reset();
    }

    method Offer(r: nat, event: Event, isRemapped: bool)
      requires Ok() && Law() && r < |rules|
      modifies this`items, this`pressing, this`pushed, this`timerArmed, this`timerTarget, this`snapshot
      ensures Ok() && Law()
      ensures FollowsOffer(rules[r], r, event, isRemapped, old(Now()), Now())
    {
      ghost var group, seen;
      var taken;
      taken, group, seen := Remap(r, event, isRemapped);
      if taken {
        ProcessedResidue(old(pressing), r, event.down, old(items), items);
        TakenSends(old(pressing), old(pushed), r, event.down, group, old(Counters(items)));
      } else {
        assert pushed == old(pushed);
      }
    }

    lemma ProcessedResidue(pressing: seq<nat>, r: nat, down: bool, before: seq<Item>, after: seq<Item>)
      requires Within(pressing, |rules|) && r < |rules| && (down || r in pressing)
      requires Counters(after) == AfterEvent(rules[r], down, Counters(before)) && SameFlags(before, after)
      ensures Within(Pressed(pressing, r, down), |rules|)
      ensures ResidueOf(rules, Pressed(pressing, r, down), after) == ResidueOf(rules, pressing, before)
    {
      TotalPressed(rules, pressing, r, down, Count(ZERO));
      var now, earlier := ResidueOf(rules, Pressed(pressing, r, down), after), ResidueOf(rules, pressing, before);
      forall i | 0 <= i < |after| ensures now[i] == earlier[i] {
        TotalPressed(rules, pressing, r, down, Count(before[i].flag));
      }
    }

    /** `Remap` and the outstanding presses agree about the counts and about the keys held down. */
    method RemapKeepsResidue(r: nat, event: Event) returns (taken: bool)
      requires Ok() && r < |rules|
      modifies this`items, this`pressing, this`pushed, this`timerArmed, this`timerTarget, this`snapshot
      ensures Ok()
      ensures taken <==> event.KeyEvent? && event.key == rules[r].from &&
                         if event.down then AllOn(old(items), rules[r].fromFlags) else r in old(pressing)
      ensures pressing == if !taken then old(pressing) else Pressed(old(pressing), r, event.down)
      ensures Residues() == old(Residues())
      ensures old(Sends(rules, pressing, pushed)) ==> Sends(rules, pressing, pushed)
    {
      ghost var group, seen;
      taken, group, seen := Remap(r, event, false);
      if taken {
        ProcessedResidue(old(pressing), r, event.down, old(items), items);
        TakenSends(old(pressing), old(pushed), r, event.down, group, old(Counters(items)));
      } else {
        assert pushed == old(pushed);
      }
    }

    /** A taken event holds or lets go of exactly the key its press accounts for. */
    lemma TakenSends(pressing: seq<nat>, log: seq<Output>, r: nat, down: bool, group: nat, v: seq<Counter>)
      requires Within(pressing, |rules|) && r < |rules| && (down || r in pressing)
      ensures Within(Pressed(pressing, r, down), |rules|)
      ensures Sends(rules, pressing, log) ==>
              Sends(rules, Pressed(pressing, r, down), log + Outputs(rules[r], down, group, v))
    {
      TotalPressed(rules, pressing, r, down, Count(ZERO));
      if Sends(rules, pressing, log) {
        forall kind, code
          ensures Net(log + Outputs(rules[r], down, group, v), kind, code) ==
                  Total(rules, Pressed(pressing, r, down), HeldDown(kind, code))
        {
          TotalPressed(rules, pressing, r, down, HeldDown(kind, code));
          NetAppend(log, Outputs(rules[r], down, group, v), kind, code);
          NetOutputs(rules[r], down, group, v, kind, code);
        }
      }
    }
  }

  /** What a moved key adds to the count of modifier `f`. */
  function PhysicalStep(flag: ModifierFlag, on: bool, f: ModifierFlag): int {
    if f == flag && f != CAPSLOCK then Signed(on, 1) else 0
  }

  /** Anything that can happen to the kernel between two moments: calls arrive in any order. */
  datatype Step =
    | KeyMoved(flag: ModifierFlag, on: bool)
    | Offered(rule: nat, event: Event, isRemapped: bool)
    | KeyPrepared(rule: nat, event: Event, targets: set<nat>)
    | TimerFired
    | TemporariesCleared
    | VirtualKeyHandled
    | AllKeysReleased
  {
    predicate WithinRules(n: nat) {
      (Offered? || KeyPrepared?) ==> rule < n
    }

    function Contribution(f: ModifierFlag): int {
      if KeyMoved? then PhysicalStep(flag, on, f) else 0
    }
  }

  /** The state of the kernel between two steps. */
  datatype Snapshot = Snapshot(items: seq<Item>, pressing: seq<nat>, pushed: seq<Output>,
                               timerArmed: bool, timerTarget: nat, saved: seq<Item>)

  /** An event offered to a rule: taken when the key is the rule's and its modifiers are on or its press is outstanding. */
  ghost predicate FollowsOffer(rule: Rule, r: nat, event: Event, isRemapped: bool, a: Snapshot, b: Snapshot) {
    if !isRemapped && event.KeyEvent? && event.key == rule.from &&
       (if event.down then AllOn(a.items, rule.fromFlags) else r in a.pressing)
    then b.pressing == Pressed(a.pressing, r, event.down) &&
         exists group :: b.pushed == a.pushed + Outputs(rule, event.down, group, Counters(a.items))
    else b == a
  }

  /** What each step does. */
  ghost predicate Follows(rules: seq<Rule>, step: Step, a: Snapshot, b: Snapshot) {
    match step
    case KeyMoved(flag, on) => b == a.(items := KeySet(a.items, flag, on))
    case Offered(r, event, isRemapped) => r < |rules| && FollowsOffer(rules[r], r, event, isRemapped, a, b)
    case KeyPrepared(r, event, targets) =>
      r < |rules| && |a.items| == |a.saved| &&
      if event.KeyEvent? && event.down && a.timerArmed
      then !b.timerArmed && b.pressing == a.pressing &&
           exists k :: FirstWaiting(rules[r], targets, a.items, k) &&
                       b.pushed == a.pushed + Kernel.Canceled(rules[r], k, ClearTemporary(a.items), a.saved)
      else b == a
    case TimerFired =>
      if a.timerArmed
      then a.timerTarget < |rules| && |a.items| == |a.saved| && !b.timerArmed && b.pressing == a.pressing &&
           b.pushed == a.pushed +
             DownUps(rules[a.timerTarget].delayedKeys, Counters(Enter(a.items, Excess(a.items, a.saved))))
      else b == a
    case TemporariesCleared => b == a.(items := ClearTemporary(a.items))
    case VirtualKeyHandled => b == a.(items := b.items) && SameCounters(a.items, b.items)
    case AllKeysReleased => b == a.(items := ResetAll(a.items), pressing := [], pushed := [])
  }

  /** Presses minus releases of a physical modifier since all keys were last released. */
  function Tally(script: seq<Step>, f: ModifierFlag): int {
    if script == [] then 0
    else
      var last := script[|script| - 1];
      if last.AllKeysReleased? then 0 else Tally(script[..|script| - 1], f) + last.Contribution(f)
  }

  /** For every list of rules and every run: each count is the physical tally plus the worth of the outstanding
      presses, and the keys held down are exactly those of the outstanding presses.  Once all presses are
      released the rules have left no trace in either. */
  method Run(rules: seq<Rule>, flags: seq<ModifierFlag>, script: seq<Step>)
    returns (kernel: Kernel, ghost history: seq<Snapshot>)
    requires ZERO !in flags
    requires forall k :: 0 <= k < |script| ==> script[k].WithinRules(|rules|)
    ensures fresh(kernel) && kernel.rules == rules && kernel.flags == flags && kernel.Ok()
    // The state goes through the script step by step.
    ensures |history| == |script| + 1 && history[|script|] == kernel.Now() && FollowsScript(rules, script, history)
    ensures forall i :: 0 <= i < |flags| && flags[i] != CAPSLOCK ==>
      kernel.items[i].flag == flags[i] &&
      kernel.items[i].count == Tally(script, flags[i]) + Total(rules, kernel.pressing, Count(flags[i]))
    ensures forall kind, code ::
      Net(kernel.pushed, kind, code) == Total(rules, kernel.pressing, HeldDown(kind, code))
    ensures kernel.pressing == [] ==>
      (forall i :: 0 <= i < |flags| && flags[i] != CAPSLOCK ==> kernel.items[i].count == Tally(script, flags[i])) &&
      forall kind, code :: Net(kernel.pushed, kind, code) == 0
  {
    kernel := new Kernel(rules, flags);
    history := Play(kernel, script);
    forall i | 0 <= i < |flags| && flags[i] != CAPSLOCK
      ensures kernel.items[i].count == Tally(script, flags[i]) + Total(rules, kernel.pressing, Count(flags[i]))
    {
      assert kernel.Residues()[i] == kernel.physical[i];
    }
  }

  /** The steps so far have each done what they ask for. */
  ghost predicate FollowsScript(rules: seq<Rule>, script: seq<Step>, history: seq<Snapshot>) {
    0 < |history| <= |script| + 1 &&
    history[0].pressing == [] && history[0].pushed == [] && !history[0].timerArmed &&
    forall k :: 0 <= k < |history| - 1 ==> Follows(rules, script[k], history[k], history[k + 1])
  }

  lemma FollowsMore(rules: seq<Rule>, script: seq<Step>, history: seq<Snapshot>, now: Snapshot)
    requires FollowsScript(rules, script, history) && |history| <= |script|
    requires Follows(rules, script[|history| - 1], history[|history| - 1], now)
    ensures FollowsScript(rules, script, history + [now])
  {
  }

  method PlayNext(kernel: Kernel, script: seq<Step>, k: nat, ghost history: seq<Snapshot>)
    returns (ghost more: seq<Snapshot>)
    requires kernel.Ok() && kernel.Law() && k < |script| && script[k].WithinRules(|kernel.rules|)
    requires |history| == k + 1 && history[k] == kernel.Now() && FollowsScript(kernel.rules, script, history)
    modifies kernel
    ensures kernel.Ok() && kernel.Law()
    ensures |more| == k + 2 && more[k + 1] == kernel.Now() && FollowsScript(kernel.rules, script, more)
    ensures forall i :: 0 <= i < |kernel.flags| && kernel.flags[i] != CAPSLOCK ==>
      kernel.physical[i] == if script[k].AllKeysReleased? then 0
                            else old(kernel.physical[i]) + script[k].Contribution(kernel.flags[i])
  {
    kernel.Do(script[k]);
    FollowsMore(kernel.rules, script, history, kernel.Now());
    more := history + [kernel.Now()];
  }

  method Play(kernel: Kernel, script: seq<Step>) returns (ghost history: seq<Snapshot>)
    requires kernel.Ok() && kernel.Law() && kernel.pressing == [] && kernel.pushed == [] && !kernel.timerArmed
    requires forall i :: 0 <= i < |kernel.flags| ==> kernel.physical[i] == 0
    requires forall k :: 0 <= k < |script| ==> script[k].WithinRules(|kernel.rules|)
    modifies kernel
    ensures kernel.Ok() && kernel.Law()
    ensures |history| == |script| + 1 && history[|script|] == kernel.Now() && FollowsScript(kernel.rules, script, history)
    ensures forall i :: 0 <= i < |kernel.flags| && kernel.flags[i] != CAPSLOCK ==>
      kernel.physical[i] == Tally(script, kernel.flags[i])
  {
    history := [kernel.Now()];
    for k := 0 to |script|
      invariant kernel.Ok() && kernel.Law()
      invariant |history| == k + 1 && history[k] == kernel.Now() && FollowsScript(kernel.rules, script, history)
      invariant forall i :: 0 <= i < |kernel.flags| && kernel.flags[i] != CAPSLOCK ==>
        kernel.physical[i] == Tally(script[..k], kernel.flags[i])
    {
      history := PlayNext(kernel, script, k, history);
      assert script[..k + 1][..k] == script[..k];
    }
    assert script[..|script|] == script;
  }
}
