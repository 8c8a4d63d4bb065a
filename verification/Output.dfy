/** The output side (src/core/kext/Classes/EventOutputQueue.cpp, Classes/PressDownKeys.cpp): modifier events are
    derived from the flags each key event wants, keys that went down are remembered so that a reset can release them,
    and a timer sends the pushed events one by one.

    Over every run the pushed modifier events of each modifier alternate, starting with a press, and replaying them
    gives the last flags; the remembered keys are exactly those whose last non-repeat event is a press.
 */
module Output {
  import opened Wrappers
  import opened Sequences
  import opened Modifiers
  import opened FlagBits

  type KeyboardType = nat

  datatype Physical = PhysicalNone | PhysicalDown | PhysicalUp

  datatype EventType = DownEvent | UpEvent | ModifyEvent

  datatype Pair = Pair(key: nat, keyboardType: KeyboardType)

  /** A pushed event.  `Pointer` carries the buttons that are down; `Other` are consumer keys, scrolling and waiting. */
  datatype Event =
    | Modify(flag: ModifierFlag, flags: Word, keyboardType: KeyboardType)
    | KeyEvent(pair: Pair, down: bool, repeat: bool, flags: Word)
    | Pointer(buttons: set<nat>, moved: bool)
    | Other

  // ---------------------------------------------------------------------------------------------
  // Replaying the modifier events

  /** The modifiers that are on after the first `n` events: an event is a press if its flags hold its modifier. */
  ghost function On(stream: seq<Event>, n: nat): set<ModifierFlag>
    requires n <= |stream|
  {
    if n == 0 then {}
    else
      var last := stream[n - 1];
      if !last.Modify? then On(stream, n - 1)
      else if IsOn(last.flags, last.flag) then On(stream, n - 1) + {last.flag}
      else On(stream, n - 1) - {last.flag}
  }

  /** The events of each modifier are press, release, press, release and so on. */
  ghost predicate Alternating(stream: seq<Event>, n: nat)
    requires n <= |stream|
  {
    n == 0 ||
    (Alternating(stream, n - 1) &&
     (stream[n - 1].Modify? ==>
       Real(stream[n - 1].flag) && stream[n - 1].flag != NUMPAD &&
       (IsOn(stream[n - 1].flags, stream[n - 1].flag) <==> stream[n - 1].flag !in On(stream, n - 1))))
  }

  ghost predicate AllReal(s: set<ModifierFlag>) { forall m :: m in s ==> Real(m) }

  /** The stream and the modifiers of the last flags agree; NUMPAD has no events. */
  ghost predicate Tracked(stream: seq<Event>, s: set<ModifierFlag>) {
    Alternating(stream, |stream|) && On(stream, |stream|) == s - {NUMPAD} && AllReal(s)
  }

  lemma {:induction false} OnPrefix(stream: seq<Event>, e: Event, n: nat)
    requires n <= |stream|
    ensures On(stream + [e], n) == On(stream, n) && Alternating(stream + [e], n) == Alternating(stream, n)
  {
    if n > 0 {
      OnPrefix(stream, e, n - 1);
    }
  }

  lemma TrackOther(stream: seq<Event>, s: set<ModifierFlag>, e: Event)
    requires Tracked(stream, s) && !e.Modify?
    ensures Tracked(stream + [e], s)
  {
    OnPrefix(stream, e, |stream|);
  }

  lemma TrackUp(stream: seq<Event>, s: set<ModifierFlag>, m: ModifierFlag, kt: KeyboardType)
    requires Tracked(stream, s) && m in s && m != NUMPAD
    ensures Tracked(stream + [Modify(m, Bits(s - {m}), kt)], s - {m})
  {
    BitsOn(s - {m}, m);
    OnPrefix(stream, Modify(m, Bits(s - {m}), kt), |stream|);
  }

  lemma TrackDown(stream: seq<Event>, s: set<ModifierFlag>, m: ModifierFlag, kt: KeyboardType)
    requires Tracked(stream, s) && Real(m) && m !in s && m != NUMPAD
    ensures Tracked(stream + [Modify(m, Bits(s + {m}), kt)], s + {m})
  {
    BitsOn(s + {m}, m);
    OnPrefix(stream, Modify(m, Bits(s + {m}), kt), |stream|);
  }

  // ---------------------------------------------------------------------------------------------
  // One call of FireModifiers::fire

  ghost function First(pairs: seq<ModifierFlag>, n: nat): set<ModifierFlag>
    requires n <= |pairs|
  {
    set i | 0 <= i < n :: pairs[i]
  }

  /** The modifiers that stay on when the first `n` registered ones that are not wanted have been released. */
  ghost function AfterUps(pairs: seq<ModifierFlag>, n: nat, s: set<ModifierFlag>, t: set<ModifierFlag>): set<ModifierFlag>
    requires n <= |pairs|
  {
    s - (First(pairs, n) - t)
  }

  ghost function AfterDowns(pairs: seq<ModifierFlag>, n: nat, s: set<ModifierFlag>, t: set<ModifierFlag>): set<ModifierFlag>
    requires n <= |pairs|
  {
    s + (First(pairs, n) * t)
  }

  ghost function Ups(pairs: seq<ModifierFlag>, n: nat, s: set<ModifierFlag>, t: set<ModifierFlag>, kt: KeyboardType): seq<Event>
    requires n <= |pairs|
  {
    if n == 0 then []
    else
      var m := pairs[n - 1];
      if m in AfterUps(pairs, n - 1, s, t) && m !in t
      then Ups(pairs, n - 1, s, t, kt) + [Modify(m, Bits(AfterUps(pairs, n, s, t)), kt)]
      else Ups(pairs, n - 1, s, t, kt)
  }

  ghost function Downs(pairs: seq<ModifierFlag>, n: nat, s: set<ModifierFlag>, t: set<ModifierFlag>, kt: KeyboardType): seq<Event>
    requires n <= |pairs|
  {
    if n == 0 then []
    else
      var m := pairs[n - 1];
      if m in t && m !in AfterDowns(pairs, n - 1, s, t)
      then Downs(pairs, n - 1, s, t, kt) + [Modify(m, Bits(AfterDowns(pairs, n, s, t)), kt)]
      else Downs(pairs, n - 1, s, t, kt)
  }

  /** The flags the first event starts from: NUMPAD goes silently, before everything else. */
  ghost function Start(s: set<ModifierFlag>, t: set<ModifierFlag>): set<ModifierFlag> {
    if NUMPAD in t then s else s - {NUMPAD}
  }

  /** The modifiers left when the unwanted ones are released. */
  ghost function Middle(pairs: seq<ModifierFlag>, s: set<ModifierFlag>, t: set<ModifierFlag>): set<ModifierFlag> {
    AfterUps(pairs, |pairs|, Start(s, t), t)
  }

  /** The events of one call of FireModifiers::fire; none if the call is silent. */
  ghost function ModifierEvents(pairs: seq<ModifierFlag>, silent: bool, s: set<ModifierFlag>, t: set<ModifierFlag>, kt: KeyboardType): seq<Event> {
    if silent then []
    else Ups(pairs, |pairs|, Start(s, t), t, kt) + Downs(pairs, |pairs|, Middle(pairs, s, t), t, kt)
  }

  ghost predicate AllModify(es: seq<Event>) { forall i :: 0 <= i < |es| ==> es[i].Modify? }

  lemma {:induction false} UpsModify(pairs: seq<ModifierFlag>, n: nat, s: set<ModifierFlag>, t: set<ModifierFlag>, kt: KeyboardType)
    requires n <= |pairs|
    ensures AllModify(Ups(pairs, n, s, t, kt)) && AllModify(Downs(pairs, n, s, t, kt))
  {
    if n > 0 {
      UpsModify(pairs, n - 1, s, t, kt);
    }
  }

  /** Only modifiers move. */
  lemma ModifiersModify(pairs: seq<ModifierFlag>, silent: bool, s: set<ModifierFlag>, t: set<ModifierFlag>, kt: KeyboardType)
    ensures AllModify(ModifierEvents(pairs, silent, s, t, kt))
  {
    UpsModify(pairs, |pairs|, Start(s, t), t, kt);
    UpsModify(pairs, |pairs|, Middle(pairs, s, t), t, kt);
  }

  lemma FirstMore(pairs: seq<ModifierFlag>, n: nat)
    requires n < |pairs|
    ensures First(pairs, n + 1) == First(pairs, n) + {pairs[n]}
  {
  }

  lemma AfterUpsMore(pairs: seq<ModifierFlag>, n: nat, s: set<ModifierFlag>, t: set<ModifierFlag>)
    requires n < |pairs|
    ensures AfterUps(pairs, n + 1, s, t) ==
            if pairs[n] !in t then AfterUps(pairs, n, s, t) - {pairs[n]} else AfterUps(pairs, n, s, t)
  {
    FirstMore(pairs, n);
  }

  lemma AfterDownsMore(pairs: seq<ModifierFlag>, n: nat, s: set<ModifierFlag>, t: set<ModifierFlag>)
    requires n < |pairs|
    ensures AfterDowns(pairs, n + 1, s, t) ==
            if pairs[n] in t then AfterDowns(pairs, n, s, t) + {pairs[n]} else AfterDowns(pairs, n, s, t)
  {
    FirstMore(pairs, n);
  }

  /** In the end exactly the wanted modifiers are on, up to NUMPAD. */
  lemma Arrived(pairs: seq<ModifierFlag>, s: set<ModifierFlag>, t: set<ModifierFlag>)
    requires PairsOk(pairs) && AllReal(s) && AllReal(t)
    ensures AfterDowns(pairs, |pairs|, Middle(pairs, s, t), t) + (t * {NUMPAD}) == t
  {
    forall m | Real(m) && m != NUMPAD ensures m in First(pairs, |pairs|) {
      var i :| 0 <= i < |pairs| && pairs[i] == m;
      assert pairs[i] in First(pairs, |pairs|);
    }
  }

  // What the events of one call look like

  function Count(es: seq<Event>, m: ModifierFlag): nat {
    if es == [] then 0
    else Count(es[..|es| - 1], m) + if es[|es| - 1].Modify? && es[|es| - 1].flag == m then 1 else 0
  }

  lemma {:induction false} CountAppend(a: seq<Event>, b: seq<Event>, m: ModifierFlag)
    ensures Count(a + b, m) == Count(a, m) + Count(b, m)
  {
    if b == [] {
      assert a + b == a;
    } else {
      assert (a + b)[..|a + b| - 1] == a + b[..|b| - 1];
      CountAppend(a, b[..|b| - 1], m);
    }
  }

  lemma CountOne(e: Event, m: ModifierFlag)
    ensures Count([e], m) == if e.Modify? && e.flag == m then 1 else 0
  {
    assert [e][..0] == [];
  }

  ghost function Toggle(s: set<ModifierFlag>, m: ModifierFlag): set<ModifierFlag> {
    if m in s then s - {m} else s + {m}
  }

  /** The modifiers after the events, each changing its own modifier. */
  ghost function Toggled(s: set<ModifierFlag>, es: seq<Event>): set<ModifierFlag> {
    if es == [] then s
    else
      var last := es[|es| - 1];
      if last.Modify? then Toggle(Toggled(s, es[..|es| - 1]), last.flag) else Toggled(s, es[..|es| - 1])
  }

  /** Each event's flags differ from those before it by exactly its own modifier. */
  ghost predicate Chain(s: set<ModifierFlag>, es: seq<Event>) {
    es == [] ||
    (es[|es| - 1].Modify? && es[|es| - 1].flags == Bits(Toggled(s, es)) && Chain(s, es[..|es| - 1]))
  }

  lemma ChainAppend(s: set<ModifierFlag>, es: seq<Event>, m: ModifierFlag, next: set<ModifierFlag>, kt: KeyboardType)
    requires Chain(s, es) && next == Toggle(Toggled(s, es), m)
    ensures Chain(s, es + [Modify(m, Bits(next), kt)])
    ensures Toggled(s, es + [Modify(m, Bits(next), kt)]) == next
  {
    assert (es + [Modify(m, Bits(next), kt)])[..|es|] == es;
  }

  lemma {:induction false} UpsChain(pairs: seq<ModifierFlag>, n: nat, s: set<ModifierFlag>, t: set<ModifierFlag>, kt: KeyboardType)
    requires n <= |pairs|
    ensures Chain(s, Ups(pairs, n, s, t, kt)) && Toggled(s, Ups(pairs, n, s, t, kt)) == AfterUps(pairs, n, s, t)
  {
    if n > 0 {
      UpsChain(pairs, n - 1, s, t, kt);
      AfterUpsMore(pairs, n - 1, s, t);
      var es, m, next := Ups(pairs, n - 1, s, t, kt), pairs[n - 1], AfterUps(pairs, n, s, t);
      if m in AfterUps(pairs, n - 1, s, t) && m !in t {
        ChainAppend(s, es, m, next, kt);
      }
    }
  }

  lemma {:induction false} DownsChain(pairs: seq<ModifierFlag>, n: nat, s: set<ModifierFlag>, t: set<ModifierFlag>, kt: KeyboardType)
    requires n <= |pairs|
    ensures Chain(s, Downs(pairs, n, s, t, kt)) && Toggled(s, Downs(pairs, n, s, t, kt)) == AfterDowns(pairs, n, s, t)
  {
    if n > 0 {
      DownsChain(pairs, n - 1, s, t, kt);
      AfterDownsMore(pairs, n - 1, s, t);
      var es, m, next := Downs(pairs, n - 1, s, t, kt), pairs[n - 1], AfterDowns(pairs, n, s, t);
      if m in t && m !in AfterDowns(pairs, n - 1, s, t) {
        ChainAppend(s, es, m, next, kt);
      }
    }
  }

  /** Is this event a release, or a press, of a modifier? */
  ghost predicate Moves(e: Event, down: bool) {
    e.Modify? && (IsOn(e.flags, e.flag) <==> down)
  }

  lemma {:induction false} UpsMove(pairs: seq<ModifierFlag>, n: nat, s: set<ModifierFlag>, t: set<ModifierFlag>, kt: KeyboardType)
    requires n <= |pairs| && AllReal(s)
    ensures forall e :: e in Ups(pairs, n, s, t, kt) ==> Moves(e, false)
  {
    if n > 0 {
      UpsMove(pairs, n - 1, s, t, kt);
      AfterUpsMore(pairs, n - 1, s, t);
      if pairs[n - 1] in AfterUps(pairs, n - 1, s, t) && pairs[n - 1] !in t {
        BitsOn(AfterUps(pairs, n, s, t), pairs[n - 1]);
      }
    }
  }

  lemma {:induction false} DownsMove(pairs: seq<ModifierFlag>, n: nat, s: set<ModifierFlag>, t: set<ModifierFlag>, kt: KeyboardType)
    requires n <= |pairs| && AllReal(t)
    ensures forall e :: e in Downs(pairs, n, s, t, kt) ==> Moves(e, true)
  {
    if n > 0 {
      DownsMove(pairs, n - 1, s, t, kt);
      AfterDownsMore(pairs, n - 1, s, t);
      if pairs[n - 1] in t && pairs[n - 1] !in AfterDowns(pairs, n - 1, s, t) {
        BitsOn(AfterDowns(pairs, n, s, t), pairs[n - 1]);
      }
    }
  }

  lemma {:induction false} UpsCount(pairs: seq<ModifierFlag>, n: nat, s: set<ModifierFlag>, t: set<ModifierFlag>, kt: KeyboardType,
                                    m: ModifierFlag)
    requires n <= |pairs|
    ensures Count(Ups(pairs, n, s, t, kt), m) == if m in First(pairs, n) && m in s && m !in t then 1 else 0
  {
    if n > 0 {
      UpsCount(pairs, n - 1, s, t, kt, m);
      FirstMore(pairs, n - 1);
      var es, f := Ups(pairs, n - 1, s, t, kt), pairs[n - 1];
      if f in AfterUps(pairs, n - 1, s, t) && f !in t {
        var e := Modify(f, Bits(AfterUps(pairs, n, s, t)), kt);
        CountAppend(es, [e], m);
        CountOne(e, m);
      }
    }
  }

  lemma {:induction false} DownsCount(pairs: seq<ModifierFlag>, n: nat, s: set<ModifierFlag>, t: set<ModifierFlag>, kt: KeyboardType,
                                      m: ModifierFlag)
    requires n <= |pairs|
    ensures Count(Downs(pairs, n, s, t, kt), m) == if m in First(pairs, n) && m !in s && m in t then 1 else 0
  {
    if n > 0 {
      DownsCount(pairs, n - 1, s, t, kt, m);
      FirstMore(pairs, n - 1);
      var es, f := Downs(pairs, n - 1, s, t, kt), pairs[n - 1];
      if f in t && f !in AfterDowns(pairs, n - 1, s, t) {
        var e := Modify(f, Bits(AfterDowns(pairs, n, s, t)), kt);
        CountAppend(es, [e], m);
        CountOne(e, m);
      }
    }
  }

  /** The events of one call: all releases, then all presses; every registered real modifier that differs has exactly
      one event and the others none; and the flags move by one modifier at a time. */
  lemma TransitionShape(pairs: seq<ModifierFlag>, s: set<ModifierFlag>, t: set<ModifierFlag>, kt: KeyboardType)
    requires PairsOk(pairs) && AllReal(s) && AllReal(t)
    ensures var ups := Ups(pairs, |pairs|, Start(s, t), t, kt);
            var downs := Downs(pairs, |pairs|, Middle(pairs, s, t), t, kt);
            Chain(Start(s, t), ups) && Toggled(Start(s, t), ups) == Middle(pairs, s, t) &&
            Chain(Middle(pairs, s, t), downs) && Toggled(Middle(pairs, s, t), downs) + (t * {NUMPAD}) == t &&
            (forall e :: e in ups ==> Moves(e, false)) && (forall e :: e in downs ==> Moves(e, true))
    ensures forall m :: Real(m) && m != NUMPAD ==>
              Count(Ups(pairs, |pairs|, Start(s, t), t, kt) + Downs(pairs, |pairs|, Middle(pairs, s, t), t, kt), m) ==
              if m in s <==> m in t then 0 else 1
  {
    var ups, downs := Ups(pairs, |pairs|, Start(s, t), t, kt), Downs(pairs, |pairs|, Middle(pairs, s, t), t, kt);
    UpsChain(pairs, |pairs|, Start(s, t), t, kt);
    UpsMove(pairs, |pairs|, Start(s, t), t, kt);
    DownsChain(pairs, |pairs|, Middle(pairs, s, t), t, kt);
    DownsMove(pairs, |pairs|, Middle(pairs, s, t), t, kt);
    Arrived(pairs, s, t);
    forall m | Real(m) && m != NUMPAD ensures Count(ups + downs, m) == if m in s <==> m in t then 0 else 1 {
      CountAppend(ups, downs, m);
      UpsCount(pairs, |pairs|, Start(s, t), t, kt, m);
      DownsCount(pairs, |pairs|, Middle(pairs, s, t), t, kt, m);
      var i :| 0 <= i < |pairs| && pairs[i] == m;
      assert pairs[i] in First(pairs, |pairs|);
    }
  }

  // ---------------------------------------------------------------------------------------------
  // Keys that are down

  /** The pairs whose last non-repeat event among the first `n` is a press. */
  ghost function Held(stream: seq<Event>, n: nat): set<Pair>
    requires n <= |stream|
  {
    if n == 0 then {}
    else
      var last := stream[n - 1];
      if !last.KeyEvent? || last.repeat then Held(stream, n - 1)
      else if last.down then Held(stream, n - 1) + {last.pair}
      else Held(stream, n - 1) - {last.pair}
  }

  /** The pairs whose last event, repeats included, is a press: what a listener believes to be down. */
  ghost function Pressed(stream: seq<Event>, n: nat): set<Pair>
    requires n <= |stream|
  {
    if n == 0 then {}
    else
      var last := stream[n - 1];
      if !last.KeyEvent? then Pressed(stream, n - 1)
      else if last.down then Pressed(stream, n - 1) + {last.pair}
      else Pressed(stream, n - 1) - {last.pair}
  }

  lemma {:induction false} KeysPrefix(stream: seq<Event>, e: Event, n: nat)
    requires n <= |stream|
    ensures Held(stream + [e], n) == Held(stream, n) && Pressed(stream + [e], n) == Pressed(stream, n)
  {
    if n > 0 {
      KeysPrefix(stream, e, n - 1);
    }
  }

  lemma KeysAppend(stream: seq<Event>, e: Event)
    ensures Held(stream + [e], |stream| + 1) ==
            if !e.KeyEvent? || e.repeat then Held(stream, |stream|)
            else if e.down then Held(stream, |stream|) + {e.pair} else Held(stream, |stream|) - {e.pair}
    ensures Pressed(stream + [e], |stream| + 1) ==
            if !e.KeyEvent? then Pressed(stream, |stream|)
            else if e.down then Pressed(stream, |stream|) + {e.pair} else Pressed(stream, |stream|) - {e.pair}
  {
    KeysPrefix(stream, e, |stream|);
  }

  /** Repeated presses are sent only for keys that are down. */
  ghost predicate RepeatsHeld(stream: seq<Event>, n: nat)
    requires n <= |stream|
  {
    forall i :: 0 <= i < n && stream[i].KeyEvent? && stream[i].down && stream[i].repeat ==>
      stream[i].pair in Held(stream, i)
  }

  lemma {:induction false} RepeatsHeldPressed(stream: seq<Event>, n: nat)
    requires n <= |stream| && RepeatsHeld(stream, n)
    ensures Pressed(stream, n) <= Held(stream, n)
  {
    if n > 0 {
      RepeatsHeldPressed(stream, n - 1);
    }
  }

  ghost function Listed(list: seq<Pair>): set<Pair> { set p | p in list }

  function WithoutPair(list: seq<Pair>, pair: Pair): (r: seq<Pair>)
    ensures forall p :: p in r <==> p in list && p != pair
  {
    if list == [] then []
    else if list[0] == pair then WithoutPair(list[1..], pair)
    else [list[0]] + WithoutPair(list[1..], pair)
  }

  /** PressDownKeys after an event that is put out: repeats are not remembered. */
  function PressDownAfter(list: seq<Pair>, pair: Pair, eventType: EventType, repeat: bool): seq<Pair> {
    if repeat || eventType.ModifyEvent? then list
    else if eventType.DownEvent? then list + [pair]
    else WithoutPair(list, pair)
  }

  ghost function PressedAfter(pressed: set<Pair>, target: Option<Pair>, eventType: EventType): set<Pair> {
    if target.None? || eventType.ModifyEvent? then pressed
    else if eventType.DownEvent? then pressed + {target.value}
    else pressed - {target.value}
  }

  /** The releases a reset sends. */
  function ClearEvents(list: seq<Pair>): (r: seq<Event>)
    ensures |r| == |list|
    ensures forall i :: 0 <= i < |r| ==> r[i] == KeyEvent(list[i], false, false, {})
  {
    seq(|list|, i requires 0 <= i < |list| => KeyEvent(list[i], false, false, {}))
  }

  /** After the releases of a list, none of its pairs is held or pressed, and everything else is as before. */
  lemma {:induction false} Cleared(stream: seq<Event>, on: set<ModifierFlag>, list: seq<Pair>, k: nat)
    requires k <= |list| && Tracked(stream, on)
    ensures var r := stream + ClearEvents(list)[..k];
            Tracked(r, on) &&
            Held(r, |r|) == Held(stream, |stream|) - Listed(list[..k]) &&
            Pressed(r, |r|) == Pressed(stream, |stream|) - Listed(list[..k])
  {
    var events := ClearEvents(list);
    if k == 0 {
      assert stream + events[..0] == stream;
    } else {
      Cleared(stream, on, list, k - 1);
      var r, e := stream + events[..k - 1], events[k - 1];
      assert stream + events[..k] == r + [e];
      assert list[..k] == list[..k - 1] + [list[k - 1]];
      assert Listed(list[..k]) == Listed(list[..k - 1]) + {list[k - 1]};
      TrackOther(r, on, e);
      KeysAppend(r, e);
    }
  }

  // ---------------------------------------------------------------------------------------------
  // The queue

  /** What every operation keeps. */
  ghost predicate Consistent(pushed: seq<Event>, on: set<ModifierFlag>, list: seq<Pair>) {
    Tracked(pushed, on) && Held(pushed, |pushed|) == Listed(list)
  }

  lemma ConsistentUp(pushed: seq<Event>, s: set<ModifierFlag>, list: seq<Pair>, m: ModifierFlag, kt: KeyboardType)
    requires Consistent(pushed, s, list) && m in s && m != NUMPAD
    ensures Consistent(pushed + [Modify(m, Bits(s - {m}), kt)], s - {m}, list)
  {
    TrackUp(pushed, s, m, kt);
    KeysAppend(pushed, Modify(m, Bits(s - {m}), kt));
  }

  lemma ConsistentDown(pushed: seq<Event>, s: set<ModifierFlag>, list: seq<Pair>, m: ModifierFlag, kt: KeyboardType)
    requires Consistent(pushed, s, list) && Real(m) && m !in s && m != NUMPAD
    ensures Consistent(pushed + [Modify(m, Bits(s + {m}), kt)], s + {m}, list)
  {
    TrackDown(pushed, s, m, kt);
    KeysAppend(pushed, Modify(m, Bits(s + {m}), kt));
  }

  lemma ConsistentKey(pushed: seq<Event>, s: set<ModifierFlag>, list: seq<Pair>, e: Event, list': seq<Pair>)
    requires Consistent(pushed, s, list) && !e.Modify?
    requires Listed(list') == if !e.KeyEvent? || e.repeat then Listed(list)
                              else if e.down then Listed(list) + {e.pair} else Listed(list) - {e.pair}
    ensures Consistent(pushed + [e], s, list')
  {
    TrackOther(pushed, s, e);
    KeysAppend(pushed, e);
  }

  lemma UpsMore(pushed: seq<Event>, pairs: seq<ModifierFlag>, i: nat, s: set<ModifierFlag>, t: set<ModifierFlag>, kt: KeyboardType)
    requires i < |pairs|
    ensures var m, now := pairs[i], AfterUps(pairs, i, s, t);
            if m in now && m !in t
            then AfterUps(pairs, i + 1, s, t) == now - {m} &&
                 pushed + Ups(pairs, i, s, t, kt) + [Modify(m, Bits(now - {m}), kt)] == pushed + Ups(pairs, i + 1, s, t, kt)
            else AfterUps(pairs, i + 1, s, t) == now && Ups(pairs, i, s, t, kt) == Ups(pairs, i + 1, s, t, kt)
  {
    AfterUpsMore(pairs, i, s, t);
  }

  lemma DownsMore(pushed: seq<Event>, pairs: seq<ModifierFlag>, i: nat, s: set<ModifierFlag>, t: set<ModifierFlag>, kt: KeyboardType)
    requires i < |pairs|
    ensures var m, now := pairs[i], AfterDowns(pairs, i, s, t);
            if m in t && m !in now
            then AfterDowns(pairs, i + 1, s, t) == now + {m} &&
                 pushed + Downs(pairs, i, s, t, kt) + [Modify(m, Bits(now + {m}), kt)] == pushed + Downs(pairs, i + 1, s, t, kt)
            else AfterDowns(pairs, i + 1, s, t) == now && Downs(pairs, i, s, t, kt) == Downs(pairs, i + 1, s, t, kt)
  {
    AfterDownsMore(pairs, i, s, t);
  }

  /** The tests of the two loops, on sets. */
  lemma WantedIff(on: set<ModifierFlag>, toFlags: Word, m: ModifierFlag)
    requires m != ZERO && AllReal(on)
    ensures RawBits(m) != {} && IsOn(Bits(on), m) <==> m in on
    ensures RawBits(m) != {} && IsOn(toFlags, m) <==> m in OnSet(toFlags)
    ensures RawBits(m) != {} <==> Real(m)
  {
    if Real(m) {
      BitsOn(on, m);
    }
  }

  // ---------------------------------------------------------------------------------------------
  // makeFlags

  /** The real modifiers whose sum is positive. */
  ghost function SummedOn(items: seq<Item>): set<ModifierFlag> {
    set i | 0 <= i < |items| && Real(items[i].flag) && items[i].Sum(false) > 0 :: items[i].flag
  }

  /** Every count takes part, a lazy one only while lazies are enabled. */
  lemma SummedMeaning(items: seq<Item>, i: nat)
    requires WellFormed(items) && i < |items| && Real(items[i].flag)
    ensures items[i].flag in SummedOn(items) <==>
            var a := items[i];
            a.count + a.temporary + a.lock + a.sticky + (if a.lazyEnabled then a.lazy else 0) > a.negativeLock
  {
    if items[i].flag in SummedOn(items) {
      var j :| 0 <= j < |items| && items[j].flag == items[i].flag && items[j].Sum(false) > 0;
    }
  }

  /** The real modifiers that are locked or sticky on balance. */
  ghost function LockedOn(items: seq<Item>): set<ModifierFlag> {
    set i | 0 <= i < |items| && Real(items[i].flag) && items[i].lock - items[i].negativeLock + items[i].sticky > 0 ::
      items[i].flag
  }

  lemma ResetLeavesLocked(items: seq<Item>)
    ensures SummedOn(ResetAll(items)) == LockedOn(items)
  {
    var r := ResetAll(items);
    forall i | 0 <= i < |items|
      ensures r[i].flag == items[i].flag && r[i].Sum(false) == items[i].lock - items[i].negativeLock + items[i].sticky
    {
      assert r[i] == items[i].Reset();
    }
  }

  /** FlagStatus::makeFlags. */
  method MakeFlags(items: seq<Item>) returns (flags: Word)
    ensures flags == Bits(SummedOn(items))
  {
    flags := {};
    ghost var s: set<ModifierFlag> := {};
    for n := 0 to |items|
      invariant s == set i | 0 <= i < n && Real(items[i].flag) && items[i].Sum(false) > 0 :: items[i].flag
      invariant flags == Bits(s)
    {
      if items[n].Sum(false) > 0 {
        BitsAdd(s, items[n].flag);
        flags := flags + RawBits(items[n].flag);
        if Real(items[n].flag) {
          s := s + {items[n].flag};
        }
      }
    }
  }

  // ---------------------------------------------------------------------------------------------

  /** A button event if the buttons change, and a movement if there is one. */
  function PointerEvents(last: set<nat>, buttons: set<nat>, moved: bool): seq<Event> {
    (if last != buttons then [Pointer(buttons, false)] else []) + if moved then [Pointer(buttons, true)] else []
  }

  function Kept(queue: seq<Event>, cancelled: Event -> bool): seq<Event> {
    if queue == [] then []
    else if cancelled(queue[0]) then Kept(queue[1..], cancelled)
    else [queue[0]] + Kept(queue[1..], cancelled)
  }

  lemma {:induction false} KeptAll(queue: seq<Event>)
    ensures Kept(queue, e => false) == queue
  {
    if queue != [] {
      KeptAll(queue[1..]);
    }
  }

  /** Exactly the cancelled events go, and the others keep their order. */
  lemma {:induction false} KeptOf(a: seq<Event>, e: Event, b: seq<Event>, cancelled: Event -> bool)
    ensures Kept(a + [e] + b, cancelled) == Kept(a, cancelled) + (if cancelled(e) then [] else [e]) + Kept(b, cancelled)
  {
    KeptAppend(a, [e] + b, cancelled);
    assert a + [e] + b == a + ([e] + b) && ([e] + b)[1..] == b;
  }

  lemma {:induction false} KeptAppend(a: seq<Event>, b: seq<Event>, cancelled: Event -> bool)
    ensures Kept(a + b, cancelled) == Kept(a, cancelled) + Kept(b, cancelled)
  {
    if a == [] {
      assert a + b == b;
    } else {
      KeptAppend(a[1..], b, cancelled);
      assert (a + b)[1..] == a[1..] + b;
    }
  }

  class EventOutputQueue {
    /** The registered modifiers in order. */
    const pairs: seq<ModifierFlag>
    var lastFlags: Word
    /** The modifiers whose bits make up `lastFlags`. */
    ghost var on: set<ModifierFlag>
    var ignorePhysicalUp: bool
    var lastButtons: set<nat>
    var pressDown: seq<Pair>
    /** Everything ever pushed, and what is still waiting. */
    var pushed: seq<Event>
    var queue: seq<Event>
    var timerActive: bool

    ghost predicate Valid()
      reads this
    {
      PairsOk(pairs) && lastFlags == Bits(on) && Consistent(pushed, on, pressDown) && (queue != [] ==> timerActive)
    }

    constructor (pairs: seq<ModifierFlag>)
      requires PairsOk(pairs)
      ensures Valid() && this.pairs == pairs && pushed == [] && queue == [] && on == {} && pressDown == []
    {
      this.pairs := pairs;
      lastFlags, on, ignorePhysicalUp, lastButtons, pressDown := {}, {}, false, {}, [];
      pushed, queue, timerActive := [], [], false;
    }

    method Push(e: Event)
      modifies this`pushed, this`queue, this`timerActive
      ensures pushed == old(pushed) + [e] && queue == old(queue) + [e] && timerActive
    {
      pushed := pushed + [e];
      queue := queue + [e];
      timerActive := true;
    }

    method FireUp(m: ModifierFlag, kt: KeyboardType)
      requires Valid() && m in pairs && m in on
      modifies this`lastFlags, this`on, this`pushed, this`queue, this`timerActive
      ensures Valid() && on == old(on) - {m}
      ensures pushed == old(pushed) + [Modify(m, Bits(old(on) - {m}), kt)]
      ensures Pressed(pushed, |pushed|) == Pressed(old(pushed), |old(pushed)|)
    {
      RemoveCorrect(pairs, on, m);
      ConsistentUp(pushed, on, pressDown, m, kt);
      KeysAppend(pushed, Modify(m, Bits(on - {m}), kt));
      lastFlags := Remove(pairs, lastFlags, m);
      on := on - {m};
      Push(Modify(m, lastFlags, kt));
    }

    method FireDown(m: ModifierFlag, kt: KeyboardType)
      requires Valid() && m in pairs && Real(m) && m !in on
      modifies this`lastFlags, this`on, this`pushed, this`queue, this`timerActive
      ensures Valid() && on == old(on) + {m}
      ensures pushed == old(pushed) + [Modify(m, Bits(old(on) + {m}), kt)]
      ensures Pressed(pushed, |pushed|) == Pressed(old(pushed), |old(pushed)|)
    {
      BitsAdd(on, m);
      ConsistentDown(pushed, on, pressDown, m, kt);
      KeysAppend(pushed, Modify(m, Bits(on + {m}), kt));
      lastFlags := lastFlags + RawBits(m);
      on := on + {m};
      Push(Modify(m, lastFlags, kt));
    }

    /** The release loop of FireModifiers::fire. */
    method FireUps(toFlags: Word, kt: KeyboardType)
      requires Valid()
      modifies this`lastFlags, this`on, this`pushed, this`queue, this`timerActive
      ensures Valid() && on == AfterUps(pairs, |pairs|, old(on), OnSet(toFlags))
      ensures pushed == old(pushed) + Ups(pairs, |pairs|, old(on), OnSet(toFlags), kt)
      ensures Pressed(pushed, |pushed|) == Pressed(old(pushed), |old(pushed)|)
    {
      ghost var s, t := on, OnSet(toFlags);
      for i := 0 to |pairs|
        invariant Valid()
        invariant on == AfterUps(pairs, i, s, t)
        invariant pushed == old(pushed) + Ups(pairs, i, s, t, kt)
        invariant Pressed(pushed, |pushed|) == Pressed(old(pushed), |old(pushed)|)
      {
        var m := pairs[i];
        UpsMore(old(pushed), pairs, i, s, t, kt);
        WantedIff(on, toFlags, m);
        if RawBits(m) != {} && IsOn(lastFlags, m) && !IsOn(toFlags, m) {
          FireUp(m, kt);
        }
      }
    }

    /** The press loop of FireModifiers::fire. */
    method FireDowns(toFlags: Word, kt: KeyboardType)
      requires Valid()
      modifies this`lastFlags, this`on, this`pushed, this`queue, this`timerActive
      ensures Valid() && on == AfterDowns(pairs, |pairs|, old(on), OnSet(toFlags))
      ensures pushed == old(pushed) + Downs(pairs, |pairs|, old(on), OnSet(toFlags), kt)
      ensures Pressed(pushed, |pushed|) == Pressed(old(pushed), |old(pushed)|)
    {
      ghost var s, t := on, OnSet(toFlags);
      for i := 0 to |pairs|
        invariant Valid()
        invariant on == AfterDowns(pairs, i, s, t)
        invariant pushed == old(pushed) + Downs(pairs, i, s, t, kt)
        invariant Pressed(pushed, |pushed|) == Pressed(old(pushed), |old(pushed)|)
      {
        var m := pairs[i];
        DownsMore(old(pushed), pairs, i, s, t, kt);
        WantedIff(on, toFlags, m);
        if RawBits(m) != {} && IsOn(toFlags, m) && !IsOn(lastFlags, m) {
          FireDown(m, kt);
        }
      }
    }

    /** FireModifiers::fire: unless nothing changes or the call is suppressed, exactly the wanted modifiers are on
        afterwards, and the events pushed are the releases and then the presses of the modifiers that differ. */
    method FireModifiers(physical: Physical, toFlags: Word, kt: KeyboardType)
      requires Valid()
      modifies this`lastFlags, this`on, this`ignorePhysicalUp, this`pushed, this`queue, this`timerActive
      ensures Valid()
      ensures var silent := old(lastFlags) == toFlags || (physical.PhysicalUp? && old(ignorePhysicalUp));
              pushed == old(pushed) + ModifierEvents(pairs, silent, old(on), OnSet(toFlags), kt) &&
              ignorePhysicalUp == (old(ignorePhysicalUp) && (silent || !physical.PhysicalDown?))
      ensures on == if old(lastFlags) != toFlags && physical.PhysicalUp? && old(ignorePhysicalUp) then old(on) else OnSet(toFlags)
      ensures Pressed(pushed, |pushed|) == Pressed(old(pushed), |old(pushed)|)
    {
      OnSetBits(on);
      if lastFlags == toFlags {
        return;
      }
      if physical.PhysicalDown? {
        ignorePhysicalUp := false;
      } else if physical.PhysicalUp? && ignorePhysicalUp {
        return;
      }
      ChangeModifiers(toFlags, kt);
    }

    /** From the last flags to the wanted ones. */
    method ChangeModifiers(toFlags: Word, kt: KeyboardType)
      requires Valid()
      modifies this`lastFlags, this`on, this`pushed, this`queue, this`timerActive
      ensures Valid() && on == OnSet(toFlags)
      ensures pushed == old(pushed) + ModifierEvents(pairs, false, old(on), OnSet(toFlags), kt)
      ensures Pressed(pushed, |pushed|) == Pressed(old(pushed), |old(pushed)|)
    {
      ghost var t := OnSet(toFlags);
      Arrived(pairs, on, t);
      if !IsOn(toFlags, NUMPAD) {
        RemoveNumpad();
      }
      FireUps(toFlags, kt);
      FireDowns(toFlags, kt);
      if IsOn(toFlags, NUMPAD) {
        BitsAdd(on, NUMPAD);
        lastFlags := lastFlags + RawBits(NUMPAD);
        on := on + {NUMPAD};
      }
      SeqAssoc(old(pushed), Ups(pairs, |pairs|, Start(old(on), t), t, kt), Downs(pairs, |pairs|, Middle(pairs, old(on), t), t, kt));
    }

    method RemoveNumpad()
      requires Valid()
      modifies this`lastFlags, this`on
      ensures Valid() && on == old(on) - {NUMPAD}
    {
      RemoveCorrect(pairs, on, NUMPAD);
      lastFlags := Remove(pairs, lastFlags, NUMPAD);
      on := on - {NUMPAD};
    }

    // -------------------------------------------------------------------------------------------
    // PressDownKeys

    method RemovePressDown(pair: Pair)
      modifies this`pressDown
      ensures pressDown == WithoutPair(old(pressDown), pair)
    {
      var kept, rest := [], pressDown;
      while rest != []
        invariant WithoutPair(old(pressDown), pair) == kept + WithoutPair(rest, pair)
        decreases |rest|
      {
        if rest[0] != pair {
          kept := kept + [rest[0]];
        }
        rest := rest[1..];
      }
      pressDown := kept;
    }

    /** Every remembered key is released once for each time it is in the list. */
    method ClearPressDown()
      requires Valid()
      modifies this`pressDown, this`pushed, this`queue, this`timerActive
      ensures Valid() && pressDown == [] && pushed == old(pushed) + ClearEvents(old(pressDown))
      ensures Pressed(pushed, |pushed|) == Pressed(old(pushed), |old(pushed)|) - Listed(old(pressDown))
    {
      ghost var list, k := pressDown, 0;
      while pressDown != []
        invariant k <= |list| && pressDown == list[k..]
        invariant pushed == old(pushed) + ClearEvents(list)[..k]
        invariant queue != [] ==> timerActive
        decreases |pressDown|
      {
        Push(KeyEvent(pressDown[0], false, false, {}));
        pressDown := pressDown[1..];
        k := k + 1;
      }
      assert ClearEvents(list)[..k] == ClearEvents(list);
      Cleared(old(pushed), on, list, |list|);
    }

    // -------------------------------------------------------------------------------------------
    // The other outputs

    /** FireKey::fire.  `target` is the key after reverse normalization, None for keys that are not put out at all:
        handled virtual keys, VK_NONE, VK_PSEUDO_KEY and virtual modifiers. */
    method FireKey(target: Option<Pair>, eventType: EventType, isKeyDown: bool, repeat: bool, flags: Word, physical: Physical)
      requires Valid()
      modifies this`lastFlags, this`on, this`ignorePhysicalUp, this`pressDown, this`pushed, this`queue, this`timerActive
      ensures Valid()
      ensures target.None? ==>
        pushed == old(pushed) && on == old(on) && pressDown == old(pressDown) && ignorePhysicalUp == old(ignorePhysicalUp)
      ensures target.Some? && eventType.UpEvent? ==>
        pushed == old(pushed) + [KeyEvent(target.value, false, repeat, old(lastFlags))] && on == old(on) &&
        ignorePhysicalUp == old(ignorePhysicalUp)
      ensures target.Some? && !eventType.UpEvent? ==>
        var ignore := old(ignorePhysicalUp) && !isKeyDown;
        var silent := old(lastFlags) == flags || (physical.PhysicalUp? && ignore);
        pushed == old(pushed) + ModifierEvents(pairs, silent, old(on), OnSet(flags), target.value.keyboardType) +
                  (if eventType.DownEvent? then [KeyEvent(target.value, true, repeat, flags)] else []) &&
        on == (if old(lastFlags) != flags && silent then old(on) else OnSet(flags))
      ensures target.Some? ==> pressDown == PressDownAfter(old(pressDown), target.value, eventType, repeat)
      ensures Pressed(pushed, |pushed|) == PressedAfter(Pressed(old(pushed), |old(pushed)|), target, eventType)
    {
      if target.None? {
        return;
      }
      var newFlags := flags;
      if eventType.UpEvent? {
        newFlags := lastFlags;
      } else {
        if isKeyDown {
          ignorePhysicalUp := false;
        }
        FireModifiers(physical, newFlags, target.value.keyboardType);
      }
      if !eventType.ModifyEvent? {
        PushKey(target.value, eventType.DownEvent?, repeat, newFlags);
      }
    }

    method PushKey(pair: Pair, down: bool, repeat: bool, flags: Word)
      requires Valid()
      modifies this`pressDown, this`pushed, this`queue, this`timerActive
      ensures Valid() && pushed == old(pushed) + [KeyEvent(pair, down, repeat, flags)]
      ensures pressDown == PressDownAfter(old(pressDown), pair, if down then DownEvent else UpEvent, repeat)
      ensures Pressed(pushed, |pushed|) ==
              PressedAfter(Pressed(old(pushed), |old(pushed)|), Some(pair), if down then DownEvent else UpEvent)
    {
      KeysAppend(pushed, KeyEvent(pair, down, repeat, flags));
      ghost var list := pressDown;
      Push(KeyEvent(pair, down, repeat, flags));
      if !repeat {
        if down {
          pressDown := pressDown + [pair];
        } else {
          RemovePressDown(pair);
        }
      }
      ConsistentKey(old(pushed), on, list, KeyEvent(pair, down, repeat, flags), pressDown);
    }

    method PushOther(e: Event)
      requires Valid() && (e.Other? || e.Pointer?)
      modifies this`pushed, this`queue, this`timerActive
      ensures Valid() && pushed == old(pushed) + [e]
      ensures Pressed(pushed, |pushed|) == Pressed(old(pushed), |old(pushed)|)
    {
      ConsistentKey(pushed, on, pressDown, e, pressDown);
      KeysAppend(pushed, e);
      Push(e);
    }

    /** FireConsumer::fire, FireScrollWheel::fire and FireWait::fire: modifiers first, then the event itself. */
    method FireOther(allowUp: bool, modifiers: Option<Word>, physical: Physical, kt: KeyboardType)
      requires Valid()
      modifies this`lastFlags, this`on, this`ignorePhysicalUp, this`pushed, this`queue, this`timerActive
      ensures Valid() && pressDown == old(pressDown)
      ensures modifiers.None? ==>
        pushed == old(pushed) + [Other] && on == old(on) && ignorePhysicalUp == (old(ignorePhysicalUp) && !allowUp)
      ensures modifiers.Some? ==>
        var ignore := old(ignorePhysicalUp) && !allowUp;
        var silent := old(lastFlags) == modifiers.value || (physical.PhysicalUp? && ignore);
        pushed == old(pushed) + ModifierEvents(pairs, silent, old(on), OnSet(modifiers.value), kt) + [Other] &&
        on == (if old(lastFlags) != modifiers.value && silent then old(on) else OnSet(modifiers.value))
    {
      if allowUp {
        ignorePhysicalUp := false;
      }
      if modifiers.Some? {
        FireModifiers(physical, modifiers.value, kt);
      }
      PushOther(Other);
    }

    /** FireRelativePointer::fire: modifiers change before a button goes down and after one goes up. */
    method FirePointer(flags: Word, buttons: set<nat>, moved: bool, physical: Physical, kt: KeyboardType)
      requires Valid()
      modifies this`lastFlags, this`on, this`ignorePhysicalUp, this`lastButtons, this`pushed, this`queue, this`timerActive
      ensures Valid() && lastButtons == buttons && on == OnSet(flags) && !ignorePhysicalUp
      ensures var changes := ModifierEvents(pairs, old(lastFlags) == flags, old(on), OnSet(flags), kt);
              var pointing := PointerEvents(old(lastButtons), buttons, moved);
              pushed == if old(lastButtons) - buttons != {} then old(pushed) + pointing + changes
                        else old(pushed) + changes + pointing
      ensures Pressed(pushed, |pushed|) == Pressed(old(pushed), |old(pushed)|)
    {
      var released := lastButtons - buttons != {};
      ignorePhysicalUp := false;
      if !released {
        FireModifiers(physical, flags, kt);
      }
      PushPointer(buttons, moved);
      if released {
        FireModifiers(physical, flags, kt);
      }
    }

    method PushPointer(buttons: set<nat>, moved: bool)
      requires Valid()
      modifies this`lastButtons, this`pushed, this`queue, this`timerActive
      ensures Valid() && lastButtons == buttons
      ensures pushed == old(pushed) + PointerEvents(old(lastButtons), buttons, moved)
      ensures pushed == old(pushed) + (if old(lastButtons) != buttons then [Pointer(buttons, false)] else []) +
                        (if moved then [Pointer(buttons, true)] else [])
      ensures Pressed(pushed, |pushed|) == Pressed(old(pushed), |old(pushed)|)
    {
      if lastButtons != buttons {
        lastButtons := buttons;
        PushOther(Pointer(buttons, false));
      }
      if moved {
        PushOther(Pointer(buttons, true));
      }
    }

    // -------------------------------------------------------------------------------------------
    // Reset and timer

    /** EventInputQueue::resetInternalStateIfNeeded once all keys are up: afterwards the modifiers on are those with
        a lock or sticky surplus, and no pair is pressed if and only if every pressed pair was remembered. */
    method ResetInternalState(fs: FlagStatus, kt: KeyboardType)
      requires Valid() && fs.Valid()
      modifies this, fs
      ensures Valid() && pressDown == []
      ensures fs.Valid() && fs.items == ResetAll(old(fs.items))
      ensures on == LockedOn(old(fs.items))
      // First the modifiers, then the buttons, then every remembered key.
      ensures pushed ==
        old(pushed) +
        ModifierEvents(pairs, old(lastFlags) == Bits(LockedOn(old(fs.items))), old(on), LockedOn(old(fs.items)), kt) +
        PointerEvents(old(lastButtons), {}, false) + ClearEvents(old(pressDown))
      ensures Pressed(pushed, |pushed|) == {} <==> Pressed(old(pushed), |old(pushed)|) <= Listed(old(pressDown))
    {
      fs.Reset();
      var flags := MakeFlags(fs.items);
      ResetLeavesLocked(old(fs.items));
      OnSetBits(SummedOn(fs.items));
      ReleaseAll(flags, kt);
    }

    /** The events of a reset: first the modifiers, then the buttons, then every remembered key. */
    method ReleaseAll(flags: Word, kt: KeyboardType)
      requires Valid() && flags == Bits(OnSet(flags))
      modifies this
      ensures Valid() && pressDown == [] && on == OnSet(flags)
      ensures pushed == old(pushed) + ModifierEvents(pairs, old(lastFlags) == flags, old(on), OnSet(flags), kt) +
                        PointerEvents(old(lastButtons), {}, false) + ClearEvents(old(pressDown))
      ensures Pressed(pushed, |pushed|) == Pressed(old(pushed), |old(pushed)|) - Listed(old(pressDown))
    {
      ignorePhysicalUp := false;
      FireModifiers(PhysicalUp, flags, kt);
      ghost var changed, buttons := pushed, PointerEvents(lastButtons, {}, false);
      FirePointer(flags, {}, false, PhysicalUp, kt);
      NothingChanges(changed, buttons);
      ClearPressDown();
    }

    static lemma NothingChanges(pushed: seq<Event>, pointing: seq<Event>)
      ensures pushed + [] + pointing == pushed + pointing == pushed + pointing + []
    {
    }

    /** Delete the cancelled items. */
    method EraseCancelled(cancelled: Event -> bool)
      modifies this`queue
      ensures queue == Kept(old(queue), cancelled)
    {
      var kept, rest := [], queue;
      while rest != []
        invariant Kept(old(queue), cancelled) == kept + Kept(rest, cancelled)
        decreases |rest|
      {
        if !cancelled(rest[0]) {
          kept := kept + [rest[0]];
        }
        rest := rest[1..];
      }
      queue := kept;
    }

    /** The timer: one event that was not cancelled leaves the queue, in order, and the timer is armed again as long
        as events wait. */
    method FireTimerCallback(cancelled: Event -> bool) returns (sent: Option<Event>)
      requires Valid() && timerActive
      modifies this`queue, this`timerActive
      ensures Valid() && pushed == old(pushed)
      ensures var kept := Kept(old(queue), cancelled);
              if kept == [] then sent.None? && queue == [] && !timerActive
              else sent == Some(kept[0]) && queue == kept[1..] && (timerActive <==> queue != [])
    {
      timerActive := false;
      EraseCancelled(cancelled);
      if queue == [] {
        return None;
      }
      sent := Some(queue[0]);
      queue := queue[1..];
      if queue != [] {
        timerActive := true;
      }
    }

    /** With no further pushes and no cancellation the queue drains, in the order of the pushes. */
    method Drain() returns (sent: seq<Event>)
      requires Valid()
      modifies this`queue, this`timerActive
      ensures Valid() && queue == [] && sent == old(queue)
    {
      sent := [];
      while queue != []
        invariant Valid() && sent + queue == old(queue)
        decreases |queue|
      {
        KeptAll(queue);
        var e := FireTimerCallback(e => false);
        sent := sent + [e.value];
      }
    }
  }

  // ---------------------------------------------------------------------------------------------
  // Every run

  datatype Step =
    | Modifiers(physical: Physical, flags: Word, kt: KeyboardType)
    | Key(target: Option<Pair>, eventType: EventType, isKeyDown: bool, repeat: bool, flags: Word, physical: Physical)
    | OtherOutput(allowUp: bool, modifiers: Option<Word>, physical: Physical, kt: KeyboardType)
    | PointerOutput(flags: Word, buttons: set<nat>, moved: bool, physical: Physical, kt: KeyboardType)
    | IgnorePhysicalUp(ignore: bool)
    | ResetState(items: seq<Item>, kt: KeyboardType)
    | Timer(cancelled: Event -> bool)

  ghost predicate ScriptOk(script: seq<Step>) {
    forall i :: 0 <= i < |script| && script[i].ResetState? ==> WellFormed(script[i].items)
  }

  /** What each step pushes: the event asked for, with nothing but modifier events around it. */
  ghost predicate Sent(step: Step, before: seq<Event>, after: seq<Event>) {
    |before| <= |after| && after[..|before|] == before &&
    var more := after[|before|..];
    match step
    case Modifiers(_, _, _) => AllModify(more)
    case Key(target, eventType, _, repeat, flags, _) =>
      if target.None? then more == []
      else if eventType.UpEvent?
      then |more| == 1 && more[0].KeyEvent? && more[0].pair == target.value && !more[0].down && more[0].repeat == repeat
      else if eventType.DownEvent?
      then more != [] && more[|more| - 1] == KeyEvent(target.value, true, repeat, flags) && AllModify(more[..|more| - 1])
      else AllModify(more)
    case OtherOutput(_, _, _, _) => more != [] && more[|more| - 1].Other? && AllModify(more[..|more| - 1])
    case PointerOutput(_, buttons, moved, _, _) =>
      (moved ==> Pointer(buttons, true) in more) &&
      forall i :: 0 <= i < |more| ==> more[i].Modify? || (more[i].Pointer? && more[i].buttons == buttons)
    case ResetState(_, _) =>
      forall i :: 0 <= i < |more| ==> more[i].Modify? || (more[i].Pointer? && more[i].buttons == {}) ||
                                      (more[i].KeyEvent? && !more[i].down && !more[i].repeat)
    case _ => more == []
  }

  lemma SentModifiers(step: Step, before: seq<Event>, changes: seq<Event>, after: seq<Event>)
    requires AllModify(changes) && after == before + changes
    requires step.Modifiers? || (step.Key? && step.target.Some? && step.eventType.ModifyEvent?)
    ensures Sent(step, before, after)
  {
    assert after[|before|..] == changes;
  }

  lemma SentNothing(step: Step, pushed: seq<Event>)
    requires step.IgnorePhysicalUp? || step.Timer? || (step.Key? && step.target.None?)
    ensures Sent(step, pushed, pushed)
  {
  }

  lemma SentUp(step: Step, before: seq<Event>, flags: Word, after: seq<Event>)
    requires step.Key? && step.target.Some? && step.eventType.UpEvent?
    requires after == before + [KeyEvent(step.target.value, false, step.repeat, flags)]
    ensures Sent(step, before, after)
  {
    assert after[|before|..] == [KeyEvent(step.target.value, false, step.repeat, flags)];
  }

  lemma SentOne(step: Step, before: seq<Event>, changes: seq<Event>, e: Event, after: seq<Event>)
    requires AllModify(changes) && after == before + changes + [e]
    requires (step.OtherOutput? && e == Other) ||
             (step.Key? && step.eventType.DownEvent? && step.target.Some? &&
              e == KeyEvent(step.target.value, true, step.repeat, step.flags))
    ensures Sent(step, before, after)
  {
    var more := changes + [e];
    assert after == before + more && after[|before|..] == more && more[..|more| - 1] == changes;
  }

  lemma SentPointer(step: Step, before: seq<Event>, changes: seq<Event>, last: set<nat>, after: seq<Event>)
    requires step.PointerOutput? && AllModify(changes)
    requires var pointing := PointerEvents(last, step.buttons, step.moved);
             after == before + changes + pointing || after == before + pointing + changes
    ensures Sent(step, before, after)
  {
    var pointing := PointerEvents(last, step.buttons, step.moved);
    var more := if after == before + changes + pointing then changes + pointing else pointing + changes;
    assert after == before + more && after[|before|..] == more;
    if step.moved {
      assert pointing[|pointing| - 1] == Pointer(step.buttons, true);
      assert Pointer(step.buttons, true) in more;
    }
  }

  lemma SentReset(step: Step, before: seq<Event>, changes: seq<Event>, last: set<nat>, list: seq<Pair>, after: seq<Event>)
    requires step.ResetState? && AllModify(changes)
    requires after == before + changes + PointerEvents(last, {}, false) + ClearEvents(list)
    ensures Sent(step, before, after)
  {
    var more := changes + PointerEvents(last, {}, false) + ClearEvents(list);
    assert after == before + more && after[|before|..] == more;
  }

  /** One step of a run. */
  method Do(q: EventOutputQueue, step: Step)
    requires q.Valid() && (step.ResetState? ==> WellFormed(step.items))
    modifies q
    ensures q.Valid() && Sent(step, old(q.pushed), q.pushed)
  {
    match step
    case Modifiers(_, _, _) => DoModifiers(q, step);
    case Key(_, _, _, _, _, _) => DoKey(q, step);
    case OtherOutput(_, _, _, _) => DoOther(q, step);
    case PointerOutput(_, _, _, _, _) => DoPointer(q, step);
    case ResetState(_, _) => DoReset(q, step);
    case IgnorePhysicalUp(ignore) =>
      q.ignorePhysicalUp := ignore;
      SentNothing(step, q.pushed);
    case Timer(cancelled) =>
      if q.timerActive {
        var sent := q.FireTimerCallback(cancelled);
      }
      SentNothing(step, q.pushed);
  }

  method DoModifiers(q: EventOutputQueue, step: Step)
    requires q.Valid() && step.Modifiers?
    modifies q
    ensures q.Valid() && Sent(step, old(q.pushed), q.pushed)
  {
    ghost var silent := q.lastFlags == step.flags || (step.physical.PhysicalUp? && q.ignorePhysicalUp);
    ghost var changes := ModifierEvents(q.pairs, silent, q.on, OnSet(step.flags), step.kt);
    ModifiersModify(q.pairs, silent, q.on, OnSet(step.flags), step.kt);
    q.FireModifiers(step.physical, step.flags, step.kt);
    SentModifiers(step, old(q.pushed), changes, q.pushed);
  }

  method DoKey(q: EventOutputQueue, step: Step)
    requires q.Valid() && step.Key?
    modifies q
    ensures q.Valid() && Sent(step, old(q.pushed), q.pushed)
  {
    ghost var kt := if step.target.Some? then step.target.value.keyboardType else 0;
    ghost var ignore := q.ignorePhysicalUp && !step.isKeyDown;
    ghost var silent := q.lastFlags == step.flags || (step.physical.PhysicalUp? && ignore);
    ghost var changes := ModifierEvents(q.pairs, silent, q.on, OnSet(step.flags), kt);
    ModifiersModify(q.pairs, silent, q.on, OnSet(step.flags), kt);
    q.FireKey(step.target, step.eventType, step.isKeyDown, step.repeat, step.flags, step.physical);
    if step.target.None? {
      SentNothing(step, q.pushed);
    } else if step.eventType.UpEvent? {
      SentUp(step, old(q.pushed), old(q.lastFlags), q.pushed);
    } else if step.eventType.DownEvent? {
      SentOne(step, old(q.pushed), changes, KeyEvent(step.target.value, true, step.repeat, step.flags), q.pushed);
    } else {
      assert old(q.pushed) + changes + [] == old(q.pushed) + changes;
      SentModifiers(step, old(q.pushed), changes, q.pushed);
    }
  }

  method DoOther(q: EventOutputQueue, step: Step)
    requires q.Valid() && step.OtherOutput?
    modifies q
    ensures q.Valid() && Sent(step, old(q.pushed), q.pushed)
  {
    ghost var changes: seq<Event> := [];
    if step.modifiers.Some? {
      ghost var flags := step.modifiers.value;
      ghost var silent := q.lastFlags == flags || (step.physical.PhysicalUp? && q.ignorePhysicalUp && !step.allowUp);
      changes := ModifierEvents(q.pairs, silent, q.on, OnSet(flags), step.kt);
      ModifiersModify(q.pairs, silent, q.on, OnSet(flags), step.kt);
    }
    q.FireOther(step.allowUp, step.modifiers, step.physical, step.kt);
    assert old(q.pushed) + [] == old(q.pushed);
    SentOne(step, old(q.pushed), changes, Other, q.pushed);
  }

  method DoPointer(q: EventOutputQueue, step: Step)
    requires q.Valid() && step.PointerOutput?
    modifies q
    ensures q.Valid() && Sent(step, old(q.pushed), q.pushed)
  {
    ghost var changes := ModifierEvents(q.pairs, q.lastFlags == step.flags, q.on, OnSet(step.flags), step.kt);
    ModifiersModify(q.pairs, q.lastFlags == step.flags, q.on, OnSet(step.flags), step.kt);
    q.FirePointer(step.flags, step.buttons, step.moved, step.physical, step.kt);
    SentPointer(step, old(q.pushed), changes, old(q.lastButtons), q.pushed);
  }

  method DoReset(q: EventOutputQueue, step: Step)
    requires q.Valid() && step.ResetState? && WellFormed(step.items)
    modifies q
    ensures q.Valid() && Sent(step, old(q.pushed), q.pushed)
  {
    var fs := new FlagStatus([]);
    fs.items := step.items;
    ghost var locked := LockedOn(fs.items);
    ghost var silent := q.lastFlags == Bits(locked);
    ghost var changes := ModifierEvents(q.pairs, silent, q.on, locked, step.kt);
    ModifiersModify(q.pairs, silent, q.on, locked, step.kt);
    q.ResetInternalState(fs, step.kt);
    SentReset(step, old(q.pushed), changes, old(q.lastButtons), old(q.pressDown), q.pushed);
  }

  /** Any run from the beginning; `history` is what had been pushed before every step and at the end. */
  method RunScript(pairs: seq<ModifierFlag>, script: seq<Step>) returns (q: EventOutputQueue, ghost history: seq<seq<Event>>)
    requires PairsOk(pairs) && ScriptOk(script)
    ensures fresh(q) && q.Valid() && q.pairs == pairs
    ensures |history| == |script| + 1 && history[0] == [] && history[|script|] == q.pushed
    ensures forall k :: 0 <= k < |script| ==> Sent(script[k], history[k], history[k + 1])
  {
    q := new EventOutputQueue(pairs);
    history := [[]];
    for i := 0 to |script|
      invariant fresh(q) && q.Valid() && q.pairs == pairs
      invariant |history| == i + 1 && history[0] == [] && history[i] == q.pushed
      invariant forall k :: 0 <= k < i ==> Sent(script[k], history[k], history[k + 1])
    {
      Do(q, script[i]);
      history := history + [q.pushed];
    }
  }

  /** Along every run: modifier events alternate and replaying them gives the last flags without NUMPAD, the last
      flags are the bits of a set of modifiers, the remembered keys are those whose last non-repeat event is a press,
      and waiting events have their timer armed. */
  method Run(pairs: seq<ModifierFlag>, script: seq<Step>)
    returns (pushed: seq<Event>, lastFlags: Word, list: seq<Pair>, waiting: seq<Event>, timerActive: bool,
             ghost history: seq<seq<Event>>)
    requires PairsOk(pairs) && ScriptOk(script)
    ensures Alternating(pushed, |pushed|) && lastFlags == Bits(OnSet(lastFlags))
    ensures On(pushed, |pushed|) == OnSet(lastFlags) - {NUMPAD}
    ensures Held(pushed, |pushed|) == Listed(list)
    ensures waiting != [] ==> timerActive
    // Every step pushes what it asks for.
    ensures |history| == |script| + 1 && history[0] == [] && history[|script|] == pushed
    ensures forall k :: 0 <= k < |script| ==> Sent(script[k], history[k], history[k + 1])
  {
    var q;
    q, history := RunScript(pairs, script);
    OnSetBits(q.on);
    pushed, lastFlags, list, waiting, timerActive := q.pushed, q.lastFlags, q.pressDown, q.queue, q.timerActive;
  }

  /** After any run that ends with the reset, the modifiers on are those locked or sticky on balance, and no pair is
      pressed if and only if every pressed pair was held; in particular if the run repeated only keys that were held. */
  method RunThenReset(pairs: seq<ModifierFlag>, script: seq<Step>, items: seq<Item>, kt: KeyboardType)
    returns (before: seq<Event>, after: seq<Event>)
    requires PairsOk(pairs) && ScriptOk(script) && WellFormed(items)
    ensures On(after, |after|) == LockedOn(items) - {NUMPAD}
    ensures Pressed(after, |after|) == {} <==> Pressed(before, |before|) <= Held(before, |before|)
    ensures RepeatsHeld(before, |before|) ==> Pressed(after, |after|) == {}
  {
    ghost var history;
    var q;
    q, history := RunScript(pairs, script);
    before := q.pushed;
    var fs := new FlagStatus([]);
    fs.items := items;
    q.ResetInternalState(fs, kt);
    after := q.pushed;
    if RepeatsHeld(before, |before|) {
      RepeatsHeldPressed(before, |before|);
    }
  }

  /** The case the reset does not cover: a key that is not down is repeated.  After the reset it is still pressed,
      whatever the modifiers. */
  method RepeatStuck(pairs: seq<ModifierFlag>, pair: Pair, flags: Word, physical: Physical, items: seq<Item>)
    returns (after: seq<Event>)
    requires PairsOk(pairs) && WellFormed(items)
    ensures Pressed(after, |after|) != {}
  {
    var q := new EventOutputQueue(pairs);
    q.FireKey(Some(pair), DownEvent, true, true, flags, physical);
    var fs := new FlagStatus([]);
    fs.items := items;
    q.ResetInternalState(fs, pair.keyboardType);
    after := q.pushed;
  }
}
