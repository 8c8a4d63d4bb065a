/** Rules that depend on how long a key is held (src/core/kext/RemapFunc/common/DependingPressingPeriodKeyToKey.*):
    HoldingKeyToKey and KeyOverlaidModifier.

    Each instance owns five embedded key-to-key rules, driven by a pseudo key: for a short press, a long one, a
    very long one, for the key being typed alone, and around the whole press.  All instances share one timer and
    one `target`.  Rule `6 * d + part` of the kernel belongs to instance `d`; part FROM stands for the instance's
    own `fromEvent_`.
 */
module PressingPeriods {
  import opened Wrappers
  import opened Modifiers
  import opened KeyToKey

  const FROM := 0
  const SHORT := 1
  const LONG := 2
  const LONG_LONG := 3
  const ALONE := 4
  const AROUND := 5

  /** KeyCode::VK_PSEUDO_KEY, the key that drives the embedded rules. */
  const VK_PSEUDO_KEY: KeyId := 0

  datatype Period = NoPeriod | ShortPeriod | LongPeriod | LongLongPeriod

  datatype Config = Config(pure: set<ModifierFlag>, shortMs: nat, longLongEnabled: bool, aloneEnabled: bool,
                           interruptibleByScrollWheel: bool)

  datatype State = State(active: bool, period: Period, decreased: bool, saved: seq<Item>)

  /** A call of an embedded rule: whether the modifiers of the condition are suppressed at that moment, and whether it
      happens while the counters are made to look as they did when the key went down. */
  datatype Call = Call(edge: Edge, suppressed: bool, saved: bool)

  /** The press or release of an embedded rule. */
  datatype Edge = Edge(rule: nat, down: bool)

  function Edges(trace: seq<Call>): (r: seq<Edge>)
    ensures |r| == |trace|
  {
    seq(|trace|, i requires 0 <= i < |trace| => trace[i].edge)
  }

  lemma TraceMore(calls: seq<Edge>, calls': seq<Edge>, trace: seq<Call>, trace': seq<Call>, call: Call)
    requires calls == Edges(trace) && calls' == calls + [call.edge] && trace' == trace + [call]
    ensures calls' == Edges(trace')
  {
    assert forall i :: 0 <= i < |trace'| ==> Edges(trace')[i] == calls'[i];
  }

  lemma EdgesAppend(a: seq<Call>, b: seq<Call>)
    ensures Edges(a + b) == Edges(a) + Edges(b)
  {
    assert forall i :: 0 <= i < |a + b| ==> Edges(a + b)[i] == (a + b)[i].edge == (Edges(a) + Edges(b))[i];
  }

  function Id(d: nat, part: nat): nat { 6 * d + part }

  /** An embedded rule is pressed under the modifiers of the press, and released under whatever there is. */
  function Press(d: nat, part: nat): Call { Call(Edge(Id(d, part), true), true, true) }

  function LetGo(d: nat, part: nat, suppressed: bool): Call { Call(Edge(Id(d, part), false), suppressed, false) }

  /** What decides whether each modifier is on, CapsLock aside. */
  function Sums(items: seq<Item>): (r: seq<int>)
    ensures |r| == |items|
  {
    seq(|items|, i requires 0 <= i < |items| => if items[i].flag == CAPSLOCK then 0 else items[i].Sum(true))
  }

  /** All modifiers but CapsLock are on or off as in the snapshot. */
  ghost predicate LooksLike(items: seq<Item>, snapshot: seq<Item>) { Sums(items) == Sums(snapshot) }

  lemma EnteredLooksLike(items: seq<Item>, snapshot: seq<Item>)
    requires SameFlags(items, snapshot)
    ensures LooksLike(Enter(items, Excess(items, snapshot)), snapshot)
  {
    var entered := Enter(items, Excess(items, snapshot));
    forall i | 0 <= i < |items| ensures Sums(entered)[i] == Sums(snapshot)[i] {
      BracketPreserves(items[i], Excess(items, snapshot)[i]);
      if items[i].flag != CAPSLOCK {
        ScopedSetterTransparent(items, snapshot, items, i);
      }
    }
  }

  lemma TraceOfThree<T>(log: seq<T>, a: seq<T>, b: seq<T>, c: seq<T>, log': seq<T>)
    requires log' == log + a + b + c
    ensures log' == log + (a + b + c)
  {
  }

  // What is called, as a function of the state of the instance

  /** Another key, or the own key going up: a press that has not become long counts as short. */
  function InterruptCalls(d: nat, s: State): seq<Call> {
    if s.active && s.period.NoPeriod? then [Press(d, SHORT)] else []
  }

  function Interrupt(rules: seq<Rule>, d: nat, s: State): State
    requires Id(d, SHORT) < |rules|
  {
    if !s.active then s
    else if s.period.NoPeriod? then State(false, ShortPeriod, rules[Id(d, SHORT)].HoldsModifier(), s.saved)
    else s.(active := false)
  }

  /** The current period is left; `alone` says that nothing else has happened since the press became long and that not
      too much time has passed. */
  function LeaveCalls(c: Config, d: nat, s: State, alone: bool): seq<Call> {
    match s.period
    case NoPeriod => []
    case ShortPeriod => [LetGo(d, SHORT, s.decreased)]
    case LongPeriod =>
      [LetGo(d, LONG, s.decreased)] +
      if c.aloneEnabled && alone then [Press(d, ALONE), Call(Edge(Id(d, ALONE), false), true, true)] else []
    case LongLongPeriod => [LetGo(d, LONG_LONG, s.decreased)]
  }

  /** The own key goes up. */
  function FinishCalls(rules: seq<Rule>, c: Config, d: nat, s: State, alone: bool): seq<Call>
    requires Id(d, SHORT) < |rules|
  {
    InterruptCalls(d, s) + LeaveCalls(c, d, Interrupt(rules, d, s), alone) + [Call(Edge(Id(d, AROUND), false), true, false)]
  }

  /** The timer runs out; `canceled` says that a key repeat has been cancelled since the press became long. */
  function TimerCalls(d: nat, s: State, canceled: bool): seq<Call> {
    match s.period
    case NoPeriod => [Press(d, LONG)]
    case LongPeriod => [LetGo(d, LONG, s.decreased)] + if canceled then [] else [Press(d, LONG_LONG)]
    case _ => []
  }

  /** The own key goes down: without a short period the press is long at once. */
  function BeginCalls(c: Config, d: nat): seq<Call> {
    [Call(Edge(Id(d, AROUND), true), true, false)] + if c.shortMs == 0 then [Press(d, LONG)] else []
  }

  /** The embedded rules listen to the pseudo key only; an instance's own event is not itself a rule with output. */
  ghost predicate WiredFor(rules: seq<Rule>, instances: nat) {
    6 * instances <= |rules| &&
    (forall d, part :: 0 <= d < instances && SHORT <= part <= AROUND ==> rules[Id(d, part)].from == VK_PSEUDO_KEY) &&
    (forall d :: 0 <= d < instances ==>
      rules[Id(d, FROM)].toKeys == [] && rules[Id(d, FROM)].increaseFlags == [])
  }

  /** Whether the last call of rule `x` was a press. */
  ghost function OpenIn(calls: seq<Edge>, x: nat): bool {
    calls != [] &&
    var last := calls[|calls| - 1];
    if last.rule == x then last.down else OpenIn(calls[..|calls| - 1], x)
  }

  /** Every rule is pressed and released in strict alternation, starting with a press. */
  ghost predicate Alternates(calls: seq<Edge>) {
    calls == [] ||
    (var last := |calls| - 1;
     Alternates(calls[..last]) && calls[last].down == !OpenIn(calls[..last], calls[last].rule))
  }

  /** Between two moments, only rules from `lo` to `hi` were called or pressed. */
  ghost predicate OnlyWithin(lo: nat, hi: nat, calls: seq<Edge>, calls': seq<Edge>, pressing: seq<nat>, pressing': seq<nat>) {
    forall y: nat :: y < lo || hi < y ==>
      OpenIn(calls, y) == OpenIn(calls', y) && multiset(pressing)[y] == multiset(pressing')[y]
  }

  lemma OnlyWithinTwice(lo: nat, hi: nat, lo': nat, hi': nat, from: nat, to: nat,
                        calls: seq<Edge>, calls': seq<Edge>, calls'': seq<Edge>,
                        pressing: seq<nat>, pressing': seq<nat>, pressing'': seq<nat>)
    requires OnlyWithin(lo, hi, calls, calls', pressing, pressing')
    requires OnlyWithin(lo', hi', calls', calls'', pressing', pressing'')
    requires from <= lo && hi <= to && from <= lo' && hi' <= to
    ensures OnlyWithin(from, to, calls, calls'', pressing, pressing'')
  {
  }

  lemma CallAppended(calls: seq<Edge>, call: Edge)
    requires Alternates(calls) && call.down == !OpenIn(calls, call.rule)
    ensures Alternates(calls + [call])
    ensures forall y :: OpenIn(calls + [call], y) == if y == call.rule then call.down else OpenIn(calls, y)
  {
    assert (calls + [call])[..|calls|] == calls;
  }

  lemma PseudoCalled(calls: seq<Edge>, calls': seq<Edge>, pressing: seq<nat>, pressing': seq<nat>, x: nat, down: bool,
                     taken: bool)
    requires Alternates(calls) && down == !OpenIn(calls, x) && calls' == calls + [Edge(x, down)]
    requires multiset(pressing)[x] <= if OpenIn(calls, x) then 1 else 0
    requires forall y: nat ::
      multiset(pressing')[y] == multiset(pressing)[y] + if taken && y == x then Signed(down, 1) else 0
    requires !down ==> taken == (multiset(pressing)[x] > 0)
    ensures Alternates(calls') && OpenIn(calls', x) == down
    ensures multiset(pressing')[x] <= (if down then 1 else 0) && (taken && down ==> multiset(pressing')[x] == 1)
    ensures OnlyWithin(x, x, calls, calls', pressing, pressing')
  {
    CallAppended(calls, Edge(x, down));
  }

  /** The event of an instance itself sends nothing. */
  lemma TakeSends(rules: seq<Rule>, pressing: seq<nat>, x: nat, down: bool, log: seq<Output>)
    requires Within(pressing, |rules|) && x < |rules| && (down || x in pressing)
    requires rules[x].toKeys == [] && Sends(rules, pressing, log)
    ensures Within(Pressed(pressing, x, down), |rules|) && Sends(rules, Pressed(pressing, x, down), log)
  {
    TotalPressed(rules, pressing, x, down, Count(ZERO));
    forall kind, code ensures Net(log, kind, code) == Total(rules, Pressed(pressing, x, down), HeldDown(kind, code)) {
      TotalPressed(rules, pressing, x, down, HeldDown(kind, code));
    }
  }

  /** How many instances currently suppress modifier `f`. */
  function Lowered(configs: seq<Config>, states: seq<State>, f: ModifierFlag): int
    requires |configs| == |states|
  {
    if states == [] then 0
    else
      var last := |states| - 1;
      Lowered(configs[..last], states[..last], f) + Bit(states[last].decreased && f in configs[last].pure)
  }

  lemma {:induction false} LoweredUpdate(configs: seq<Config>, states: seq<State>, d: nat, s: State, f: ModifierFlag)
    requires |configs| == |states| && d < |states|
    ensures Lowered(configs, states[d := s], f) ==
            Lowered(configs, states, f)
            + Bit(s.decreased && f in configs[d].pure) - Bit(states[d].decreased && f in configs[d].pure)
  {
    var last := |states| - 1;
    if d == last {
      assert states[d := s][..last] == states[..last];
    } else {
      assert states[d := s][..last] == states[..last][d := s];
      LoweredUpdate(configs[..last], states[..last], d, s, f);
    }
  }

  lemma {:induction false} NothingLowered(configs: seq<Config>, states: seq<State>, f: ModifierFlag)
    requires |configs| == |states|
    requires forall d :: 0 <= d < |states| ==> !states[d].decreased
    ensures Lowered(configs, states, f) == 0
  {
    if states != [] {
      NothingLowered(configs[..|configs| - 1], states[..|states| - 1], f);
    }
  }

  /** The counts, without what outstanding presses and suppressed modifiers account for (CapsLock aside). */
  ghost function BalanceOf(residues: seq<int>, flags: seq<ModifierFlag>, configs: seq<Config>, states: seq<State>): (r: seq<int>)
    requires |residues| == |flags| && |configs| == |states|
    ensures |r| == |flags|
    ensures forall i :: 0 <= i < |flags| ==>
      r[i] == if flags[i] == CAPSLOCK then 0 else residues[i] + Lowered(configs, states, flags[i])
  {
    seq(|flags|, i requires 0 <= i < |flags| =>
      if flags[i] == CAPSLOCK then 0 else residues[i] + Lowered(configs, states, flags[i]))
  }

  lemma BalanceSetState(residues: seq<int>, flags: seq<ModifierFlag>, configs: seq<Config>, states: seq<State>, d: nat, s: State)
    requires |residues| == |flags| && |configs| == |states| && d < |states|
    requires s.decreased == states[d].decreased
    ensures BalanceOf(residues, flags, configs, states[d := s]) == BalanceOf(residues, flags, configs, states)
  {
    forall i | 0 <= i < |flags| {
      LoweredUpdate(configs, states, d, s, flags[i]);
    }
  }

  /** Suppressing a condition's modifiers and lowering their counts cancel out. */
  lemma BalanceManipulated(rules: seq<Rule>, pressing: seq<nat>, flags: seq<ModifierFlag>, items: seq<Item>, items': seq<Item>,
                           configs: seq<Config>, states: seq<State>, d: nat, decrease: bool)
    requires Within(pressing, |rules|) && |configs| == |states| && d < |states| && states[d].decreased != decrease
    requires |items| == |items'| == |flags|
    requires forall i :: 0 <= i < |flags| ==>
      items[i].flag == flags[i] == items'[i].flag &&
      (flags[i] != CAPSLOCK ==>
        items'[i].count == items[i].count + if flags[i] in configs[d].pure then Signed(!decrease, 1) else 0)
    ensures BalanceOf(ResidueOf(rules, pressing, items'), flags, configs, states[d := states[d].(decreased := decrease)]) ==
            BalanceOf(ResidueOf(rules, pressing, items), flags, configs, states)
  {
    forall i | 0 <= i < |flags| {
      LoweredUpdate(configs, states, d, states[d].(decreased := decrease), flags[i]);
    }
  }

  /** The embedded rule that is pressed is the one of the current period. */
  ghost predicate Keys(d: nat, period: Period, calls: seq<Edge>, pressing: seq<nat>) {
    OpenIn(calls, Id(d, SHORT)) == period.ShortPeriod? &&
    OpenIn(calls, Id(d, LONG)) == period.LongPeriod? &&
    OpenIn(calls, Id(d, LONG_LONG)) == period.LongLongPeriod? &&
    !OpenIn(calls, Id(d, ALONE)) &&
    (forall part :: SHORT <= part <= AROUND ==>
      multiset(pressing)[Id(d, part)] <= if OpenIn(calls, Id(d, part)) then 1 else 0)
  }

  lemma KeysOfOthers(d: nat, e: nat, period: Period, calls: seq<Edge>, calls': seq<Edge>, pressing: seq<nat>, pressing': seq<nat>)
    requires d != e && Keys(e, period, calls, pressing)
    requires OnlyWithin(Id(d, FROM), Id(d, AROUND), calls, calls', pressing, pressing')
    ensures Keys(e, period, calls', pressing')
  {
  }

  /** Pressing or releasing one embedded rule moves between the period of that rule and no period. */
  lemma KeysChanged(d: nat, part: nat, down: bool, calls: seq<Edge>, calls': seq<Edge>, pressing: seq<nat>, pressing': seq<nat>)
    requires SHORT <= part <= AROUND
    requires OnlyWithin(Id(d, part), Id(d, part), calls, calls', pressing, pressing')
    requires OpenIn(calls', Id(d, part)) == down
    requires multiset(pressing')[Id(d, part)] <= if down then 1 else 0
    ensures part <= LONG_LONG && down && Keys(d, NoPeriod, calls, pressing) ==>
            Keys(d, PeriodOf(part), calls', pressing')
    ensures part <= LONG_LONG && !down && Keys(d, PeriodOf(part), calls, pressing) ==>
            Keys(d, NoPeriod, calls', pressing')
    ensures forall period :: (part == AROUND || (part == ALONE && !down)) && Keys(d, period, calls, pressing) ==>
            Keys(d, period, calls', pressing')
  {
  }

  function NextPeriod(period: Period, canceled: bool): Period {
    match period
    case NoPeriod => LongPeriod
    case LongPeriod => if canceled then NoPeriod else LongLongPeriod
    case _ => period
  }

  function PeriodOf(part: nat): Period {
    if part == SHORT then ShortPeriod else if part == LONG then LongPeriod else LongLongPeriod
  }

  /** An instance whose key is up has let go of everything, and one whose key is down waits until it is in a period. */
  ghost predicate IsSettled(d: nat, s: State, calls: seq<Edge>, pressing: seq<nat>) {
    var held := multiset(pressing)[Id(d, FROM)];
    held <= 1 && OpenIn(calls, Id(d, AROUND)) == (held == 1) &&
    (held == 0 ==> !s.active && s.period.NoPeriod? && !s.decreased) &&
    (held == 1 && s.period.NoPeriod? ==> s.active)
  }

  /** At most one instance is active, it is the target, it hears about other keys, and only it can have armed
      the timer. */
  ghost predicate Activity(states: seq<State>, target: Option<nat>, timerArmed: bool, registered: seq<nat>) {
    (forall d :: 0 <= d < |states| && states[d].active ==> target == Some(d) && d in registered) &&
    (timerArmed ==> target.Some? && target.value < |states| && states[target.value].active) &&
    (forall k :: 0 <= k < |registered| ==> registered[k] < |states|)
  }

  lemma ActivityBegun(d: nat, before: seq<State>, after: seq<State>, timerArmed: bool, registered: seq<nat>)
    requires d < |after| == |before| && after == before[d := after[d]] && after[d].active
    requires forall e :: 0 <= e < |before| ==> !before[e].active
    requires forall k :: 0 <= k < |registered| ==> registered[k] < |after|
    ensures Activity(after, Some(d), timerArmed, Registered(registered, d))
  {
  }

  lemma ActivityEnded(d: nat, states: seq<State>, target: Option<nat>, timerArmed: bool, registered: seq<nat>)
    requires Activity(states, target, timerArmed, registered) && d < |states| && !states[d].active
    ensures Activity(states, target, timerArmed, Unregistered(registered, d))
  {
  }

  /** All instances are in the period their embedded rules say. */
  ghost predicate AllKeys(states: seq<State>, calls: seq<Edge>, pressing: seq<nat>) {
    forall d :: 0 <= d < |states| ==> Keys(d, states[d].period, calls, pressing)
  }

  ghost predicate AllSettled(states: seq<State>, calls: seq<Edge>, pressing: seq<nat>) {
    forall d :: 0 <= d < |states| ==> IsSettled(d, states[d], calls, pressing)
  }

  /** After a press or release of one embedded rule, every instance is again in the right period. */
  lemma AfterChange(d: nat, part: nat, down: bool, before: seq<State>, after: seq<State>,
                    calls: seq<Edge>, calls': seq<Edge>, pressing: seq<nat>, pressing': seq<nat>)
    requires d < |after| == |before| && SHORT <= part <= LONG_LONG
    requires forall e :: 0 <= e < |after| && e != d ==> after[e].period == before[e].period
    requires before[d].period == (if down then NoPeriod else PeriodOf(part))
    requires after[d].period == (if down then PeriodOf(part) else NoPeriod)
    requires AllKeys(before, calls, pressing)
    requires OnlyWithin(Id(d, part), Id(d, part), calls, calls', pressing, pressing')
    requires OpenIn(calls', Id(d, part)) == down && multiset(pressing')[Id(d, part)] <= if down then 1 else 0
    ensures AllKeys(after, calls', pressing')
  {
    KeysChanged(d, part, down, calls, calls', pressing, pressing');
    forall e | 0 <= e < |after| ensures Keys(e, after[e].period, calls', pressing') {
      assert Keys(e, before[e].period, calls, pressing);
      if e != d {
        KeysOfOthers(d, e, after[e].period, calls, calls', pressing, pressing');
      }
    }
  }

  /** The rules around the press and of the key alone, once it is up again, belong to no period. */
  lemma AfterOutside(d: nat, part: nat, before: seq<State>, after: seq<State>,
                     calls: seq<Edge>, calls': seq<Edge>, pressing: seq<nat>, pressing': seq<nat>)
    requires d < |after| == |before| && (part == AROUND || part == ALONE)
    requires forall e :: 0 <= e < |after| ==> after[e].period == before[e].period
    requires AllKeys(before, calls, pressing)
    requires OnlyWithin(Id(d, part), Id(d, part), calls, calls', pressing, pressing')
    requires part == ALONE ==> !OpenIn(calls', Id(d, part))
    requires multiset(pressing')[Id(d, part)] <= if OpenIn(calls', Id(d, part)) then 1 else 0
    ensures AllKeys(after, calls', pressing')
  {
    KeysChanged(d, part, OpenIn(calls', Id(d, part)), calls, calls', pressing, pressing');
    forall e | 0 <= e < |after| ensures Keys(e, after[e].period, calls', pressing') {
      assert Keys(e, before[e].period, calls, pressing);
      if e != d {
        KeysOfOthers(d, e, after[e].period, calls, calls', pressing, pressing');
      }
    }
  }

  /** Taking the key itself does not touch any embedded rule. */
  lemma KeysAfterTake(d: nat, states: seq<State>, calls: seq<Edge>, pressing: seq<nat>, pressing': seq<nat>)
    requires d < |states| && AllKeys(states, calls, pressing)
    requires OnlyWithin(Id(d, FROM), Id(d, FROM), calls, calls, pressing, pressing')
    ensures AllKeys(states, calls, pressing')
  {
    forall e | 0 <= e < |states| ensures Keys(e, states[e].period, calls, pressing') {
      assert Keys(e, states[e].period, calls, pressing);
      if e != d {
        KeysOfOthers(d, e, states[e].period, calls, calls, pressing, pressing');
      }
    }
  }

  /** What happens to one instance leaves the others settled. */
  lemma SettledAgain(d: nat, before: seq<State>, after: seq<State>,
                     calls: seq<Edge>, calls': seq<Edge>, pressing: seq<nat>, pressing': seq<nat>)
    requires d < |after| == |before| && forall e :: 0 <= e < |after| && e != d ==> after[e] == before[e]
    requires AllSettled(before, calls, pressing)
    requires OnlyWithin(Id(d, FROM), Id(d, AROUND), calls, calls', pressing, pressing')
    requires IsSettled(d, after[d], calls', pressing')
    ensures AllSettled(after, calls', pressing')
  {
    forall e | 0 <= e < |after| ensures IsSettled(e, after[e], calls', pressing') {
      assert IsSettled(e, before[e], calls, pressing);
    }
  }

  lemma InterruptSettled(rules: seq<Rule>, d: nat, s: State, calls: seq<Edge>, calls': seq<Edge>,
                         pressing: seq<nat>, pressing': seq<nat>)
    requires Id(d, SHORT) < |rules| && IsSettled(d, s, calls, pressing)
    requires OnlyWithin(Id(d, SHORT), Id(d, SHORT), calls, calls', pressing, pressing')
    ensures IsSettled(d, Interrupt(rules, d, s), calls', pressing')
    ensures OnlyWithin(Id(d, FROM), Id(d, AROUND), calls, calls', pressing, pressing')
  {
  }

  /** A press or release of an ordinary rule leaves the instances alone. */
  lemma OrdinaryKept(states: seq<State>, calls: seq<Edge>, pressing: seq<nat>, r: nat, down: bool)
    requires 6 * |states| <= r && (down || r in pressing)
    requires AllKeys(states, calls, pressing) && AllSettled(states, calls, pressing)
    ensures var after := Pressed(pressing, r, down);
            AllKeys(states, calls, after) && AllSettled(states, calls, after) &&
            SameHeld(|states|, pressing, after)
  {
    var after := Pressed(pressing, r, down);
    PressedMultiset(pressing, r, down);
    forall d | 0 <= d < |states|
      ensures Keys(d, states[d].period, calls, after) && IsSettled(d, states[d], calls, after)
    {
      assert Keys(d, states[d].period, calls, pressing) && IsSettled(d, states[d], calls, pressing);
    }
  }

  /** Whether some instance is still active and may be interrupted: only the target can be. */
  ghost predicate Hears(configs: seq<Config>, states: seq<State>, target: Option<nat>, scroll: bool)
    requires |configs| == |states|
  {
    target.Some? && target.value < |states| && states[target.value].active &&
    (!scroll || configs[target.value].interruptibleByScrollWheel)
  }

  /** The target has been interrupted if it can be, and nothing else has changed. */
  ghost predicate Heard(rules: seq<Rule>, configs: seq<Config>, target: Option<nat>, scroll: bool,
                        states: seq<State>, states': seq<State>, trace: seq<Call>, trace': seq<Call>)
    requires |configs| == |states| && 6 * |configs| <= |rules|
  {
    if Hears(configs, states, target, scroll) then
      var d := target.value;
      states' == states[d := Interrupt(rules, d, states[d])] && trace' == trace + InterruptCalls(d, states[d])
    else states' == states && trace' == trace
  }

  /** Along the list of those that hear: either the target is still to come or it has been interrupted. */
  ghost predicate Hearing(rules: seq<Rule>, configs: seq<Config>, target: Option<nat>, scroll: bool,
                          states: seq<State>, states': seq<State>, trace: seq<Call>, trace': seq<Call>,
                          armed: bool, armed': bool, rest: seq<nat>)
    requires |configs| == |states| && 6 * |configs| <= |rules|
  {
    if Hears(configs, states, target, scroll) && target.value in rest && states' == states
    then trace' == trace && armed' == armed
    else Heard(rules, configs, target, scroll, states, states', trace, trace') &&
         armed' == (armed && !Hears(configs, states, target, scroll))
  }

  lemma HearingNext(rules: seq<Rule>, configs: seq<Config>, target: Option<nat>, scroll: bool,
                    states: seq<State>, states': seq<State>, trace: seq<Call>, trace': seq<Call>,
                    armed: bool, armed': bool, rest: seq<nat>)
    requires |configs| == |states| == |states'| && 6 * |configs| <= |rules| && rest != [] && rest[0] < |states|
    requires forall d :: 0 <= d < |states'| && states'[d].active ==> target == Some(d)
    requires Hearing(rules, configs, target, scroll, states, states', trace, trace', armed, armed', rest)
    ensures var d := rest[0];
            if !scroll || configs[d].interruptibleByScrollWheel
            then Hearing(rules, configs, target, scroll, states, states'[d := Interrupt(rules, d, states'[d])],
                         trace, trace' + InterruptCalls(d, states'[d]), armed, armed' && !states'[d].active, rest[1..])
            else Hearing(rules, configs, target, scroll, states, states', trace, trace', armed, armed', rest[1..])
  {
    var d := rest[0];
    assert rest == [d] + rest[1..];
    if !states'[d].active {
      assert states'[d := states'[d]] == states';
      assert trace' + [] == trace';
    }
  }

  lemma NoneActive(rules: seq<Rule>, configs: seq<Config>, target: Option<nat>, scroll: bool,
                   states: seq<State>, states': seq<State>, trace: seq<Call>, trace': seq<Call>)
    requires |configs| == |states| && 6 * |configs| <= |rules|
    requires forall d :: 0 <= d < |states'| && states'[d].active ==> target == Some(d)
    requires Heard(rules, configs, target, scroll, states, states', trace, trace')
    ensures !scroll ==> forall e :: 0 <= e < |states'| ==> !states'[e].active
  {
  }

  // What one step calls, as a function of the calls before

  /** The own key is down and no period has begun. */
  ghost predicate Waiting(before: seq<Edge>, d: nat) {
    OpenIn(before, Id(d, AROUND)) && !OpenIn(before, Id(d, SHORT)) && !OpenIn(before, Id(d, LONG)) &&
    !OpenIn(before, Id(d, LONG_LONG))
  }

  /** A press that is still waiting becomes short. */
  ghost predicate HeardEdges(configs: seq<Config>, before: seq<Edge>, scroll: bool, gained: seq<Edge>) {
    (forall d :: 0 <= d < |configs| && Waiting(before, d) ==>
      gained == if scroll && !configs[d].interruptibleByScrollWheel then [] else [Edge(Id(d, SHORT), true)]) &&
    ((forall d :: 0 <= d < |configs| ==> !Waiting(before, d)) ==> gained == [])
  }

  /** The own key goes down: the rule around the press, and without a short period the long one. */
  function BeginEdges(c: Config, d: nat): seq<Edge> {
    [Edge(Id(d, AROUND), true)] + if c.shortMs == 0 then [Edge(Id(d, LONG), true)] else []
  }

  /** The own key goes up: whatever is pressed is released, a press that is still waiting is typed as a short one, and a
      long one is followed by the rule for the key alone if `alone` says so. */
  ghost function FinishEdges(before: seq<Edge>, d: nat, alone: bool): seq<Edge> {
    if !OpenIn(before, Id(d, AROUND)) then []
    else if OpenIn(before, Id(d, SHORT)) then [Edge(Id(d, SHORT), false), Edge(Id(d, AROUND), false)]
    else if OpenIn(before, Id(d, LONG)) then
      [Edge(Id(d, LONG), false)] +
      (if alone then [Edge(Id(d, ALONE), true), Edge(Id(d, ALONE), false)] else []) + [Edge(Id(d, AROUND), false)]
    else if OpenIn(before, Id(d, LONG_LONG)) then [Edge(Id(d, LONG_LONG), false), Edge(Id(d, AROUND), false)]
    else [Edge(Id(d, SHORT), true), Edge(Id(d, SHORT), false), Edge(Id(d, AROUND), false)]
  }

  /** The timer runs out for an instance: a waiting press becomes long, a long one very long. */
  ghost function TimerEdges(before: seq<Edge>, d: nat, canceled: bool): seq<Edge> {
    if Waiting(before, d) then [Edge(Id(d, LONG), true)]
    else if OpenIn(before, Id(d, LONG)) then
      [Edge(Id(d, LONG), false)] + if canceled then [] else [Edge(Id(d, LONG_LONG), true)]
    else []
  }

  ghost predicate Gains(configs: seq<Config>, step: PeriodStep, before: seq<Edge>, gained: seq<Edge>) {
    match step
    case OwnKeyDown(d, _) =>
      d < |configs| &&
      exists k :: 0 <= k <= |gained| && HeardEdges(configs, before, false, gained[..k]) &&
                  (gained[k..] == [] || gained[k..] == BeginEdges(configs[d], d))
    case OwnKeyUp(d, _, alone) =>
      d < |configs| && gained == FinishEdges(before, d, configs[d].aloneEnabled && alone)
    case OtherKeyDown(_, _, _) => HeardEdges(configs, before, false, gained)
    case ScrollWheel => HeardEdges(configs, before, true, gained)
    case Timeout(canceled) =>
      gained == [] || exists d :: 0 <= d < |configs| && gained == TimerEdges(before, d, canceled)
    case _ => gained == []
  }

  ghost predicate StepLaw(configs: seq<Config>, step: PeriodStep, trace: seq<Call>, trace': seq<Call>) {
    |trace| <= |trace'| && trace'[..|trace|] == trace && Gains(configs, step, Edges(trace), Edges(trace'[|trace|..]))
  }

  lemma LawOf(configs: seq<Config>, step: PeriodStep, trace: seq<Call>, gained: seq<Call>, trace': seq<Call>)
    requires trace' == trace + gained && Gains(configs, step, Edges(trace), Edges(gained))
    ensures StepLaw(configs, step, trace, trace')
  {
    assert trace'[|trace|..] == gained;
  }

  /** What the calls say about the state of an instance. */
  lemma StateSeen(d: nat, s: State, calls: seq<Edge>, pressing: seq<nat>)
    requires Keys(d, s.period, calls, pressing) && IsSettled(d, s, calls, pressing)
    ensures Waiting(calls, d) <==> s.active && s.period.NoPeriod?
    ensures OpenIn(calls, Id(d, AROUND)) <==> multiset(pressing)[Id(d, FROM)] == 1
    ensures s.active ==> OpenIn(calls, Id(d, AROUND))
  {
  }

  lemma HeardSeen(rules: seq<Rule>, configs: seq<Config>, target: Option<nat>, scroll: bool,
                  states: seq<State>, states': seq<State>, trace: seq<Call>, trace': seq<Call>,
                  calls: seq<Edge>, pressing: seq<nat>) returns (gained: seq<Call>)
    requires |configs| == |states| && 6 * |configs| <= |rules| && calls == Edges(trace)
    requires AllKeys(states, calls, pressing) && AllSettled(states, calls, pressing)
    requires forall d :: 0 <= d < |states| && states[d].active ==> target == Some(d)
    requires Heard(rules, configs, target, scroll, states, states', trace, trace')
    ensures trace' == trace + gained && HeardEdges(configs, calls, scroll, Edges(gained))
  {
    gained := if Hears(configs, states, target, scroll) then InterruptCalls(target.value, states[target.value]) else [];
    assert trace' == trace + gained;
    forall d | 0 <= d < |states| ensures Waiting(calls, d) <==> states[d].active && states[d].period.NoPeriod? {
      assert Keys(d, states[d].period, calls, pressing) && IsSettled(d, states[d], calls, pressing);
      StateSeen(d, states[d], calls, pressing);
    }
    assert forall d :: Edges([Press(d, SHORT)]) == [Edge(Id(d, SHORT), true)];
  }

  lemma FinishSeen(rules: seq<Rule>, c: Config, d: nat, s: State, alone: bool, calls: seq<Edge>, pressing: seq<nat>)
    requires Id(d, SHORT) < |rules| && Keys(d, s.period, calls, pressing) && IsSettled(d, s, calls, pressing)
    requires multiset(pressing)[Id(d, FROM)] == 1
    ensures Edges(FinishCalls(rules, c, d, s, alone)) == FinishEdges(calls, d, c.aloneEnabled && alone)
  {
    StateSeen(d, s, calls, pressing);
  }

  class Periods {
    const kernel: Kernel
    const configs: seq<Config>

    var states: seq<State>
    var target: Option<nat>
    var timerArmed: bool
    var registered: seq<nat>
    ghost var calls: seq<Edge>
    ghost var trace: seq<Call>

    ghost predicate Ok()
      reads this, kernel
    {
      WiredFor(kernel.rules, |configs|) && kernel.Ok() && |states| == |configs| && calls == Edges(trace) &&
      Sends(kernel.rules, kernel.pressing, kernel.pushed) &&
      forall d :: 0 <= d < |states| ==> kernel.Carries(states[d].saved)
    }

    ghost function Open(x: nat): bool
      reads this
    {
      OpenIn(calls, x)
    }

    /** Outstanding presses of rule `x`. */
    ghost function Presses(x: nat): nat
      reads this, kernel
    {
      multiset(kernel.pressing)[x]
    }

    ghost predicate Held(d: nat)
      reads this, kernel
    {
      Presses(Id(d, FROM)) == 1
    }

    ghost function Balance(): seq<int>
      requires Ok()
      reads this, kernel
    {
      BalanceOf(kernel.Residues(), kernel.flags, configs, states)
    }

    ghost predicate Law()
      requires Ok()
      reads this, kernel
    {
      forall i :: 0 <= i < |kernel.flags| && kernel.flags[i] != CAPSLOCK ==> Balance()[i] == kernel.physical[i]
    }

    ghost predicate Inv()
      reads this, kernel
    {
      Ok() && Activity(states, target, timerArmed, registered) && Alternates(calls) &&
      AllKeys(states, calls, kernel.pressing)
    }

    ghost predicate Valid()
      reads this, kernel
    {
      Inv() && Law() && AllSettled(states, calls, kernel.pressing)
    }

    constructor (kernel: Kernel, configs: seq<Config>)
      requires kernel.Ok() && kernel.Law() && kernel.pressing == []
      requires WiredFor(kernel.rules, |configs|)
      ensures this.kernel == kernel && this.configs == configs && Valid() && trace == []
    {
      this.kernel, this.configs := kernel, configs;
      var items := kernel.items;
      states := seq(|configs|, _ => State(false, NoPeriod, false, items));
      target, timerArmed, registered, calls, trace := None, false, [], [], [];
      new;
      forall f {
        NothingLowered(configs, states, f);
      }
    }

    // -------------------------------------------------------------------------------------------

    /** Suppress the modifiers of the condition, or stop suppressing them.  Without `force`, they stay suppressed
        under a rule that holds a modifier. */
    method ManipulatePureFromModifierFlags(d: nat, part: nat, decrease: bool, force: bool)
      requires Ok() && d < |states| && part <= AROUND
      modifies this`states, kernel`items
      ensures Ok()
      ensures states == old(states)[d := old(states[d]).(decreased :=
        if decrease then true
        else if force || !kernel.rules[Id(d, part)].HoldsModifier() then false
        else old(states[d]).decreased)]
      ensures Balance() == old(Balance())
    {
      if states[d].decreased == decrease {
        return;
      }
      if decrease || force || !kernel.rules[Id(d, part)].HoldsModifier() {
        ForcePure(d, decrease);
      }
    }

    /** The same with force. */
    method ForcePure(d: nat, decrease: bool)
      requires Ok() && d < |states|
      modifies this`states, kernel`items
      ensures Ok() && states == old(states)[d := old(states[d]).(decreased := decrease)]
      ensures Balance() == old(Balance())
      ensures kernel.items ==
        if old(states[d]).decreased == decrease then old(kernel.items)
        else Applied(old(kernel.items), if decrease then Decrease else Increase, ZERO, configs[d].pure)
    {
      if states[d].decreased != decrease {
        states := states[d := states[d].(decreased := decrease)];
        kernel.Adjust(if decrease then Decrease else Increase, ZERO, configs[d].pure);
        BalanceManipulated(kernel.rules, kernel.pressing, kernel.flags, old(kernel.items), kernel.items,
                           configs, old(states), d, decrease);
      }
    }

    /** Any change of an instance that leaves its suppression alone. */
    method SetState(d: nat, s: State)
      requires Ok() && d < |states| && s.decreased == states[d].decreased && kernel.Carries(s.saved)
      modifies this`states
      ensures Ok() && states == old(states)[d := s]
      ensures Balance() == old(Balance())
    {
      BalanceSetState(kernel.Residues(), kernel.flags, configs, states, d, s);
      states := states[d := s];
    }

    /** `call_remap_with_VK_PSEUDO_KEY`; `saved` says that it is called within the scope of the saved modifiers. */
    method CallPseudo(d: nat, part: nat, down: bool, ghost saved: bool)
      requires Ok() && d < |states| && SHORT <= part <= AROUND
      requires Alternates(calls) && down == !Open(Id(d, part)) && Presses(Id(d, part)) <= if Open(Id(d, part)) then 1 else 0
      modifies this`calls, this`trace,
               kernel`items, kernel`pressing, kernel`pushed, kernel`timerArmed, kernel`timerTarget, kernel`snapshot
      ensures Ok() && Alternates(calls)
      ensures trace == old(trace) + [Call(Edge(Id(d, part), down), states[d].decreased, saved)]
      ensures Open(Id(d, part)) == down && Presses(Id(d, part)) <= if down then 1 else 0
      // The embedded rule takes the press unless it has a condition of its own.
      ensures down && kernel.rules[Id(d, part)].fromFlags == {} ==> Presses(Id(d, part)) == 1
      ensures OnlyWithin(Id(d, part), Id(d, part), old(calls), calls, old(kernel.pressing), kernel.pressing)
      ensures kernel.Residues() == old(kernel.Residues())
    {
      var x := Id(d, part);
      assert kernel.rules[x].from == VK_PSEUDO_KEY;
      ghost var call := Call(Edge(x, down), states[d].decreased, saved);
      ghost var calls', trace' := calls + [Edge(x, down)], trace + [call];
      var taken := RemapPseudo(x, down);
      PseudoCalled(calls, calls', old(kernel.pressing), kernel.pressing, x, down, taken);
      TraceMore(calls, calls', trace, trace', call);
      calls, trace := calls', trace';
    }

    /** The embedded rule sees the pseudo key, under whatever lock and sticky states there are. */
    method RemapPseudo(x: nat, down: bool) returns (taken: bool)
      requires Ok() && x < |kernel.rules| && kernel.rules[x].from == VK_PSEUDO_KEY
      modifies kernel`items, kernel`pressing, kernel`pushed, kernel`timerArmed, kernel`timerTarget, kernel`snapshot
      ensures Ok() && kernel.Residues() == old(kernel.Residues())
      ensures if down then kernel.rules[x].fromFlags == {} ==> taken else taken == (old(Presses(x)) > 0)
      ensures forall y: nat ::
        multiset(kernel.pressing)[y] == multiset(old(kernel.pressing))[y] + if taken && y == x then Signed(down, 1) else 0
    {
      kernel.Disturb();
      taken := kernel.RemapKeepsResidue(x, KeyEvent(VK_PSEUDO_KEY, down));
      if taken {
        PressedMultiset(old(kernel.pressing), x, down);
      }
    }

    /** The press of an embedded rule while the counters look as they did when the key went down. */
    method PressPseudo(d: nat, part: nat)
      requires Ok() && d < |states| && SHORT <= part <= AROUND
      requires Alternates(calls) && !Open(Id(d, part)) && Presses(Id(d, part)) == 0
      requires LooksLike(kernel.items, states[d].saved)
      modifies this`calls, this`trace,
               kernel`items, kernel`pressing, kernel`pushed, kernel`timerArmed, kernel`timerTarget, kernel`snapshot
      ensures Ok() && Alternates(calls)
      ensures trace == old(trace) + [Call(Edge(Id(d, part), true), states[d].decreased, true)]
      ensures Open(Id(d, part)) && Presses(Id(d, part)) <= 1
      ensures OnlyWithin(Id(d, part), Id(d, part), old(calls), calls, old(kernel.pressing), kernel.pressing)
      ensures kernel.Residues() == old(kernel.Residues())
    {
      CallPseudo(d, part, true, true);
    }

    /** Press an embedded rule under the modifiers recorded when the key went down.  A delayed action that the press of
        another key starts this way is cancelled by that key. */
    method PressWithSavedFlags(d: nat, part: nat, event: Event, targets: set<nat>)
      requires Ok() && d < |states| && SHORT <= part <= AROUND
      requires Alternates(calls) && !Open(Id(d, part)) && Presses(Id(d, part)) == 0
      modifies this`calls, this`trace,
               kernel`items, kernel`pressing, kernel`pushed, kernel`timerArmed, kernel`timerTarget, kernel`snapshot
      ensures Ok() && Alternates(calls)
      ensures trace == old(trace) + [Call(Edge(Id(d, part), true), states[d].decreased, true)]
      ensures part == SHORT && event.KeyEvent? && event.down ==> !kernel.timerArmed
      ensures Open(Id(d, part)) && Presses(Id(d, part)) <= 1
      ensures OnlyWithin(Id(d, part), Id(d, part), old(calls), calls, old(kernel.pressing), kernel.pressing)
      ensures kernel.Residues() == old(kernel.Residues())
    {
      var excess := Excess(kernel.items, states[d].saved);
      kernel.EnterSnapshot(excess);
      EnteredLooksLike(old(kernel.items), states[d].saved);
      PressPseudo(d, part);
      if part == SHORT {
        ghost var k := kernel.Prepare(Id(d, part), event, targets);
      }
      kernel.LeaveSnapshot(excess);
      MinusInjective(kernel.flags, old(kernel.Residues()), kernel.Residues(), excess);
    }

    /** Press the embedded rule of a period, with the modifiers of the condition suppressed meanwhile and, under a
        rule that holds a modifier, until it is released. */
    method PressPart(d: nat, part: nat, event: Event, targets: set<nat>)
      requires Ok() && d < |states| && SHORT <= part <= AROUND
      requires Alternates(calls) && !Open(Id(d, part)) && Presses(Id(d, part)) == 0
      modifies this`states, this`calls, this`trace,
               kernel`items, kernel`pressing, kernel`pushed, kernel`timerArmed, kernel`timerTarget, kernel`snapshot
      ensures Ok() && Alternates(calls)
      ensures trace == old(trace) + [Press(d, part)]
      ensures part == SHORT && event.KeyEvent? && event.down ==> !kernel.timerArmed
      ensures Open(Id(d, part)) && Presses(Id(d, part)) <= 1
      ensures OnlyWithin(Id(d, part), Id(d, part), old(calls), calls, old(kernel.pressing), kernel.pressing)
      ensures states == old(states)[d := old(states[d]).(decreased := kernel.rules[Id(d, part)].HoldsModifier())]
      ensures Balance() == old(Balance())
    {
      ManipulatePureFromModifierFlags(d, part, true, false);
      PressWithSavedFlags(d, part, event, targets);
      ManipulatePureFromModifierFlags(d, part, false, false);
    }

    /** Release the embedded rule of a period. */
    method ReleasePart(d: nat, part: nat)
      requires Ok() && d < |states| && SHORT <= part <= AROUND
      requires Alternates(calls) && Open(Id(d, part)) && Presses(Id(d, part)) <= 1
      modifies this`states, this`calls, this`trace,
               kernel`items, kernel`pressing, kernel`pushed, kernel`timerArmed, kernel`timerTarget, kernel`snapshot
      ensures Ok() && Alternates(calls)
      ensures trace == old(trace) + [LetGo(d, part, old(states[d]).decreased)]
      ensures !Open(Id(d, part)) && Presses(Id(d, part)) == 0
      ensures OnlyWithin(Id(d, part), Id(d, part), old(calls), calls, old(kernel.pressing), kernel.pressing)
      ensures states == old(states)[d := old(states[d]).(decreased :=
        kernel.rules[Id(d, part)].HoldsModifier() && old(states[d]).decreased)]
      ensures Balance() == old(Balance())
    {
      CallPseudo(d, part, false, false);
      ManipulatePureFromModifierFlags(d, part, false, false);
    }

    /** All instances are in the right period. */
    ghost predicate InPeriod()
      reads this, kernel
    {
      Ok() && Alternates(calls) && AllKeys(states, calls, kernel.pressing)
    }

    /** Enter a period: its embedded rule is pressed. */
    method BeginPeriod(d: nat, part: nat, event: Event, targets: set<nat>)
      requires InPeriod() && d < |states| && SHORT <= part <= LONG_LONG && states[d].period.NoPeriod?
      modifies this`states, this`calls, this`trace,
               kernel`items, kernel`pressing, kernel`pushed, kernel`timerArmed, kernel`timerTarget, kernel`snapshot
      ensures InPeriod() && trace == old(trace) + [Press(d, part)]
      ensures part == SHORT && event.KeyEvent? && event.down ==> !kernel.timerArmed
      ensures OnlyWithin(Id(d, part), Id(d, part), old(calls), calls, old(kernel.pressing), kernel.pressing)
      ensures states == old(states)[d := old(states[d]).(period := PeriodOf(part),
                                                         decreased := kernel.rules[Id(d, part)].HoldsModifier())]
      ensures Balance() == old(Balance())
    {
      SetState(d, states[d].(period := PeriodOf(part)));
      PressPart(d, part, event, targets);
      AfterChange(d, part, true, old(states), states, old(calls), calls, old(kernel.pressing), kernel.pressing);
    }

    /** Leave a period: its embedded rule is released. */
    method EndPeriod(d: nat, part: nat)
      requires InPeriod() && d < |states| && SHORT <= part <= LONG_LONG && states[d].period == PeriodOf(part)
      modifies this`states, this`calls, this`trace,
               kernel`items, kernel`pressing, kernel`pushed, kernel`timerArmed, kernel`timerTarget, kernel`snapshot
      ensures InPeriod() && trace == old(trace) + [LetGo(d, part, old(states[d]).decreased)]
      ensures OnlyWithin(Id(d, part), Id(d, part), old(calls), calls, old(kernel.pressing), kernel.pressing)
      ensures states == old(states)[d := old(states[d]).(period := NoPeriod, decreased :=
        kernel.rules[Id(d, part)].HoldsModifier() && old(states[d]).decreased)]
      ensures Balance() == old(Balance())
    {
      SetState(d, states[d].(period := NoPeriod));
      ReleasePart(d, part);
      AfterChange(d, part, false, old(states), states, old(calls), calls, old(kernel.pressing), kernel.pressing);
    }

    /** Another key is pressed, or the key itself is released: a press that has not become long counts as short. */
    method DoKeyDown(d: nat, event: Event, targets: set<nat>)
      requires Inv() && d < |states|
      modifies this`states, this`calls, this`trace, this`timerArmed,
               kernel`items, kernel`pressing, kernel`pushed, kernel`timerArmed, kernel`timerTarget, kernel`snapshot
      ensures Inv()
      ensures OnlyWithin(Id(d, SHORT), Id(d, SHORT), old(calls), calls, old(kernel.pressing), kernel.pressing)
      ensures trace == old(trace) + InterruptCalls(d, old(states[d]))
      ensures states == old(states)[d := Interrupt(kernel.rules, d, old(states[d]))]
      ensures timerArmed == (old(timerArmed) && !old(states[d].active))
      ensures old(states[d].active && states[d].period.NoPeriod?) && event.KeyEvent? && event.down ==> !kernel.timerArmed
      ensures Balance() == old(Balance())
    {
      if states[d].active {
        StopWaiting(d);
        if states[d].period.NoPeriod? {
          BeginPeriod(d, SHORT, event, targets);
        }
      }
    }

    method StopWaiting(d: nat)
      requires Inv() && d < |states| && states[d].active
      modifies this`states, this`timerArmed
      ensures Inv() && states == old(states)[d := old(states[d]).(active := false)] && !timerArmed
      ensures Balance() == old(Balance())
    {
      SetState(d, states[d].(active := false));
      if target == Some(d) {
        timerArmed := false;
      }
    }

    /** The key is up: whatever period was reached is left, and a key that was long but typed alone is typed. */
    method DoKeyUp(d: nat, alone: bool)
      requires Inv() && d < |states| && !states[d].active
      modifies this`states, this`calls, this`trace,
               kernel`items, kernel`pressing, kernel`pushed, kernel`timerArmed, kernel`timerTarget, kernel`snapshot
      ensures Inv()
      ensures trace == old(trace) + LeaveCalls(configs[d], d, old(states[d]), alone)
      ensures OnlyWithin(Id(d, SHORT), Id(d, ALONE), old(calls), calls, old(kernel.pressing), kernel.pressing)
      ensures states == old(states)[d := states[d]] && !states[d].active && states[d].period.NoPeriod?
      ensures Balance() == old(Balance())
    {
      match states[d].period
      case ShortPeriod =>
        EndPeriod(d, SHORT);
      case LongPeriod =>
        LeaveLongPeriod(d, alone);
      case LongLongPeriod =>
        EndPeriod(d, LONG_LONG);
      case NoPeriod =>
    }

    method LeaveLongPeriod(d: nat, alone: bool)
      requires InPeriod() && d < |states| && states[d].period.LongPeriod?
      modifies this`states, this`calls, this`trace,
               kernel`items, kernel`pressing, kernel`pushed, kernel`timerArmed, kernel`timerTarget, kernel`snapshot
      ensures InPeriod()
      ensures trace == old(trace) + LeaveCalls(configs[d], d, old(states[d]), alone)
      ensures OnlyWithin(Id(d, SHORT), Id(d, ALONE), old(calls), calls, old(kernel.pressing), kernel.pressing)
      ensures states == old(states)[d := old(states[d]).(period := NoPeriod, decreased := states[d].decreased)]
      ensures Balance() == old(Balance())
    {
      EndPeriod(d, LONG);
      if configs[d].aloneEnabled && alone {
        TypeAlone(d);
      }
    }

    /** The key was typed alone: its event is typed as if the modifiers of the press were still there. */
    method TypeAlone(d: nat)
      requires InPeriod() && d < |states|
      modifies this`states, this`calls, this`trace,
               kernel`items, kernel`pressing, kernel`pushed, kernel`timerArmed, kernel`timerTarget, kernel`snapshot
      ensures InPeriod()
      ensures trace == old(trace) + [Press(d, ALONE), Call(Edge(Id(d, ALONE), false), true, true)]
      ensures OnlyWithin(Id(d, ALONE), Id(d, ALONE), old(calls), calls, old(kernel.pressing), kernel.pressing)
      ensures states == old(states)[d := old(states[d]).(decreased := kernel.rules[Id(d, ALONE)].HoldsModifier())]
      ensures Balance() == old(Balance())
    {
      assert Keys(d, states[d].period, calls, kernel.pressing);
      ManipulatePureFromModifierFlags(d, ALONE, true, false);
      TypeWithSavedFlags(d);
      ManipulatePureFromModifierFlags(d, ALONE, false, false);
      AfterOutside(d, ALONE, old(states), states, old(calls), calls, old(kernel.pressing), kernel.pressing);
    }

    method TypeWithSavedFlags(d: nat)
      requires Ok() && d < |states|
      requires Alternates(calls) && !Open(Id(d, ALONE)) && Presses(Id(d, ALONE)) == 0
      modifies this`calls, this`trace,
               kernel`items, kernel`pressing, kernel`pushed, kernel`timerArmed, kernel`timerTarget, kernel`snapshot
      ensures Ok() && Alternates(calls)
      ensures trace == old(trace) +
        [Call(Edge(Id(d, ALONE), true), states[d].decreased, true), Call(Edge(Id(d, ALONE), false), states[d].decreased, true)]
      ensures !Open(Id(d, ALONE)) && Presses(Id(d, ALONE)) == 0
      ensures OnlyWithin(Id(d, ALONE), Id(d, ALONE), old(calls), calls, old(kernel.pressing), kernel.pressing)
      ensures kernel.Residues() == old(kernel.Residues())
    {
      var excess := Excess(kernel.items, states[d].saved);
      kernel.EnterSnapshot(excess);
      EnteredLooksLike(old(kernel.items), states[d].saved);
      PressPseudo(d, ALONE);
      CallPseudo(d, ALONE, false, true);
      kernel.LeaveSnapshot(excess);
      MinusInjective(kernel.flags, old(kernel.Residues()), kernel.Residues(), excess);
    }

    /** The shared timer runs out: a press becomes long, then very long, unless a key repeat has been cancelled since. */
    method FireTimer(canceled: bool)
      requires InPeriod() && target.Some? && target.value < |states|
      modifies this`states, this`calls, this`trace, this`timerArmed,
               kernel`items, kernel`pressing, kernel`pushed, kernel`timerArmed, kernel`timerTarget, kernel`snapshot
      ensures InPeriod()
      ensures var d := target.value;
              trace == old(trace) + TimerCalls(d, old(states[d]), canceled) &&
              OnlyWithin(Id(d, SHORT), Id(d, ALONE), old(calls), calls, old(kernel.pressing), kernel.pressing) &&
              states == old(states)[d := old(states[d]).(period := states[d].period, decreased := states[d].decreased)] &&
              states[d].period == NextPeriod(old(states[d].period), canceled) &&
              timerArmed == (old(timerArmed) || (old(states[d].period).NoPeriod? && configs[d].longLongEnabled))
      ensures Balance() == old(Balance())
    {
      var d := target.value;
      match states[d].period
      case NoPeriod =>
        BeginPeriod(d, LONG, OtherEvent, {});
        if configs[d].longLongEnabled {
          timerArmed := true;
        }
      case LongPeriod =>
        Lengthen(d, canceled);
      case ShortPeriod =>
      case LongLongPeriod =>
    }

    method Lengthen(d: nat, canceled: bool)
      requires InPeriod() && d < |states| && states[d].period.LongPeriod?
      modifies this`states, this`calls, this`trace,
               kernel`items, kernel`pressing, kernel`pushed, kernel`timerArmed, kernel`timerTarget, kernel`snapshot
      ensures InPeriod()
      ensures trace == old(trace) + TimerCalls(d, old(states[d]), canceled)
      ensures OnlyWithin(Id(d, SHORT), Id(d, ALONE), old(calls), calls, old(kernel.pressing), kernel.pressing)
      ensures states == old(states)[d := old(states[d]).(period := NextPeriod(LongPeriod, canceled),
                                                         decreased := states[d].decreased)]
      ensures Balance() == old(Balance())
    {
      EndPeriod(d, LONG);
      if !canceled {
        BeginPeriod(d, LONG_LONG, OtherEvent, {});
      }
    }

    /** `changePressingState` of the instance's own key; while it is pressed, it does not count as a modifier. */
    method TakeFrom(d: nat, down: bool) returns (changed: bool)
      requires Ok() && d < |states|
      modifies kernel`items, kernel`pressing
      ensures Ok() && Balance() == old(Balance())
      ensures changed == if down then AllOn(old(kernel.items), kernel.rules[Id(d, FROM)].fromFlags)
                         else Id(d, FROM) in old(kernel.pressing)
      ensures kernel.pressing == if changed then Pressed(old(kernel.pressing), Id(d, FROM), down) else old(kernel.pressing)
      ensures OnlyWithin(Id(d, FROM), Id(d, FROM), calls, calls, old(kernel.pressing), kernel.pressing)
      ensures Presses(Id(d, FROM)) == old(Presses(Id(d, FROM))) + if changed then Signed(down, 1) else 0
    {
      var x := Id(d, FROM);
      var rule := kernel.rules[x];
      changed := kernel.ChangePressingState(x, KeyEvent(rule.from, down));
      if changed {
        kernel.Adjust(if down then Decrease else Increase, rule.fromFlag, {});
        PressedMultiset(old(kernel.pressing), x, down);
        TakeKeepsResidue(old(kernel.pressing), x, down, old(kernel.items));
        TakeSends(kernel.rules, old(kernel.pressing), x, down, kernel.pushed);
      }
    }

    lemma TakeKeepsResidue(pressing0: seq<nat>, x: nat, down: bool, items0: seq<Item>)
      requires kernel.Ok() && Within(pressing0, |kernel.rules|) && x < |kernel.rules| && (down || x in pressing0)
      requires kernel.rules[x].toKeys == [] && kernel.rules[x].increaseFlags == []
      requires kernel.pressing == Pressed(pressing0, x, down) && kernel.Carries(items0)
      requires forall i :: 0 <= i < |kernel.flags| && kernel.flags[i] != CAPSLOCK ==>
        kernel.items[i].count == items0[i].count + if kernel.flags[i] == kernel.rules[x].fromFlag then Signed(!down, 1) else 0
      ensures kernel.Residues() == ResidueOf(kernel.rules, pressing0, items0)
    {
      forall i | 0 <= i < |kernel.flags| {
        TotalPressed(kernel.rules, pressing0, x, down, Count(kernel.flags[i]));
      }
    }

    /** The rule around the whole press, with the modifiers of the condition suppressed meanwhile. */
    method CallAround(d: nat, down: bool)
      requires InPeriod() && d < |states| && Open(Id(d, AROUND)) == !down
      modifies this`states, this`calls, this`trace,
               kernel`items, kernel`pressing, kernel`pushed, kernel`timerArmed, kernel`timerTarget, kernel`snapshot
      ensures InPeriod() && Open(Id(d, AROUND)) == down
      ensures trace == old(trace) + [Call(Edge(Id(d, AROUND), down), true, false)]
      ensures OnlyWithin(Id(d, AROUND), Id(d, AROUND), old(calls), calls, old(kernel.pressing), kernel.pressing)
      ensures states == old(states)[d := old(states[d]).(decreased := false, saved := states[d].saved)]
      // The saved modifiers are those while the condition's are suppressed.
      ensures if down then kernel.items == Applied(states[d].saved, Increase, ZERO, configs[d].pure)
              else states[d].saved == old(states[d]).saved
      ensures Balance() == old(Balance())
    {
      CallSuppressed(d, down);
      ForcePure(d, false);
    }

    method CallSuppressed(d: nat, down: bool)
      requires InPeriod() && d < |states| && Open(Id(d, AROUND)) == !down
      modifies this`states, this`calls, this`trace,
               kernel`items, kernel`pressing, kernel`pushed, kernel`timerArmed, kernel`timerTarget, kernel`snapshot
      ensures InPeriod() && Open(Id(d, AROUND)) == down
      ensures trace == old(trace) + [Call(Edge(Id(d, AROUND), down), true, false)]
      ensures OnlyWithin(Id(d, AROUND), Id(d, AROUND), old(calls), calls, old(kernel.pressing), kernel.pressing)
      ensures states == old(states)[d := old(states[d]).(decreased := true,
                                                         saved := if down then kernel.items else old(states[d]).saved)]
      ensures Balance() == old(Balance())
    {
      assert Keys(d, states[d].period, calls, kernel.pressing);
      ManipulatePureFromModifierFlags(d, AROUND, true, true);
      CallPseudo(d, AROUND, down, false);
      AfterOutside(d, AROUND, old(states), states, old(calls), calls, old(kernel.pressing), kernel.pressing);
      if down {
        SetState(d, states[d].(saved := kernel.items));
      }
    }

    /** A taken press: the instance becomes the target and starts the timer, or is long at once. */
    method Begin(d: nat)
      requires Inv() && d < |states| && !Open(Id(d, AROUND)) && states[d].period.NoPeriod?
      requires forall e :: 0 <= e < |states| ==> !states[e].active
      modifies this, kernel`items, kernel`pressing, kernel`pushed, kernel`timerArmed, kernel`timerTarget, kernel`snapshot
      ensures Inv() && Open(Id(d, AROUND))
      ensures trace == old(trace) + BeginCalls(configs[d], d)
      ensures states == old(states)[d := states[d]] && states[d].active && target == Some(d)
      ensures states[d].period == if configs[d].shortMs == 0 then LongPeriod else NoPeriod
      ensures timerArmed == (configs[d].shortMs != 0 || configs[d].longLongEnabled)
      ensures OnlyWithin(Id(d, SHORT), Id(d, AROUND), old(calls), calls, old(kernel.pressing), kernel.pressing)
      ensures Balance() == old(Balance())
    {
      BecomeTarget(d);
      StartTimer(d, old(calls), old(kernel.pressing));
      ActivityBegun(d, old(states), states, timerArmed, registered);
      registered := Registered(registered, d);
    }

    method BecomeTarget(d: nat)
      requires InPeriod() && d < |states| && !Open(Id(d, AROUND)) && states[d].period.NoPeriod?
      modifies this`states, this`calls, this`trace, this`target,
               kernel`items, kernel`pressing, kernel`pushed, kernel`timerArmed, kernel`timerTarget, kernel`snapshot
      ensures InPeriod() && Open(Id(d, AROUND)) && target == Some(d)
      ensures trace == old(trace) + [Call(Edge(Id(d, AROUND), true), true, false)]
      ensures states == old(states)[d := states[d]] && states[d].active && states[d].period.NoPeriod?
      ensures OnlyWithin(Id(d, AROUND), Id(d, AROUND), old(calls), calls, old(kernel.pressing), kernel.pressing)
      ensures Balance() == old(Balance())
    {
      target := Some(d);
      SetState(d, states[d].(active := true, period := NoPeriod));
      CallAround(d, true);
    }

    method StartTimer(d: nat, ghost calls0: seq<Edge>, ghost pressing0: seq<nat>)
      requires InPeriod() && d < |states| && target == Some(d) && states[d].period.NoPeriod?
      requires OnlyWithin(Id(d, AROUND), Id(d, AROUND), calls0, calls, pressing0, kernel.pressing)
      modifies this`states, this`calls, this`trace, this`timerArmed,
               kernel`items, kernel`pressing, kernel`pushed, kernel`timerArmed, kernel`timerTarget, kernel`snapshot
      ensures InPeriod() && states == old(states)[d := states[d]] && states[d].active == old(states[d].active)
      ensures trace == old(trace) + if configs[d].shortMs == 0 then [Press(d, LONG)] else []
      ensures states[d].period == if configs[d].shortMs == 0 then LongPeriod else NoPeriod
      ensures timerArmed == (old(timerArmed) || configs[d].shortMs != 0 || configs[d].longLongEnabled)
      ensures OpenIn(calls, Id(d, AROUND)) == OpenIn(old(calls), Id(d, AROUND))
      ensures OnlyWithin(Id(d, SHORT), Id(d, AROUND), calls0, calls, pressing0, kernel.pressing)
      ensures Balance() == old(Balance())
    {
      if configs[d].shortMs == 0 {
        FireTimer(false);
        OnlyWithinTwice(Id(d, AROUND), Id(d, AROUND), Id(d, SHORT), Id(d, ALONE), Id(d, SHORT), Id(d, AROUND),
                        calls0, old(calls), calls, pressing0, old(kernel.pressing), kernel.pressing);
      } else {
        timerArmed := true;
      }
    }

    /** A taken release: the current period is left, then the rule around the press. */
    method Finish(d: nat, alone: bool)
      requires Inv() && d < |states| && Open(Id(d, AROUND))
      modifies this, kernel`items, kernel`pressing, kernel`pushed, kernel`timerArmed, kernel`timerTarget, kernel`snapshot
      ensures Inv() && !Open(Id(d, AROUND))
      ensures trace == old(trace) + FinishCalls(kernel.rules, configs[d], d, old(states[d]), alone)
      ensures states == old(states)[d := states[d]] && !states[d].active && states[d].period.NoPeriod? && !states[d].decreased
      ensures OnlyWithin(Id(d, SHORT), Id(d, AROUND), old(calls), calls, old(kernel.pressing), kernel.pressing)
      ensures Balance() == old(Balance())
    {
      ghost var interrupt, leave := InterruptCalls(d, states[d]),
                                    LeaveCalls(configs[d], d, Interrupt(kernel.rules, d, states[d]), alone);
      LeavePeriods(d, alone);
      ghost var calls1, pressing1 := calls, kernel.pressing;
      EndAround(d);
      TraceOfThree(old(trace), interrupt, leave, [Call(Edge(Id(d, AROUND), false), true, false)], trace);
      OnlyWithinTwice(Id(d, SHORT), Id(d, ALONE), Id(d, AROUND), Id(d, AROUND), Id(d, SHORT), Id(d, AROUND),
                      old(calls), calls1, calls, old(kernel.pressing), pressing1, kernel.pressing);
    }

    method EndAround(d: nat)
      requires Inv() && d < |states| && Open(Id(d, AROUND)) && !states[d].active
      modifies this`states, this`calls, this`trace, this`registered,
               kernel`items, kernel`pressing, kernel`pushed, kernel`timerArmed, kernel`timerTarget, kernel`snapshot
      ensures Inv() && !Open(Id(d, AROUND))
      ensures trace == old(trace) + [Call(Edge(Id(d, AROUND), false), true, false)]
      ensures states == old(states)[d := old(states[d]).(decreased := false)]
      ensures OnlyWithin(Id(d, AROUND), Id(d, AROUND), old(calls), calls, old(kernel.pressing), kernel.pressing)
      ensures Balance() == old(Balance())
    {
      CallAround(d, false);
      ActivityEnded(d, states, target, timerArmed, registered);
      registered := Unregistered(registered, d);
    }

    /** A press that is still waiting becomes a short one, and then every period is left. */
    method LeavePeriods(d: nat, alone: bool)
      requires Inv() && d < |states|
      modifies this`states, this`calls, this`trace, this`timerArmed,
               kernel`items, kernel`pressing, kernel`pushed, kernel`timerArmed, kernel`timerTarget, kernel`snapshot
      ensures Inv()
      ensures trace == old(trace) + InterruptCalls(d, old(states[d])) +
                       LeaveCalls(configs[d], d, Interrupt(kernel.rules, d, old(states[d])), alone)
      ensures OnlyWithin(Id(d, SHORT), Id(d, ALONE), old(calls), calls, old(kernel.pressing), kernel.pressing)
      ensures states == old(states)[d := states[d]] && !states[d].active && states[d].period.NoPeriod?
      ensures Balance() == old(Balance())
    {
      DoKeyDown(d, KeyEvent(kernel.rules[Id(d, FROM)].from, false), {});
      ghost var calls1, pressing1 := calls, kernel.pressing;
      DoKeyUp(d, alone);
      OnlyWithinTwice(Id(d, SHORT), Id(d, SHORT), Id(d, SHORT), Id(d, ALONE), Id(d, SHORT), Id(d, ALONE),
                      old(calls), calls1, calls, old(kernel.pressing), pressing1, kernel.pressing);
    }

    /** `remap` for a press of the instance's own key. */
    method RemapDown(d: nat) returns (taken: bool)
      requires Valid() && d < |states| && !Held(d)
      requires forall e :: 0 <= e < |states| ==> !states[e].active
      modifies this, kernel`items, kernel`pressing, kernel`pushed, kernel`timerArmed, kernel`timerTarget, kernel`snapshot
      ensures Valid() && |states| == |old(states)|
      ensures taken <==> AllOn(old(kernel.items), kernel.rules[Id(d, FROM)].fromFlags)
      ensures taken ==>
        Held(d) && states[d].active && target == Some(d) && trace == old(trace) + BeginCalls(configs[d], d) &&
        states[d].period == (if configs[d].shortMs == 0 then LongPeriod else NoPeriod) &&
        timerArmed == (configs[d].shortMs != 0 || configs[d].longLongEnabled)
      ensures !taken ==> !Held(d) && trace == old(trace) && states == old(states) && timerArmed == old(timerArmed)
      ensures SameHeldBut(d, |states|, old(kernel.pressing), kernel.pressing)
    {
      assert IsSettled(d, states[d], calls, kernel.pressing);
      taken := TakeFrom(d, true);
      if taken {
        KeysAfterTake(d, states, calls, old(kernel.pressing), kernel.pressing);
        ghost var pressing1 := kernel.pressing;
        Begin(d);
        OwnKeyDone(d, old(states), states, old(calls), calls, old(kernel.pressing), pressing1, kernel.pressing);
      }
    }

    /** `remap` for the release of the instance's own key: everything is let go. */
    method RemapUp(d: nat, alone: bool) returns (taken: bool)
      requires Valid() && d < |states|
      modifies this, kernel`items, kernel`pressing, kernel`pushed, kernel`timerArmed, kernel`timerTarget, kernel`snapshot
      ensures Valid() && |states| == |old(states)|
      ensures taken == old(Held(d)) && !Held(d) && SameHeldBut(d, |states|, old(kernel.pressing), kernel.pressing)
      ensures trace == old(trace) +
        if taken then FinishCalls(kernel.rules, configs[d], d, old(states[d]), alone) else []
    {
      assert IsSettled(d, states[d], calls, kernel.pressing);
      taken := TakeFrom(d, false);
      if taken {
        KeysAfterTake(d, states, calls, old(kernel.pressing), kernel.pressing);
        ghost var pressing1 := kernel.pressing;
        Finish(d, alone);
        OwnKeyDone(d, old(states), states, old(calls), calls, old(kernel.pressing), pressing1, kernel.pressing);
      }
    }

    /** Tell one registered instance that something else happened. */
    method PrepareOne(d: nat, event: Event, targets: set<nat>)
      requires Valid() && d < |states|
      modifies this`states, this`calls, this`trace, this`timerArmed,
               kernel`items, kernel`pressing, kernel`pushed, kernel`timerArmed, kernel`timerTarget, kernel`snapshot
      ensures Valid() && states == old(states)[d := Interrupt(kernel.rules, d, old(states[d]))]
      ensures trace == old(trace) + InterruptCalls(d, old(states[d]))
      ensures timerArmed == (old(timerArmed) && !old(states[d].active))
      ensures SameHeld(|states|, old(kernel.pressing), kernel.pressing)
    {
      assert IsSettled(d, states[d], calls, kernel.pressing);
      DoKeyDown(d, event, targets);
      InterruptSettled(kernel.rules, d, old(states[d]), old(calls), calls, old(kernel.pressing), kernel.pressing);
      SettledAgain(d, old(states), states, old(calls), calls, old(kernel.pressing), kernel.pressing);
    }

    /** `RemapClassManager::prepare`: before a key press is handled, every instance that is still waiting hears about
        it; the scroll wheel interrupts only those that allow it. */
    method Prepare(scroll: bool, event: Event, targets: set<nat>)
      requires Valid()
      modifies this`states, this`calls, this`trace, this`timerArmed,
               kernel`items, kernel`pressing, kernel`pushed, kernel`timerArmed, kernel`timerTarget, kernel`snapshot
      ensures Valid() && |states| == |old(states)|
      ensures SameHeld(|states|, old(kernel.pressing), kernel.pressing)
      ensures Heard(kernel.rules, configs, target, scroll, old(states), states, old(trace), trace)
      ensures timerArmed == (old(timerArmed) && !Hears(configs, old(states), target, scroll))
      ensures !scroll ==> forall e :: 0 <= e < |states| ==> !states[e].active
    {
      ghost var rest := registered;
      for k := 0 to |registered|
        invariant Valid() && rest == registered[k..]
        invariant Announcing(scroll, old(states), old(trace), old(timerArmed), old(kernel.pressing), rest)
      {
        PrepareNext(registered[k], scroll, event, targets, old(states), old(trace), old(timerArmed), old(kernel.pressing),
                    rest);
        rest := rest[1..];
      }
      PrepareRules(event);
      NoneActive(kernel.rules, configs, target, scroll, old(states), states, old(trace), trace);
    }

    /** How far the instances have heard; `rest` is the part of the list that is still to come. */
    ghost predicate Announcing(scroll: bool, states0: seq<State>, trace0: seq<Call>, armed0: bool, pressing0: seq<nat>,
                               rest: seq<nat>)
      requires Ok()
      reads this, kernel
    {
      |states| == |states0| && SameHeld(|states|, pressing0, kernel.pressing) &&
      Hearing(kernel.rules, configs, target, scroll, states0, states, trace0, trace, armed0, timerArmed, rest)
    }

    method PrepareNext(d: nat, scroll: bool, event: Event, targets: set<nat>, ghost states0: seq<State>,
                       ghost trace0: seq<Call>, ghost armed0: bool, ghost pressing0: seq<nat>, ghost rest: seq<nat>)
      requires Valid() && rest != [] && rest[0] == d < |states|
      requires Announcing(scroll, states0, trace0, armed0, pressing0, rest)
      modifies this`states, this`calls, this`trace, this`timerArmed,
               kernel`items, kernel`pressing, kernel`pushed, kernel`timerArmed, kernel`timerTarget, kernel`snapshot
      ensures Valid() && Announcing(scroll, states0, trace0, armed0, pressing0, rest[1..])
    {
      PrepareRules(event);
      HearingNext(kernel.rules, configs, target, scroll, states0, states, trace0, trace, armed0, timerArmed, rest);
      if !scroll || configs[d].interruptibleByScrollWheel {
        PrepareOne(d, event, targets);
      }
    }

    /** Key-to-key rules may stand anywhere among the instances in the list of those that hear about the event.  The
        first of them ends the delayed action they share, so one call covers any number of neighbours. */
    method PrepareRules(event: Event)
      requires Valid()
      modifies kernel`items, kernel`pushed, kernel`timerArmed
      ensures Valid()
    {
      var r: nat, targets: set<nat> := *, *;
      if r < |kernel.rules| {
        PrepareRule(r, event, targets);
      }
    }

    /** A key-to-key rule hears about an event: its delayed action is cancelled. */
    method PrepareRule(r: nat, event: Event, targets: set<nat>)
      requires Valid() && r < |kernel.rules|
      modifies kernel`items, kernel`pushed, kernel`timerArmed
      ensures Valid()
    {
      ghost var k := kernel.Prepare(r, event, targets);
    }

    /** The timer of the delayed actions, shared by all key-to-key rules, embedded ones included, runs out. */
    method DelayedActionExpired()
      requires Valid() && kernel.timerArmed
      modifies kernel`items, kernel`pushed, kernel`timerArmed
      ensures Valid()
    {
      kernel.Timer();
    }

    /** A virtual key handler changes locks, stickies and lazies. */
    method HandleVirtualKey()
      requires Valid()
      modifies kernel`items
      ensures Valid()
    {
      kernel.Disturb();
    }

    /** `FlagStatus::set`: a physical modifier moved. */
    method SetPhysical(flag: ModifierFlag, on: bool)
      requires Valid()
      modifies kernel`items, kernel`physical
      ensures Valid() && PhysicalMoved(kernel.flags, old(kernel.physical), kernel.physical, flag, on)
    {
      kernel.SetPhysical(flag, on);
    }

    /** The shared timer fires. */
    method TimerExpired(canceled: bool)
      requires Valid() && timerArmed
      modifies this, kernel`items, kernel`pressing, kernel`pushed, kernel`timerArmed, kernel`timerTarget, kernel`snapshot
      ensures Valid() && |states| == |old(states)|
      ensures target == old(target)
      ensures var d := old(target).value;
              trace == old(trace) + TimerCalls(d, old(states[d]), canceled) &&
              states == old(states)[d := old(states[d]).(period := NextPeriod(old(states[d].period), canceled),
                                                         decreased := states[d].decreased)] &&
              timerArmed == (old(states[d].period).NoPeriod? && configs[d].longLongEnabled)
      ensures SameHeld(|states|, old(kernel.pressing), kernel.pressing)
    {
      var d := target.value;
      assert IsSettled(d, states[d], calls, kernel.pressing);
      timerArmed := false;
      FireTimer(canceled);
      assert Activity(states, target, timerArmed, registered);
      OnlyWithinTwice(Id(d, SHORT), Id(d, ALONE), Id(d, SHORT), Id(d, ALONE), Id(d, SHORT), Id(d, AROUND),
                      old(calls), calls, calls, old(kernel.pressing), kernel.pressing, kernel.pressing);
      HeldKept(d, |states|, old(calls), calls, old(kernel.pressing), kernel.pressing);
      SettledAgain(d, old(states), states, old(calls), calls, old(kernel.pressing), kernel.pressing);
    }

    /** An ordinary rule handles an event of its own. */
    method OrdinaryRule(r: nat, event: Event)
      requires Valid() && 6 * |configs| <= r < |kernel.rules|
      modifies kernel`items, kernel`pressing, kernel`pushed, kernel`timerArmed, kernel`timerTarget, kernel`snapshot
      ensures Valid() && SameHeld(|states|, old(kernel.pressing), kernel.pressing)
    {
      var taken := kernel.RemapKeepsResidue(r, event);
      if taken {
        OrdinaryKept(states, calls, old(kernel.pressing), r, event.down);
      }
    }

    /** What the invariant says at any moment: an instance whose key is up has no press outstanding, and with no
        press outstanding at all the counts are the physical ones. */
    lemma AllReleased()
      requires Valid()
      ensures forall d, part :: 0 <= d < |states| && !Held(d) && FROM <= part <= AROUND ==> Id(d, part) !in kernel.pressing
      ensures forall d :: 0 <= d < |states| && !Held(d) ==>
        !states[d].active && !states[d].decreased && states[d].period.NoPeriod?
      ensures kernel.pressing == [] ==>
        forall i :: 0 <= i < |kernel.flags| && kernel.flags[i] != CAPSLOCK ==> kernel.items[i].count == kernel.physical[i]
    {
      forall d, part | 0 <= d < |states| && !Held(d) && FROM <= part <= AROUND
        ensures Id(d, part) !in kernel.pressing
      {
        assert IsSettled(d, states[d], calls, kernel.pressing);
        assert Keys(d, states[d].period, calls, kernel.pressing);
        assert multiset(kernel.pressing)[Id(d, part)] == 0;
      }
      forall d | 0 <= d < |states| && !Held(d)
        ensures !states[d].active && !states[d].decreased && states[d].period.NoPeriod?
      {
        assert IsSettled(d, states[d], calls, kernel.pressing);
      }
      if kernel.pressing == [] {
        forall i | 0 <= i < |kernel.flags| && kernel.flags[i] != CAPSLOCK
          ensures kernel.items[i].count == kernel.physical[i]
        {
          forall d | 0 <= d < |states|
            ensures !states[d].decreased
          {
            assert IsSettled(d, states[d], calls, kernel.pressing);
          }
          NothingLowered(configs, states, kernel.flags[i]);
          assert Balance()[i] == kernel.physical[i];
        }
      }
    }

    /** All instances hear about an event; `heard` is what is called because of it. */
    method Announce(scroll: bool, event: Event, targets: set<nat>) returns (ghost heard: seq<Call>)
      requires Valid()
      modifies this`states, this`calls, this`trace, this`timerArmed,
               kernel`items, kernel`pressing, kernel`pushed, kernel`timerArmed, kernel`timerTarget, kernel`snapshot
      ensures Valid() && |states| == |old(states)|
      ensures trace == old(trace) + heard && HeardEdges(configs, Edges(old(trace)), scroll, Edges(heard))
      ensures SameHeld(|states|, old(kernel.pressing), kernel.pressing)
      ensures !scroll ==> forall e :: 0 <= e < |states| ==> !states[e].active
    {
      Prepare(scroll, event, targets);
      heard := HeardSeen(kernel.rules, configs, old(target), scroll, old(states), states, old(trace), trace,
                         old(calls), old(kernel.pressing));
    }

    /** The own key of an instance goes down: all waiting instances, this one included, hear about it first. */
    method PressOwnKey(d: nat, flag: ModifierFlag)
      requires Valid() && d < |states| && !Held(d)
      modifies this, kernel
      ensures Valid() && |states| == |old(states)|
      ensures StepLaw(configs, OwnKeyDown(d, flag), old(trace), trace)
      ensures PhysicalMoved(kernel.flags, old(kernel.physical), kernel.physical, flag, true)
      ensures forall e :: 0 <= e < |states| && e != d ==> Held(e) == old(Held(e))
    {
      ghost var heard := Announce(false, KeyEvent(kernel.rules[Id(d, FROM)].from, true), {});
      assert !Held(d) by {
        assert multiset(old(kernel.pressing))[Id(d, FROM)] == multiset(kernel.pressing)[Id(d, FROM)];
      }
      SetPhysical(flag, true);
      var taken := RemapDown(d);
      OwnKeyLaw(d, flag, heard, if taken then BeginCalls(configs[d], d) else [], old(trace), trace);
    }

    lemma OwnKeyLaw(d: nat, flag: ModifierFlag, heard: seq<Call>, begun: seq<Call>, trace0: seq<Call>, trace': seq<Call>)
      requires d < |configs| && trace' == trace0 + heard + begun
      requires HeardEdges(configs, Edges(trace0), false, Edges(heard))
      requires begun == [] || begun == BeginCalls(configs[d], d)
      ensures StepLaw(configs, OwnKeyDown(d, flag), trace0, trace')
    {
      EdgesAppend(heard, begun);
      var gained := Edges(heard + begun);
      assert gained[..|heard|] == Edges(heard) && gained[|heard|..] == Edges(begun);
      assert Edges(BeginCalls(configs[d], d)) == BeginEdges(configs[d], d);
      assert trace' == trace0 + (heard + begun);
      LawOf(configs, OwnKeyDown(d, flag), trace0, heard + begun, trace');
    }

    lemma FinishGains(d: nat, flag: ModifierFlag, alone: bool) returns (gained: seq<Call>)
      requires Valid() && d < |states|
      ensures gained == if Held(d) then FinishCalls(kernel.rules, configs[d], d, states[d], alone) else []
      ensures Gains(configs, OwnKeyUp(d, flag, alone), Edges(trace), Edges(gained))
    {
      assert Keys(d, states[d].period, calls, kernel.pressing) && IsSettled(d, states[d], calls, kernel.pressing);
      StateSeen(d, states[d], calls, kernel.pressing);
      gained := [];
      if Held(d) {
        gained := FinishCalls(kernel.rules, configs[d], d, states[d], alone);
        FinishSeen(kernel.rules, configs[d], d, states[d], alone, calls, kernel.pressing);
      }
    }

    method ReleaseOwnKey(d: nat, flag: ModifierFlag, alone: bool)
      requires Valid() && d < |states|
      modifies this, kernel
      ensures Valid() && |states| == |old(states)|
      ensures StepLaw(configs, OwnKeyUp(d, flag, alone), old(trace), trace)
      ensures PhysicalMoved(kernel.flags, old(kernel.physical), kernel.physical, flag, false)
      ensures !Held(d) && forall e :: 0 <= e < |states| && e != d ==> Held(e) == old(Held(e))
    {
      SetPhysical(flag, false);
      ghost var gained := FinishGains(d, flag, alone);
      var taken := RemapUp(d, alone);
      LawOf(configs, OwnKeyUp(d, flag, alone), old(trace), gained, trace);
    }

    method PressOtherKey(event: Event, targets: set<nat>, flag: ModifierFlag)
      requires Valid()
      modifies this, kernel
      ensures Valid() && |states| == |old(states)|
      ensures StepLaw(configs, OtherKeyDown(event, targets, flag), old(trace), trace)
      ensures PhysicalMoved(kernel.flags, old(kernel.physical), kernel.physical, flag, true)
      ensures forall e :: 0 <= e < |states| ==> Held(e) == old(Held(e))
    {
      ghost var heard := Announce(false, event, targets);
      LawOf(configs, OtherKeyDown(event, targets, flag), old(trace), heard, trace);
      SetPhysical(flag, true);
    }

    /** One thing that happens to the instances. */
    method Do(step: PeriodStep)
      requires Valid() && step.Fits(|configs|, |kernel.rules|)
      requires step.OwnKeyDown? ==> !Held(step.d)
      modifies this, kernel
      ensures Valid() && |states| == |old(states)| && StepLaw(configs, step, old(trace), trace)
      ensures PhysicalMoved(kernel.flags, old(kernel.physical), kernel.physical, step.MovedFlag(), step.MovedOn())
      ensures forall e :: 0 <= e < |states| && Held(e) ==>
        (old(Held(e)) || (step.OwnKeyDown? && step.d == e)) && !(step.OwnKeyUp? && step.d == e)
    {
      if step.OwnKeyDown? || step.OwnKeyUp? {
        MoveOwnKey(step);
      } else if step.OtherKeyDown? || step.OtherKeyUp? {
        MoveOtherKey(step);
      } else {
        MoveNothing(step);
      }
    }

    method MoveOwnKey(step: PeriodStep)
      requires Valid() && step.Fits(|configs|, |kernel.rules|) && (step.OwnKeyDown? || step.OwnKeyUp?)
      requires step.OwnKeyDown? ==> !Held(step.d)
      modifies this, kernel
      ensures Valid() && |states| == |old(states)| && StepLaw(configs, step, old(trace), trace)
      ensures PhysicalMoved(kernel.flags, old(kernel.physical), kernel.physical, step.flag, step.OwnKeyDown?)
      ensures forall e :: 0 <= e < |states| && e != step.d ==> Held(e) == old(Held(e))
      ensures step.OwnKeyUp? ==> !Held(step.d)
    {
      if step.OwnKeyDown? {
        PressOwnKey(step.d, step.flag);
      } else {
        ReleaseOwnKey(step.d, step.flag, step.alone);
      }
    }

    method MoveOtherKey(step: PeriodStep)
      requires Valid() && (step.OtherKeyDown? || step.OtherKeyUp?)
      modifies this, kernel
      ensures Valid() && |states| == |old(states)| && StepLaw(configs, step, old(trace), trace)
      ensures PhysicalMoved(kernel.flags, old(kernel.physical), kernel.physical, step.flag, step.OtherKeyDown?)
      ensures forall e :: 0 <= e < |states| ==> Held(e) == old(Held(e))
    {
      if step.OtherKeyDown? {
        PressOtherKey(step.event, step.targets, step.flag);
      } else {
        SetPhysical(step.flag, false);
        LawOf(configs, step, old(trace), [], trace);
      }
    }

    /** What happens without a key: the wheel, the timers, rules and virtual keys. */
    method MoveNothing(step: PeriodStep)
      requires Valid() && step.Fits(|configs|, |kernel.rules|)
      requires !(step.OwnKeyDown? || step.OwnKeyUp? || step.OtherKeyDown? || step.OtherKeyUp?)
      modifies this, kernel`items, kernel`pressing, kernel`pushed, kernel`timerArmed, kernel`timerTarget, kernel`snapshot
      ensures Valid() && |states| == |old(states)| && StepLaw(configs, step, old(trace), trace)
      ensures SameHeld(|states|, old(kernel.pressing), kernel.pressing)
    {
      if step.ScrollWheel? {
        TurnWheel();
      } else if step.Timeout? && timerArmed {
        RunOut(step.canceled);
      } else {
        MoveRules(step);
        LawOf(configs, step, old(trace), [], trace);
      }
    }

    method TurnWheel()
      requires Valid()
      modifies this, kernel`items, kernel`pressing, kernel`pushed, kernel`timerArmed, kernel`timerTarget, kernel`snapshot
      ensures Valid() && |states| == |old(states)| && StepLaw(configs, ScrollWheel, old(trace), trace)
      ensures SameHeld(|states|, old(kernel.pressing), kernel.pressing)
    {
      ghost var heard := Announce(true, OtherEvent, {});
      LawOf(configs, ScrollWheel, old(trace), heard, trace);
    }

    method RunOut(canceled: bool)
      requires Valid() && timerArmed
      modifies this, kernel`items, kernel`pressing, kernel`pushed, kernel`timerArmed, kernel`timerTarget, kernel`snapshot
      ensures Valid() && |states| == |old(states)| && StepLaw(configs, Timeout(canceled), old(trace), trace)
      ensures SameHeld(|states|, old(kernel.pressing), kernel.pressing)
    {
      ghost var d := target.value;
      assert Keys(d, states[d].period, calls, kernel.pressing) && IsSettled(d, states[d], calls, kernel.pressing);
      StateSeen(d, states[d], calls, kernel.pressing);
      TimerExpired(canceled);
      assert Edges(TimerCalls(d, old(states[d]), canceled)) == TimerEdges(old(calls), d, canceled);
      LawOf(configs, Timeout(canceled), old(trace), TimerCalls(d, old(states[d]), canceled), trace);
    }

    method MoveRules(step: PeriodStep)
      requires Valid() && step.Fits(|configs|, |kernel.rules|)
      modifies kernel`items, kernel`pressing, kernel`pushed, kernel`timerArmed, kernel`timerTarget, kernel`snapshot
      ensures Valid() && SameHeld(|states|, old(kernel.pressing), kernel.pressing)
    {
      match step
      case Ordinary(r, event) =>
        OrdinaryRule(r, event);
      case DelayedTimeout =>
        if kernel.timerArmed {
          DelayedActionExpired();
        }
      case DelayedPrepare(r, event, targets) =>
        PrepareRule(r, event, targets);
      case VirtualKeyHandled =>
        HandleVirtualKey();
      case _ =>
    }
  }

  /** `registerPrepareTargetItem` moves an instance to the end of the list. */
  function Registered(s: seq<nat>, d: nat): (r: seq<nat>)
    ensures forall e :: e in r <==> e in s || e == d
    ensures forall k :: 0 <= k < |r| ==> r[k] in s || r[k] == d
  {
    Unregistered(s, d) + [d]
  }

  /** Own keys are held after as before. */
  ghost predicate SameHeld(instances: nat, pressing: seq<nat>, pressing': seq<nat>) {
    forall d :: 0 <= d < instances ==> multiset(pressing)[Id(d, FROM)] == multiset(pressing')[Id(d, FROM)]
  }

  /** After the own key has been taken and everything about its instance has been done. */
  lemma OwnKeyDone(d: nat, before: seq<State>, after: seq<State>, calls: seq<Edge>, calls': seq<Edge>,
                   pressing: seq<nat>, pressing1: seq<nat>, pressing': seq<nat>)
    requires d < |after| == |before| && forall e :: 0 <= e < |after| && e != d ==> after[e] == before[e]
    requires OnlyWithin(Id(d, FROM), Id(d, FROM), calls, calls, pressing, pressing1)
    requires OnlyWithin(Id(d, SHORT), Id(d, AROUND), calls, calls', pressing1, pressing')
    requires AllSettled(before, calls, pressing) && IsSettled(d, after[d], calls', pressing')
    ensures AllSettled(after, calls', pressing') && SameHeldBut(d, |after|, pressing, pressing')
  {
    OnlyWithinTwice(Id(d, FROM), Id(d, FROM), Id(d, SHORT), Id(d, AROUND), Id(d, FROM), Id(d, AROUND),
                    calls, calls, calls', pressing, pressing1, pressing');
    SettledAgain(d, before, after, calls, calls', pressing, pressing');
  }

  /** Own keys other than that of instance `d` are held after as before. */
  ghost predicate SameHeldBut(d: nat, instances: nat, pressing: seq<nat>, pressing': seq<nat>) {
    forall e :: 0 <= e < instances && e != d ==> multiset(pressing)[Id(e, FROM)] == multiset(pressing')[Id(e, FROM)]
  }

  lemma HeldKept(d: nat, instances: nat, calls: seq<Edge>, calls': seq<Edge>, pressing: seq<nat>, pressing': seq<nat>)
    requires OnlyWithin(Id(d, SHORT), Id(d, AROUND), calls, calls', pressing, pressing')
    ensures SameHeld(instances, pressing, pressing')
  {
  }

  ghost predicate PhysicalMoved(flags: seq<ModifierFlag>, before: seq<int>, after: seq<int>, flag: ModifierFlag, on: bool) {
    |before| == |after| == |flags| &&
    forall i :: 0 <= i < |flags| && flags[i] != CAPSLOCK ==> after[i] == before[i] + PhysicalStep(flag, on, flags[i])
  }

  /** What can happen: an instance's own key moves, another key moves, the wheel turns, the timer the instances share
      runs out, an ordinary rule handles an event, the timer of the delayed actions of all rules runs out or is
      cancelled by any event, a virtual key handler changes locks and stickies.  `flag` is the modifier the key stands for, ZERO if none. */
  datatype PeriodStep =
    | OwnKeyDown(d: nat, flag: ModifierFlag)
    | OwnKeyUp(d: nat, flag: ModifierFlag, alone: bool)
    | OtherKeyDown(event: Event, targets: set<nat>, flag: ModifierFlag)
    | OtherKeyUp(flag: ModifierFlag)
    | ScrollWheel
    | Timeout(canceled: bool)
    | Ordinary(r: nat, event: Event)
    | DelayedTimeout
    | DelayedPrepare(r: nat, event: Event, targets: set<nat>)
    | VirtualKeyHandled
  {
    predicate Fits(instances: nat, rules: nat) {
      ((OwnKeyDown? || OwnKeyUp?) ==> d < instances) && (Ordinary? ==> 6 * instances <= r < rules) &&
      (DelayedPrepare? ==> r < rules)
    }

    function MovedFlag(): ModifierFlag {
      if OwnKeyDown? || OwnKeyUp? || OtherKeyDown? || OtherKeyUp? then flag else ZERO
    }

    predicate MovedOn() { OwnKeyDown? || OtherKeyDown? }
  }

  /** Whether the own key of instance `d` is down after the script. */
  ghost predicate IsDown(script: seq<PeriodStep>, d: nat) {
    script != [] &&
    var last := script[|script| - 1];
    if last.OwnKeyDown? && last.d == d then true
    else if last.OwnKeyUp? && last.d == d then false
    else IsDown(script[..|script| - 1], d)
  }

  /** No key is pressed again before it is released. */
  ghost predicate NonOverlapping(script: seq<PeriodStep>) {
    forall k :: 0 <= k < |script| && script[k].OwnKeyDown? ==> !IsDown(script[..k], script[k].d)
  }

  function PhysicalTally(script: seq<PeriodStep>, f: ModifierFlag): int {
    if script == [] then 0
    else
      var last := script[|script| - 1];
      PhysicalTally(script[..|script| - 1], f) + PhysicalStep(last.MovedFlag(), last.MovedOn(), f)
  }

  /** Over every run: at most one instance is active and it is the target; an armed timer belongs to an active
      target; every embedded rule is called in strict alternation; an instance whose key is up has released
      everything; the keys held down are exactly those of the outstanding presses; and when nothing is pressed any
      more, every count is the physical one and every key sent down has been sent up. */
  method Run(kernel: Kernel, configs: seq<Config>, script: seq<PeriodStep>)
    returns (periods: Periods, ghost history: seq<seq<Call>>)
    requires kernel.Ok() && kernel.Law() && kernel.pressing == [] && WiredFor(kernel.rules, |configs|)
    requires forall i :: 0 <= i < |kernel.flags| ==> kernel.physical[i] == 0
    requires forall k :: 0 <= k < |script| ==> script[k].Fits(|configs|, |kernel.rules|)
    requires NonOverlapping(script)
    modifies kernel
    ensures fresh(periods) && periods.kernel == kernel && periods.Valid() && |periods.states| == |configs|
    ensures forall d :: 0 <= d < |configs| && periods.states[d].active ==> periods.target == Some(d)
    ensures periods.timerArmed ==> periods.target.Some? && periods.states[periods.target.value].active
    ensures Alternates(Edges(periods.trace))
    // What every step calls, given the calls before it.
    ensures |history| == |script| + 1 && history[|script|] == periods.trace && Lawful(configs, script, history)
    ensures forall d, part :: 0 <= d < |configs| && !IsDown(script, d) && FROM <= part <= AROUND ==>
      Id(d, part) !in kernel.pressing
    ensures forall d :: 0 <= d < |configs| && !IsDown(script, d) ==>
      !periods.states[d].active && !periods.states[d].decreased && periods.states[d].period.NoPeriod?
    ensures forall kind, code ::
      Net(kernel.pushed, kind, code) == Total(kernel.rules, kernel.pressing, HeldDown(kind, code))
    ensures kernel.pressing == [] ==>
      (forall i :: 0 <= i < |kernel.flags| && kernel.flags[i] != CAPSLOCK ==>
        kernel.items[i].count == PhysicalTally(script, kernel.flags[i])) &&
      forall kind, code :: Net(kernel.pushed, kind, code) == 0
  {
    periods := new Periods(kernel, configs);
    history := Play(periods, script);
    periods.AllReleased();
  }

  /** The steps so far have each kept the law. */
  ghost predicate Lawful(configs: seq<Config>, script: seq<PeriodStep>, history: seq<seq<Call>>) {
    0 < |history| <= |script| + 1 && history[0] == [] &&
    forall k :: 0 <= k < |history| - 1 ==> StepLaw(configs, script[k], history[k], history[k + 1])
  }

  lemma LawfulMore(configs: seq<Config>, script: seq<PeriodStep>, history: seq<seq<Call>>, trace: seq<Call>)
    requires Lawful(configs, script, history) && |history| <= |script|
    requires StepLaw(configs, script[|history| - 1], history[|history| - 1], trace)
    ensures Lawful(configs, script, history + [trace])
  {
  }

  method Play(periods: Periods, script: seq<PeriodStep>) returns (ghost history: seq<seq<Call>>)
    requires periods.Valid() && periods.trace == [] && periods.kernel.pressing == []
    requires forall k :: 0 <= k < |script| ==> script[k].Fits(|periods.configs|, |periods.kernel.rules|)
    requires NonOverlapping(script)
    requires forall i :: 0 <= i < |periods.kernel.flags| ==> periods.kernel.physical[i] == 0
    modifies periods, periods.kernel
    ensures periods.Valid() && |periods.states| == |periods.configs|
    ensures forall d :: 0 <= d < |periods.configs| && periods.Held(d) ==> IsDown(script, d)
    ensures forall i :: 0 <= i < |periods.kernel.flags| && periods.kernel.flags[i] != CAPSLOCK ==>
      periods.kernel.physical[i] == PhysicalTally(script, periods.kernel.flags[i])
    ensures |history| == |script| + 1 && history[|script|] == periods.trace && Lawful(periods.configs, script, history)
  {
    history := [[]];
    for k := 0 to |script|
      invariant periods.Valid() && |periods.states| == |periods.configs|
      invariant |history| == k + 1 && history[k] == periods.trace && Lawful(periods.configs, script, history)
      invariant forall d :: 0 <= d < |periods.configs| && periods.Held(d) ==> IsDown(script[..k], d)
      invariant forall i :: 0 <= i < |periods.kernel.flags| && periods.kernel.flags[i] != CAPSLOCK ==>
        periods.kernel.physical[i] == PhysicalTally(script[..k], periods.kernel.flags[i])
    {
      assert script[..k + 1][..k] == script[..k];
      periods.Do(script[k]);
      LawfulMore(periods.configs, script, history, periods.trace);
      history := history + [periods.trace];
    }
    assert script[..|script|] == script;
  }

  function Unregistered(s: seq<nat>, d: nat): (r: seq<nat>)
    ensures forall e :: e in r <==> e in s && e != d
    ensures forall k :: 0 <= k < |r| ==> r[k] in s
  {
    if s == [] then []
    else if s[0] == d then Unregistered(s[1..], d)
    else [s[0]] + Unregistered(s[1..], d)
  }
}
