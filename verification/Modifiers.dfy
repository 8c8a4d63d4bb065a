/** The modifier counters of the kernel (src/core/kext/Classes/FlagStatus.*).

    Every remapping rule raises and lowers shared per-modifier counters.  The functions say what each
    operation does to the vector of counters, and the class runs the source's loops and is proved to
    compute exactly those functions.  `ScopedSetter` temporarily makes the counters look like a snapshot.
 */
module Modifiers {
  type ModifierFlag = nat

  const ZERO: ModifierFlag := 0
  const CAPSLOCK: ModifierFlag := 1
  const NONE: ModifierFlag := 12

  /** One counter block per modifier. */
  datatype Item = Item(flag: ModifierFlag, count: int, temporary: int, lock: int, negativeLock: int,
                       sticky: int, lazy: int, lazyEnabled: bool)
  {
    function Sum(forceEnableLazy: bool): int {
      count + temporary + lock - negativeLock + sticky + if forceEnableLazy || lazyEnabled then lazy else 0
    }

    /** What one call of the named method does to this block. */
    function Do(op: Op): Item {
      match op
      case Increase => if flag == CAPSLOCK then this.(lock := Not(lock)) else this.(count := count + 1)
      case Decrease => if flag == CAPSLOCK then this else this.(count := count - 1)
      case TemporaryIncrease => this.(temporary := temporary + 1)
      case TemporaryDecrease => this.(temporary := temporary - 1)
      case LazyIncrease => this.(lazy := lazy + 1)
      case LazyDecrease => this.(lazy := lazy - 1)
      case LockIncrease => this.(lock := 1)
      case LockDecrease => this.(lock := 0)
      case LockToggle => this.(lock := Not(lock))
      case NegativeLockIncrease => this.(negativeLock := 1)
      case NegativeLockDecrease => this.(negativeLock := 0)
      case NegativeLockToggle => this.(negativeLock := Not(negativeLock))
      case StickyIncrease => this.(sticky := 1)
      case StickyDecrease => this.(sticky := 0)
      case StickyToggle => this.(sticky := Not(sticky))
    }

    /** `reset` forgets everything except the lock, negative lock and sticky states. */
    function Reset(): Item {
      this.(count := 0, temporary := 0, lazy := 0, lazyEnabled := false)
    }
  }

  datatype Op =
    | Increase | Decrease | TemporaryIncrease | TemporaryDecrease | LazyIncrease | LazyDecrease
    | LockIncrease | LockDecrease | LockToggle
    | NegativeLockIncrease | NegativeLockDecrease | NegativeLockToggle
    | StickyIncrease | StickyDecrease | StickyToggle

  /** C's logical negation of an int. */
  function Not(n: int): int { if n == 0 then 1 else 0 }

  /** The blocks a `FlagStatus` may hold: every modifier once, and never the null modifier. */
  ghost predicate WellFormed(items: seq<Item>) {
    (forall i :: 0 <= i < |items| ==> items[i].flag != ZERO && items[i].flag != NONE) &&
    (forall i, j :: 0 <= i < j < |items| ==> items[i].flag != items[j].flag)
  }

  predicate SameFlags(a: seq<Item>, b: seq<Item>) {
    |a| == |b| && forall i :: 0 <= i < |a| ==> a[i].flag == b[i].flag
  }

  /** A vector of modifiers is only ever searched, so the functions take it as a set. */
  function Members(flags: seq<ModifierFlag>): set<ModifierFlag> { set f | f in flags }

  /** The three overloads of a counter method: a modifier, a vector of modifiers, or both.  A block is
      touched once however often its modifier is named. */
  function Applied(items: seq<Item>, op: Op, flag: ModifierFlag, flags: set<ModifierFlag>): (r: seq<Item>)
    ensures |r| == |items|
    ensures forall i :: 0 <= i < |r| ==>
      r[i] == if items[i].flag == flag || items[i].flag in flags then items[i].Do(op) else items[i]
  {
    seq(|items|, i requires 0 <= i < |items| =>
      if items[i].flag == flag || items[i].flag in flags then items[i].Do(op) else items[i])
  }

  function ClearTemporary(items: seq<Item>): (r: seq<Item>)
    ensures |r| == |items|
    ensures forall i :: 0 <= i < |r| ==> r[i] == items[i].(temporary := 0)
  {
    seq(|items|, i requires 0 <= i < |items| => items[i].(temporary := 0))
  }

  /** `set(key, flags)`: temporaries go, and the block of the modifier key that moved counts it.  `flag`
      is the modifier of the key (ZERO for an ordinary key) and `on` whether its bits are set. */
  function KeySet(items: seq<Item>, flag: ModifierFlag, on: bool): (r: seq<Item>)
    ensures |r| == |items|
    ensures forall i :: 0 <= i < |r| ==>
      var a := items[i].(temporary := 0);
      r[i] == if a.flag != flag then a
              else if flag == CAPSLOCK then a.(lock := if on then 1 else 0)
              else a.Do(if on then Increase else Decrease)
  {
    seq(|items|, i requires 0 <= i < |items| =>
      var a := items[i].(temporary := 0);
      if a.flag != flag then a
      else if flag == CAPSLOCK then a.(lock := if on then 1 else 0)
      else a.Do(if on then Increase else Decrease))
  }

  function ResetAll(items: seq<Item>): (r: seq<Item>)
    ensures |r| == |items|
    ensures forall i :: 0 <= i < |r| ==> r[i] == items[i].Reset()
  {
    seq(|items|, i requires 0 <= i < |items| => items[i].Reset())
  }

  predicate FlagIsOn(items: seq<Item>, flag: ModifierFlag) {
    exists i :: 0 <= i < |items| && items[i].flag == flag && items[i].Sum(true) > 0
  }

  /** The condition of a rule on the modifiers: all named modifiers are on and, when NONE is named,
      no other one is. */
  predicate AllOn(items: seq<Item>, flags: set<ModifierFlag>) {
    (forall f :: f in flags && f != ZERO && f != NONE ==> FlagIsOn(items, f)) &&
    (NONE in flags ==> forall i :: 0 <= i < |items| && items[i].Sum(true) > 0 ==> items[i].flag in flags)
  }

  /** The modifiers that are on, lazy ones included. */
  ghost function OnFlags(items: seq<Item>): set<ModifierFlag> {
    set i | 0 <= i < |items| && items[i].Sum(true) > 0 :: items[i].flag
  }

  /** A condition that names NONE asks for exactly its modifiers, one that does not asks for at least them. */
  lemma ConditionMeaning(items: seq<Item>, flags: set<ModifierFlag>)
    requires WellFormed(items)
    ensures NONE !in flags ==> (AllOn(items, flags) <==> flags - {ZERO} <= OnFlags(items))
    ensures NONE in flags ==> (AllOn(items, flags) <==> flags - {ZERO, NONE} == OnFlags(items))
  {
    var on := OnFlags(items);
    assert forall i :: 0 <= i < |items| && items[i].Sum(true) > 0 ==> items[i].flag in on;
    forall f ensures f in on <==> FlagIsOn(items, f) {
    }
    assert ZERO !in on && NONE !in on;
    if NONE in flags {
      assert AllOn(items, flags) ==> forall f :: f in on ==> f in flags;
      assert AllOn(items, flags) ==> flags - {ZERO, NONE} == on;
    }
  }

  /** What each method does to the sum that decides whether the modifier is on: counters move by one, bits are set,
      cleared or turned over, and CapsLock turns its lock over where other modifiers count. */
  lemma SumAfter(a: Item, op: Op)
    requires 0 <= a.lock <= 1 && 0 <= a.negativeLock <= 1 && 0 <= a.sticky <= 1
    ensures var b := a.Do(op);
            b.Sum(true) - a.Sum(true) ==
            (match op
             case Increase => if a.flag == CAPSLOCK then 1 - 2 * a.lock else 1
             case Decrease => if a.flag == CAPSLOCK then 0 else -1
             case TemporaryIncrease => 1
             case TemporaryDecrease => -1
             case LazyIncrease => 1
             case LazyDecrease => -1
             case LockIncrease => 1 - a.lock
             case LockDecrease => -a.lock
             case LockToggle => 1 - 2 * a.lock
             case NegativeLockIncrease => a.negativeLock - 1
             case NegativeLockDecrease => a.negativeLock
             case NegativeLockToggle => 2 * a.negativeLock - 1
             case StickyIncrease => 1 - a.sticky
             case StickyDecrease => -a.sticky
             case StickyToggle => 1 - 2 * a.sticky) &&
            0 <= b.lock <= 1 && 0 <= b.negativeLock <= 1 && 0 <= b.sticky <= 1
  {
  }

  // ---------------------------------------------------------------------------------------------
  // ScopedSetter as functions

  /** `op` done `n` times. */
  function Times(a: Item, op: Op, n: nat): Item {
    if n == 0 then a else Times(a, op, n - 1).Do(op)
  }

  /** Entering moves a block by the excess `d` of its sum over the snapshot's, leaving moves it back. */
  function EnterItem(a: Item, d: int): Item {
    if d >= 0 then Times(a, Decrease, d) else Times(a, Increase, -d)
  }

  function LeaveItem(a: Item, d: int): Item {
    if d >= 0 then Times(a, Increase, d) else Times(a, Decrease, -d)
  }

  function Excess(items: seq<Item>, snapshot: seq<Item>): (d: seq<int>)
    requires |items| == |snapshot|
    ensures |d| == |items|
    ensures forall i :: 0 <= i < |d| ==> d[i] == items[i].Sum(true) - snapshot[i].Sum(true)
  {
    seq(|items|, i requires 0 <= i < |items| => items[i].Sum(true) - snapshot[i].Sum(true))
  }

  function Enter(items: seq<Item>, d: seq<int>): (r: seq<Item>)
    requires |d| == |items|
    ensures |r| == |items|
    ensures forall i :: 0 <= i < |r| ==> r[i] == EnterItem(items[i], d[i])
  {
    seq(|items|, i requires 0 <= i < |items| => EnterItem(items[i], d[i]))
  }

  function Leave(items: seq<Item>, d: seq<int>): (r: seq<Item>)
    requires |d| == |items|
    ensures |r| == |items|
    ensures forall i :: 0 <= i < |r| ==> r[i] == LeaveItem(items[i], d[i])
  {
    seq(|items|, i requires 0 <= i < |items| => LeaveItem(items[i], d[i]))
  }

  lemma {:induction false} TimesCount(a: Item, n: nat)
    ensures Times(a, Increase, n).flag == a.flag == Times(a, Decrease, n).flag
    ensures a.flag != CAPSLOCK ==> Times(a, Increase, n) == a.(count := a.count + n)
    ensures a.flag != CAPSLOCK ==> Times(a, Decrease, n) == a.(count := a.count - n)
    ensures a.flag == CAPSLOCK ==> Times(a, Decrease, n) == a
  {
    if n > 0 {
      TimesCount(a, n - 1);
    }
  }

  /** ScopedSetter is transparent: inside, every modifier except CapsLock sums to the snapshot's value, and
      whatever the body did to a count is what remains of it afterwards. */
  lemma ScopedSetterTransparent(items: seq<Item>, snapshot: seq<Item>, body: seq<Item>, i: nat)
    requires SameFlags(items, snapshot) && SameFlags(items, body)
    requires i < |items| && items[i].flag != CAPSLOCK
    ensures var d := Excess(items, snapshot);
            var entered := Enter(items, d);
            entered[i].Sum(true) == snapshot[i].Sum(true) &&
            Leave(body, d)[i].count - items[i].count == body[i].count - entered[i].count &&
            Leave(entered, d)[i] == items[i]
  {
    var d := Excess(items, snapshot);
    var n := if d[i] >= 0 then d[i] else -d[i];
    TimesCount(items[i], n);
    TimesCount(body[i], n);
    TimesCount(Enter(items, d)[i], n);
  }

  lemma {:induction false} ToggleParity(a: Item, n: nat)
    requires a.flag == CAPSLOCK && 0 <= a.lock <= 1
    ensures Times(a, Increase, n) == a.(lock := if n % 2 == 0 then a.lock else 1 - a.lock)
  {
    if n > 0 {
      ToggleParity(a, n - 1);
    }
  }

  /** CapsLock is not restored in general: an empty body leaves it as it was exactly when the two sums
      differ by an even number (in particular when the two states agree about it). */
  lemma ScopedSetterCapsLock(items: seq<Item>, snapshot: seq<Item>, i: nat)
    requires SameFlags(items, snapshot)
    requires i < |items| && items[i].flag == CAPSLOCK && 0 <= items[i].lock <= 1
    ensures var d := Excess(items, snapshot);
            Leave(Enter(items, d), d)[i] == items[i] <==> d[i] % 2 == 0
  {
    var d := Excess(items, snapshot);
    var n := if d[i] >= 0 then d[i] else -d[i];
    var entered := Enter(items, d)[i];
    TimesCount(items[i], n);
    ToggleParity(items[i], n);
    TimesCount(entered, n);
  }

  // ---------------------------------------------------------------------------------------------
  // subtract

  function Copies(flag: ModifierFlag, n: int): (r: seq<ModifierFlag>)
    ensures |r| == if n > 0 then n else 0
    ensures forall k :: 0 <= k < |r| ==> r[k] == flag
  {
    seq(if n > 0 then n else 0, _ => flag)
  }

  /** The surplus of the first `n` blocks over another status, one entry per unit. */
  function Surplus(items: seq<Item>, other: seq<Item>, n: nat): seq<ModifierFlag>
    requires n <= |items| == |other|
  {
    if n == 0 then []
    else Surplus(items, other, n - 1) +
         Copies(items[n - 1].flag, items[n - 1].Sum(true) - other[n - 1].Sum(true))
  }

  lemma {:induction false} CopiesOccurrences(flag: ModifierFlag, n: int, f: ModifierFlag)
    ensures multiset(Copies(flag, n))[f] == if f == flag && n > 0 then n else 0
  {
    if n > 0 {
      CopiesOccurrences(flag, n - 1, f);
      assert Copies(flag, n) == Copies(flag, n - 1) + [flag];
    }
  }

  lemma {:induction false} SurplusOccurrences(items: seq<Item>, other: seq<Item>, n: nat, k: nat)
    requires WellFormed(items) && n <= |items| == |other| && k < |items|
    ensures multiset(Surplus(items, other, n))[items[k].flag] ==
            if k < n then Positive(items[k].Sum(true) - other[k].Sum(true)) else 0
  {
    if n > 0 {
      var rest, f := Surplus(items, other, n - 1), items[k].flag;
      var last := Copies(items[n - 1].flag, items[n - 1].Sum(true) - other[n - 1].Sum(true));
      SurplusOccurrences(items, other, n - 1, k);
      CopiesOccurrences(items[n - 1].flag, items[n - 1].Sum(true) - other[n - 1].Sum(true), f);
      assert k != n - 1 ==> items[n - 1].flag != f;
      assert Surplus(items, other, n) == rest + last;
    }
  }

  function Positive(n: int): nat { if n > 0 then n else 0 }

  /** The two vectors a ScopedSetter records hold the excess of every block, split by sign. */
  ghost predicate Splits(added: seq<ModifierFlag>, removed: seq<ModifierFlag>, entry: seq<Item>, excess: seq<int>) {
    WellFormed(entry) && |excess| == |entry| &&
    forall k :: 0 <= k < |entry| ==>
      multiset(added)[entry[k].flag] == Positive(excess[k]) &&
      multiset(removed)[entry[k].flag] == Positive(-excess[k])
  }

  lemma SurplusesSplit(entry: seq<Item>, snapshot: seq<Item>)
    requires WellFormed(entry) && SameFlags(entry, snapshot)
    ensures Splits(Surplus(entry, snapshot, |entry|), Surplus(snapshot, entry, |entry|),
                   entry, Excess(entry, snapshot))
  {
    forall k | 0 <= k < |entry|
      ensures multiset(Surplus(entry, snapshot, |entry|))[entry[k].flag] == Positive(Excess(entry, snapshot)[k])
      ensures multiset(Surplus(snapshot, entry, |entry|))[entry[k].flag] == Positive(-Excess(entry, snapshot)[k])
    {
      SurplusOccurrences(entry, snapshot, |entry|, k);
      SurplusOccurrences(snapshot, entry, |entry|, k);
    }
  }

  // ---------------------------------------------------------------------------------------------

  class FlagStatus {
    var items: seq<Item>

    ghost predicate Valid()
      reads this
    {
      WellFormed(items)
    }

    constructor (flags: seq<ModifierFlag>)
      requires forall i :: 0 <= i < |flags| ==> flags[i] != ZERO && flags[i] != NONE
      requires forall i, j :: 0 <= i < j < |flags| ==> flags[i] != flags[j]
      ensures Valid() && |items| == |flags|
      ensures forall i :: 0 <= i < |items| ==> items[i] == Item(flags[i], 0, 0, 0, 0, 0, 0, false)
    {
      items := seq(|flags|, i requires 0 <= i < |flags| => Item(flags[i], 0, 0, 0, 0, 0, 0, false));
    }

    method Apply(op: Op, flag: ModifierFlag, flags: seq<ModifierFlag>)
      requires Valid()
      modifies this
      ensures Valid() && items == Applied(old(items), op, flag, Members(flags))
    {
      for i := 0 to |items|
        invariant |items| == |old(items)|
        invariant forall k :: 0 <= k < i ==> items[k] == Applied(old(items), op, flag, Members(flags))[k]
        invariant forall k :: i <= k < |items| ==> items[k] == old(items)[k]
      {
        if flag == items[i].flag || items[i].flag in flags {
          items := items[i := items[i].Do(op)];
        }
      }
      assert items == Applied(old(items), op, flag, Members(flags));
    }

    method SetKey(flag: ModifierFlag, on: bool)
      requires Valid()
      modifies this
      ensures Valid() && items == KeySet(old(items), flag, on)
    {
      for i := 0 to |items|
        invariant |items| == |old(items)|
        invariant forall k :: 0 <= k < i ==> items[k] == KeySet(old(items), flag, on)[k]
        invariant forall k :: i <= k < |items| ==> items[k] == old(items)[k]
      {
        items := items[i := items[i].(temporary := 0)];
        if flag == items[i].flag {
          if flag == CAPSLOCK {
            items := items[i := items[i].(lock := if on then 1 else 0)];
          } else {
            items := items[i := items[i].Do(if on then Increase else Decrease)];
          }
        }
      }
      assert items == KeySet(old(items), flag, on);
    }

    method Reset()
      requires Valid()
      modifies this
      ensures Valid() && items == ResetAll(old(items))
    {
      for i := 0 to |items|
        invariant |items| == |old(items)|
        invariant forall k :: 0 <= k < i ==> items[k] == ResetAll(old(items))[k]
        invariant forall k :: i <= k < |items| ==> items[k] == old(items)[k]
      {
        items := items[i := items[i].Reset()];
      }
      assert items == ResetAll(old(items));
    }

    method IsOnOne(flag: ModifierFlag) returns (on: bool)
      requires Valid()
      ensures on <==> FlagIsOn(items, flag)
    {
      for i := 0 to |items|
        invariant forall j :: 0 <= j < i ==> items[j].flag != flag
      {
        if items[i].flag == flag {
          return items[i].Sum(true) > 0;
        }
      }
      return false;
    }

    method IsOn(flags: seq<ModifierFlag>) returns (on: bool)
      requires Valid()
      ensures on <==> AllOn(items, Members(flags))
    {
      var strict := false;
      for k := 0 to |flags|
        invariant strict <==> NONE in flags[..k]
        invariant forall j :: 0 <= j < k && flags[j] != ZERO && flags[j] != NONE ==> FlagIsOn(items, flags[j])
      {
        if flags[k] != ZERO {
          if flags[k] == NONE {
            strict := true;
          } else {
            var one := IsOnOne(flags[k]);
            if !one {
              return false;
            }
          }
        }
      }
      assert flags[..|flags|] == flags;
      if strict {
        for i := 0 to |items|
          invariant forall j :: 0 <= j < i && items[j].Sum(true) > 0 ==> items[j].flag in flags
        {
          if items[i].Sum(true) > 0 && items[i].flag !in flags {
            return false;
          }
        }
      }
      return true;
    }

  }

  /** The vector of modifiers whose sums exceed another status, one entry per unit of excess; empty when the
      two vectors do not have the same length. */
  method Subtract(items: seq<Item>, other: seq<Item>) returns (flags: seq<ModifierFlag>)
    ensures |items| == |other| ==> flags == Surplus(items, other, |items|)
    ensures |items| != |other| ==> flags == []
  {
    flags := [];
    if |items| == |other| {
      for i := 0 to |items|
        invariant flags == Surplus(items, other, i)
      {
        var sum1, sum2 := items[i].Sum(true), other[i].Sum(true);
        if sum1 > sum2 {
          ghost var before := flags;
          for j := 0 to sum1 - sum2
            invariant flags == before + Copies(items[i].flag, j)
          {
            flags := flags + [items[i].flag];
          }
        }
      }
    }
  }

  /** The scope guard: the constructor moves the counters onto the snapshot, `Destroy` moves them back by
      the amounts recorded on entry. */
  class ScopedSetter {
    const status: FlagStatus
    var added: seq<ModifierFlag>
    var removed: seq<ModifierFlag>
    ghost const entry: seq<Item>
    ghost const excess: seq<int>

    ghost predicate Valid()
      reads this
    {
      Splits(added, removed, entry, excess)
    }

    constructor (fs: FlagStatus, snapshot: seq<Item>)
      requires fs.Valid() && SameFlags(fs.items, snapshot)
      modifies fs
      ensures Valid() && status == fs
      ensures entry == old(fs.items) && excess == Excess(old(fs.items), snapshot)
      ensures fs.Valid() && fs.items == Enter(old(fs.items), excess)
    {
      var a := Subtract(fs.items, snapshot);
      var r := Subtract(snapshot, fs.items);
      status, added, removed := fs, a, r;
      entry, excess := fs.items, Excess(fs.items, snapshot);
      new;
      SurplusesSplit(entry, snapshot);
      Repeat(fs, Decrease, added);
      Repeat(fs, Increase, removed);
      assert fs.items == Enter(entry, excess);
    }

    /** `for each modifier in the vector: status.op(modifier)` */
    static method Repeat(fs: FlagStatus, op: Op, flags: seq<ModifierFlag>)
      requires fs.Valid() && (op == Increase || op == Decrease)
      modifies fs
      ensures fs.Valid() && SameFlags(fs.items, old(fs.items))
      ensures forall k :: 0 <= k < |fs.items| ==>
        fs.items[k] == Times(old(fs.items[k]), op, multiset(flags)[old(fs.items[k].flag)])
    {
      for i := 0 to |flags|
        invariant fs.Valid() && SameFlags(fs.items, old(fs.items))
        invariant forall k :: 0 <= k < |fs.items| ==>
          fs.items[k] == Times(old(fs.items[k]), op, multiset(flags[..i])[old(fs.items[k].flag)])
      {
        fs.Apply(op, flags[i], []);
        assert flags[..i + 1] == flags[..i] + [flags[i]];
      }
      assert flags[..|flags|] == flags;
    }

    method Destroy()
      requires Valid() && status.Valid() && SameFlags(status.items, entry)
      modifies status
      ensures status.Valid() && status.items == Leave(old(status.items), excess)
    {
      Repeat(status, Increase, added);
      Repeat(status, Decrease, removed);
      assert status.items == Leave(old(status.items), excess);
    }
  }
}
