/** Which rule gets an event (src/core/kext/RemapClass.*): rule classes are switched on and off, filtered and
    passed through at any time, while keys are down.  A key release must still reach the rule that took the press.
 */
module RemapClasses {
  import opened Wrappers
  import opened Sequences

  type KeyId = nat
  type Device = nat

  /** A rule: the `index`-th item of class `cls`. */
  datatype ItemId = ItemId(cls: nat, index: nat)

  /** A key-to-key item: its key, and the devices its device filters block. */
  datatype ItemConfig = ItemConfig(from: KeyId, ignorePassThrough: bool, blockedDevices: set<Device>)

  /** The circumstances of one event: anything that filters, other rules and the modifiers may decide. */
  datatype Circumstances = Circumstances(device: Device, passThrough: bool, filtered: set<ItemId>,
                                         modifiersOn: set<ItemId>, dropped: bool)

  /** All items of the listed classes, in the order they are offered an event. */
  function Order(classes: seq<seq<ItemConfig>>, listed: seq<nat>): seq<ItemId>
    requires forall k :: 0 <= k < |listed| ==> listed[k] < |classes|
  {
    if listed == [] then []
    else
      var last := listed[|listed| - 1];
      Order(classes, listed[..|listed| - 1]) + ItemsOf(last, |classes[last]|)
  }

  function ItemsOf(cls: nat, n: nat): seq<ItemId> {
    seq(n, i requires 0 <= i => ItemId(cls, i))
  }

  function First(order: seq<ItemId>, candidates: set<ItemId>): (r: Option<ItemId>)
    ensures r.Some? ==> r.value in order && r.value in candidates
    ensures r.None? ==> forall id :: id in order ==> id !in candidates
  {
    if order == [] then None
    else if order[0] in candidates then Some(order[0])
    else First(order[1..], candidates)
  }

  lemma {:induction false} FirstAppend(a: seq<ItemId>, b: seq<ItemId>, candidates: set<ItemId>)
    ensures First(a + b, candidates) ==
            if First(a, candidates).Some? then First(a, candidates) else First(b, candidates)
  {
    if a == [] {
      assert a + b == b;
    } else {
      assert (a + b)[1..] == a[1..] + b;
      FirstAppend(a[1..], b, candidates);
    }
  }

  lemma {:induction false} FirstOfOne(order: seq<ItemId>, candidates: set<ItemId>, id: ItemId)
    requires id in order && id in candidates
    requires forall other :: other in order && other in candidates ==> other == id
    ensures First(order, candidates) == Some(id)
  {
    if order[0] != id {
      FirstOfOne(order[1..], candidates, id);
    }
  }

  lemma {:induction false} InOrder(classes: seq<seq<ItemConfig>>, listed: seq<nat>, id: ItemId)
    requires forall k :: 0 <= k < |listed| ==> listed[k] < |classes|
    ensures id in Order(classes, listed) <==>
            id.cls in listed && id.cls < |classes| && id.index < |classes[id.cls]|
  {
    if listed != [] {
      var n := |listed| - 1;
      InOrder(classes, listed[..n], id);
      assert listed == listed[..n] + [listed[n]];
      var items := ItemsOf(listed[n], |classes[listed[n]]|);
      assert id in items <==> id.cls == listed[n] && id.index < |classes[listed[n]]| by {
        if id.cls == listed[n] && id.index < |classes[listed[n]]| {
          assert items[id.index] == id;
        }
      }
    }
  }

  /** Offered events in this order: class by class, and within a class item by item. */
  predicate NotAfter(a: ItemId, b: ItemId) { a.cls < b.cls || (a.cls == b.cls && a.index <= b.index) }

  predicate Ascending(listed: seq<nat>) { forall i, j :: 0 <= i < j < |listed| ==> listed[i] < listed[j] }

  lemma {:induction false} FirstOfClass(cls: nat, n: nat, candidates: set<ItemId>)
    ensures var first := First(ItemsOf(cls, n), candidates);
            forall id :: id in candidates && id.cls == cls && id.index < n ==> first.Some? && NotAfter(first.value, id)
  {
    if n > 0 {
      FirstOfClass(cls, n - 1, candidates);
      assert ItemsOf(cls, n) == ItemsOf(cls, n - 1) + [ItemId(cls, n - 1)];
      FirstAppend(ItemsOf(cls, n - 1), [ItemId(cls, n - 1)], candidates);
      assert [ItemId(cls, n - 1)][1..] == [];
      var first := First(ItemsOf(cls, n - 1), candidates);
      if first.Some? {
        assert first.value in ItemsOf(cls, n - 1);
      }
    }
  }

  /** The first candidate in the order of classes and items. */
  lemma {:induction false} FirstInOrder(classes: seq<seq<ItemConfig>>, listed: seq<nat>, candidates: set<ItemId>)
    requires (forall k :: 0 <= k < |listed| ==> listed[k] < |classes|) && Ascending(listed)
    ensures var first := First(Order(classes, listed), candidates);
            forall id :: id in candidates && id.cls in listed && id.index < |classes[id.cls]| ==>
              first.Some? && NotAfter(first.value, id)
  {
    if listed != [] {
      var n := |listed| - 1;
      var cls, before := listed[n], First(Order(classes, listed[..n]), candidates);
      FirstInOrder(classes, listed[..n], candidates);
      FirstOfClass(cls, |classes[cls]|, candidates);
      FirstAppend(Order(classes, listed[..n]), ItemsOf(cls, |classes[cls]|), candidates);
      assert forall c :: c in listed <==> c in listed[..n] || c == cls;
      if before.Some? {
        InOrder(classes, listed[..n], before.value);
      }
    }
  }

  /** What makes an item take the press of a key: its class is on, it is of that key, it is neither filtered nor meant for
      other devices, its modifiers are on, nothing has dropped the event, and pass-through is off or ignored. */
  ghost predicate Eligible(classes: seq<seq<ItemConfig>>, id: ItemId, on: bool, key: KeyId, c: Circumstances) {
    id.cls < |classes| && id.index < |classes[id.cls]| &&
    var config := classes[id.cls][id.index];
    on && config.from == key && id !in c.filtered && c.device !in config.blockedDevices && id in c.modifiersOn &&
    !c.dropped && (c.passThrough ==> config.ignorePassThrough)
  }

  /** A press is taken by the first eligible item of the classes that are offered events, if there is any. */
  ghost predicate TakenByFirst(classes: seq<seq<ItemConfig>>, listed: seq<nat>, enabled: seq<bool>, key: KeyId,
                               c: Circumstances, taker: Option<ItemId>)
    requires |enabled| == |classes|
  {
    (taker.Some? ==>
      taker.value.cls < |classes| && taker.value.cls in listed &&
      Eligible(classes, taker.value, enabled[taker.value.cls], key, c)) &&
    (forall id: ItemId :: id.cls < |classes| && id.cls in listed && Eligible(classes, id, enabled[id.cls], key, c) ==>
      taker.Some? && NotAfter(taker.value, id))
  }

  /** No item is on the list twice. */
  ghost predicate Once(s: seq<ItemId>) {
    forall i, j :: 0 <= i < j < |s| ==> s[i] != s[j]
  }

  lemma {:induction false} EraseFirstOnce(s: seq<ItemId>, x: ItemId)
    requires Once(s) && x in s
    ensures Once(EraseFirst(s, x))
    ensures forall y :: y in EraseFirst(s, x) <==> y in s && y != x
  {
    if s[0] != x {
      EraseFirstOnce(s[1..], x);
      var rest := EraseFirst(s[1..], x);
      forall j | 0 <= j < |rest| ensures rest[j] != s[0] {
        assert rest[j] in s[1..];
      }
    }
  }

  lemma AppendOnce(s: seq<ItemId>, x: ItemId)
    requires Once(s) && x !in s
    ensures Once(s + [x])
    ensures forall y :: y in s + [x] <==> y in s || y == x
  {
  }

  /** A list of items after the taker, if any, was added or removed. */
  function After(s: seq<ItemId>, down: bool, taker: Option<ItemId>): seq<ItemId> {
    if taker.None? then s
    else if down then s + [taker.value]
    else EraseFirst(s, taker.value)
  }

  lemma ReleasedOnce(s: seq<ItemId>, taker: Option<ItemId>)
    requires Once(s) && (taker.Some? ==> taker.value in s)
    ensures Once(After(s, false, taker))
    ensures forall id :: id in After(s, false, taker) <==> id in s && Some(id) != taker
  {
    if taker.Some? {
      EraseFirstOnce(s, taker.value);
    }
  }

  /** An outstanding press: who took it, and on which device. */
  datatype Press = Press(taker: Option<ItemId>, device: Device)

  class Manager {
    const classes: seq<seq<ItemConfig>>
    var enabled: seq<bool>
    var listed: seq<nat>
    var active: seq<ItemId>
    var pressing: seq<ItemId>
    ghost var presses: map<KeyId, Press>

    ghost predicate Ok()
      reads this
    {
      |enabled| == |classes| && forall k :: 0 <= k < |listed| ==> listed[k] < |classes|
    }

    predicate IsItem(id: ItemId) {
      id.cls < |classes| && id.index < |classes[id.cls]|
    }

    function Config(id: ItemId): ItemConfig
      requires IsItem(id)
    {
      classes[id.cls][id.index]
    }

    /** The gate in front of an item, and the item's own condition. */
    predicate Takes(id: ItemId, key: KeyId, down: bool, c: Circumstances)
      requires Ok()
      reads this
    {
      IsItem(id) && Config(id).from == key && c.device !in Config(id).blockedDevices &&
      if down then
        (!c.passThrough || Config(id).ignorePassThrough) && enabled[id.cls] && id !in c.filtered && id in c.modifiersOn
      else
        id in active && id in pressing
    }

    ghost function Candidates(key: KeyId, down: bool, c: Circumstances): set<ItemId>
      requires Ok()
      reads this
    {
      set id | id in Order(classes, listed) && Takes(id, key, down, c)
    }

    /** `RemapClass::Item::remap` around `KeyToKey::remap`. */
    method RemapItem(id: ItemId, key: KeyId, down: bool, c: Circumstances, isRemapped: bool) returns (taken: bool)
      requires Ok() && IsItem(id)
      modifies this`active, this`pressing
      ensures Ok() && taken == (!isRemapped && old(Takes(id, key, down, c)))
      ensures active == After(old(active), down, if taken then Some(id) else None)
      ensures pressing == After(old(pressing), down, if taken then Some(id) else None)
    {
      taken := false;
      if down {
        if c.passThrough && !Config(id).ignorePassThrough {
          return;
        }
        if !enabled[id.cls] {
          return;
        }
        if id in c.filtered || c.device in Config(id).blockedDevices {
          return;
        }
      } else {
        if id !in active {
          return;
        }
        if c.device in Config(id).blockedDevices {
          return;
        }
      }
      if isRemapped || Config(id).from != key {
        return;
      }
      if down {
        if id !in c.modifiersOn {
          return;
        }
        pressing := pressing + [id];
      } else {
        if id !in pressing {
          return;
        }
        pressing := EraseFirst(pressing, id);
      }
      taken := true;
      if down {
        active := active + [id];
      } else {
        active := EraseFirst(active, id);
      }
    }

    /** One class: its items in turn. */
    method RemapClass(cls: nat, key: KeyId, down: bool, c: Circumstances, isRemapped: bool, ghost candidates: set<ItemId>)
      returns (taker: Option<ItemId>)
      requires Ok() && cls < |classes|
      requires !isRemapped ==>
        forall i :: 0 <= i < |classes[cls]| ==> (ItemId(cls, i) in candidates <==> Takes(ItemId(cls, i), key, down, c))
      modifies this`active, this`pressing
      ensures Ok()
      ensures taker == if isRemapped then None else First(ItemsOf(cls, |classes[cls]|), candidates)
      ensures active == After(old(active), down, taker) && pressing == After(old(pressing), down, taker)
    {
      taker := None;
      for i := 0 to |classes[cls]|
        invariant taker == if isRemapped then None else First(ItemsOf(cls, i), candidates)
        invariant active == After(old(active), down, taker) && pressing == After(old(pressing), down, taker)
      {
        var id := ItemId(cls, i);
        FirstAppend(ItemsOf(cls, i), [id], candidates);
        assert ItemsOf(cls, i) + [id] == ItemsOf(cls, i + 1);
        var taken := RemapItem(id, key, down, c, isRemapped || taker.Some?);
        if taken {
          taker := Some(id);
        }
      }
    }

    /** Every item of every listed class is offered the event; the first that can takes it. */
    method Remap(key: KeyId, down: bool, c: Circumstances) returns (taker: Option<ItemId>)
      requires Ok()
      modifies this`active, this`pressing
      ensures Ok()
      ensures taker == if down && c.dropped then None
                       else First(Order(classes, listed), old(Candidates(key, down, c)))
      ensures active == After(old(active), down, taker) && pressing == After(old(pressing), down, taker)
    {
      taker := None;
      ghost var candidates := Candidates(key, down, c);
      for k := 0 to |listed|
        invariant taker == if down && c.dropped then None else First(Order(classes, listed[..k]), candidates)
        invariant active == After(old(active), down, taker) && pressing == After(old(pressing), down, taker)
      {
        var cls := listed[k];
        assert listed[..k + 1][..k] == listed[..k];
        forall i | 0 <= i < |classes[cls]| {
          InOrder(classes, listed, ItemId(cls, i));
        }
        FirstAppend(Order(classes, listed[..k]), ItemsOf(cls, |classes[cls]|), candidates);
        var next := RemapClass(cls, key, down, c, (down && c.dropped) || taker.Some?, candidates);
        if next.Some? {
          taker := next;
        }
      }
      assert listed[..|listed|] == listed;
    }

    /** An active item took an outstanding press of its key, and its class is still offered events. */
    ghost predicate HoldsPress(listed: seq<nat>, presses: map<KeyId, Press>, id: ItemId) {
      IsItem(id) && id.cls in listed && Config(id).from in presses &&
      var press := presses[Config(id).from];
      press.taker == Some(id) && press.device !in Config(id).blockedDevices
    }

    /** The taker of an outstanding press is active. */
    ghost predicate TakerActive(active: seq<ItemId>, press: Press, key: KeyId) {
      press.taker.Some? ==>
        press.taker.value in active && IsItem(press.taker.value) && Config(press.taker.value).from == key
    }

    ghost predicate Holding(listed: seq<nat>, active: seq<ItemId>, presses: map<KeyId, Press>) {
      (forall id :: id in active ==> HoldsPress(listed, presses, id)) &&
      (forall key :: key in presses ==> TakerActive(active, presses[key], key))
    }

    /** The active items are exactly the takers of the outstanding presses, each once, on both lists. */
    ghost predicate Valid()
      reads this
    {
      Ok() && Once(active) && Once(pressing) && Ascending(listed) &&
      (forall id :: id in active <==> id in pressing) && Holding(listed, active, presses)
    }

    lemma HoldingPressed(listed: seq<nat>, active: seq<ItemId>, active': seq<ItemId>, presses: map<KeyId, Press>,
                         key: KeyId, press: Press)
      requires Holding(listed, active, presses) && key !in presses
      requires forall id :: id in active' <==> id in active || Some(id) == press.taker
      requires press.taker.Some? ==>
        IsItem(press.taker.value) && press.taker.value.cls in listed && Config(press.taker.value).from == key &&
        press.device !in Config(press.taker.value).blockedDevices
      ensures Holding(listed, active', presses[key := press])
    {
      var after := presses[key := press];
      forall id | id in active' ensures HoldsPress(listed, after, id) {
        assert id in active ==> HoldsPress(listed, presses, id);
      }
      forall k | k in after ensures TakerActive(active', after[k], k) {
        assert k != key ==> TakerActive(active, presses[k], k);
      }
    }

    lemma HoldingReleased(listed: seq<nat>, active: seq<ItemId>, active': seq<ItemId>, presses: map<KeyId, Press>,
                          key: KeyId, taker: Option<ItemId>)
      requires Holding(listed, active, presses)
      requires taker == if key in presses then presses[key].taker else None
      requires forall id :: id in active' <==> id in active && Some(id) != taker
      ensures Holding(listed, active', presses - {key})
    {
      var after := presses - {key};
      forall id | id in active' ensures HoldsPress(listed, after, id) {
        assert HoldsPress(listed, presses, id);
      }
      forall k | k in after ensures TakerActive(active', after[k], k) {
        assert TakerActive(active, presses[k], k);
        if taker.Some? {
          assert TakerActive(active, presses[key], key);
        }
      }
    }

    /** Giving the release of a key to the taker of its press keeps both lists exact. */
    lemma ReleaseKeeps(listed: seq<nat>, active: seq<ItemId>, pressing: seq<ItemId>, presses: map<KeyId, Press>, key: KeyId)
      requires Holding(listed, active, presses) && Once(active) && Once(pressing)
      requires forall id :: id in active <==> id in pressing
      ensures var taker := if key in presses then presses[key].taker else None;
              var active', pressing' := After(active, false, taker), After(pressing, false, taker);
              Holding(listed, active', presses - {key}) && Once(active') && Once(pressing') &&
              forall id :: id in active' <==> id in pressing'
    {
      var taker := if key in presses then presses[key].taker else None;
      assert taker.Some? ==> TakerActive(active, presses[key], key);
      ReleasedOnce(active, taker);
      ReleasedOnce(pressing, taker);
      HoldingReleased(listed, active, After(active, false, taker), presses, key, taker);
    }

    constructor (classes: seq<seq<ItemConfig>>)
      ensures this.classes == classes && Valid() && presses == map[] && listed == []
      ensures forall cls :: 0 <= cls < |classes| ==> !enabled[cls]
    {
      this.classes := classes;
      enabled := seq(|classes|, _ => false);
      listed, active, pressing, presses := [], [], [], map[];
    }

    /** A key goes down that is not down already. */
    method KeyDown(key: KeyId, c: Circumstances) returns (taker: Option<ItemId>)
      requires Valid() && key !in presses
      modifies this`active, this`pressing, this`presses
      ensures Valid() && presses == old(presses)[key := Press(taker, c.device)]
      ensures TakenByFirst(classes, listed, enabled, key, c, taker)
    {
      ghost var candidates := Candidates(key, true, c);
      PressGoesToFirst(key, c);
      taker := Remap(key, true, c);
      if taker.Some? {
        InOrder(classes, listed, taker.value);
        assert taker.value !in old(active) by {
          ghost var id := taker.value;
          assert id in old(active) ==> HoldsPress(listed, presses, id);
        }
        AppendOnce(old(active), taker.value);
        AppendOnce(old(pressing), taker.value);
      }
      HoldingPressed(listed, old(active), active, presses, key, Press(taker, c.device));
      presses := presses[key := Press(taker, c.device)];
    }

    lemma PressGoesToFirst(key: KeyId, c: Circumstances)
      requires Valid()
      ensures TakenByFirst(classes, listed, enabled, key, c,
                           if c.dropped then None else First(Order(classes, listed), Candidates(key, true, c)))
    {
      var candidates := Candidates(key, true, c);
      var first := First(Order(classes, listed), candidates);
      FirstInOrder(classes, listed, candidates);
      if first.Some? {
        InOrder(classes, listed, first.value);
      }
      forall id: ItemId | id.cls < |classes| && id.cls in listed && Eligible(classes, id, enabled[id.cls], key, c)
        ensures id in candidates
      {
        InOrder(classes, listed, id);
      }
    }

    /** A key goes up on the device it went down on: the rule that took the press takes the release, whatever
        happened to its class, its filters or the pass-through mode in between. */
    method KeyUp(key: KeyId, c: Circumstances) returns (taker: Option<ItemId>)
      requires Valid()
      requires key in presses ==> presses[key].device == c.device
      modifies this`active, this`pressing, this`presses
      ensures Valid() && presses == old(presses) - {key}
      ensures taker == if key in old(presses) then old(presses)[key].taker else None
    {
      ReleaseGoesToTaker(key, c);
      ReleaseKeeps(listed, active, pressing, presses, key);
      taker := Remap(key, false, c);
      presses := presses - {key};
    }

    lemma ReleaseGoesToTaker(key: KeyId, c: Circumstances)
      requires Valid() && (key in presses ==> presses[key].device == c.device)
      ensures First(Order(classes, listed), Candidates(key, false, c)) ==
              if key in presses then presses[key].taker else None
    {
      if key in presses && presses[key].taker.Some? {
        var id := presses[key].taker.value;
        assert TakerActive(active, presses[key], key) && HoldsPress(listed, presses, id);
        InOrder(classes, listed, id);
        FirstOfOne(Order(classes, listed), Candidates(key, false, c), id);
      }
    }

    /** Presses of one key that overlap can go astray: when the key is down on two devices and two items took it, a
        release goes to the item that is offered events first, so never to the other one. */
    lemma OverlappingReleaseGoesToFirst(key: KeyId, c: Circumstances, first: ItemId, second: ItemId, i: nat)
      requires Ok() && Takes(first, key, false, c) && Takes(second, key, false, c)
      requires i < |Order(classes, listed)| && Order(classes, listed)[i] == first
      requires second !in Order(classes, listed)[..i + 1]
      ensures First(Order(classes, listed), Candidates(key, false, c)) != Some(second)
    {
      var order := Order(classes, listed);
      assert order == order[..i + 1] + order[i + 1..];
      FirstAppend(order[..i + 1], order[i + 1..], Candidates(key, false, c));
      assert first == order[..i + 1][i] && first in Candidates(key, false, c);
      assert First(order[..i + 1], Candidates(key, false, c)).Some?;
    }

    method SetEnabled(cls: nat, value: bool)
      requires Valid() && cls < |classes|
      modifies this`enabled
      ensures Valid() && enabled == old(enabled)[cls := value]
    {
      enabled := enabled[cls := value];
    }

    /** `hasActiveItem` */
    method HasActiveItem(cls: nat) returns (r: bool)
      requires Ok() && cls < |classes|
      ensures r <==> exists i :: 0 <= i < |classes[cls]| && ItemId(cls, i) in active
    {
      for i := 0 to |classes[cls]|
        invariant forall j :: 0 <= j < i ==> ItemId(cls, j) !in active
      {
        if ItemId(cls, i) in active {
          return true;
        }
      }
      return false;
    }

    /** The classes offered events are those switched on or still holding a press. */
    ghost predicate ListsRight()
      requires Ok()
      reads this
    {
      forall cls :: cls in listed <==>
        0 <= cls < |classes| && (enabled[cls] || exists i :: 0 <= i < |classes[cls]| && ItemId(cls, i) in active)
    }

    /** `refresh_timer_callback`: the classes offered events are those switched on or still holding a press. */
    method Refresh()
      requires Valid()
      modifies this`listed
      ensures Valid()
      ensures ListsRight()
    {
      ghost var before := listed;
      listed := [];
      for cls := 0 to |classes|
        invariant Ok() && Ascending(listed) && forall k :: 0 <= k < |listed| ==> listed[k] < cls
        invariant forall c :: c in listed <==>
          0 <= c < cls && (enabled[c] || exists i :: 0 <= i < |classes[c]| && ItemId(c, i) in active)
      {
        var hasActive := HasActiveItem(cls);
        if enabled[cls] || hasActive {
          listed := listed + [cls];
        }
      }
      forall id | id in active
        ensures HoldsPress(listed, presses, id)
      {
        assert HoldsPress(before, presses, id);
        assert ItemId(id.cls, id.index) in active;
      }
    }

    method Do(step: Step) returns (taker: Option<ItemId>)
      requires Valid() && (step.Toggled? ==> step.cls < |classes|)
      requires step.Pressed? ==> step.key !in presses
      requires step.Released? && step.key in presses ==> presses[step.key].device == step.circumstances.device
      modifies this
      ensures Valid()
      ensures presses == match step
                         case Pressed(key, c) => old(presses)[key := Press(taker, c.device)]
                         case Released(key, c) => old(presses) - {key}
                         case _ => old(presses)
      ensures enabled == if step.Toggled? then old(enabled)[step.cls := step.value] else old(enabled)
      ensures if step.Refreshed? then ListsRight() else listed == old(listed)
      ensures step.Pressed? ==> TakenByFirst(classes, old(listed), old(enabled), step.key, step.circumstances, taker)
      ensures step.Released? ==> taker == if step.key in old(presses) then old(presses)[step.key].taker else None
    {
      taker := None;
      match step
      case Pressed(key, c) => taker := KeyDown(key, c);
      case Released(key, c) => taker := KeyUp(key, c);
      case Toggled(cls, value) => SetEnabled(cls, value);
      case Refreshed => Refresh();
    }

    /** The state is what the first `k` steps say. */
    ghost predicate Follows(script: seq<Step>, k: nat, takers: seq<Option<ItemId>>)
      requires Ok()
      reads this
    {
      |takers| == k <= |script| && Tracks(script, k, takers, presses) &&
      forall cls :: 0 <= cls < |classes| ==> enabled[cls] == SwitchedOn(script, k, cls)
    }

    lemma OutstandingSeen(script: seq<Step>, k: nat, takers: seq<Option<ItemId>>, cls: nat)
      requires Valid() && Follows(script, k, takers) && cls < |classes|
      ensures (exists i :: 0 <= i < |classes[cls]| && ItemId(cls, i) in active) <==> HoldsOutstanding(script, k, takers, cls)
    {
      if i :| 0 <= i < |classes[cls]| && ItemId(cls, i) in active {
        var id := ItemId(cls, i);
        assert HoldsPress(listed, presses, id);
        assert LastPress(script, k, Config(id).from).Some?;
      }
      if HoldsOutstanding(script, k, takers, cls) {
        var key :| LastPress(script, k, key).Some? &&
                   var taker := takers[LastPress(script, k, key).value];
                   taker.Some? && taker.value.cls == cls;
        assert TakerActive(active, presses[key], key);
        var id := presses[key].taker.value;
        assert ItemId(cls, id.index) == id;
      }
    }

    /** The classes a refresh lists, in terms of the steps before it. */
    lemma ListingSeen(script: seq<Step>, k: nat, takers: seq<Option<ItemId>>)
      requires Valid() && Follows(script, k, takers) && ListsRight()
      ensures forall cls: nat :: cls in listed <==>
        cls < |classes| && (SwitchedOn(script, k, cls) || HoldsOutstanding(script, k, takers, cls))
    {
      forall cls: nat | cls < |classes|
        ensures (exists i :: 0 <= i < |classes[cls]| && ItemId(cls, i) in active) <==>
                HoldsOutstanding(script, k, takers, cls)
      {
        OutstandingSeen(script, k, takers, cls);
      }
    }

    /** One step of a run, with its law. */
    method Play(script: seq<Step>, k: nat, takers: seq<Option<ItemId>>) returns (more: seq<Option<ItemId>>)
      requires Valid() && Orderly(script) && k < |script| && Follows(script, k, takers)
      requires script[k].Toggled? ==> script[k].cls < |classes|
      modifies this
      ensures Valid() && |more| == k + 1 && more[..k] == takers && Follows(script, k + 1, more)
      ensures StepLaw(classes, script, k, more, old(listed), listed)
    {
      assert OrderlyAt(script, k);
      var taker := Do(script[k]);
      more := takers + [taker];
      if script[k].Pressed? {
        OfferedBy(classes, script, k, old(listed), old(enabled), taker);
      }
      assert Tracks(script, k + 1, more, presses);
      if script[k].Refreshed? {
        ListingSeen(script, k, takers);
      }
      assert forall cls :: HoldsOutstanding(script, k, more, cls) <==> HoldsOutstanding(script, k, takers, cls);
    }
  }

  datatype Step =
    | Pressed(key: KeyId, circumstances: Circumstances)
    | Released(key: KeyId, circumstances: Circumstances)
    | Toggled(cls: nat, value: bool)
    | Refreshed

  /** Where among the first `n` steps the outstanding press of a key is. */
  ghost function LastPress(script: seq<Step>, n: nat, key: KeyId): (r: Option<nat>)
    requires n <= |script|
    ensures r.Some? ==> r.value < n && script[r.value].Pressed? && script[r.value].key == key
  {
    if n == 0 then None
    else if script[n - 1].Pressed? && script[n - 1].key == key then Some(n - 1)
    else if script[n - 1].Released? && script[n - 1].key == key then None
    else LastPress(script, n - 1, key)
  }

  /** A key is not pressed again before it is released, and it is released on the device it was pressed on. */
  ghost predicate Orderly(script: seq<Step>) {
    forall k :: 0 <= k < |script| ==> OrderlyAt(script, k)
  }

  ghost predicate OrderlyAt(script: seq<Step>, k: nat)
    requires k < |script|
  {
    match script[k]
    case Pressed(key, _) => LastPress(script, k, key).None?
    case Released(key, c) =>
      var press := LastPress(script, k, key);
      press.Some? ==> script[press.value].circumstances.device == c.device
    case _ => true
  }

  /** The outstanding presses are those of the script, with their recorded takers. */
  ghost predicate Tracks(script: seq<Step>, k: nat, takers: seq<Option<ItemId>>, presses: map<KeyId, Press>)
    requires |takers| == k <= |script|
  {
    forall key ::
      match LastPress(script, k, key)
      case None => key !in presses
      case Some(j) => key in presses && presses[key] == Press(takers[j], script[j].circumstances.device)
  }

  /** A release went to whoever took the press. */
  ghost predicate Returned(script: seq<Step>, k: nat, takers: seq<Option<ItemId>>)
    requires k < |takers| <= |script|
  {
    script[k].Released? ==>
      var press := LastPress(script, k, script[k].key);
      takers[k] == if press.Some? then takers[press.value] else None
  }

  /** Whether a class has been switched on last. */
  ghost predicate SwitchedOn(script: seq<Step>, n: nat, cls: nat)
    requires n <= |script|
  {
    n > 0 && if script[n - 1].Toggled? && script[n - 1].cls == cls then script[n - 1].value
             else SwitchedOn(script, n - 1, cls)
  }

  /** A press went to the first eligible item of the classes that were offered events, if there was any. */
  ghost predicate Offered(classes: seq<seq<ItemConfig>>, script: seq<Step>, k: nat, listed: seq<nat>, taker: Option<ItemId>)
    requires k < |script|
  {
    script[k].Pressed? ==>
      var key, c := script[k].key, script[k].circumstances;
      (taker.Some? ==>
        taker.value.cls in listed && Eligible(classes, taker.value, SwitchedOn(script, k, taker.value.cls), key, c)) &&
      (forall id: ItemId :: id.cls in listed && Eligible(classes, id, SwitchedOn(script, k, id.cls), key, c) ==>
        taker.Some? && NotAfter(taker.value, id))
  }

  /** Some outstanding press was taken by an item of the class. */
  ghost predicate HoldsOutstanding(script: seq<Step>, k: nat, takers: seq<Option<ItemId>>, cls: nat)
    requires k <= |takers| <= |script|
  {
    exists key :: LastPress(script, k, key).Some? &&
                  var taker := takers[LastPress(script, k, key).value];
                  taker.Some? && taker.value.cls == cls
  }

  /** The classes offered events change only when they are refreshed, and then they are those switched on and those that
      hold an outstanding press. */
  ghost predicate Listed(classes: seq<seq<ItemConfig>>, script: seq<Step>, k: nat, takers: seq<Option<ItemId>>,
                         before: seq<nat>, after: seq<nat>)
    requires k < |takers| <= |script|
  {
    if script[k].Refreshed?
    then forall cls: nat :: cls in after <==>
           cls < |classes| && (SwitchedOn(script, k, cls) || HoldsOutstanding(script, k, takers, cls))
    else after == before
  }

  lemma OfferedBy(classes: seq<seq<ItemConfig>>, script: seq<Step>, k: nat, listed: seq<nat>, enabled: seq<bool>,
                  taker: Option<ItemId>)
    requires k < |script| && script[k].Pressed? && |enabled| == |classes|
    requires forall cls :: 0 <= cls < |classes| ==> enabled[cls] == SwitchedOn(script, k, cls)
    requires TakenByFirst(classes, listed, enabled, script[k].key, script[k].circumstances, taker)
    ensures Offered(classes, script, k, listed, taker)
  {
  }

  /** What holds of every step of a run. */
  ghost predicate StepLaw(classes: seq<seq<ItemConfig>>, script: seq<Step>, k: nat, takers: seq<Option<ItemId>>,
                          before: seq<nat>, after: seq<nat>)
    requires k < |takers| <= |script|
  {
    Returned(script, k, takers) && Offered(classes, script, k, before, takers[k]) &&
    Listed(classes, script, k, takers, before, after)
  }

  /** The law of a step does not look at the takers of later ones. */
  lemma StepLawKept(classes: seq<seq<ItemConfig>>, script: seq<Step>, k: nat, takers: seq<Option<ItemId>>,
                    more: seq<Option<ItemId>>, before: seq<nat>, after: seq<nat>)
    requires k < |takers| < |more| <= |script| && more[..|takers|] == takers
    requires StepLaw(classes, script, k, takers, before, after)
    ensures StepLaw(classes, script, k, more, before, after)
  {
    assert forall j :: 0 <= j < |takers| ==> more[j] == takers[j];
    assert forall cls :: HoldsOutstanding(script, k, more, cls) <==> HoldsOutstanding(script, k, takers, cls);
  }

  /** Over every run of presses, releases, toggles and refreshes, each press goes to the first eligible item of the classes
      that are offered events, and each release is taken by exactly the item that took its press (or by none, if none
      did). */
  method Run(classes: seq<seq<ItemConfig>>, script: seq<Step>)
    returns (takers: seq<Option<ItemId>>, ghost listings: seq<seq<nat>>)
    requires Orderly(script)
    requires forall k :: 0 <= k < |script| && script[k].Toggled? ==> script[k].cls < |classes|
    ensures |takers| == |script| && |listings| == |script| + 1 && listings[0] == []
    ensures forall k :: 0 <= k < |script| ==> StepLaw(classes, script, k, takers, listings[k], listings[k + 1])
  {
    takers, listings := [], [[]];
    var manager := new Manager(classes);
    for k := 0 to |script|
      invariant manager.classes == classes && manager.Valid() && fresh(manager) && manager.Follows(script, k, takers)
      invariant |takers| == k && |listings| == k + 1 && listings[0] == [] && listings[k] == manager.listed
      invariant forall j :: 0 <= j < k ==> StepLaw(classes, script, j, takers, listings[j], listings[j + 1])
    {
      ghost var before := takers;
      takers := manager.Play(script, k, takers);
      listings := listings + [manager.listed];
      forall j | 0 <= j < k
        ensures StepLaw(classes, script, j, takers, listings[j], listings[j + 1])
      {
        StepLawKept(classes, script, j, before, takers, listings[j], listings[j + 1]);
      }
    }
  }
}
