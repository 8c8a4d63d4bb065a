# Karabiner's event pipeline in Dafny

A model of the kernel side of Karabiner, which turns hardware key events into remapped ones, and of the format in which
its XML compiler sends rules to the kernel.  `dafny verify dfyconfig.toml` checks everything.

| file | component | main result |
|---|---|---|
| `Modifiers.dfy` | modifier counters and the scope guard over them | a scope guard is transparent for every modifier except CapsLock |
| `KeyToKey.dfy` | key-to-key rules | over every run the counts are the physical ones plus a fixed amount per outstanding press; what is sent, in which order, under which counters |
| `PressingPeriods.dfy` | rules that depend on how long a key is held | many instances sharing one timer never leak a press, a key or a modifier, and every step calls exactly the rules it must |
| `RemapClasses.dfy` | classes of rules, their gates and lists | a press is taken by the first eligible rule and its release by the rule that took it |
| `InputEvents.dfy`, `Bouncing.dfy`, `InputQueue.dfy` | input queue, bounce filter, BlockUntilKeyUp | exactly-once delivery in per-key order, no stall, both queues drain; the order in which blocking fires events |
| `Simultaneous.dfy` | simultaneous key presses | a pass acts exactly when it must; outstanding virtual presses are the activations still held |
| `FlagBits.dfy`, `Output.dfy` | modifier words, output queue, reset | modifier events alternate and replay to the last flags; what a reset releases |
| `InitializeVector.dfy`, `Records.dfy`, `Filters.dfy`, `Compilation.dfy` | compiler output and kernel parser | layout word by word, and from argument lists to processors: the kernel recovers every entry, record and filter |
| `LinkedList.dfy` | the doubly linked list | refines a sequence |
| `Momentum.dfy` | momentum scrolling | closed-form total |
| `Utf8Copy.dfy` | bounded copy of text | longest run of whole characters |
| `Wrappers.dfy`, `Sequences.dfy` | shared helpers | |

Where the source updates objects in place the model has classes with the same fields and loops, and each method is proved
against a specification function on values; the properties are then lemmas about those functions and invariants of
the classes.  `Run` methods drive a class through an arbitrary script of steps and state what holds at its end, so they
speak about every run.

Modelling decisions:

- A key is an abstract value.  Configuration, filters, pass-through mode, modifiers in force and timers are parameters
  or script steps that may differ from step to step.
- Integers are unbounded where the source cannot overflow within its own limits.  Bounce intervals wrap at 32 bits, and
  halving truncates toward zero.
- A word of modifier flags is the set of the positions of its one bits: or is union, and-not is difference.
- Virtual key handlers may change lock, sticky and lazy counters in any way, but no count.
- CapsLock toggles its lock on increase and ignores decrease, so the laws about counts are for the other modifiers.
- Some expectations do not hold without a condition, and the exact condition is proved: a scope guard restores
  CapsLock only for an even difference; a moved release keeps its key's order only if no release of that key already
  stands behind the press (always so while the set of blocking keys is fixed); the reset releases everything only if every
  pressed pair was remembered, which a repeated press of a key that is not down breaks.

## Model

| member | source | states |
|---|---|---|
| `Modifiers.FlagStatus.Apply` | src/core/kext/Classes/FlagStatus.cpp:210-285 | one pass over the items applies the counter method to exactly the items named by the modifier or the vector, each once however often it is named |
| `Modifiers.FlagStatus.SetKey` | src/core/kext/Classes/FlagStatus.cpp:28-49 | `set(key, flags)` clears every temporary count and moves only the counter of the key's own modifier, CapsLock through its lock |
| `Modifiers.FlagStatus.Reset` | src/core/kext/Classes/FlagStatus.cpp:51-63 | everything except lock, negative lock and sticky state is forgotten |
| `Modifiers.FlagStatus.IsOn` | src/core/kext/Classes/FlagStatus.cpp:136-161 | the loop decides the condition of a rule: all named modifiers on and, with NONE, no other one |
| `Modifiers.ConditionMeaning` | src/core/kext/Classes/FlagStatus.cpp:136-161 | a condition that names NONE holds if and only if exactly its modifiers are on, one that does not if and only if at least its modifiers are on |
| `Modifiers.SumAfter` | src/core/kext/Classes/FlagStatus.hpp:29-50 | what each counter method does to the sum that decides whether the modifier is on: one step for counters, set, cleared or turned over for locks and stickies, CapsLock through its lock |
| `Modifiers.Subtract` | src/core/kext/Classes/FlagStatus.cpp:339-353 | one entry per unit by which a sum exceeds the other status, nothing if the sizes differ |
| `Modifiers.SurplusesSplit` | src/core/kext/Classes/FlagStatus.cpp:339-353 | the two vectors recorded by a scope guard hold, for every modifier, exactly the positive and the negative part of the difference of the sums |
| `Modifiers.ScopedSetter.constructor` | src/core/kext/Classes/FlagStatus.hpp:96-108 | entering moves every item by its difference to the snapshot |
| `Modifiers.ScopedSetter.Destroy` | src/core/kext/Classes/FlagStatus.hpp:110-118 | leaving moves every item back by the difference recorded on entry, whatever happened in between |
| `Modifiers.ScopedSetterTransparent` | src/core/kext/Classes/FlagStatus.hpp:96-123 | for any two statuses with the same items and any body: inside, each modifier other than CapsLock sums to the snapshot's value, and afterwards its count has changed by exactly what the body did |
| `Modifiers.ScopedSetterCapsLock` | src/core/kext/Classes/FlagStatus.cpp:65-79 | CapsLock is restored by an empty body if and only if the two sums differ by an even number |
| `KeyToKey.Kernel.ChangePressingState` | src/core/kext/Classes/FromEvent.cpp:46-65 | a press is accepted when key and modifiers match and is entered in the list; a release is accepted exactly when an entry is outstanding and takes one away |
| `KeyToKey.Kernel.RemapToKeys` | src/core/kext/RemapFunc/KeyToKey.cpp:249-428 | the counts move by the fixed amount of a held modifier (one way on press, back on release), the temporary counts by a fixed amount of the rule, and the events sent are the ones specified for no key, one key and many keys |
| `KeyToKey.Kernel.Press` | src/core/kext/RemapFunc/KeyToKey.cpp:168-477 | a press raises every count by the rule's fixed amount and sends its events, each under the right counters; if the rule has a delayed action it starts the shared timer and records the counters of the press without the rule's own modifiers |
| `KeyToKey.Kernel.Release` | src/core/kext/RemapFunc/KeyToKey.cpp:168-477 | a release lowers every count by the same amount and sends the releases, then the first after-key-up group whose modifiers are on |
| `KeyToKey.GroupCondition` | src/core/kext/RemapFunc/KeyToKey.cpp:441-456 | an after-key-up or cancellation group is sent if and only if, temporary counts aside, at least the modifiers of its first entry are on, or exactly these if NONE is among them |
| `KeyToKey.Kernel.Remap` | src/core/kext/RemapFunc/KeyToKey.cpp:168-477 | taken exactly when key and modifiers fit or a press is outstanding; untaken events change nothing; a taken press sends down the before keys and then the to keys in the order of the rule, a taken release those of the first after-key-up group whose modifiers are on; the counters, the outstanding presses and the counters every event is sent under are the specified ones |
| `KeyToKey.DownUpsAt` | src/core/kext/Classes/ToEvent.cpp:68-155 | typed keys by position: key number i takes places 2i and 2i+1 with its press and its release, and its release is sent under the counters with its own modifiers shown |
| `KeyToKey.MovesOutputs` | src/core/kext/RemapFunc/KeyToKey.cpp:168-477 | the keys that go down and those that go up in everything a press or release sends, in order: typed keys go up again at once, the held key with the release |
| `KeyToKey.PressCounts` | src/core/kext/RemapFunc/KeyToKey.cpp:184-395 | what a press does to the counters of every modifier: an ordinary single key shows its modifiers instead of the rule's own for the event, a modifier at the end is held instead of the rule's own, and the key stops counting as the modifier it is |
| `KeyToKey.ReleaseCounts` | src/core/kext/RemapFunc/KeyToKey.cpp:184-395 | a release takes back exactly what the press counted |
| `KeyToKey.Kernel.DoDelayedAction` | src/core/kext/RemapFunc/KeyToKey.cpp:484-512 | the keys of a delayed action are typed under the recorded modifiers, without the entry that names the cancelling key, and leave every counter as it was |
| `KeyToKey.MovesDelayed` | src/core/kext/RemapFunc/KeyToKey.cpp:484-512 | the keys a delayed action types, in order; the entry that names the cancelling key is not typed |
| `KeyToKey.Kernel.Prepare` | src/core/kext/RemapFunc/KeyToKey.cpp:132-166 | another key press cancels a delayed action by typing exactly the first waiting group whose modifiers are on, else the default keys, else the delayed keys, without moving any count or outstanding press |
| `KeyToKey.NetOutputs` | src/core/kext/Classes/ToEvent.cpp:21-155 | over everything a press or release sends, each key goes down as often as up except for the one key that is held with the rule's key |
| `KeyToKey.TotalPressed` | src/core/kext/Classes/FromEvent.cpp:46-65 | entering or removing one outstanding press changes the total over all presses by exactly that rule's amount, wherever in the list it is |
| `KeyToKey.Run` | src/core/kext/RemapFunc/KeyToKey.cpp:168-477 | for every list of rules and every run of key moves, offers, prepares, timers, virtual keys and resets: each count other than CapsLock is the physical tally plus the fixed amounts of the outstanding presses, the keys held down by rules since the last reset are exactly theirs, and with nothing outstanding the rules have left no trace; and the state goes through the script step by step, each offer, cancellation and timeout doing exactly what its rule asks for |
| `PressingPeriods.Periods.ManipulatePureFromModifierFlags` | src/core/kext/RemapFunc/common/DependingPressingPeriodKeyToKey.cpp:329-370 | suppression is switched at most once each way, stays on under a rule that holds a modifier unless forced, and is always matched by the counts |
| `PressingPeriods.Periods.PressWithSavedFlags` | src/core/kext/RemapFunc/common/DependingPressingPeriodKeyToKey.cpp:372-420 | an embedded rule is called once under the modifiers recorded at key down, the other counters come out unchanged, and a delayed action that the press of another key starts this way does not outlive that key |
| `PressingPeriods.Periods.DoKeyDown` | src/core/kext/RemapFunc/common/DependingPressingPeriodKeyToKey.cpp:372-420 | an active instance stops waiting and its timer; if it is in no period its short rule is pressed once, with the condition's modifiers suppressed, and nothing else is called |
| `PressingPeriods.Periods.DoKeyUp` | src/core/kext/RemapFunc/common/DependingPressingPeriodKeyToKey.cpp:422-478 | the rule of the current period is released, and after a long period the key-alone rule is pressed and released if it is enabled, nothing else has happened and the time is short; nothing else is called |
| `PressingPeriods.Periods.FireTimer` | src/core/kext/RemapFunc/common/DependingPressingPeriodKeyToKey.cpp:480-545 | the shared timer moves the target, and no other instance, from waiting to long, and from long to very long or, if a key repeat has been cancelled, to no period, with exactly the calls of its rules, and is armed again only for a very long period to come |
| `PressingPeriods.Periods.CallAround` | src/core/kext/RemapFunc/common/DependingPressingPeriodKeyToKey.cpp:212-288 | the rule around the press is called with the condition's modifiers suppressed, and the modifiers saved at key down are those while they are suppressed |
| `PressingPeriods.Periods.Prepare` | src/core/kext/RemapFunc/common/DependingPressingPeriodKeyToKey.cpp:173-194 | another key, or the wheel for instances it may interrupt, interrupts the one instance that is active and no other, with exactly the call of its short rule if it was waiting; after a key none is active |
| `PressingPeriods.Periods.PrepareRule` | src/core/kext/RemapClass.cpp:837-858 | a key-to-key rule that hears about an event between or beside the instances cancels its delayed action and keeps all invariants |
| `PressingPeriods.Periods.DelayedActionExpired` | src/core/kext/RemapFunc/KeyToKey.cpp:479-512 | the timer of the delayed actions may run out while an instance's key is held, and all invariants stay |
| `PressingPeriods.Periods.RemapDown` | src/core/kext/RemapFunc/common/DependingPressingPeriodKeyToKey.cpp:196-327 | a press is taken if and only if the modifiers are on; it makes the instance the target, calls the rule around the press and, without a short period, the long one, and arms the timer if a short or very long period is to come; all invariants stay |
| `PressingPeriods.Periods.RemapUp` | src/core/kext/RemapFunc/common/DependingPressingPeriodKeyToKey.cpp:196-327 | a release is taken if and only if the press was; the calls are those of a press that becomes short if it is still waiting, then of the period that is left and the key alone, then of the rule around the press, and nothing of the instance stays pressed |
| `PressingPeriods.Periods.AllReleased` | src/core/kext/RemapFunc/common/DependingPressingPeriodKeyToKey.cpp:173-545 | when nothing is outstanding, every count is the physical one |
| `PressingPeriods.Run` | src/core/kext/RemapFunc/common/DependingPressingPeriodKeyToKey.cpp:173-545 | over every run of many instances with non-overlapping presses, mixed with ordinary rules, with the delayed actions of all rules firing or being cancelled at any moment and with virtual key handlers: at most one is active and it is the target; an armed timer means an active target; every embedded rule sees strictly alternating presses and releases; an instance whose key is up is released, not suppressing and in no period; the keys held down by what was sent are exactly those of the outstanding presses; and with nothing pressed the counts are the physical ones and every key sent down has been sent up. Every step calls exactly what the calls before it require: a key that goes up releases what is pressed, types a press that is still waiting, and types the key-alone rule after a long press if and only if it is enabled and alone; nothing else ever calls that rule |
| `RemapClasses.Manager.RemapItem` | src/core/kext/RemapClass.cpp:69-100 | the gate of an item: pass-through, enabling and filters on press, the active list and the keyup filters on release; active list and outstanding presses change together |
| `RemapClasses.Manager.Remap` | src/core/kext/RemapClass.cpp:397-406 | all items of all listed classes are offered the event and the first one able to takes it |
| `RemapClasses.Manager.HasActiveItem` | src/core/kext/RemapClass.cpp:446-460 | decides whether some item of the class is active |
| `RemapClasses.Manager.Refresh` | src/core/kext/RemapClass.cpp:488-516 | the rebuilt list holds exactly the classes that are enabled or have an active item, so no active item is ever cut off |
| `RemapClasses.Manager.KeyDown` | src/core/kext/RemapClass.cpp:69-100 | a press goes to the first eligible item of the listed classes, eligible meaning what the gate and the item demand, spelled out |
| `RemapClasses.Manager.KeyUp` | src/core/kext/RemapClass.cpp:69-100 | a release on the device of the press is taken by the taker of the press, whatever was toggled, filtered or refreshed |
| `RemapClasses.Manager.OverlappingReleaseGoesToFirst` | src/core/kext/RemapClass.cpp:69-100 | when two items both hold a press of one key, a release goes to the one offered events first, so one outstanding press per key is needed |
| `RemapClasses.Run` | src/core/kext/RemapClass.cpp:69-100 | over every run with one outstanding press per key, over all devices, released on the device of the press: a press is taken by the first item, in the order of classes and items, of a listed class that is switched on, of its key, neither filtered nor blocked for the device, with its modifiers on and pass-through off or ignored, and by none if there is none; each release is taken by exactly the item that took its press; and the listed classes change only with a refresh, to those switched on and those holding an outstanding press |
| `Bouncing.RemoveBounces` | src/core/kext/Classes/EventInputQueue.cpp:489-537 | the restarted double loop computes the filtered queue and terminates |
| `Bouncing.DebouncedCorrect` | src/core/kext/Classes/EventInputQueue.cpp:489-537 | for every queue: the result is a subsequence, presses minus releases of every key are unchanged, and no release is followed by a press of its key within the threshold without another release between |
| `Bouncing.DebouncedIdempotent` | src/core/kext/Classes/EventInputQueue.cpp:489-537 | a queue is left alone if and only if it holds no bounce |
| `Bouncing.PairFiltered` | src/core/kext/Classes/EventInputQueue.cpp:489-537 | a release and the next press of its key are removed when less than the threshold lies between them, that of the mouse for buttons and that of the keyboard for all others, and kept otherwise |
| `Bouncing.SlowTypingKept` | src/core/kext/Classes/EventInputQueue.cpp:489-537 | a queue in which every press comes at least the threshold after each earlier release of its key is left alone |
| `InputQueue.EventInputQueue.MoveUpAfterDown` | src/core/kext/Classes/EventInputQueue.cpp:864-878 | the walk from the back puts a release right behind the latest press of its key, or in front |
| `InputQueue.InsertUpBehindDown` | src/core/kext/Classes/EventInputQueue.cpp:846-853 | a blocking key's release comes right behind its press, ahead of what was typed meanwhile |
| `InputQueue.InsertUpKeepsOrderIff` | src/core/kext/Classes/EventInputQueue.cpp:855-878 | moving a release keeps every key's own order if and only if no release of that key stands behind its latest press |
| `InputQueue.EventInputQueue.DoBlockUntilKeyUp` | src/core/kext/Classes/EventInputQueue.cpp:763-900 | the loops and branches compute the specified effect on queue, blocked queue and pressing list, and the blocking timer is armed exactly while something is on hold |
| `InputQueue.HandledDelivers` | src/core/kext/Classes/EventInputQueue.cpp:763-900 | handling and firing the front keeps, for every key, that fired, held and queued events together are the events let through, in order of arrival: all that arrived, or with the bounce filter on a part of them |
| `InputQueue.HandledWork` | src/core/kext/Classes/EventInputQueue.cpp:763-900 | handling an event never adds to the weighted number of hardware, held and requeued events, and reduces it when nothing is fired |
| `InputQueue.DebouncedDelivers` | src/core/kext/Classes/EventInputQueue.cpp:489-537 | taking bounces out keeps that, for every key, the events let through are a part of those that arrived, in order and with as many presses more than releases |
| `InputQueue.EventInputQueue.FireTimerCallback` | src/core/kext/Classes/EventInputQueue.cpp:484-629 | a timer step handles the front of the queue, after the bounce filter if it is on, and fires at most one event; it keeps delivery and armed timers, and strictly reduces the work |
| `InputQueue.EventInputQueue.StepPress` | src/core/kext/Classes/EventInputQueue.cpp:763-829 | a press is put on hold if and only if its key is a blocking key or another blocking key is down and not ignored; otherwise it ends blocking and everything on hold comes before it |
| `InputQueue.EventInputQueue.BlockingKeyTyped` | src/core/kext/Classes/EventInputQueue.cpp:846-880 | a blocking key pressed and released around quickly typed other keys, with anything behind: nothing is fired before its release, then its press and its release, and then what was typed; afterwards it no longer blocks |
| `InputQueue.EventInputQueue.OtherKeyTyped` | src/core/kext/Classes/EventInputQueue.cpp:828-890 | a blocking key and other keys go down and one of the others goes up: nothing is fired before that, then everything in the order it arrived, and the keys that are down are ignored from then on |
| `InputQueue.TickHold` | src/core/kext/Classes/EventInputQueue.cpp:828-844 | while a blocking key is down, another key's event stays on hold unless it is the release of a key pressed since and no key that was down before has gone up |
| `InputQueue.PassesAtOnce` | src/core/kext/Classes/EventInputQueue.cpp:800-818 | with nothing on hold and no blocking key down that is not ignored, a press of another key is fired at once |
| `InputQueue.EventInputQueue.BlockingTimeout` | src/core/kext/Classes/EventInputQueue.cpp:957-961 | the blocking timeout releases all held events in front of the queue, with the timer armed, marks every key that is down as ignored, and strictly reduces the work |
| `InputQueue.EventInputQueue.Drain` | src/core/kext/Classes/EventInputQueue.cpp:484-629 | with no new arrivals, in whatever order the two timers fire, both queues drain; then every event has been fired exactly once with each key's events in order of arrival, or with the bounce filter on, what was fired of each key is a part of what arrived, in that order, with presses minus releases unchanged |
| `Simultaneous.SearchDownKeys` | src/core/kext/RemapFunc/SimultaneousKeyPresses.cpp:209-300 | the scan loop finds the presses the specification finds |
| `Simultaneous.SearchSucceeds` | src/core/kext/RemapFunc/SimultaneousKeyPresses.cpp:209-300 | the search succeeds if and only if there is a moment at which all keys have gone down and none has gone up, in order if order is strict |
| `Simultaneous.SearchTakesFirstGroup` | src/core/kext/RemapFunc/SimultaneousKeyPresses.cpp:209-300 | the presses found are the first complete group: without its last press some key has not gone down, and each is the latest press of its key |
| `Simultaneous.TwoKeysTogether` | src/core/kext/RemapFunc/SimultaneousKeyPresses.cpp:209-300 | two keys pressed one right after the other are found, unless order is strict and theirs is not the rule's |
| `Simultaneous.TwoKeysApart` | src/core/kext/RemapFunc/SimultaneousKeyPresses.cpp:222-241 | two keys are not found when the first goes up before the second goes down |
| `Simultaneous.Simultaneity.KeyUp` | src/core/kext/RemapFunc/SimultaneousKeyPresses.cpp:148-185 | an up is swallowed if and only if it has an active entry of the rule; exactly one entry goes, and the virtual key goes up exactly with the last one of its activation |
| `Simultaneous.Simultaneity.Activate` | src/core/kext/RemapFunc/SimultaneousKeyPresses.cpp:262-287 | an activation enters each key with the current serial number, takes its presses out of the queue, raw copies and virtual press in front, and is recorded as one take per key and one virtual press |
| `Simultaneous.TakenOutCorrect` | src/core/kext/RemapFunc/SimultaneousKeyPresses.cpp:262-287 | the queue after an activation is the old queue without exactly the chosen presses, behind their raw copies in the order of the rule |
| `Simultaneous.NewEntriesAt` | src/core/kext/RemapFunc/SimultaneousKeyPresses.cpp:262-272 | each key of an activation is entered with its own number and the device of its own press, and with the device of the front and the serial number of the activation |
| `Simultaneous.CopiesAt` | src/core/kext/RemapFunc/SimultaneousKeyPresses.cpp:273-284 | the raw copies stand in the order of the rule's keys, with the device of the front, and are not targets |
| `Simultaneous.NumberedDistinct` | src/core/kext/RemapFunc/SimultaneousKeyPresses.cpp:283-284 | no two queued events share a number, so taking an event out by its number takes out that event alone |
| `Simultaneous.BalancedErase` | src/core/kext/RemapFunc/SimultaneousKeyPresses.hpp:94-148 | ending an entry keeps virtual presses minus releases equal to the number of distinct serial numbers still active |
| `Simultaneous.Simultaneity.Pass` | src/core/kext/RemapClass.cpp:773-787 | every consulted rule has its turn in order and no other rule does anything; a turn swallows the front as the release of an active key, or takes over a group of presses that begins with it, and changes nothing only if there is neither: no active entry is released by the front, and if it is a press of one of the keys with the modifiers on, the keys do not all go down before one goes up; a pass that changes something leaves fewer target events |
| `Simultaneous.Simultaneity.RemapRule` | src/core/kext/RemapFunc/SimultaneousKeyPresses.cpp:113-303 | one rule: the two effects of a release and of a group of presses, and nothing to do for the rule if nothing changes |
| `Simultaneous.Simultaneity.FireTimerCallback` | src/core/kext/Classes/EventInputQueue.cpp:539-580 | the passes follow one another and terminate; the event that then leaves the queue is one no consulted rule has anything to do with; afterwards every activation is older than the current serial number |
| `Simultaneous.Simultaneity.ClearActive` | src/core/kext/Classes/EventInputQueue.cpp:732-750 | the reset forgets every entry, and the counts start again from there |
| `Simultaneous.AllReleased` | src/core/kext/RemapFunc/SimultaneousKeyPresses.cpp:171-184 | once no key of a rule is active, its virtual key has gone up as often as down |
| `Simultaneous.Run` | src/core/kext/RemapFunc/SimultaneousKeyPresses.cpp:135-326 | along every run: virtual downs minus virtual ups of a rule with a virtual key is the number of distinct serial numbers still active for it, and presses taken minus releases matched is its number of active entries, both counted since the last reset; and the state goes through the script step by step, each timer step by passes that end with an event no rule has anything to do with |
| `FlagBits.BitsOn` | src/core/kext/KeyCode.hpp:105-112 | in the word of a set a modifier is on if and only if it is a member, despite the bits left and right modifiers share |
| `FlagBits.OnSetBits` | src/core/kext/KeyCode.cpp:106-142 | sets of real modifiers and their words correspond one to one |
| `FlagBits.Remove` | src/core/kext/KeyCode.cpp:144-176 | the clear-and-restore loop computes the specified word |
| `FlagBits.RemoveCorrect` | src/core/kext/KeyCode.cpp:144-176 | removing a modifier from the word of a set gives the word of the set without it, NUMPAD included |
| `Output.EventOutputQueue.FireModifiers` | src/core/kext/Classes/EventOutputQueue.cpp:212-280 | unless suppressed, exactly the modifiers of the wanted flags are on afterwards, and the events pushed are the specified releases followed by the specified presses; a suppressed or needless call pushes nothing |
| `Output.TransitionShape` | src/core/kext/Classes/EventOutputQueue.cpp:212-280 | the events of one call: releases, then presses; one event for every modifier with a key that differs and none for the others; each event's flags differ from the previous ones by exactly its own modifier; the end is the wanted set |
| `Output.EventOutputQueue.RemovePressDown` | src/core/kext/Classes/PressDownKeys.cpp:25-39 | exactly the entries of the pair are removed |
| `Output.EventOutputQueue.ClearPressDown` | src/core/kext/Classes/PressDownKeys.cpp:41-55 | one release per entry is pushed, the list is empty, and the pairs pressed in the pushed stream are the former ones without the listed ones |
| `Output.EventOutputQueue.FireKey` | src/core/kext/Classes/EventOutputQueue.cpp:283-408 | what is pushed in every case: a release alone under the last modifiers, a press behind the modifier events it needs, for MODIFY only those, nothing for keys that are not put out; the modifiers on, the remembered keys and the pressed pairs afterwards |
| `Output.EventOutputQueue.FirePointer` | src/core/kext/Classes/EventOutputQueue.cpp:431-480 | the events pushed: the changes of modifiers before the button event and the movement when no button goes up, behind them when one does; the modifiers and buttons asked for are in force afterwards and no key changes |
| `Output.EventOutputQueue.FireOther` | src/core/kext/Classes/EventOutputQueue.cpp:411-426 | consumer keys, the wheel and waits: the changes of modifiers first, unless suppressed, then the event |
| `Output.MakeFlags` | src/core/kext/Classes/FlagStatus.cpp:189-197 | the word of exactly the real modifiers with a positive sum |
| `Output.SummedMeaning` | src/core/kext/Classes/FlagStatus.hpp:29-35 | a real modifier is in the flags when its counts together exceed its negative lock, a lazy count taking part only while lazies are enabled |
| `Output.EventOutputQueue.ResetInternalState` | src/core/kext/Classes/EventInputQueue.cpp:732-750 | the reset pushes the changes of modifiers, a release of all buttons if some are down, and a release of every remembered key; the modifiers on are then exactly those with lock minus negative lock plus sticky above zero, and no pair is left pressed if and only if every pressed pair was remembered |
| `Output.RepeatsHeldPressed` | src/core/kext/Classes/EventOutputQueue.cpp:400-406 | if repeats are sent only for keys that are down, every pressed pair is remembered, so the reset releases everything |
| `Output.RepeatStuck` | src/core/kext/Classes/EventOutputQueue.cpp:400-406 | after a repeated press of a key that is not down, the reset leaves a pair pressed |
| `Output.RunThenReset` | src/core/kext/Classes/EventInputQueue.cpp:732-750 | after any run ended by the reset: the modifiers on are exactly those locked or sticky on balance, no pair is pressed if and only if every pressed pair was held, and none is if the run repeated only held keys |
| `Output.EventOutputQueue.FireTimerCallback` | src/core/kext/Classes/EventOutputQueue.cpp:116-206 | the first event not cancelled is sent, cancelled ones go, and the timer is armed if and only if events remain |
| `Output.KeptOf` | src/core/kext/Classes/EventOutputQueue.cpp:116-206 | exactly the cancelled events go and the others keep their order |
| `Output.EventOutputQueue.Drain` | src/core/kext/Classes/EventOutputQueue.cpp:116-206 | without further pushes and cancellations the queue drains in the order of the pushes |
| `Output.Run` | src/core/kext/Classes/EventOutputQueue.cpp:209-280 | along every run of output calls: waiting events have their timer armed, each modifier's events alternate starting with a press, the last flags are the word of a set of modifiers, replaying the events gives that set without NUMPAD, and the remembered pairs are exactly those whose last non-repeat event is a press; and every step pushes the event it asks for with nothing but modifier events around it |
| `InitializeVector.Load` | src/core/kext/RemapClass.cpp:562-663 | the loader's loops compute the specified slots or reject |
| `InitializeVector.RemapClassesInitializeVector.Start` | src/lib/xml_compiler/src/xml_compiler+remapclasses_initialize_vector.cpp:51-73 | a completed index is refused without any change; otherwise an abandoned entry is dropped and a new one opened |
| `InitializeVector.RemapClassesInitializeVector.PushBack` | src/lib/xml_compiler/include/pqrs/xml_compiler/detail/remapclasses_initialize_vector.hpp:11-16 | the open payload grows by the word and its size word with it |
| `InitializeVector.RemapClassesInitializeVector.Insert` | src/lib/xml_compiler/include/pqrs/xml_compiler/detail/remapclasses_initialize_vector.hpp:17-22 | the word is inserted in the middle of the open payload and the size word stays right |
| `InitializeVector.RemapClassesInitializeVector.End` | src/lib/xml_compiler/src/xml_compiler+remapclasses_initialize_vector.cpp:75-87 | the open entry is completed, the count, the largest index and the set of indexes with it |
| `InitializeVector.RemapClassesInitializeVector.Freeze` | src/lib/xml_compiler/src/xml_compiler+remapclasses_initialize_vector.cpp:36-49 | the open entry is dropped and exactly the missing indexes get empty entries |
| `InitializeVector.FrozenComplete` | src/lib/xml_compiler/src/xml_compiler+remapclasses_initialize_vector.cpp:36-49 | after freezing each index from zero to the largest occurs exactly once |
| `InitializeVector.FramingRoundTrip` | src/core/kext/RemapClass.cpp:562-663 | for all completed entries with distinct indexes, the kernel accepts the frozen vector if and only if there is an entry, the count is at most 10000 and the vector at most 2097152 words, and slot i then holds the payload of index i, empty if missing |
| `InitializeVector.LoadedIsVector` | src/core/kext/RemapClass.cpp:562-663 | whatever the kernel accepts begins with a count and that many well-formed entries with indexes in range, which fill every slot with the payload they carry |
| `InitializeVector.EntryAt` | src/lib/xml_compiler/src/xml_compiler+remapclasses_initialize_vector.cpp:51-112 | an entry in the vector word by word: the size with the index, the index, the payload |
| `InitializeVector.AllocationFits` | src/core/kext/RemapClass.cpp:235-239 | however many entries of an accepted vector have been read, their payloads together stay within the allocation limit of the class constructor |
| `InitializeVector.CompileAndLoad` | src/lib/xml_compiler/src/xml_compiler+remapclasses_initialize_vector.cpp:36-112 | for every sequence of start, push, insert, update and end, abandoned entries included, the kernel's slots are those of the completed entries |
| `Records.AddToInitializeVector` | src/lib/xml_compiler/src/xml_compiler+remapclasses_initialize_vector_loader.cpp:374-437 | fails if and only if a symbol is unknown or something other than a modifier is connected by a bar, leaving the entry open; otherwise appends one record with a right count: a USE_SEPARATOR pair in front per separator, the arguments in order, MODIFIERFLAGS_END after each modifier group, and then the filters |
| `Records.RecordAt` | src/lib/xml_compiler/src/xml_compiler+remapclasses_initialize_vector_loader.cpp:374-437 | a remap record word by word: the number of words that follow, the type, then data type and value of each pair |
| `Records.RecordPairsAt` | src/lib/xml_compiler/src/xml_compiler+remapclasses_initialize_vector_loader.cpp:414-421 | in front of the pairs of a record stands one USE_SEPARATOR for every SEPARATOR among them, and nothing else |
| `Records.ArgumentAt` | src/lib/xml_compiler/src/xml_compiler+remapclasses_initialize_vector_loader.cpp:386-431 | the arguments stand in their order, and one that ends in a modifier is closed by MODIFIERFLAGS_END |
| `Records.ReadItems` | src/core/kext/RemapClass.cpp:245-364 | the constructor's loop computes the specified items, stopping at the first malformed record |
| `Records.RecordsRoundTrip` | src/core/kext/RemapClass.cpp:245-364 | for every list of autogens the kernel reads back one item each, in order, with exactly its own filters |
| `Records.Create` | src/core/kext/RemapFunc/RemapFuncFactory.hpp:120-131 | the pair reader adds all pairs in order except IGNORE_PASSTHROUGH, which sets its flag |
| `Records.PairsRoundTrip` | src/core/kext/RemapFunc/RemapFuncFactory.hpp:120-131 | reading the words of a list of pairs gives that list |
| `Records.ItemPairs` | src/core/kext/RemapFunc/RemapFuncFactory.hpp:120-131 | the processor created from an autogen's item is given exactly the autogen's pairs in order |
| `Filters.FilterVector.Add` | src/lib/xml_compiler/src/xml_compiler+filter_vector.cpp:81-174 | a filter with arguments becomes one record with a right count, an empty one is rolled back |
| `Filters.FilterVector.FillOmitted` | src/lib/xml_compiler/src/xml_compiler+filter_vector.cpp:176-207 | a begun triple is completed with the wildcards of the missing parts |
| `Filters.PairFilterAt` | src/lib/xml_compiler/src/xml_compiler+filter_vector.cpp:81-174 | filters of key or time pairs give data type and value of each argument in order |
| `Filters.PlainFilterAt` | src/lib/xml_compiler/src/xml_compiler+filter_vector.cpp:81-174 | the other filters give the value of each argument in order |
| `Filters.ModifierFilterNext` | src/lib/xml_compiler/src/xml_compiler+filter_vector.cpp:81-174 | each argument of a modifier filter is a group in order, closed by MODIFIERFLAGS_END |
| `Filters.DevicePlaced` | src/lib/xml_compiler/src/xml_compiler+filter_vector.cpp:142-165 | every argument of a device filter is found at its position, the words come in triples, and every vendor starts one |
| `Filters.DeviceOrder` | src/lib/xml_compiler/src/xml_compiler+filter_vector.cpp:142-165 | the arguments of a device filter keep their order |
| `Filters.DeviceWords` | src/lib/xml_compiler/src/xml_compiler+filter_vector.cpp:176-207 | every other word of a device filter is the wildcard of the place it stands in |
| `Compilation.WriteAutogen` | src/lib/xml_compiler/src/xml_compiler+remapclasses_initialize_vector_loader.cpp:361-438 | one autogen with its filters is appended to the open entry as one remap record and its filter records, or fails on a bad argument |
| `Compilation.WriteEntry` | src/lib/xml_compiler/src/xml_compiler+remapclasses_initialize_vector_loader.cpp:33-59 | an entry is completed if and only if its index is free and all its autogens are without errors; otherwise nothing of it stays |
| `Compilation.AllAccepted` | src/lib/xml_compiler/src/xml_compiler+remapclasses_initialize_vector_loader.cpp:33-59 | without errors and repeated indexes every entry is kept |
| `Compilation.AcceptedNext` | src/lib/xml_compiler/src/xml_compiler+remapclasses_initialize_vector_loader.cpp:33-59 | an entry is kept if and only if it is without errors and no entry kept before it has its index |
| `Compilation.FilterListAt` | src/lib/xml_compiler/src/xml_compiler+filter_vector.cpp:81-174 | the filters of an autogen keep their order, those with arguments each starting with its type, those without leaving no trace |
| `Compilation.ClassRoundTrip` | src/core/kext/RemapClass.cpp:245-364 | the class read from an entry's payload holds, for each autogen in order, a processor with its pairs in order, its pass-through flag and exactly its own filters |
| `Compilation.CompileAndRead` | src/core/kext/RemapClass.cpp:562-663 | for all entries with all their autogens, arguments and filters: the kernel accepts the vector exactly within its limits, and then the slot of every kept entry holds its processors and the other slots none |
| `LinkedList.List.Erase` | src/core/kext/Classes/List.cpp:4-26 | the list is the old one without the node, both ways, and the node behind it is returned |
| `LinkedList.List.Insert` | src/core/kext/Classes/List.cpp:43-79 | the list is the old one with the new node at its place, both ways |
| `LinkedList.List.PushBack` | src/core/kext/Classes/List.cpp:81-97 | the new node is last, both ways |
| `LinkedList.List.PushFront` | src/core/kext/Classes/List.cpp:99-102 | the new node is first, both ways |
| `LinkedList.List.Clear` | src/core/kext/Classes/List.cpp:37-41 | the loop terminates with the empty list |
| `LinkedList.List.Forward` | src/core/kext/Classes/List.hpp:18-33 | the walk along next from the front visits exactly the nodes of the sequence in order |
| `LinkedList.List.Backward` | src/core/kext/Classes/List.hpp:18-33 | the walk along prev from the back visits them in reverse |
| `LinkedList.List.RemoveAll` | src/core/kext/Classes/PressDownKeys.cpp:25-36 | erasing while walking terminates having removed exactly the matching nodes |
| `LinkedList.ChainInsert` | src/core/kext/Classes/List.cpp:63-75 | relinking the two neighbours is all an insertion needs, at every position |
| `LinkedList.EraseLinks` | src/core/kext/Classes/List.cpp:8-21 | relinking the two neighbours is all an erasure needs, at every position |
| `Momentum.TotalClosed` | src/core/kext/RemapFunc/PointingRelativeToScroll.cpp:283-325 | an axis with delta d emits in total sign(d) times (twice the absolute value of d minus its number of one bits) |
| `Momentum.TotalBound` | src/core/kext/RemapFunc/PointingRelativeToScroll.cpp:283-325 | that total is below twice the first delta and never changes direction |
| `Momentum.PointingRelativeToScroll.Tick` | src/core/kext/RemapFunc/PointingRelativeToScroll.cpp:283-325 | one tick emits the front item and queues its truncated halves unless both deltas are zero or momentum is off |
| `Momentum.PointingRelativeToScroll.Drain` | src/core/kext/RemapFunc/PointingRelativeToScroll.cpp:283-325 | without new input the queue drains after a known number of ticks, having emitted exactly the closed-form totals of its items, however they interleave |
| `Momentum.TemporaryRestored` | src/core/kext/RemapFunc/PointingRelativeToScroll.cpp:298-315 | the temporary counters come back to where they were around each event |
| `Utf8Copy.Strlcpy` | src/lib/strlcpy_utf8/strlcpy_utf8.hpp:7-42 | for every byte string and size the buffer holds the specified prefix, the return value is the source length, and size 0 is an error that changes nothing |
| `Utf8Copy.CopiesWholeCharacters` | src/lib/strlcpy_utf8/strlcpy_utf8.hpp:7-42 | for text valid under section 3 of RFC 3629 and every size above 0 the copy ends at the last character boundary that fits in size minus one bytes |
| `Utf8Copy.CutStops` | src/lib/strlcpy_utf8/strlcpy_utf8.hpp:20-36 | for any bytes, valid or not, the copy ends where no more bytes fit, at a byte that begins no character, or at a character that does not fit |
| `Utf8Copy.PushString` | src/lib/xml_compiler/src/xml_compiler+remapclasses_initialize_vector.cpp:89-105 | the words of valid text hold that text, complete and terminated |
| `Utf8Copy.SendMessage` | src/core/kext/RemapClass.cpp:284-289 | what the kernel's buffer shows is the longest run of whole characters of the message that fits |

## Left out

- IOKit hooks, device lists, the user client, the global lock and sysctl: calls into the operating system.
- Objective-C headers, the viewers and notifiers, build scripts and generators: user interface and tooling.
- Reading XML, include expansion, regular expressions and text replacement before tokens: the model starts from tokens with their data types and symbol values.
- Individual virtual key handlers: only that they may change lock, sticky and lazy counters.
- DropAllKeys and DropKeyAfterRemap: cancelled output items are only removed from the output queue; the stream properties are about pushed events.
- KeyboardRepeat, mouse key acceleration, flip and drop functions, the simple filters: when a key is repeated, how deltas are scaled and which condition a filter tests are not modelled. A repeat appears as an output event with its repeat flag, a filter as an arbitrary answer.
- Button counters: the buttons of the pointing device have no counter law in the model; ButtonStatus follows the same pattern as the modifier counts.
- Flags inside the events a key-to-key rule fires: an event is recorded with the counts and temporary counts it is sent under; the lock, sticky and lazy parts, which virtual key handlers may change at any moment, are not recorded with it.
- Allocation failure, failed timers, disconnected devices and overflow of serial numbers: assumed not to happen, so a device entry never expires.
- The clock: two readings of the clock within one bounce test are taken at the same time.
- Setting a blocking key while events are on hold: delivery is for a fixed set of blocking keys; `InsertUpKeepsOrderIff` gives the exact condition otherwise.
- Active items of simultaneous rules: which rules are consulted in a pass is an arbitrary set, which includes every gating the source can produce.
- The list of prepare targets: key-to-key rules may be prepared before, between and after the instances of a press, and at any other moment, instead of in the order of one list.
- Event watcher and stop watch of PressingPeriods: that nothing else has happened since a press became long and that the time is short is an input of the release, and that a key repeat has been cancelled one of the timer.
- Blocking with the bounce filter on: `StepPress`, `BlockingKeyTyped` and `OtherKeyTyped` are for the filter switched off; `FireTimerCallback` is for both.
- Suppression of modifier events after a press: a press of an instance switches the flag `ignorePhysicalUp` of the output queue on; in the model that is a step of the scripts of `Output.Run`, which may happen at any moment.
- Reset between runs of PressingPeriods: its runs have no reset of all keys; KeyToKey.Run has, and its held-key law is per stretch between resets.
- PressingPeriods.Run: presses of one instance's own key do not overlap; nothing is stated about a second press before the release.
- RemapClasses.Run: covers key-to-key items, one outstanding press per key, released on the device it was pressed on and without reload or reset in between.
- Other record types: status messages, modifier names and virtual key records are checked for size and skipped by the model of the kernel's parser, except for the text of status messages; `CompileAndRead` writes remap and filter records only.
- Nesting of filters: every autogen comes with the list of the filters in force for it.
- Output.RepeatsHeldPressed: that KeyboardRepeat repeats only keys that are down is a premise, since its timing is not part of this model.
