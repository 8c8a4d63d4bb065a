/** The events of the input queue (src/core/kext/Classes/EventInputQueue.hpp, Classes/FromEvent.*). */
module InputEvents {
  import opened Wrappers

  /** What can be pressed and released: the kinds a FromEvent distinguishes. */
  datatype Key = Keyboard(code: nat) | Consumer(code: nat) | Button(code: nat)

  /** A press, a release, or an event that is neither (cursor moves, the scroll wheel). */
  datatype Event = Down(key: Key) | Up(key: Key) | Other
  {
    function KeyOf(): Option<Key> { if Other? then None else Some(key) }
  }

  /** A queued event; `id` tells apart equal events, `time` is its arrival in milliseconds, and `requeued` marks
      events that come back from the blocked queue. */
  datatype Item = Item(event: Event, id: nat, time: nat, requeued: bool)
}
