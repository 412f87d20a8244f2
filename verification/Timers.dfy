/**
  A virtual clock with every armed timer on it. Handles are indices: dropping or overwriting a
  handle does not disarm its timer. Time never passes an armed deadline; a due timer has to
  fire first.
 */
module Timers {
  import opened Wrappers

  type Millis = r: real | 0.0 <= r witness 0.0

  datatype Alarm<K> = Alarm(kind: K, deadline: real)

  datatype Clock<K> = Clock(now: real, armed: map<nat, Alarm<K>>, nextId: nat)

  function Start<K>(): Clock<K> {
    Clock(0.0, map[], 0)
  }

  /** `setTimeout`; the handle is the old `nextId`. */
  function Arm<K>(c: Clock<K>, kind: K, delay: Millis): Clock<K> {
    Clock(c.now, c.armed[c.nextId := Alarm(kind, c.now + delay)], c.nextId + 1)
  }

  /** `clearTimeout`; a handle that no longer names an armed timer is harmless. */
  function Disarm<K>(c: Clock<K>, handle: Option<nat>): Clock<K> {
    if handle.Some? then c.(armed := c.armed - {handle.value}) else c
  }

  predicate Due<K>(c: Clock<K>, id: nat) {
    id in c.armed && c.armed[id].deadline <= c.now
  }

  predicate MayPass<K>(c: Clock<K>, to: real) {
    c.now <= to && forall id | id in c.armed :: to <= c.armed[id].deadline
  }

  ghost predicate Sound<K>(c: Clock<K>) {
    forall id | id in c.armed :: id < c.nextId && c.now <= c.armed[id].deadline
  }

  /** Every timer of `after` was there before, or has just been set for the duration of its kind. */
  ghost predicate Timely<K(!new)>(before: Clock<K>, after: Clock<K>, duration: K -> real) {
    forall id | id in after.armed ::
      || (id in before.armed && after.armed[id] == before.armed[id])
      || after.armed[id].deadline == before.now + duration(after.armed[id].kind)
  }

  lemma TimelyTwice<K(!new)>(a: Clock<K>, b: Clock<K>, c: Clock<K>, duration: K -> real)
    requires Timely(a, b, duration) && Timely(b, c, duration) && b.now == a.now
    ensures Timely(a, c, duration)
  {
  }
}
