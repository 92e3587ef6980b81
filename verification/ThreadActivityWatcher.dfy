/** The desktop watcher as the object it is: its cursor, its generation, and its single reconnect chain. */
module ThreadActivityWatcherObject {
  import opened Wrappers
  import opened ActivityStream

  function Min(a: nat, b: nat): nat { if a <= b then a else b }

  function Max(a: nat, b: nat): nat { if a <= b then b else a }

  class ThreadActivityWatcher {
    const initialDelay: nat
    const maxDelay: nat
    var source: Option<nat>
    var cursor: Option<nat>
    var generation: nat
    var delay: nat
    var timer: Option<nat>
    var active: Option<nat>
    var stopped: bool
    var notified: seq<Note>
    ghost var accepted: seq<Entry>
    ghost var first: Option<nat>

    /** One chain: a live connection or an armed timer, never both, and always of the current generation. */
    ghost predicate Valid()
      reads this
    {
      && (timer.Some? ==> timer.value == generation && active.None?)
      && (active.Some? ==> active.value == generation)
      && (stopped ==> timer.None? && active.None?)
      && (delay <= maxDelay || delay == initialDelay)
    }

    /** The watcher's part of the delivery state, over given log and connections. */
    ghost function State(log: seq<Entry>, streams: seq<Stream>): State
      reads this
    {
      ActivityStream.State(log, streams, cursor, first, accepted, notified)
    }

    constructor (initialDelay: nat, maxDelay: nat)
      ensures Valid() && State([], []) == Init() && !stopped
      ensures this.initialDelay == initialDelay && this.maxDelay == maxDelay
    {
      this.initialDelay, this.maxDelay := initialDelay, maxDelay;
      source, cursor, generation, delay := None, None, 0, initialDelay;
      timer, active, stopped, notified := None, None, false, [];
      accepted, first := [], None;
    }

    /** A new source forgets the cursor; any connection change abandons the current chain and starts one. */
    method SetConnection(to: nat)
      requires Valid()
      modifies this
      ensures Valid() && accepted == old(accepted) && notified == old(notified) && stopped == old(stopped)
      ensures old(stopped) ==>
        generation == old(generation) && cursor == old(cursor) && active == old(active) && source == old(source)
      ensures !old(stopped) ==> source == Some(to) && generation == old(generation) + 1
      ensures !old(stopped) ==> active == Some(generation) && delay == initialDelay
      ensures !old(stopped) ==> cursor == if old(source) == Some(to) then old(cursor) else None
    {
      if stopped {
        return;
      }
      if source != Some(to) {
        cursor, first := None, None;
      }
      source := Some(to);
      generation := generation + 1;
      active, timer := None, None;
      delay := initialDelay;
      Connect(generation);
    }

    method Connect(g: nat)
      requires timer.None? && (stopped ==> active.None?)
      modifies this`active
      ensures active == if stopped || source.None? || g != generation then old(active) else Some(g)
    {
      if stopped || source.None? || g != generation {
        return;
      }
      active := Some(g);
    }

    /** A connection of generation g has ended: unless it was superseded, retry after a doubled, capped delay. */
    method OnEnded(g: nat)
      requires Valid() && (!stopped && g == generation ==> active == Some(g))
      modifies this
      ensures Valid() && generation == old(generation) && cursor == old(cursor) && notified == old(notified)
      ensures stopped == old(stopped) && source == old(source) && first == old(first) && accepted == old(accepted)
      ensures stopped || g != generation ==> delay == old(delay) && timer == old(timer) && active == old(active)
      ensures !stopped && g == generation ==>
        timer == Some(g) && active.None? && delay == Min(Max(2 * old(delay), initialDelay), maxDelay)
    {
      if stopped || g != generation {
        return;
      }
      active := None;
      timer := Some(g);
      delay := Min(Max(delay * 2, initialDelay), maxDelay);
    }

    method OnTimer()
      requires Valid() && timer.Some?
      modifies this`timer, this`active
      ensures Valid() && timer.None?
      ensures source.Some? ==> active == Some(generation)
    {
      var g := timer.value;
      timer := None;
      Connect(g);
    }

    method Stop()
      requires Valid()
      modifies this`stopped, this`generation, this`active, this`timer
      ensures Valid() && stopped && timer.None? && active.None?
      ensures generation == if old(stopped) then old(generation) else old(generation) + 1
    {
      if !stopped {
        stopped := true;
        generation := generation + 1;
        active, timer := None, None;
      }
    }

    method OnReady(at: nat, ghost log: seq<Entry>, ghost streams: seq<Stream>)
      requires Valid()
      modifies this`delay, this`cursor, this`first
      ensures Valid() && State(log, streams) == ActivityStream.OnReady(old(State(log, streams)), at)
      ensures delay == initialDelay
    {
      delay := initialDelay;
      if cursor.None? {
        cursor, first := Some(at), Some(at);
      }
    }

    method OnActivity(no: nat, entry: Entry, ghost log: seq<Entry>, ghost streams: seq<Stream>)
      modifies this`cursor, this`first, this`accepted, this`notified
      ensures State(log, streams) == ActivityStream.OnActivity(old(State(log, streams)), no, entry)
    {
      if cursor.None? {
        cursor, first := Some(no), Some(no);
        return;
      }
      if no <= cursor.value {
        return;
      }
      cursor := Some(no);
      accepted := accepted + [entry];
      var note := NotificationFor(entry);
      if note.Some? {
        notified := notified + [note.value];
      }
    }
  }
}
