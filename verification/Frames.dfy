/** Protocol events, the frames that stamp them, and the filters observers subscribe with. */
module Frames {
  import opened Wrappers

  datatype LifecycleEvent = Completed | Failed | Interrupted | OtherPhase

  datatype Method =
    | Values | Checkpoints | Updates | Messages | Tools | Tasks
    | Lifecycle(event: LifecycleEvent)
    | InputRequested
    | Custom(name: Option<string>)
    | Unknown

  datatype Event = Event(meth: Method, namespace: seq<string>)

  /** An event with the number that the run manager stamped on it. */
  datatype Frame = Frame(no: nat, ev: Event)

  datatype Filter = Filter(
    channels: seq<string>,
    namespaces: Option<seq<seq<string>>>,
    depth: Option<nat>,
    since: Option<nat>)

  function InferChannel(ev: Event): Option<string> {
    match ev.meth
    case Values => Some("values")
    case Checkpoints => Some("checkpoints")
    case Updates => Some("updates")
    case Messages => Some("messages")
    case Tools => Some("tools")
    case Tasks => Some("tasks")
    case Lifecycle(_) => Some("lifecycle")
    case InputRequested => Some("input")
    case Custom(Some(name)) => Some("custom:" + name)
    case Custom(None) => Some("custom")
    case Unknown => None
  }

  method IsPrefixMatch(ns: seq<string>, prefix: seq<string>) returns (r: bool)
    ensures r <==> prefix <= ns
  {
    if |prefix| > |ns| {
      return false;
    }
    for i := 0 to |prefix|
      invariant prefix[..i] == ns[..i]
    {
      if ns[i] != prefix[i] {
        return false;
      }
    }
    return true;
  }

  predicate NamespaceMatches(ns: seq<string>, prefixes: Option<seq<seq<string>>>, depth: Option<nat>) {
    prefixes.None? || |prefixes.value| == 0 ||
    exists i :: 0 <= i < |prefixes.value| && prefixes.value[i] <= ns &&
                (depth.None? || |ns| - |prefixes.value[i]| <= depth.value)
  }

  predicate FrameMatchesFilter(ev: Event, filter: Filter) {
    var channel := InferChannel(ev);
    && channel.Some?
    && (channel.value in filter.channels || ("custom:" <= channel.value && "custom" in filter.channels))
    && NamespaceMatches(ev.namespace, filter.namespaces, filter.depth)
  }

  /** What an observer hands to its consumer: past `since`, and of a wanted channel and namespace. */
  predicate Wanted(f: Frame, filter: Filter) {
    (filter.since.Some? ==> f.no > filter.since.value) && FrameMatchesFilter(f.ev, filter)
  }

  /** What a subscription to a channel covers: `custom` every custom event, `custom:name` the ones of that name. */
  ghost predicate Covered(meth: Method, channel: string) {
    match meth
    case Values => channel == "values"
    case Checkpoints => channel == "checkpoints"
    case Updates => channel == "updates"
    case Messages => channel == "messages"
    case Tools => channel == "tools"
    case Tasks => channel == "tasks"
    case Lifecycle(_) => channel == "lifecycle"
    case InputRequested => channel == "input"
    case Custom(name) => channel == "custom" || (name.Some? && channel == "custom:" + name.value)
    case Unknown => false
  }

  /** At most `depth` names below a prefix. */
  ghost predicate Beneath(ns: seq<string>, prefix: seq<string>, depth: Option<nat>) {
    exists rest :: ns == prefix + rest && (depth.Some? ==> |rest| <= depth.value)
  }

  lemma BeneathIsPrefix(ns: seq<string>, prefix: seq<string>, depth: Option<nat>)
    ensures Beneath(ns, prefix, depth) <==> prefix <= ns && (depth.None? || |ns| - |prefix| <= depth.value)
  {
    if prefix <= ns {
      assert ns == prefix + ns[|prefix|..];
    }
  }

  lemma CustomChannel(ev: Event)
    requires InferChannel(ev).Some?
    ensures "custom:" <= InferChannel(ev).value <==> ev.meth.Custom? && ev.meth.name.Some?
  {
    var channel := InferChannel(ev).value;
    assert "custom:" <= channel ==> channel[0] == "custom:"[0] && channel[1] == "custom:"[1];
  }

  /** A frame is wanted exactly if newer than `since`, covered by a channel asked for, and beneath a prefix. */
  lemma WantedExactly(f: Frame, filter: Filter)
    ensures Wanted(f, filter) <==>
      && (filter.since.Some? ==> filter.since.value < f.no)
      && (exists channel :: channel in filter.channels && Covered(f.ev.meth, channel))
      && (filter.namespaces.Some? && filter.namespaces.value != [] ==>
            exists prefix :: prefix in filter.namespaces.value && Beneath(f.ev.namespace, prefix, filter.depth))
  {
    ChannelExactly(f.ev, filter.channels);
    NamespaceExactly(f.ev.namespace, filter.namespaces, filter.depth);
  }

  lemma ChannelExactly(ev: Event, channels: seq<string>)
    ensures (exists channel :: channel in channels && Covered(ev.meth, channel)) <==>
      var channel := InferChannel(ev);
      channel.Some? && (channel.value in channels || ("custom:" <= channel.value && "custom" in channels))
  {
    if InferChannel(ev).Some? {
      var channel := InferChannel(ev).value;
      CustomChannel(ev);
      assert Covered(ev.meth, channel);
      assert ev.meth.Custom? ==> Covered(ev.meth, "custom");
    }
  }

  lemma NamespaceExactly(ns: seq<string>, prefixes: Option<seq<seq<string>>>, depth: Option<nat>)
    ensures NamespaceMatches(ns, prefixes, depth) <==>
      (prefixes.Some? && prefixes.value != [] ==>
         exists prefix :: prefix in prefixes.value && Beneath(ns, prefix, depth))
  {
    if prefixes.Some? {
      forall prefix | prefix in prefixes.value
        ensures Beneath(ns, prefix, depth) <==> prefix <= ns && (depth.None? || |ns| - |prefix| <= depth.value)
      {
        BeneathIsPrefix(ns, prefix, depth);
      }
    }
  }

  predicate IsTerminalRoot(ev: Event) {
    ev.meth.Lifecycle? && ev.namespace == [] && !ev.meth.event.OtherPhase?
  }

  predicate IsInterrupted(ev: Event) {
    ev.meth.Lifecycle? && ev.meth.event.Interrupted?
  }

  /** The frames that end a turn: the root's own completion, failure or interruption. */
  lemma TerminalExactly(ev: Event)
    ensures IsTerminalRoot(ev) <==>
      ev == LifecycleFrame(Completed) || ev == LifecycleFrame(Failed) || ev == LifecycleFrame(Interrupted)
    ensures IsTerminalRoot(ev) && IsInterrupted(ev) <==> ev == LifecycleFrame(Interrupted)
  {
    assert ev.meth.Lifecycle? && ev.namespace == [] ==> ev == LifecycleFrame(ev.meth.event);
  }

  function LifecycleFrame(e: LifecycleEvent): Event {
    Event(Lifecycle(e), [])
  }
}
