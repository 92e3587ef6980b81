/**
  Delivery of the thread activity log: the server's loop, the connections, and the watcher's cursor.
  Entry k of the log has sequence number k + 1 and is never deleted. `fed`, `born`, `first`
  and `accepted` are history.
 */
module ActivityStream {
  import opened Wrappers

  datatype Outcome = Success | Failure | Timeout | Interrupted | Cancelled

  datatype Entry = Entry(thread: nat, outcome: Outcome)

  datatype Note = RunComplete(thread: nat) | RunFailed(thread: nat, reason: Outcome) | ActionRequired(thread: nat)

  function NotificationFor(e: Entry): Option<Note> {
    match e.outcome
    case Success => Some(RunComplete(e.thread))
    case Failure => Some(RunFailed(e.thread, Failure))
    case Timeout => Some(RunFailed(e.thread, Timeout))
    case Interrupted => Some(ActionRequired(e.thread))
    case Cancelled => None
  }

  datatype Msg = Ready(cursor: nat) | Activity(no: nat, entry: Entry)

  /** `Sending` is inside the for loop over one listing, with the events left; `Waiting` is in waitForChange. */
  datatype Server = Requested | Looping | Sending(batch: seq<Msg>) | Waiting | Closed

  /** `wire` is what the server wrote and the client has not read; `chunk` is a read chunk still to be parsed. */
  datatype Stream = Stream(
    since: Option<nat>, server: Server, cursor: nat,
    wire: seq<Msg>, chunk: seq<Msg>, aborted: bool,
    readyFed: bool, fed: nat, born: nat)

  datatype State = State(
    log: seq<Entry>, streams: seq<Stream>,
    cursor: Option<nat>, first: Option<nat>, accepted: seq<Entry>, notes: seq<Note>)

  function Init(): State {
    State([], [], None, None, [], [])
  }

  datatype Event =
    | Append(entry: Entry)
    | Connect
    | Lose(i: nat)
    | Accept(i: nat)
    | List(i: nat, upTo: nat)
    | Idle(i: nat)
    | Timer(i: nat)
    | Send(i: nat)
    | Receive(i: nat, n: nat)
    | Feed(i: nat)

  predicate Enabled(s: State, e: Event) {
    match e
    case Append(_) => true
    case Connect => true
    case Lose(i) => i < |s.streams|
    case Accept(i) => i < |s.streams| && s.streams[i].server == Requested
    case List(i, upTo) => i < |s.streams| && s.streams[i].server == Looping && s.streams[i].cursor < upTo <= |s.log|
    case Idle(i) => i < |s.streams| && s.streams[i].server == Looping && s.streams[i].cursor >= |s.log|
    case Timer(i) => i < |s.streams| && s.streams[i].server == Waiting
    case Send(i) =>
      i < |s.streams| && s.streams[i].server.Sending? && s.streams[i].server.batch != []
      && s.streams[i].server.batch[0].Activity?
    case Receive(i, n) =>
      i < |s.streams| && !s.streams[i].aborted && s.streams[i].chunk == [] && 0 < n <= |s.streams[i].wire|
    case Feed(i) => i < |s.streams| && s.streams[i].chunk != []
  }

  /** The subscription callback of one connection: a waiting loop is woken. */
  function Notify(st: Stream): Stream {
    if st.server == Waiting then st.(server := Looping) else st
  }

  function NotifyAll(streams: seq<Stream>): (out: seq<Stream>)
    ensures |out| == |streams| && forall i :: 0 <= i < |streams| ==> out[i] == Notify(streams[i])
  {
    seq(|streams|, i requires 0 <= i < |streams| => Notify(streams[i]))
  }

  function AbortAll(streams: seq<Stream>): (out: seq<Stream>)
    ensures |out| == |streams| && forall i :: 0 <= i < |streams| ==> out[i] == streams[i].(aborted := true)
  {
    seq(|streams|, i requires 0 <= i < |streams| => streams[i].(aborted := true))
  }

  function Put(s: State, i: nat, st: Stream): State
    requires i < |s.streams|
  {
    s.(streams := s.streams[i := st])
  }

  /** onReady: only the first cursor ever seen is adopted. */
  function OnReady(s: State, cursor: nat): State {
    if s.cursor.None? then s.(cursor := Some(cursor), first := Some(cursor)) else s
  }

  /** onActivity: without a cursor the event only sets it; an event at or below the cursor is ignored. */
  function OnActivity(s: State, no: nat, entry: Entry): State {
    if s.cursor.None? then s.(cursor := Some(no), first := Some(no))
    else if no <= s.cursor.value then s
    else
      var note := NotificationFor(entry);
      s.(cursor := Some(no), accepted := s.accepted + [entry],
         notes := if note.Some? then s.notes + [note.value] else s.notes)
  }

  /** The activity messages for log positions lo to hi. */
  function Acts(log: seq<Entry>, lo: nat, hi: nat): (m: seq<Msg>)
    requires lo <= hi <= |log|
    ensures |m| == hi - lo && forall k :: 0 <= k < |m| ==> m[k] == Activity(lo + k + 1, log[lo + k])
  {
    seq(hi - lo, k requires 0 <= k < hi - lo => Activity(lo + k + 1, log[lo + k]))
  }

  function FeedOne(s: State, i: nat): State
    requires i < |s.streams| && s.streams[i].chunk != []
  {
    var st := s.streams[i];
    var rest := st.(chunk := st.chunk[1..]);
    match st.chunk[0]
    case Ready(c) => OnReady(Put(s, i, rest.(readyFed := true)), c)
    case Activity(no, entry) => OnActivity(Put(s, i, rest.(fed := no)), no, entry)
  }

  function Step(s: State, e: Event): State
    requires Enabled(s, e)
  {
    match e
    case Append(entry) => s.(log := s.log + [entry], streams := NotifyAll(s.streams))
    case Connect =>
      s.(streams := AbortAll(s.streams) + [Stream(s.cursor, Requested, 0, [], [], false, false, 0, |s.log|)])
    case Lose(i) => Put(s, i, s.streams[i].(server := Closed, wire := [], chunk := [], aborted := true))
    case Accept(i) =>
      var st := s.streams[i];
      var c := if st.since.Some? then st.since.value else |s.log|;
      Put(s, i, st.(server := Looping, cursor := c, fed := c, wire := [Ready(c)]))
    case List(i, upTo) => Put(s, i, s.streams[i].(server := Sending(Acts(s.log, s.streams[i].cursor, upTo))))
    case Idle(i) => Put(s, i, s.streams[i].(server := Waiting))
    case Timer(i) => Put(s, i, s.streams[i].(server := Looping))
    case Send(i) =>
      var st := s.streams[i];
      var batch := st.server.batch;
      Put(s, i, st.(cursor := batch[0].no, wire := st.wire + [batch[0]],
                    server := if |batch| == 1 then Looping else Sending(batch[1..])))
    case Receive(i, n) =>
      var st := s.streams[i];
      Put(s, i, st.(chunk := st.wire[..n], wire := st.wire[n..]))
    case Feed(i) => FeedOne(s, i)
  }

  // ---------------------------------------------------------------- what always holds

  /**
    What one connection has still to bring: its ready message, then the entries after the last one it fed, in order.
   */
  function Owed(st: Stream, log: seq<Entry>): seq<Msg>
    requires st.fed <= st.cursor <= |log|
  {
    (if st.readyFed then [] else [Ready(st.fed)]) + Acts(log, st.fed, st.cursor)
  }

  ghost predicate Serving(st: Stream, log: seq<Entry>) {
    && st.fed <= st.cursor <= |log|
    && st.chunk + st.wire == Owed(st, log)
    && (st.server == Waiting ==> st.cursor == |log|)
    && (st.server.Sending? ==>
          0 < |st.server.batch| <= |log| - st.cursor
          && st.server.batch == Acts(log, st.cursor, st.cursor + |st.server.batch|))
    && (!st.readyFed && st.since.Some? ==> st.fed == st.since.value)
    && (!st.readyFed && st.since.None? ==> st.fed >= st.born)
  }

  ghost predicate StreamOk(st: Stream, log: seq<Entry>, cursor: Option<nat>) {
    && (st.since.Some? ==> cursor.Some? && st.since.value <= cursor.value)
    && (st.readyFed ==> cursor.Some?)
    && st.born <= |log|
    && match st.server
       case Requested => st.wire == [] && st.chunk == [] && !st.readyFed
       case Closed => st.wire == [] && st.chunk == [] && st.aborted
       case _ => Serving(st, log)
  }

  ghost predicate Sound(s: State) {
    && (forall i :: 0 <= i < |s.streams| ==> StreamOk(s.streams[i], s.log, s.cursor))
    && (s.cursor.Some? ==> s.cursor.value <= |s.log|)
  }

  lemma OwedAfterFeed(st: Stream, log: seq<Entry>)
    requires st.fed <= st.cursor <= |log| && st.chunk != [] && st.chunk + st.wire == Owed(st, log)
    ensures match st.chunk[0]
      case Ready(c) => !st.readyFed && c == st.fed && st.chunk[1..] + st.wire == Owed(st.(readyFed := true), log)
      case Activity(no, entry) =>
        && st.readyFed && no == st.fed + 1 <= st.cursor && entry == log[st.fed]
        && st.chunk[1..] + st.wire == Owed(st.(fed := no), log)
  {
    var owed := Owed(st, log);
    assert (st.chunk + st.wire)[0] == st.chunk[0] && (st.chunk + st.wire)[1..] == st.chunk[1..] + st.wire;
    if st.readyFed {
      assert owed == Acts(log, st.fed, st.cursor);
      assert owed[1..] == Acts(log, st.fed + 1, st.cursor);
    } else {
      assert owed[1..] == Acts(log, st.fed, st.cursor);
    }
  }

  lemma StreamOkLater(st: Stream, log: seq<Entry>, cursor: Option<nat>, cursor': Option<nat>)
    requires StreamOk(st, log, cursor)
    requires cursor.Some? ==> cursor'.Some? && cursor.value <= cursor'.value
    ensures StreamOk(st, log, cursor')
  {
  }

  lemma StreamOkAppended(st: Stream, log: seq<Entry>, cursor: Option<nat>, entry: Entry)
    requires StreamOk(st, log, cursor)
    ensures StreamOk(Notify(st), log + [entry], cursor)
  {
    if !st.server.Requested? && !st.server.Closed? {
      assert Owed(st, log + [entry]) == Owed(st, log);
    }
  }

  /** The watcher's cursor never moves back, and only an append changes the log. */
  lemma CursorGrows(s: State, e: Event)
    requires Sound(s) && Enabled(s, e)
    ensures s.cursor.Some? ==> Step(s, e).cursor.Some? && s.cursor.value <= Step(s, e).cursor.value
    ensures Step(s, e).log == if e.Append? then s.log + [e.entry] else s.log
  {
  }

  lemma PutKeepsSound(s: State, i: nat, st: Stream)
    requires Sound(s) && i < |s.streams| && StreamOk(st, s.log, s.cursor)
    ensures Sound(Put(s, i, st))
  {
  }

  lemma FeedKeepsSound(s: State, i: nat)
    requires Sound(s) && Enabled(s, Feed(i))
    ensures Sound(FeedOne(s, i))
  {
    var st := s.streams[i];
    var s' := FeedOne(s, i);
    assert StreamOk(st, s.log, s.cursor);
    OwedAfterFeed(st, s.log);
    CursorGrows(s, Feed(i));
    forall j | 0 <= j < |s'.streams| ensures StreamOk(s'.streams[j], s'.log, s'.cursor) {
      if j != i {
        StreamOkLater(s.streams[j], s.log, s.cursor, s'.cursor);
      }
    }
  }

  lemma SendOk(st: Stream, log: seq<Entry>, cursor: Option<nat>)
    requires StreamOk(st, log, cursor) && st.server.Sending?
    ensures var batch := st.server.batch;
      && batch != [] && batch[0] == Activity(st.cursor + 1, log[st.cursor])
      && StreamOk(st.(cursor := batch[0].no, wire := st.wire + [batch[0]],
                      server := if |batch| == 1 then Looping else Sending(batch[1..])),
                  log, cursor)
  {
    var batch := st.server.batch;
    var st' := st.(cursor := st.cursor + 1, wire := st.wire + [batch[0]]);
    assert Owed(st, log) + [batch[0]] == Owed(st', log);
    assert st'.chunk + st'.wire == (st.chunk + st.wire) + [batch[0]];
    assert batch[1..] == Acts(log, st.cursor + 1, st.cursor + |batch|);
  }

  lemma AcceptOk(st: Stream, log: seq<Entry>, cursor: Option<nat>, c: nat)
    requires StreamOk(st, log, cursor) && st.server == Requested && c <= |log|
    requires c == if st.since.Some? then st.since.value else |log|
    ensures StreamOk(st.(server := Looping, cursor := c, fed := c, wire := [Ready(c)]), log, cursor)
  {
    assert Acts(log, c, c) == [];
  }

  lemma ReceiveOk(st: Stream, log: seq<Entry>, cursor: Option<nat>, n: nat)
    requires StreamOk(st, log, cursor) && st.chunk == [] && 0 < n <= |st.wire|
    ensures StreamOk(st.(chunk := st.wire[..n], wire := st.wire[n..]), log, cursor)
  {
    assert st.wire[..n] + st.wire[n..] == st.chunk + st.wire;
  }

  lemma AppendKeepsSound(s: State, entry: Entry)
    requires Sound(s)
    ensures Sound(Step(s, Append(entry)))
  {
    forall j | 0 <= j < |s.streams| ensures StreamOk(Notify(s.streams[j]), s.log + [entry], s.cursor) {
      StreamOkAppended(s.streams[j], s.log, s.cursor, entry);
    }
  }

  lemma ConnectKeepsSound(s: State)
    requires Sound(s)
    ensures Sound(Step(s, Connect))
  {
    forall j | 0 <= j < |s.streams| ensures StreamOk(s.streams[j].(aborted := true), s.log, s.cursor) {
      assert StreamOk(s.streams[j], s.log, s.cursor);
    }
  }

  lemma StepKeepsSound(s: State, e: Event)
    requires Sound(s) && Enabled(s, e)
    ensures Sound(Step(s, e))
  {
    var s' := Step(s, e);
    match e
    case Append(entry) => AppendKeepsSound(s, entry);
    case Connect => ConnectKeepsSound(s);
    case Feed(i) => FeedKeepsSound(s, i);
    case Send(i) =>
      SendOk(s.streams[i], s.log, s.cursor);
      PutKeepsSound(s, i, s'.streams[i]);
    case Receive(i, n) =>
      ReceiveOk(s.streams[i], s.log, s.cursor, n);
      PutKeepsSound(s, i, s'.streams[i]);
    case Accept(i) =>
      assert StreamOk(s.streams[i], s.log, s.cursor);
      AcceptOk(s.streams[i], s.log, s.cursor, s'.streams[i].cursor);
      PutKeepsSound(s, i, s'.streams[i]);
    case _ =>
      assert StreamOk(s.streams[e.i], s.log, s.cursor);
      PutKeepsSound(s, e.i, s'.streams[e.i]);
  }
}
