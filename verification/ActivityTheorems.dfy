/** Exactly-once, in-order delivery of the activity log, and exactly when the watcher has it. */
module ActivityTheorems {
  import opened Wrappers
  import opened Sequences
  import opened ActivityStream

  function NotesOf(es: seq<Entry>): seq<Note> {
    if es == [] then []
    else
      var note := NotificationFor(es[|es| - 1]);
      NotesOf(es[..|es| - 1]) + (if note.Some? then [note.value] else [])
  }

  /**
    What was accepted is the log from the first cursor to the current one, and the notifications are its notifications.
   */
  ghost predicate Exact(s: State) {
    if s.cursor.None? then s.first.None? && s.accepted == [] && s.notes == []
    else
      && s.first.Some? && s.first.value <= s.cursor.value <= |s.log|
      && s.accepted == s.log[s.first.value..s.cursor.value]
      && s.notes == NotesOf(s.accepted)
  }

  ghost predicate HasActivity(chunk: seq<Msg>) {
    exists k :: 0 <= k < |chunk| && chunk[k].Activity?
  }

  /**
    A connection that can still hand an event to the watcher: not lost, and live or with one in a chunk already read.
   */
  ghost predicate CanDeliver(st: Stream) {
    !st.server.Closed? && (!st.aborted || HasActivity(st.chunk))
  }

  /** It will resume at or below the watcher's cursor. */
  ghost predicate ResumesBelow(st: Stream, c: nat) {
    if st.server.Requested? then st.since.Some? else st.fed <= c
  }

  ghost predicate Aligned(s: State) {
    s.cursor.Some? ==> forall i :: 0 <= i < |s.streams| && CanDeliver(s.streams[i]) ==>
      ResumesBelow(s.streams[i], s.cursor.value)
  }

  lemma AcceptNext(s: State, i: nat)
    requires Sound(s) && Exact(s) && Aligned(s) && s.cursor.Some? && Enabled(s, Feed(i))
    ensures Exact(FeedOne(s, i))
  {
    var st := s.streams[i];
    assert StreamOk(st, s.log, s.cursor);
    OwedAfterFeed(st, s.log);
    if st.chunk[0].Activity? && st.fed == s.cursor.value {
      assert CanDeliver(st);
      var c := s.cursor.value;
      assert s.log[s.first.value..c + 1] == s.accepted + [s.log[c]];
      assert (s.accepted + [s.log[c]])[..|s.accepted|] == s.accepted;
    } else if st.chunk[0].Activity? {
      assert CanDeliver(st);
    }
  }

  lemma StaysAligned(s: State, e: Event)
    requires Sound(s) && Aligned(s) && s.cursor.Some? && Enabled(s, e)
    ensures Aligned(Step(s, e))
  {
    var s' := Step(s, e);
    CursorGrows(s, e);
    forall j | 0 <= j < |s'.streams| && CanDeliver(s'.streams[j])
      ensures ResumesBelow(s'.streams[j], s'.cursor.value)
    {
      if j < |s.streams| {
        assert StreamOk(s.streams[j], s.log, s.cursor);
        StreamStaysAligned(s, e, j);
      }
    }
  }

  lemma StreamStaysAligned(s: State, e: Event, j: nat)
    requires Sound(s) && Aligned(s) && s.cursor.Some? && Enabled(s, e) && j < |s.streams| <= |Step(s, e).streams|
    requires CanDeliver(Step(s, e).streams[j])
    ensures Step(s, e).cursor.Some? && ResumesBelow(Step(s, e).streams[j], Step(s, e).cursor.value)
  {
    var st := s.streams[j];
    var st' := Step(s, e).streams[j];
    assert StreamOk(st, s.log, s.cursor);
    CursorGrows(s, e);
    if e.Feed? && e.i == j {
      OwedAfterFeed(st, s.log);
      assert CanDeliver(st) by {
        if HasActivity(st'.chunk) {
          var k :| 0 <= k < |st'.chunk| && st'.chunk[k].Activity?;
          assert st.chunk[k + 1].Activity?;
        }
      }
    } else {
      assert CanDeliver(st) by {
        if e.Connect? {
          assert st'.chunk == st.chunk;
        }
      }
    }
  }

  lemma StaysExact(s: State, e: Event)
    requires Sound(s) && Exact(s) && Aligned(s) && s.cursor.Some? && Enabled(s, e)
    ensures Exact(Step(s, e))
  {
    if e.Feed? {
      AcceptNext(s, e.i);
    } else if e.Append? {
      assert (s.log + [e.entry])[s.first.value..s.cursor.value] == s.log[s.first.value..s.cursor.value];
    }
  }

  // ---------------------------------------------------------------- histories

  ghost predicate CanRun(s: State, es: seq<Event>)
    decreases |es|
  {
    es == [] || (Enabled(s, es[0]) && CanRun(Step(s, es[0]), es[1..]))
  }

  ghost function After(s: State, es: seq<Event>): State
    requires CanRun(s, es)
    decreases |es|
  {
    if es == [] then s else After(Step(s, es[0]), es[1..])
  }

  lemma {:induction false} AlignedStaysExact(s: State, es: seq<Event>)
    requires Sound(s) && Exact(s) && Aligned(s) && s.cursor.Some? && CanRun(s, es)
    ensures Exact(After(s, es))
    decreases |es|
  {
    if es != [] {
      StepKeepsSound(s, es[0]);
      StaysExact(s, es[0]);
      StaysAligned(s, es[0]);
      CursorGrows(s, es[0]);
      AlignedStaysExact(Step(s, es[0]), es[1..]);
    }
  }

  // ---------------------------------------------------------------- before the first cursor

  /**
    Until a cursor is adopted, only the newest connection is live, and chunks read from older ones predate the newer
    requests.
   */
  ghost predicate Unadopted(s: State) {
    s.cursor.None? ==>
      && s.first.None? && s.accepted == [] && s.notes == []
      && (forall i :: 0 <= i < |s.streams| ==> s.streams[i].since.None? && !s.streams[i].readyFed)
      && (forall i :: 0 <= i < |s.streams| - 1 ==> s.streams[i].aborted)
      && (forall i, j :: 0 <= i < j < |s.streams| && s.streams[i].chunk != [] ==> s.streams[i].fed <= s.streams[j].born)
  }

  /** A ready message of a connection already given up is not what sets the cursor. */
  ghost predicate Clean(s: State, e: Event)
    requires Enabled(s, e)
  {
    e.Feed? && s.cursor.None? ==> !s.streams[e.i].aborted
  }

  lemma FirstFeedIsReady(s: State, i: nat)
    requires Sound(s) && Unadopted(s) && s.cursor.None? && Enabled(s, Feed(i))
    ensures s.streams[i].chunk[0] == Ready(s.streams[i].fed) && Exact(FeedOne(s, i))
  {
    assert StreamOk(s.streams[i], s.log, s.cursor);
    OwedAfterFeed(s.streams[i], s.log);
    assert NotesOf([]) == [];
  }

  lemma CleanAdoptionAligns(s: State, i: nat)
    requires Sound(s) && Unadopted(s) && s.cursor.None? && Enabled(s, Feed(i)) && !s.streams[i].aborted
    ensures Aligned(FeedOne(s, i))
  {
    FirstFeedIsReady(s, i);
    var s' := FeedOne(s, i);
    assert i == |s.streams| - 1;
    assert StreamOk(s.streams[i], s.log, s.cursor);
    forall j | 0 <= j < |s'.streams| && CanDeliver(s'.streams[j])
      ensures ResumesBelow(s'.streams[j], s'.cursor.value)
    {
      if j != i {
        assert StreamOk(s.streams[j], s.log, s.cursor);
        assert s.streams[j].chunk != [];
      }
    }
  }

  lemma StaysWaiting(s: State, e: Event)
    requires Sound(s) && Unadopted(s) && Enabled(s, e)
    ensures Unadopted(Step(s, e))
  {
    if Step(s, e).cursor.None? {
      forall i | 0 <= i < |s.streams| ensures StreamOk(s.streams[i], s.log, s.cursor) {
      }
    }
  }

  ghost predicate AllClean(s: State, es: seq<Event>)
    requires CanRun(s, es)
    decreases |es|
  {
    es == [] || (Clean(s, es[0]) && AllClean(Step(s, es[0]), es[1..]))
  }

  lemma {:induction false} CleanHistoryExact(s: State, es: seq<Event>)
    requires Sound(s) && Unadopted(s) && s.cursor.None? && CanRun(s, es) && AllClean(s, es)
    ensures Exact(After(s, es))
    decreases |es|
  {
    if es != [] {
      var e := es[0];
      StepKeepsSound(s, e);
      StaysWaiting(s, e);
      if Step(s, e).cursor.None? {
        CleanHistoryExact(Step(s, e), es[1..]);
      } else {
        FirstFeedIsReady(s, e.i);
        CleanAdoptionAligns(s, e.i);
        AlignedStaysExact(Step(s, e), es[1..]);
      }
    }
  }

  /**
    For every interleaving of appends, losses, timeouts, overlapping connections and reconnects in
    which the first cursor comes from the live connection, the watcher has accepted exactly the log
    entries after its first cursor up to its current one, in order.
   */
  lemma ExactlyOnce(es: seq<Event>)
    requires CanRun(Init(), es) && AllClean(Init(), es)
    ensures Exact(After(Init(), es))
  {
    CleanHistoryExact(Init(), es);
  }

  /** Which entries are worth a notification, and of what kind. */
  lemma NotifiesExactly(e: Entry)
    ensures NotificationFor(e).None? <==> e.outcome == Cancelled
    ensures NotificationFor(e) == Some(RunComplete(e.thread)) <==> e.outcome == Success
    ensures NotificationFor(e) == Some(ActionRequired(e.thread)) <==> e.outcome == Interrupted
    ensures forall reason :: NotificationFor(e) == Some(RunFailed(e.thread, reason)) <==>
      e.outcome == reason && (reason == Failure || reason == Timeout)
  {
  }

  // ---------------------------------------------------------------- nothing is left behind

  lemma {:induction false} AlignedStays(s: State, es: seq<Event>)
    requires Sound(s) && Aligned(s) && s.cursor.Some? && CanRun(s, es)
    ensures Sound(After(s, es)) && Aligned(After(s, es)) && After(s, es).cursor.Some?
    decreases |es|
  {
    if es != [] {
      StepKeepsSound(s, es[0]);
      StaysAligned(s, es[0]);
      CursorGrows(s, es[0]);
      AlignedStays(Step(s, es[0]), es[1..]);
    }
  }

  lemma {:induction false} CleanHistoryAligned(s: State, es: seq<Event>)
    requires Sound(s) && Unadopted(s) && s.cursor.None? && CanRun(s, es) && AllClean(s, es)
    ensures Sound(After(s, es)) && Aligned(After(s, es)) && Unadopted(After(s, es))
    decreases |es|
  {
    if es != [] {
      var e := es[0];
      StepKeepsSound(s, e);
      StaysWaiting(s, e);
      if Step(s, e).cursor.None? {
        CleanHistoryAligned(Step(s, e), es[1..]);
      } else {
        CleanAdoptionAligns(s, e.i);
        AlignedStays(Step(s, e), es[1..]);
      }
    }
  }

  /** A live connection with nothing on its way, whose server waits for a change. */
  predicate Quiet(st: Stream) {
    !st.aborted && st.server == Waiting && st.wire == [] && st.chunk == []
  }

  lemma QuietHasAll(s: State, i: nat)
    requires Sound(s) && Aligned(s) && i < |s.streams| && Quiet(s.streams[i])
    ensures s.cursor == Some(|s.log|)
  {
    var st := s.streams[i];
    assert StreamOk(st, s.log, s.cursor);
    assert |Owed(st, s.log)| == 0;
    assert CanDeliver(st);
  }

  /** When the live connection has fallen quiet, the watcher has accepted every entry after its first cursor. */
  lemma QuietIsComplete(es: seq<Event>, i: nat)
    requires CanRun(Init(), es) && AllClean(Init(), es)
    requires i < |After(Init(), es).streams| && Quiet(After(Init(), es).streams[i])
    ensures var s := After(Init(), es);
      s.cursor == Some(|s.log|) && s.first.Some? && s.first.value <= |s.log| && s.accepted == s.log[s.first.value..]
  {
    ExactlyOnce(es);
    CleanHistoryAligned(Init(), es);
    QuietHasAll(After(Init(), es), i);
  }

  /** And until then a live connection can move: its server accepts, lists, sends or waits, or its client reads. */
  lemma LiveCanMove(s: State, i: nat)
    requires Sound(s) && i < |s.streams| && !s.streams[i].aborted && !Quiet(s.streams[i])
    ensures Enabled(s, Accept(i)) || Enabled(s, List(i, |s.log|)) || Enabled(s, Idle(i)) || Enabled(s, Send(i))
      || Enabled(s, Receive(i, |s.streams[i].wire|)) || Enabled(s, Feed(i))
  {
    assert StreamOk(s.streams[i], s.log, s.cursor);
  }

  function Sends(i: nat, n: nat): seq<Event> {
    if n == 0 then [] else [Send(i)] + Sends(i, n - 1)
  }

  /** A listing is sent to its end, entry by entry, before the server looks at the log again. */
  lemma {:induction false} ListingIsSent(s: State, i: nat)
    requires i < |s.streams| && s.streams[i].server.Sending? && s.streams[i].server.batch != []
    requires forall k :: 0 <= k < |s.streams[i].server.batch| ==> s.streams[i].server.batch[k].Activity?
    ensures var st := s.streams[i]; var batch := st.server.batch; var es := Sends(i, |batch|);
      CanRun(s, es)
      && After(s, es) == Put(s, i, st.(server := Looping, cursor := batch[|batch| - 1].no, wire := st.wire + batch))
    decreases |s.streams[i].server.batch|
  {
    var st := s.streams[i];
    var batch := st.server.batch;
    var s1 := Step(s, Send(i));
    if |batch| == 1 {
      Prepend(s, Send(i), []);
      assert Sends(i, 1) == [Send(i)] + [];
      assert st.wire + batch == st.wire + [batch[0]];
    } else {
      ListingIsSent(s1, i);
      Prepend(s, Send(i), Sends(i, |batch| - 1));
      HeadAndTail(batch);
      Assoc(st.wire, [batch[0]], batch[1..]);
    }
  }

  // ---------------------------------------------------------------- and only then

  ghost predicate Tally(s: State) {
    s.cursor.Some? && s.first.Some? && s.first.value <= s.cursor.value && |s.accepted| == s.cursor.value - s.first.value
  }

  /** A connection about to resume above the cursor. */
  ghost predicate Threat(s: State, i: nat) {
    && Sound(s) && Tally(s) && i < |s.streams|
    && !s.streams[i].server.Closed? && !s.streams[i].server.Requested? && s.streams[i].fed > s.cursor.value
  }

  lemma Prepend(s: State, e: Event, es: seq<Event>)
    requires Enabled(s, e) && CanRun(Step(s, e), es)
    ensures CanRun(s, [e] + es) && After(s, [e] + es) == After(Step(s, e), es)
  {
    assert ([e] + es)[1..] == es;
  }

  lemma FeedGap(s: State, i: nat) returns (es: seq<Event>)
    requires Threat(s, i) && HasActivity(s.streams[i].chunk)
    ensures CanRun(s, es) && !Exact(After(s, es))
    decreases |s.streams[i].chunk|
  {
    var st := s.streams[i];
    assert StreamOk(st, s.log, s.cursor);
    OwedAfterFeed(st, s.log);
    var s1 := FeedOne(s, i);
    if st.chunk[0].Activity? {
      es := [];
    } else {
      FeedKeepsSound(s, i);
      assert HasActivity(s1.streams[i].chunk) by {
        var k :| 0 <= k < |st.chunk| && st.chunk[k].Activity?;
        assert st.chunk[1..][k - 1] == st.chunk[k];
      }
      es := FeedGap(s1, i);
    }
    Prepend(s, Feed(i), es);
    es := [Feed(i)] + es;
  }

  lemma ReceiveGap(s: State, i: nat) returns (es: seq<Event>)
    requires Threat(s, i) && !s.streams[i].aborted && s.streams[i].fed < s.streams[i].cursor
    ensures CanRun(s, es) && !Exact(After(s, es))
    decreases |s.streams[i].chunk|
  {
    var st := s.streams[i];
    assert StreamOk(st, s.log, s.cursor);
    if HasActivity(st.chunk) {
      es := FeedGap(s, i);
    } else if st.chunk != [] {
      OwedAfterFeed(st, s.log);
      FeedKeepsSound(s, i);
      assert st.chunk[0].Ready?;
      es := ReceiveGap(FeedOne(s, i), i);
      Prepend(s, Feed(i), es);
      es := [Feed(i)] + es;
    } else {
      es := ReadGap(s, i);
    }
  }

  lemma ReadGap(s: State, i: nat) returns (es: seq<Event>)
    requires Threat(s, i) && !s.streams[i].aborted && s.streams[i].fed < s.streams[i].cursor && s.streams[i].chunk == []
    ensures CanRun(s, es) && !Exact(After(s, es))
  {
    var st := s.streams[i];
    assert StreamOk(st, s.log, s.cursor);
    var owed := Owed(st, s.log);
    assert st.wire == owed;
    assert owed[|owed| - 1].Activity?;
    var e := Receive(i, |st.wire|);
    StepKeepsSound(s, e);
    assert Step(s, e).streams[i].chunk == st.wire;
    es := FeedGap(Step(s, e), i);
    Prepend(s, e, es);
    es := [e] + es;
  }

  lemma SendGap(s: State, i: nat) returns (es: seq<Event>)
    requires Threat(s, i) && !s.streams[i].aborted && s.streams[i].server.Sending?
    ensures CanRun(s, es) && !Exact(After(s, es))
  {
    assert StreamOk(s.streams[i], s.log, s.cursor);
    SendOk(s.streams[i], s.log, s.cursor);
    StepKeepsSound(s, Send(i));
    es := ReceiveGap(Step(s, Send(i)), i);
    Prepend(s, Send(i), es);
    es := [Send(i)] + es;
  }

  lemma ListGap(s: State, i: nat) returns (es: seq<Event>)
    requires Threat(s, i) && !s.streams[i].aborted && s.streams[i].server.Looping? && s.streams[i].cursor < |s.log|
    ensures CanRun(s, es) && !Exact(After(s, es))
  {
    var e := List(i, s.streams[i].cursor + 1);
    StepKeepsSound(s, e);
    es := SendGap(Step(s, e), i);
    Prepend(s, e, es);
    es := [e] + es;
  }

  /** A live connection already serving above the cursor leads to a gap. */
  lemma LiveGap(s: State, i: nat) returns (es: seq<Event>)
    requires Threat(s, i) && !s.streams[i].aborted
    ensures CanRun(s, es) && !Exact(After(s, es))
  {
    assert StreamOk(s.streams[i], s.log, s.cursor);
    if s.streams[i].server.Sending? {
      es := SendGap(s, i);
    } else {
      var e := Append(Entry(0, Success));
      StepKeepsSound(s, e);
      es := ListGap(Step(s, e), i);
      Prepend(s, e, es);
      es := [e] + es;
    }
  }

  lemma AcceptGap(s: State, i: nat) returns (es: seq<Event>)
    requires Sound(s) && Tally(s) && i < |s.streams| && !s.streams[i].aborted && s.streams[i].server.Requested?
    requires s.streams[i].since.None? && |s.log| > s.cursor.value
    ensures CanRun(s, es) && !Exact(After(s, es))
  {
    StepKeepsSound(s, Accept(i));
    es := LiveGap(Step(s, Accept(i)), i);
    Prepend(s, Accept(i), es);
    es := [Accept(i)] + es;
  }

  lemma MisalignedGap(s: State, i: nat) returns (es: seq<Event>)
    requires Sound(s) && Tally(s) && i < |s.streams| && CanDeliver(s.streams[i])
      && !ResumesBelow(s.streams[i], s.cursor.value)
    ensures CanRun(s, es) && !Exact(After(s, es))
  {
    var st := s.streams[i];
    assert StreamOk(st, s.log, s.cursor);
    if st.server.Requested? {
      var e := Append(Entry(0, Success));
      StepKeepsSound(s, e);
      es := AcceptGap(Step(s, e), i);
      Prepend(s, e, es);
      es := [e] + es;
    } else if st.aborted {
      es := FeedGap(s, i);
    } else {
      es := LiveGap(s, i);
    }
  }

  /**
    The exact condition: once a cursor is adopted, delivery stays exactly once through every
    continuation if and only if every connection that can still deliver resumes at or below the cursor.
   */
  lemma ExactIffAligned(s: State)
    requires Sound(s) && Exact(s) && s.cursor.Some?
    ensures Aligned(s) <==> forall es | CanRun(s, es) :: Exact(After(s, es))
  {
    if Aligned(s) {
      forall es | CanRun(s, es) ensures Exact(After(s, es)) {
        AlignedStaysExact(s, es);
      }
    } else {
      var i :| 0 <= i < |s.streams| && CanDeliver(s.streams[i]) && !ResumesBelow(s.streams[i], s.cursor.value);
      var es := MisalignedGap(s, i);
    }
  }

  /** A cursor adopted from the live connection is always aligned. */
  lemma LiveCursorIsAligned(s: State, i: nat)
    requires Sound(s) && Unadopted(s) && s.cursor.None? && Enabled(s, Feed(i)) && !s.streams[i].aborted
    ensures forall es | CanRun(FeedOne(s, i), es) :: Exact(After(FeedOne(s, i), es))
  {
    CleanAdoptionAligns(s, i);
    FirstFeedIsReady(s, i);
    FeedKeepsSound(s, i);
    ExactIffAligned(FeedOne(s, i));
  }

  /** The state after a reconnect, with the first connection's ready message read just before it. */
  function Overtaken(e1: Entry): State {
    State([e1],
          [Stream(None, Looping, 0, [], [Ready(0)], true, false, 0, 0),
           Stream(None, Looping, 1, [Ready(1)], [], false, false, 1, 0)],
          None, None, [], [])
  }

  function FirstConnection(aborted: bool): Stream {
    Stream(None, Looping, 0, [], [Ready(0)], aborted, false, 0, 0)
  }

  lemma FirstReadyIsRead()
    ensures var es := [Connect] + ([Accept(0)] + [Receive(0, 1)]);
      CanRun(Init(), es) && After(Init(), es) == State([], [FirstConnection(false)], None, None, [], [])
  {
    var s1 := Step(Init(), Connect);
    assert s1.streams == [Stream(None, Requested, 0, [], [], false, false, 0, 0)];
    var s2 := Step(s1, Accept(0));
    assert s2.streams == [Stream(None, Looping, 0, [Ready(0)], [], false, false, 0, 0)];
    var s3 := Step(s2, Receive(0, 1));
    assert s2.streams[0].wire[1..] == [] && s2.streams[0].wire[..1] == [Ready(0)];
    assert s3.streams == [FirstConnection(false)];
    Prepend(s2, Receive(0, 1), []);
    Prepend(s1, Accept(0), [Receive(0, 1)]);
    Prepend(Init(), Connect, [Accept(0)] + [Receive(0, 1)]);
  }

  lemma SecondConnectionServed(e1: Entry)
    ensures var s := State([], [FirstConnection(false)], None, None, [], []);
      var es := [Connect] + ([Append(e1)] + [Accept(1)]);
      CanRun(s, es) && After(s, es) == Overtaken(e1)
  {
    var s3 := State([], [FirstConnection(false)], None, None, [], []);
    var s4 := Step(s3, Connect);
    var s5 := Step(s4, Append(e1));
    assert s5.streams == [FirstConnection(true), Stream(None, Requested, 0, [], [], false, false, 0, 0)];
    assert Step(s5, Accept(1)).streams == Overtaken(e1).streams;
    Prepend(s5, Accept(1), []);
    Prepend(s4, Append(e1), [Accept(1)]);
    Prepend(s3, Connect, [Append(e1)] + [Accept(1)]);
  }

  lemma {:induction false} Then(s: State, a: seq<Event>, b: seq<Event>)
    requires CanRun(s, a) && CanRun(After(s, a), b)
    ensures CanRun(s, a + b) && After(s, a + b) == After(After(s, a), b)
    decreases |a|
  {
    if a == [] {
      EmptyIsUnit(b);
    } else {
      var e, rest := a[0], a[1..];
      Then(Step(s, e), rest, b);
      TailOfConcat(a, b);
      Prepend(s, e, rest + b);
    }
  }

  lemma OvertakenIsReached(e1: Entry)
    ensures var es := ([Connect] + ([Accept(0)] + [Receive(0, 1)])) + ([Connect] + ([Append(e1)] + [Accept(1)]));
      CanRun(Init(), es) && After(Init(), es) == Overtaken(e1)
  {
    FirstReadyIsRead();
    SecondConnectionServed(e1);
    Then(Init(), [Connect] + ([Accept(0)] + [Receive(0, 1)]), [Connect] + ([Append(e1)] + [Accept(1)]));
  }

  /**
    A cursor adopted from a connection that was given up can lose events: here the watcher adopts 0
    from the old connection while the new one is served from 1, and the next entry leaves a gap.
   */
  lemma StaleCursorLosesEvents(e1: Entry, e2: Entry)
    ensures var es := [Feed(0), Append(e2), List(1, 2), Send(1), Receive(1, 2), Feed(1), Feed(1)];
      && CanRun(Overtaken(e1), es)
      && var s := After(Overtaken(e1), es);
      && s.log == [e1, e2] && s.first == Some(0) && s.cursor == Some(2) && s.accepted == [e2] && !Exact(s)
  {
    var s0 := Overtaken(e1);
    var given := Stream(None, Looping, 0, [], [], true, true, 0, 0);
    var s1 := Step(s0, Feed(0));
    var s2 := Step(s1, Append(e2));
    assert s2.log == [e1, e2] && s2.streams == [given, Stream(None, Looping, 1, [Ready(1)], [], false, false, 1, 0)];
    var s3 := Step(s2, List(1, 2));
    assert Acts(s2.log, 1, 2) == [Activity(2, e2)];
    var s4 := Step(s3, Send(1));
    assert s4.streams[1] == Stream(None, Looping, 2, [Ready(1), Activity(2, e2)], [], false, false, 1, 0);
    var s5 := Step(s4, Receive(1, 2));
    assert s5.streams[1] == Stream(None, Looping, 2, [], [Ready(1), Activity(2, e2)], false, false, 1, 0);
    var s6 := Step(s5, Feed(1));
    assert s6.streams[1] == Stream(None, Looping, 2, [], [Activity(2, e2)], false, true, 1, 0);
    var s7 := Step(s6, Feed(1));
    Prepend(s6, Feed(1), []);
    Prepend(s5, Feed(1), [Feed(1)]);
    Prepend(s4, Receive(1, 2), [Feed(1), Feed(1)]);
    Prepend(s3, Send(1), [Receive(1, 2), Feed(1), Feed(1)]);
    Prepend(s2, List(1, 2), [Send(1), Receive(1, 2), Feed(1), Feed(1)]);
    Prepend(s1, Append(e2), [List(1, 2), Send(1), Receive(1, 2), Feed(1), Feed(1)]);
    Prepend(s0, Feed(0), [Append(e2), List(1, 2), Send(1), Receive(1, 2), Feed(1), Feed(1)]);
  }
}
