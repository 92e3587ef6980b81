/** What holds of every observer, and how steps of the manager and of the observer keep it. */
module ObserverInvariant {
  import opened Wrappers
  import opened Frames
  import opened RunManager
  import opened RunInvariant
  import opened RunTheorems
  import opened Observers

  // ---------------------------------------------------------------- what a core step does to logs

  /** Frames added by a step carry numbers that were not used before it. */
  ghost predicate FreshFrames(c: Core, c': Core)
    requires Parallel(c) && Parallel(c') && |c.recs| <= |c'.recs|
  {
    && (forall r, k :: 0 <= r < |c.recs| && |c.logs[r]| <= k < |c'.logs[r]| ==> c'.logs[r][k].no >= c.counter)
    && (forall r :: |c.recs| <= r < |c'.recs| ==> c'.logs[r] == [])
  }

  lemma FinalizeFresh(c: Core, r: nat, failed: bool)
    requires Parallel(c) && r < |c.recs|
    ensures FreshFrames(c, Finalize(c, r, failed))
  {
  }

  lemma StepFresh(c: Core, e: CoreEvent)
    requires Parallel(c) && Enabled(c, e)
    ensures FreshFrames(c, Step(c, e))
  {
    match e
    case StreamEnd(r) => FinalizeFresh(c, r, false);
    case StreamClosed(r) => FinalizeFresh(c, r, false);
    case StreamThrow(r) =>
      if c.recs[r].aborted {
        FinalizeFresh(c, r, false);
      } else {
        FinalizeFresh(Append(c, r, LifecycleFrame(Failed)), r, true);
      }
    case _ =>
  }

  ghost predicate SameRun(c: Core, c': Core, r: nat)
    requires Parallel(c) && Parallel(c') && r < |c.recs| <= |c'.recs|
  {
    c'.logs[r] == c.logs[r] && c'.rings[r] == c.rings[r] && (c'.recs[r].phase.Done? <==> c.recs[r].phase.Done?)
  }

  lemma FinalizeLeavesOthers(c: Core, q: nat, failed: bool, r: nat)
    requires Parallel(c) && q < |c.recs| && r < |c.recs| && q != r
    ensures SameRun(c, Finalize(c, q, failed), r)
  {
  }

  /** A step that is not announced to a run's waiters leaves that run's log, ring and phase end alone. */
  lemma UnwokenUnchanged(c: Core, e: CoreEvent, r: nat)
    requires Parallel(c) && Enabled(c, e) && r < |c.recs| && WokenRun(c, e) != Some(r)
    ensures SameRun(c, Step(c, e), r)
  {
    match e
    case StreamEnd(q) => FinalizeLeavesOthers(c, q, false, r);
    case StreamClosed(q) => FinalizeLeavesOthers(c, q, false, r);
    case StreamThrow(q) =>
      if c.recs[q].aborted {
        FinalizeLeavesOthers(c, q, false, r);
      } else {
        FinalizeLeavesOthers(Append(c, q, LifecycleFrame(Failed)), q, true, r);
      }
    case _ => QuietLeavesRun(c, e, r);
  }

  lemma QuietLeavesRun(c: Core, e: CoreEvent, r: nat)
    requires Parallel(c) && Enabled(c, e) && r < |c.recs| && WokenRun(c, e) != Some(r)
    requires !e.StreamEnd? && !e.StreamClosed? && !e.StreamThrow?
    ensures SameRun(c, Step(c, e), r)
  {
    if e.StartRun? {
      StartLeavesRun(c, e, r);
    }
  }

  lemma StartLeavesRun(c: Core, e: CoreEvent, r: nat)
    requires Parallel(c) && Enabled(c, e) && r < |c.recs| && e.StartRun?
    ensures SameRun(c, Step(c, e), r)
  {
  }

  /** The installed run of a thread stays, goes, or gives way to a brand-new one. */
  lemma InstalledAfter(c: Core, e: CoreEvent, t: ThreadId)
    requires Parallel(c) && Enabled(c, e) && t in Step(c, e).runs
    ensures var c' := Step(c, e);
      || (t in c.runs && c'.runs[t] == c.runs[t])
      || (c'.runs[t] == |c.recs| < |c'.recs| && c'.logs[|c.recs|] == [] && !c'.recs[|c.recs|].phase.Done?)
  {
  }

  // ---------------------------------------------------------------- order

  ghost predicate Bounded(c: Core, ob: Observer)
    requires Parallel(c)
  {
    ob.bound.Some? ==>
      && ob.bound.value < |c.recs|
      && c.recs[ob.bound.value].thread == ob.thread
      && ob.cursor <= |c.logs[ob.bound.value]|
  }

  /** Everything handed out comes before everything the observer has still to read. */
  ghost predicate Ordered(c: Core, ob: Observer)
    requires Parallel(c) && Bounded(c, ob)
  {
    && Ascending(ob.got) && Below(ob.got, c.counter)
    && (ob.bound.None? ==> ob.got == [])
    && (ob.bound.Some? ==>
          && AllBefore(ob.got, c.logs[ob.bound.value][ob.cursor..])
          && forall q :: ob.bound.value < q < |c.recs| && c.recs[q].thread == ob.thread ==>
               AllBefore(ob.got, c.logs[q]))
  }

  lemma StepKeepsOrder(c: Core, e: CoreEvent, ob: Observer)
    requires Parallel(c) && Enabled(c, e) && Bounded(c, ob) && Ordered(c, ob)
    ensures Bounded(Step(c, e), ob) && Ordered(Step(c, e), ob)
  {
    var c' := Step(c, e);
    StepFresh(c, e);
    StepGrows(c, e);
    if ob.bound.Some? {
      var r := ob.bound.value;
      LaterFramesKeepOrder(ob.got, c.logs[r], c'.logs[r], ob.cursor, c.counter);
      forall q | r < q < |c'.recs| && c'.recs[q].thread == ob.thread
        ensures AllBefore(ob.got, c'.logs[q])
      {
        if q < |c.recs| {
          LaterFramesKeepOrder(ob.got, c.logs[q], c'.logs[q], 0, c.counter);
        }
      }
    }
  }

  lemma LaterFramesKeepOrder(got: seq<Frame>, log: seq<Frame>, log': seq<Frame>, from: nat, counter: nat)
    requires Below(got, counter) && log <= log' && from <= |log| && AllBefore(got, log[from..])
    requires forall k :: |log| <= k < |log'| ==> log'[k].no >= counter
    ensures AllBefore(got, log'[from..])
    ensures from == 0 ==> AllBefore(got, log')
  {
    forall i, j | 0 <= i < |got| && 0 <= j < |log'| - from
      ensures got[i].no < log'[from..][j].no
    {
      if from + j < |log| {
        assert log[from..][j] == log'[from + j];
      }
    }
    if from == 0 {
      assert log'[0..] == log';
    }
  }

  // ---------------------------------------------------------------- exactness

  /** The wanted frames among the given ordinals of a log, in the order given. */
  ghost function Select(log: seq<Frame>, ords: seq<nat>, filter: Filter): seq<Frame> {
    if ords == [] then []
    else
      var last := ords[|ords| - 1];
      Select(log, ords[..|ords| - 1], filter)
      + (if last < |log| && Wanted(log[last], filter) then [log[last]] else [])
  }

  ghost function SelectPast(logs: seq<seq<Frame>>, past: seq<Binding>, filter: Filter): seq<Frame> {
    if past == [] then []
    else
      var b := past[|past| - 1];
      SelectPast(logs, past[..|past| - 1], filter)
      + (if b.run < |logs| then Select(logs[b.run], b.ords, filter) else [])
  }

  ghost predicate Climbs(ords: seq<nat>, limit: nat) {
    && (forall i, j :: 0 <= i < j < |ords| ==> ords[i] < ords[j])
    && (forall i :: 0 <= i < |ords| ==> ords[i] < limit)
  }

  /** The ordinals below `limit` are those read and those jumped, none both, and only evicted ones were jumped. */
  ghost predicate Covers(ords: seq<nat>, gaps: seq<nat>, limit: nat, dropped: nat) {
    && Climbs(ords, limit) && Climbs(gaps, limit) && Climbs(gaps, dropped)
    && (forall k :: 0 <= k < limit ==> (k in ords <==> k !in gaps))
  }

  /** A binding that was left: its run is frozen and was read to the end. */
  ghost predicate LeftWell(c: Core, t: ThreadId, b: Binding)
    requires Parallel(c)
  {
    && Frozen(c, b.run) && c.recs[b.run].thread == t
    && Covers(b.ords, b.gaps, |c.logs[b.run]|, c.rings[b.run].dropped)
  }

  ghost predicate Exact(c: Core, ob: Observer)
    requires Parallel(c) && Bounded(c, ob)
  {
    && ob.got == SelectPast(c.logs, ob.past, ob.filter)
                 + (if ob.bound.Some? then Select(c.logs[ob.bound.value], ob.ords, ob.filter) else [])
    && (forall i :: 0 <= i < |ob.past| ==> LeftWell(c, ob.thread, ob.past[i]))
    && (forall i, j :: 0 <= i < j < |ob.past| ==> ob.past[i].run < ob.past[j].run)
    && (ob.bound.None? ==> ob.past == [])
    && (ob.bound.Some? ==>
          && (forall i :: 0 <= i < |ob.past| ==> ob.past[i].run < ob.bound.value)
          && Covers(ob.ords, ob.gaps, ob.cursor, c.rings[ob.bound.value].dropped))
  }

  lemma {:induction false} SelectStable(log: seq<Frame>, log': seq<Frame>, ords: seq<nat>, filter: Filter)
    requires log <= log' && forall i :: 0 <= i < |ords| ==> ords[i] < |log|
    ensures Select(log', ords, filter) == Select(log, ords, filter)
  {
    if ords != [] {
      SelectStable(log, log', ords[..|ords| - 1], filter);
    }
  }

  lemma {:induction false} SelectPastStable(c: Core, c': Core, past: seq<Binding>, t: ThreadId, filter: Filter)
    requires Grows(c, c') && forall i :: 0 <= i < |past| ==> LeftWell(c, t, past[i])
    ensures SelectPast(c'.logs, past, filter) == SelectPast(c.logs, past, filter)
  {
    if past != [] {
      var b := past[|past| - 1];
      assert LeftWell(c, t, b);
      SelectPastStable(c, c', past[..|past| - 1], t, filter);
      SelectStable(c.logs[b.run], c'.logs[b.run], b.ords, filter);
    }
  }

  lemma {:induction false} SelectConcat(log: seq<Frame>, a: seq<nat>, b: seq<nat>, filter: Filter)
    ensures Select(log, a + b, filter) == Select(log, a, filter) + Select(log, b, filter)
  {
    if b == [] {
      assert a + b == a;
    } else {
      assert (a + b)[..|a + b| - 1] == a + b[..|b| - 1];
      SelectConcat(log, a, b[..|b| - 1], filter);
    }
  }

  lemma {:induction false} SelectUnwanted(log: seq<Frame>, lo: nat, hi: nat, filter: Filter)
    requires lo <= hi <= |log| && forall k :: lo <= k < hi ==> !Wanted(log[k], filter)
    ensures Select(log, Range(lo, hi), filter) == []
    decreases hi
  {
    if lo < hi {
      assert Range(lo, hi)[..hi - lo - 1] == Range(lo, hi - 1);
      SelectUnwanted(log, lo, hi - 1, filter);
    }
  }

  lemma LeftStaysWell(c: Core, e: CoreEvent, t: ThreadId, b: Binding)
    requires Inv(c) && Enabled(c, e) && LeftWell(c, t, b)
    ensures LeftWell(Step(c, e), t, b)
  {
    FrozenStep(c, e, b.run);
    StepGrows(c, e);
  }

  lemma StillBounded(c: Core, c': Core, ob: Observer)
    requires Grows(c, c') && Bounded(c, ob)
    ensures Bounded(c', ob)
  {
  }

  /** The dropped count of a ring only rises, so an eviction never uncovers an ordinal. */
  lemma StaysCovered(ords: seq<nat>, gaps: seq<nat>, cursor: nat, dropped: nat, dropped': nat)
    requires Covers(ords, gaps, cursor, dropped) && dropped <= dropped'
    ensures Covers(ords, gaps, cursor, dropped')
  {
  }

  lemma StepKeepsExact(c: Core, e: CoreEvent, ob: Observer)
    requires Inv(c) && Enabled(c, e) && Bounded(c, ob) && Exact(c, ob)
    ensures Bounded(Step(c, e), ob) && Exact(Step(c, e), ob)
  {
    var c' := Step(c, e);
    StepGrows(c, e);
    StillBounded(c, c', ob);
    SelectPastStable(c, c', ob.past, ob.thread, ob.filter);
    forall i | 0 <= i < |ob.past| ensures LeftWell(c', ob.thread, ob.past[i]) {
      LeftStaysWell(c, e, ob.thread, ob.past[i]);
    }
    if ob.bound.Some? {
      var r := ob.bound.value;
      SelectStable(c.logs[r], c'.logs[r], ob.ords, ob.filter);
      StaysCovered(ob.ords, ob.gaps, ob.cursor, c.rings[r].dropped, c'.rings[r].dropped);
    }
  }

  // ---------------------------------------------------------------- reading

  ghost predicate Good(c: Core, ob: Observer)
    requires Parallel(c)
  {
    Bounded(c, ob) && Ordered(c, ob) && Exact(c, ob)
  }

  ghost predicate Exhausted(c: Core, ob: Observer)
    requires Parallel(c)
  {
    ob.bound.Some? && ob.bound.value < |c.recs| && ob.cursor == |c.logs[ob.bound.value]|
  }

  /** One pass of the inner loop reads from the cursor, or the oldest frame kept, up to the first wanted frame. */
  ghost predicate ReadStep(ring: Ring, log: seq<Frame>, ob: Observer, d: BufferRead) {
    var start := ReadFrom(ring, ob.cursor);
    && start < |log| && start <= d.ob.cursor && ob.cursor < d.ob.cursor <= |log|
    && d.ob == ob.(cursor := d.ob.cursor, ords := d.ob.ords, gaps := d.ob.gaps, got := d.ob.got)
    && d.ob.ords == ob.ords + Range(start, d.ob.cursor) && d.ob.gaps == ob.gaps + Range(ob.cursor, start)
    && d.ob.got == ob.got + Select(log, Range(start, d.ob.cursor), ob.filter)
    && (if d.hit then d.ob.got == ob.got + [log[d.ob.cursor - 1]] else d.ob.cursor == |log| && d.ob.got == ob.got)
  }

  lemma UnwantedInLog(buffer: seq<Frame>, dropped: nat, log: seq<Frame>, i: nat, j: nat, filter: Filter)
    requires dropped <= |log| && buffer == log[dropped..] && i <= j <= |buffer|
    requires forall k :: i <= k < j ==> !Wanted(buffer[k], filter)
    ensures forall k :: dropped + i <= k < dropped + j ==> !Wanted(log[k], filter)
  {
    forall k | dropped + i <= k < dropped + j ensures !Wanted(log[k], filter) {
      assert log[k] == buffer[k - dropped];
    }
  }

  /** What is passed over in a buffer that holds `log[dropped..]` selects nothing from the log. */
  lemma PassedOver(buffer: seq<Frame>, dropped: nat, log: seq<Frame>, i: nat, j: nat, filter: Filter)
    requires dropped <= |log| && buffer == log[dropped..] && i <= j <= |buffer|
    requires forall k :: i <= k < j ==> !Wanted(buffer[k], filter)
    ensures Select(log, Range(dropped + i, dropped + j), filter) == []
  {
    UnwantedInLog(buffer, dropped, log, i, j, filter);
    SelectUnwanted(log, dropped + i, dropped + j, filter);
  }

  lemma SelectOneMore(log: seq<Frame>, lo: nat, hi: nat, filter: Filter)
    requires lo <= hi < |log| && Wanted(log[hi], filter)
    ensures Select(log, Range(lo, hi + 1), filter) == Select(log, Range(lo, hi), filter) + [log[hi]]
  {
    assert Range(lo, hi + 1)[..hi - lo] == Range(lo, hi);
  }

  lemma ReadSelects(ring: Ring, log: seq<Frame>, filter: Filter, start: nat)
    requires ring.dropped <= start < |log| && ring.buffer == log[ring.dropped..]
    ensures var j := FirstWanted(ring.buffer, start - ring.dropped, filter);
      if j < |ring.buffer| then
        ring.buffer[j] == log[ring.dropped + j]
        && Select(log, Range(start, ring.dropped + j + 1), filter) == [ring.buffer[j]]
      else Select(log, Range(start, |log|), filter) == []
  {
    var j := FirstWanted(ring.buffer, start - ring.dropped, filter);
    PassedOver(ring.buffer, ring.dropped, log, start - ring.dropped, j, filter);
    if j < |ring.buffer| {
      SelectOneMore(log, start, ring.dropped + j, filter);
    }
  }

  lemma BufferHits(ring: Ring, log: seq<Frame>, ob: Observer, d: BufferRead, start: nat)
    requires start == ReadFrom(ring, ob.cursor) && start < d.ob.cursor <= |log| && d.hit
    requires d.ob == ob.(cursor := d.ob.cursor, ords := ob.ords + Range(start, d.ob.cursor),
                         gaps := ob.gaps + Range(ob.cursor, start), got := ob.got + [log[d.ob.cursor - 1]])
    requires Select(log, Range(start, d.ob.cursor), ob.filter) == [log[d.ob.cursor - 1]]
    ensures ReadStep(ring, log, ob, d)
  {
  }

  lemma BufferMisses(ring: Ring, log: seq<Frame>, ob: Observer, d: BufferRead, start: nat)
    requires start == ReadFrom(ring, ob.cursor) && start < |log| && !d.hit
    requires d.ob == ob.(cursor := |log|, ords := ob.ords + Range(start, |log|),
                         gaps := ob.gaps + Range(ob.cursor, start))
    requires Select(log, Range(start, |log|), ob.filter) == []
    ensures ReadStep(ring, log, ob, d)
  {
    assert ob.got + [] == ob.got;
  }

  /** ReadBuffer, said with the log position it stops at. */
  lemma ReadBufferShape(ring: Ring, ob: Observer, start: nat, j: nat)
    requires ob.cursor < ring.dropped + |ring.buffer|
    requires start == ReadFrom(ring, ob.cursor) && j == FirstWanted(ring.buffer, start - ring.dropped, ob.filter)
    ensures var d := ReadBuffer(ring, ob);
      && d.hit == (j < |ring.buffer|)
      && d.ob.cursor == ring.dropped + j + (if d.hit then 1 else 0)
      && d.ob == ob.(cursor := d.ob.cursor, ords := ob.ords + Range(start, d.ob.cursor),
                     gaps := ob.gaps + Range(ob.cursor, start),
                     got := if d.hit then ob.got + [ring.buffer[j]] else ob.got)
  {
  }

  lemma ReadIsStep(ring: Ring, log: seq<Frame>, ob: Observer, d: BufferRead, start: nat, j: nat)
    requires ring.dropped <= |log| && ring.buffer == log[ring.dropped..] && start == ReadFrom(ring, ob.cursor) < |log|
    requires j == FirstWanted(ring.buffer, start - ring.dropped, ob.filter) && d.hit == (j < |ring.buffer|)
    requires d.ob.cursor == ring.dropped + j + (if d.hit then 1 else 0)
    requires d.ob == ob.(cursor := d.ob.cursor, ords := ob.ords + Range(start, d.ob.cursor),
                         gaps := ob.gaps + Range(ob.cursor, start),
                         got := if d.hit then ob.got + [ring.buffer[j]] else ob.got)
    ensures ReadStep(ring, log, ob, d)
  {
    ReadSelects(ring, log, ob.filter, start);
    if d.hit {
      BufferHits(ring, log, ob, d, start);
    } else {
      BufferMisses(ring, log, ob, d, start);
    }
  }

  lemma BufferReads(ring: Ring, log: seq<Frame>, ob: Observer)
    requires ring.dropped <= |log| && ring.buffer == log[ring.dropped..] && ob.cursor < |log| && ring.dropped < |log|
    ensures ReadStep(ring, log, ob, ReadBuffer(ring, ob))
  {
    var start := ReadFrom(ring, ob.cursor);
    var j := FirstWanted(ring.buffer, start - ring.dropped, ob.filter);
    ReadBufferShape(ring, ob, start, j);
    ReadIsStep(ring, log, ob, ReadBuffer(ring, ob), start, j);
  }

  lemma HandOutKeepsOrder(got: seq<Frame>, log: seq<Frame>, from: nat, k: nat)
    requires Ascending(got) && Ascending(log) && from <= k < |log| && AllBefore(got, log[from..])
    ensures Ascending(got + [log[k]]) && AllBefore(got + [log[k]], log[k + 1..])
  {
    SkipKeepsOrder(got, log, from, k);
    forall i | 0 <= i < |got| ensures got[i].no < log[k].no {
      assert log[k..][0] == log[k];
    }
    SkipKeepsOrder(got, log, from, k + 1);
  }

  lemma SkipKeepsOrder(got: seq<Frame>, log: seq<Frame>, from: nat, to: nat)
    requires from <= to <= |log| && AllBefore(got, log[from..])
    ensures AllBefore(got, log[to..])
  {
    forall i, j | 0 <= i < |got| && 0 <= j < |log| - to ensures got[i].no < log[to..][j].no {
      assert log[to..][j] == log[from..][to - from + j];
    }
  }

  lemma LaterLogs(c: Core, ob: Observer, k: nat)
    requires Parallel(c) && Stamped(c.recs, c.logs, c.counter) && Bounded(c, ob) && Ordered(c, ob)
    requires ob.bound.Some? && k < |c.logs[ob.bound.value]|
    ensures forall q :: ob.bound.value < q < |c.recs| && c.recs[q].thread == ob.thread ==>
      AllBefore(ob.got + [c.logs[ob.bound.value][k]], c.logs[q])
  {
    forall q | ob.bound.value < q < |c.recs| && c.recs[q].thread == ob.thread
      ensures AllBefore(ob.got + [c.logs[ob.bound.value][k]], c.logs[q])
    {
      assert AllBefore(c.logs[ob.bound.value], c.logs[q]) && AllBefore(ob.got, c.logs[q]);
    }
  }

  lemma BufferOrdered(c: Core, ob: Observer, d: BufferRead)
    requires Parallel(c) && Stamped(c.recs, c.logs, c.counter) && Bounded(c, ob) && Ordered(c, ob) && ob.bound.Some?
    requires ReadStep(c.rings[ob.bound.value], c.logs[ob.bound.value], ob, d)
    ensures Bounded(c, d.ob) && Ordered(c, d.ob)
  {
    var log := c.logs[ob.bound.value];
    if d.hit {
      HandOutKeepsOrder(ob.got, log, ob.cursor, d.ob.cursor - 1);
      LaterLogs(c, ob, d.ob.cursor - 1);
      assert Below(log, c.counter);
    } else {
      SkipKeepsOrder(ob.got, log, ob.cursor, d.ob.cursor);
    }
  }

  lemma RangeMembers(s: seq<nat>, lo: nat, hi: nat, k: nat)
    requires lo <= hi
    ensures k in s + Range(lo, hi) <==> k in s || lo <= k < hi
  {
    if lo <= k < hi {
      assert Range(lo, hi)[k - lo] == k;
    }
  }

  lemma RangeClimbs(s: seq<nat>, limit: nat, lo: nat, hi: nat)
    requires Climbs(s, limit) && limit <= lo <= hi
    ensures Climbs(s + Range(lo, hi), hi)
  {
  }

  lemma ReadExtends(ords: seq<nat>, gaps: seq<nat>, cursor: nat, dropped: nat, start: nat, next: nat)
    requires Covers(ords, gaps, cursor, dropped)
    requires start == (if cursor < dropped then dropped else cursor) && start <= next
    ensures Covers(ords + Range(start, next), gaps + Range(cursor, start), next, dropped)
  {
    RangeClimbs(ords, cursor, start, next);
    RangeClimbs(gaps, cursor, cursor, start);
    assert start == cursor ==> gaps + Range(cursor, start) == gaps;
    forall k | 0 <= k < next ensures k in ords + Range(start, next) <==> k !in gaps + Range(cursor, start) {
      RangeMembers(ords, start, next, k);
      RangeMembers(gaps, cursor, start, k);
    }
  }

  lemma SelectedExtends(
    got: seq<Frame>, before: seq<Frame>, log: seq<Frame>, ords: seq<nat>, more: seq<nat>, filter: Filter)
    requires got == before + Select(log, ords, filter)
    ensures got + Select(log, more, filter) == before + Select(log, ords + more, filter)
  {
    SelectConcat(log, ords, more, filter);
  }

  lemma BufferExact(c: Core, ob: Observer, d: BufferRead)
    requires Parallel(c) && Bounded(c, ob) && Exact(c, ob) && ob.bound.Some?
    requires ReadStep(c.rings[ob.bound.value], c.logs[ob.bound.value], ob, d)
    ensures Bounded(c, d.ob) && Exact(c, d.ob)
  {
    var ring := c.rings[ob.bound.value];
    var log := c.logs[ob.bound.value];
    var start := ReadFrom(ring, ob.cursor);
    SelectedExtends(ob.got, SelectPast(c.logs, ob.past, ob.filter), log, ob.ords, Range(start, d.ob.cursor), ob.filter);
    ReadExtends(ob.ords, ob.gaps, ob.cursor, ring.dropped, start, d.ob.cursor);
  }

  lemma BufferGood(c: Core, ob: Observer)
    requires Inv(c) && Good(c, ob) && ob.bound.Some? && ob.cursor < |c.logs[ob.bound.value]|
    ensures var d := ReadBuffer(c.rings[ob.bound.value], ob);
      Good(c, d.ob) && (!d.hit ==> Exhausted(c, d.ob))
  {
    var ring := c.rings[ob.bound.value];
    assert RingOf(ring, c.logs[ob.bound.value], c.cap);
    BufferReads(ring, c.logs[ob.bound.value], ob);
    BufferOrdered(c, ob, ReadBuffer(ring, ob));
    BufferExact(c, ob, ReadBuffer(ring, ob));
  }

  lemma BindOrdered(c: Core, ob: Observer)
    requires Inv(c) && Bounded(c, ob) && Ordered(c, ob) && ob.thread in c.runs && (ob.bound.Some? ==> Stale(c, ob))
    ensures var ob' := Bind(c, ob, c.runs[ob.thread]); Bounded(c, ob') && Ordered(c, ob')
  {
    var n := c.runs[ob.thread];
    assert RingOf(c.rings[n], c.logs[n], c.cap);
    assert ob.bound.Some? ==> ob.bound.value < n;
    assert AllBefore(ob.got, c.logs[n]);
    forall q | n < q < |c.recs| && c.recs[q].thread == ob.thread ensures AllBefore(ob.got, c.logs[q]) {
    }
    TailBefore(ob.got, c.logs[n], c.rings[n].dropped);
  }

  lemma TailBefore(got: seq<Frame>, log: seq<Frame>, from: nat)
    requires AllBefore(got, log) && from <= |log|
    ensures AllBefore(got, log[from..])
  {
  }

  function Current(ob: Observer): Binding
    requires ob.bound.Some?
  {
    Binding(ob.bound.value, ob.ords, ob.gaps)
  }

  /** The binding left behind was read to the end, and its run will not grow. */
  lemma LeavesWell(c: Core, ob: Observer)
    requires Inv(c) && Good(c, ob) && ob.bound.Some? && ob.thread in c.runs && Exhausted(c, ob) && Stale(c, ob)
    ensures ob.bound.value < c.runs[ob.thread] && LeftWell(c, ob.thread, Current(ob))
  {
  }

  lemma PastGrows(logs: seq<seq<Frame>>, past: seq<Binding>, b: Binding, filter: Filter)
    requires b.run < |logs|
    ensures SelectPast(logs, past + [b], filter) == SelectPast(logs, past, filter) + Select(logs[b.run], b.ords, filter)
  {
    assert (past + [b])[..|past|] == past;
  }

  /** What was handed out is then what the bindings left behind selected. */
  lemma BindSelects(c: Core, ob: Observer)
    requires Parallel(c) && Bounded(c, ob) && Exact(c, ob)
    ensures ob.got == SelectPast(c.logs, Bindings(ob), ob.filter)
  {
    if ob.bound.Some? {
      PastGrows(c.logs, ob.past, Current(ob), ob.filter);
    }
  }

  lemma PastExtended(c: Core, t: ThreadId, past: seq<Binding>, b: Binding, n: nat)
    requires Parallel(c) && LeftWell(c, t, b) && b.run < n
    requires forall i :: 0 <= i < |past| ==> LeftWell(c, t, past[i]) && past[i].run < b.run
    requires forall i, j :: 0 <= i < j < |past| ==> past[i].run < past[j].run
    ensures var past' := past + [b];
      && (forall i :: 0 <= i < |past'| ==> LeftWell(c, t, past'[i]) && past'[i].run < n)
      && (forall i, j :: 0 <= i < j < |past'| ==> past'[i].run < past'[j].run)
  {
  }

  lemma BindExact(c: Core, ob: Observer, n: nat)
    requires Parallel(c) && n < |c.recs| && Bounded(c, ob) && Exact(c, ob) && Bounded(c, Bind(c, ob, n))
    requires ob.bound.Some? ==> ob.bound.value < n && LeftWell(c, ob.thread, Current(ob))
    ensures Exact(c, Bind(c, ob, n))
  {
    BindSelects(c, ob);
    if ob.bound.Some? {
      PastExtended(c, ob.thread, ob.past, Current(ob), n);
    }
    FreshBindingExact(c, Bind(c, ob, n));
  }

  lemma FreshBindingExact(c: Core, ob: Observer)
    requires Parallel(c) && Bounded(c, ob) && ob.bound.Some?
    requires ob.ords == [] && ob.gaps == Range(0, ob.cursor) && ob.cursor == c.rings[ob.bound.value].dropped
    requires ob.got == SelectPast(c.logs, ob.past, ob.filter)
    requires forall i :: 0 <= i < |ob.past| ==> LeftWell(c, ob.thread, ob.past[i]) && ob.past[i].run < ob.bound.value
    requires forall i, j :: 0 <= i < j < |ob.past| ==> ob.past[i].run < ob.past[j].run
    ensures Exact(c, ob)
  {
    assert ob.got + [] == ob.got;
    ReadExtends([], [], 0, ob.cursor, ob.cursor, ob.cursor);
    assert [] + Range(0, ob.cursor) == Range(0, ob.cursor) && [] + Range(ob.cursor, ob.cursor) == [];
  }

  /** Leaving a run loses none of its frames: it has been read to the end and will not grow. */
  lemma BindGood(c: Core, ob: Observer)
    requires Inv(c) && Good(c, ob) && ob.thread in c.runs && (ob.bound.Some? ==> Exhausted(c, ob) && Stale(c, ob))
    ensures Good(c, Bind(c, ob, c.runs[ob.thread]))
  {
    BindOrdered(c, ob);
    if ob.bound.Some? {
      LeavesWell(c, ob);
    }
    BindExact(c, ob, c.runs[ob.thread]);
  }

  /** What every stretch of observe leaves behind. */
  ghost predicate Lands(c: Core, out: Outcome)
    requires Parallel(c)
  {
    && Good(c, out.ob)
    && (out.ParksOnRun? || out.ParksForRun? ==> !Stale(c, out.ob) && (out.ob.bound.Some? ==> Exhausted(c, out.ob)))
    && (out.ParksOnRun? ==> out.ob.bound.Some? && !c.recs[out.ob.bound.value].phase.Done?)
    && (out.ParksForRun? && out.ob.bound.Some? ==> c.recs[out.ob.bound.value].phase.Done?)
  }

  lemma ReadOnLands(c: Core, ob: Observer)
    requires Inv(c) && Good(c, ob) && ob.bound.Some?
    ensures Lands(c, ReadOn(c, ob))
    decreases Stale(c, ob), 1
  {
    var ring := c.rings[ob.bound.value];
    assert RingOf(ring, c.logs[ob.bound.value], c.cap);
    if ob.cursor < ring.dropped + |ring.buffer| {
      if !ob.aborted {
        BufferGood(c, ob);
        var d := ReadBuffer(ring, ob);
        if !d.hit {
          SettleLands(c, d.ob);
        }
      }
    } else {
      SettleLands(c, ob);
    }
  }

  lemma SettleLands(c: Core, ob: Observer)
    requires Inv(c) && Good(c, ob) && Exhausted(c, ob)
    ensures Lands(c, Settle(c, ob))
    decreases Stale(c, ob), 0
  {
    if Stale(c, ob) {
      BindGood(c, ob);
      LoopLands(c, Bind(c, ob, c.runs[ob.thread]));
    }
  }

  lemma LoopLands(c: Core, ob: Observer)
    requires Inv(c) && Good(c, ob) && ob.bound.Some?
    ensures Lands(c, Loop(c, ob))
    decreases Stale(c, ob), 2
  {
    if !(ob.aborted || ob.thread in c.deleting) {
      ReadOnLands(c, ob);
    }
  }

  /** An observer between waitForRun and observe, or parked there, has a finished run read to the end. */
  ghost predicate Rests(c: Core, ob: Observer)
    requires Parallel(c) && Bounded(c, ob)
  {
    ob.bound.Some? ==>
      && (ob.stage == Parked(OnRun) ==> Exhausted(c, ob) && !c.recs[ob.bound.value].phase.Done?)
      && (ob.stage.Resumed? || ((ob.stage.Parked? || ob.stage.Woken?) && ob.stage.at.InSet?) ==>
            Exhausted(c, ob) && c.recs[ob.bound.value].phase.Done?)
  }

  lemma AdvanceLands(c: Core, ob: Observer)
    requires Inv(c) && Good(c, ob) && Rests(c, ob) && Runnable(ob)
    ensures Lands(c, Advance(c, ob))
  {
    if ob.bound.None? {
      if ob.thread in c.runs {
        BindGood(c, ob);
        LoopLands(c, Bind(c, ob, c.runs[ob.thread]));
      }
    } else if ob.stage.Suspended? {
      ReadOnLands(c, ob);
    } else if ob.stage.Resumed? {
      if !ob.aborted {
        if Stale(c, ob) {
          BindGood(c, ob);
          LoopLands(c, Bind(c, ob, c.runs[ob.thread]));
        } else {
          LoopLands(c, ob);
        }
      }
    } else {
      LoopLands(c, ob);
    }
  }
}
