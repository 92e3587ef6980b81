/** What an observer does when it runs: it hands out a frame or parks with everything read, and ends only when asked. */
module ObserverProgress {
  import opened Frames
  import opened RunManager
  import opened Observers
  import opened ObserverInvariant
  import opened ObserverTheorems

  /** One stretch hands out one frame exactly when it ends at a yield, and ends the stream only when asked to. */
  ghost predicate Accounts(c: Core, ob: Observer, out: Outcome) {
    && out.ob.thread == ob.thread && out.ob.filter == ob.filter && out.ob.aborted == ob.aborted
    && ob.got <= out.ob.got
    && |out.ob.got| == |ob.got| + (if out.Yielded? then 1 else 0)
    && (out.Yielded? ==> !ob.aborted)
    && (out.Ended? ==> ob.aborted || ob.thread in c.deleting)
  }

  lemma ReadOnAccounts(c: Core, ob: Observer)
    requires Followable(c, ob) && ob.bound.Some?
    ensures Accounts(c, ob, ReadOn(c, ob))
    decreases Stale(c, ob), 1
  {
    var ring := c.rings[ob.bound.value];
    if ob.cursor < ring.dropped + |ring.buffer| {
      if !ob.aborted && !ReadBuffer(ring, ob).hit {
        SettleAccounts(c, ReadBuffer(ring, ob).ob);
      }
    } else {
      SettleAccounts(c, ob);
    }
  }

  lemma SettleAccounts(c: Core, ob: Observer)
    requires Followable(c, ob) && ob.bound.Some?
    ensures Accounts(c, ob, Settle(c, ob))
    decreases Stale(c, ob), 0
  {
    if Stale(c, ob) {
      LoopAccounts(c, Bind(c, ob, c.runs[ob.thread]));
    }
  }

  lemma LoopAccounts(c: Core, ob: Observer)
    requires Followable(c, ob) && ob.bound.Some?
    ensures Accounts(c, ob, Loop(c, ob))
    decreases Stale(c, ob), 2
  {
    if !(ob.aborted || ob.thread in c.deleting) {
      ReadOnAccounts(c, ob);
    }
  }

  lemma AdvanceAccounts(c: Core, ob: Observer)
    requires Followable(c, ob) && Runnable(ob)
    ensures Accounts(c, ob, Advance(c, ob))
  {
    if ob.bound.None? {
      if ob.thread in c.runs {
        LoopAccounts(c, Bind(c, ob, c.runs[ob.thread]));
      }
    } else if ob.stage.Suspended? {
      ReadOnAccounts(c, ob);
    } else if ob.stage.Resumed? && !ob.aborted && Stale(c, ob) {
      LoopAccounts(c, Bind(c, ob, c.runs[ob.thread]));
    } else {
      LoopAccounts(c, ob);
    }
  }

  /** Coming from anywhere but a yield, a stretch ends the stream exactly when it is aborted or its thread fenced. */
  lemma EndsExactly(c: Core, ob: Observer)
    requires Followable(c, ob) && Runnable(ob) && !ob.stage.Suspended?
    ensures Advance(c, ob).Ended? <==> ob.aborted || ob.thread in c.deleting
  {
    AdvanceAccounts(c, ob);
  }

  /** Bound to the installed run and at the end of its log, or with no run installed to bind to. */
  ghost predicate CaughtUp(c: Core, ob: Observer)
    requires Parallel(c)
  {
    !Stale(c, ob) && (ob.bound.Some? ==> Exhausted(c, ob))
  }

  /** Of the two states of an observer around one of its stretches: one more frame, or caught up and parked. */
  ghost predicate Delivered(c: Core, ob: Observer, ob': Observer)
    requires Parallel(c)
  {
    && ob.got <= ob'.got
    && (if ob'.stage.Suspended? then |ob'.got| == |ob.got| + 1
        else ob'.stage.Parked? && |ob'.got| == |ob.got| && CaughtUp(c, ob'))
  }

  lemma OutcomeDelivers(c: Core, ob: Observer)
    requires Inv(c) && Good(c, ob) && Rests(c, ob) && Runnable(ob) && Followable(c, ob)
    requires !ob.aborted && ob.thread !in c.deleting
    ensures var out := Advance(c, ob);
      Accounts(c, ob, out) && !out.Ended? && (!out.Yielded? ==> CaughtUp(c, out.ob))
  {
    AdvanceAccounts(c, ob);
    AdvanceLands(c, ob);
  }

  lemma GoStage(s: Sys, o: nat, out: Outcome)
    requires Linked(s) && CanHappen(s, Go(o)) && out == Advance(s.core, s.obs[o]) && !out.ob.aborted && !out.Ended?
    ensures o < |OnGo(s, o).obs| && var ob' := OnGo(s, o).obs[o];
      ob' == out.ob.(stage := ob'.stage) && (if out.Yielded? then ob'.stage.Suspended? else ob'.stage.Parked?)
  {
  }

  /**
    Whenever an observer runs that is neither aborted nor fenced, it hands out exactly one more frame, or has caught up
    and parks; it does not end, also not at the end of a run.
   */
  lemma StepDelivers(cap: nat, es: seq<SysEvent>, s: Sys, o: nat)
    requires ReachableSys(cap, es, s) && Linked(s) && CanHappen(s, Go(o))
    requires !s.obs[o].aborted && s.obs[o].thread !in s.core.deleting
    ensures o < |OnGo(s, o).obs| && Delivered(s.core, s.obs[o], OnGo(s, o).obs[o])
  {
    ReachableIsSound(cap, es, s);
    assert Fine(s.core, s.obs[o]) && ObserverLinked(s.obs[o], |s.waiters|, |s.sets|);
    OutcomeDelivers(s.core, s.obs[o]);
    GoStage(s, o, Advance(s.core, s.obs[o]));
  }

  /** The first frame wanted that an observer has still to read in its run; none was read past it. */
  ghost predicate NextWanted(c: Core, ob: Observer, k: nat)
    requires Followable(c, ob) && ob.bound.Some?
  {
    var log, dropped := c.logs[ob.bound.value], c.rings[ob.bound.value].dropped;
    && ob.cursor <= k < |log| && dropped <= k && Wanted(log[k], ob.filter)
    && forall j :: ob.cursor <= j < k && dropped <= j ==> !Wanted(log[j], ob.filter)
  }

  lemma FirstAt(buffer: seq<Frame>, i: nat, m: nat, filter: Filter)
    requires i <= m < |buffer| && Wanted(buffer[m], filter)
    requires forall j :: i <= j < m ==> !Wanted(buffer[j], filter)
    ensures FirstWanted(buffer, i, filter) == m
  {
    var j := FirstWanted(buffer, i, filter);
    assert !(j < m) && !(m < j);
  }

  lemma BufferYields(ring: Ring, log: seq<Frame>, ob: Observer, k: nat)
    requires ring.dropped <= |log| && ring.buffer == log[ring.dropped..]
    requires ob.cursor <= k < |log| && ring.dropped <= k && Wanted(log[k], ob.filter)
    requires forall j :: ob.cursor <= j < k && ring.dropped <= j ==> !Wanted(log[j], ob.filter)
    ensures ob.cursor < ring.dropped + |ring.buffer|
    ensures ReadBuffer(ring, ob).hit && ReadBuffer(ring, ob).ob.got == ob.got + [log[k]]
  {
    var start := ReadFrom(ring, ob.cursor);
    forall j | start - ring.dropped <= j < k - ring.dropped ensures !Wanted(ring.buffer[j], ob.filter) {
      assert ring.buffer[j] == log[ring.dropped + j];
    }
    FirstAt(ring.buffer, start - ring.dropped, k - ring.dropped, ob.filter);
  }

  lemma ReadsWanted(c: Core, ob: Observer, k: nat)
    requires Inv(c) && Followable(c, ob) && ob.bound.Some? && NextWanted(c, ob, k) && !ob.aborted
    ensures var out := ReadOn(c, ob); out.Yielded? && out.ob.got == ob.got + [c.logs[ob.bound.value][k]]
  {
    assert RingOf(c.rings[ob.bound.value], c.logs[ob.bound.value], c.cap);
    BufferYields(c.rings[ob.bound.value], c.logs[ob.bound.value], ob, k);
  }

  /**
    With a wanted frame of its run unread, an unaborted observer hands out exactly the first such frame. Coming from a
    yield it does so under a fence too.
   */
  lemma YieldsNext(cap: nat, es: seq<SysEvent>, s: Sys, o: nat, k: nat)
    requires ReachableSys(cap, es, s) && Linked(s) && CanHappen(s, Go(o)) && s.obs[o].bound.Some?
    requires Followable(s.core, s.obs[o]) && NextWanted(s.core, s.obs[o], k) && !s.obs[o].aborted
    requires s.obs[o].stage.Suspended? || s.obs[o].thread !in s.core.deleting
    ensures var ob, s' := s.obs[o], OnGo(s, o);
      && o < |s'.obs| && s'.obs[o].stage.Suspended?
      && s'.obs[o].got == ob.got + [s.core.logs[ob.bound.value][k]]
  {
    ReachableIsSound(cap, es, s);
    assert Fine(s.core, s.obs[o]);
    ReadsWanted(s.core, s.obs[o], k);
    assert Advance(s.core, s.obs[o]) == ReadOn(s.core, s.obs[o]);
  }

  /** An aborted observer hands out nothing more. */
  lemma AbortSilences(s: Sys, o: nat)
    requires Linked(s) && CanHappen(s, Go(o)) && s.obs[o].aborted
    ensures o < |OnGo(s, o).obs| && OnGo(s, o).obs[o].got == s.obs[o].got
  {
    assert ObserverLinked(s.obs[o], |s.waiters|, |s.sets|);
    AdvanceAccounts(s.core, s.obs[o]);
  }

  lemma EndIsAsked(s: Sys, e: SysEvent, o: nat)
    requires Placed(s) && CanHappen(s, e) && o < |s.obs| && !s.obs[o].stage.Over?
    requires !s.obs[o].aborted && s.obs[o].thread !in s.core.deleting
    ensures o < |Next(s, e).obs| && !Next(s, e).obs[o].stage.Over? && Next(s, e).obs[o].thread == s.obs[o].thread
  {
    match e
    case CoreEv(ce) => OnCoreEffect(s, ce);
    case Go(p) =>
      assert ObserverLinked(s.obs[p], |s.waiters|, |s.sets|);
      AdvanceAccounts(s.core, s.obs[p]);
    case _ =>
  }

  /** Throughout a history the observer is neither aborted nor is its thread being deleted. */
  ghost predicate Undisturbed(s: Sys, es: seq<SysEvent>, o: nat)
    requires Linked(s) && CanRunSys(s, es)
    decreases |es|
  {
    && o < |s.obs| && !s.obs[o].aborted && s.obs[o].thread !in s.core.deleting
    && (es != [] ==> Undisturbed(Next(s, es[0]), es[1..], o))
  }

  /** An undisturbed observer never ends, however many runs come and go. */
  lemma {:induction false} NeverEndsUnasked(s: Sys, es: seq<SysEvent>, o: nat)
    requires SysInv(s) && CanRunSys(s, es) && Undisturbed(s, es, o) && !s.obs[o].stage.Over?
    ensures o < |AfterSys(s, es).obs| && !AfterSys(s, es).obs[o].stage.Over?
    decreases |es|
  {
    if es != [] {
      NextKeeps(s, es[0]);
      EndIsAsked(s, es[0], o);
      NeverEndsUnasked(Next(s, es[0]), es[1..], o);
    }
  }
}
