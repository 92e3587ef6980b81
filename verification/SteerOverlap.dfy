/**
  A run, in contract throughout, in which two overlapping steers put two submissions of one thread
  in flight: the slot freed at the end of a steer may be someone else's.
 */
module SteerOverlap {
  import opened Wrappers
  import opened Scheduler
  import opened SchedulerInvariant
  import opened SchedulerTheorems

  /** What is known after the first k events of a run in which two steers of one submission overlap. */
  ghost predicate Overlapped(s: Store, k: nat)
    requires AllLinked(s)
  {
    var th := Get(s, 0);
    && s.max == 2 && s.pending == [] && s.pendingSet == {}
    && (forall t :: t in s.active <==> t == 0 && k != 0 && k != 8)
    && !th.disposed && (k == 0 ==> th == NEW_THREAD)
    && |th.subs| == (if k == 0 then 0 else if k <= 8 then 1 else k - 7)
    && |th.steers| == (if k <= 4 then 0 else if k == 5 then 1 else 2)
    && |Queue(th)| == (if k <= 4 then 0 else if k == 5 then 1 else if k <= 8 then 2 else 10 - k)
    && th.status == (if 4 <= k <= 6 then Streaming else Idle)
    && (k >= 1 ==> th.entry == Some(0) && th.subs[0].entry == 0 && th.subs[0].created == (k >= 2))
    && (k >= 1 ==> th.subs[0].settled == (k >= 3) && th.subs[0].completed == (k >= 8))
    && (k >= 1 ==> th.entries[0].run == (if 2 <= k <= 7 then Some(0) else None))
    && (k >= 1 ==> th.entries[0].steering == (5 <= k <= 8))
    && (forall j :: 0 <= j < |th.steers| ==>
          th.steers[j].entry == 0 && th.steers[j].target == 0 && th.steers[j].over == (k >= 9 + j))
    && (forall j :: 1 <= j < |th.subs| ==> !th.subs[j].settled)
  }

  function OverlapEvent(k: nat): Event {
    match k
    case 0 => SendTurn(0)
    case 1 => OnCreated(0, 0)
    case 2 => OnSettled(0, 0, true)
    case 3 => StatusChange(0, Streaming)
    case 4 => SteerNow(0)
    case 5 => SteerNow(0)
    case 6 => StatusChange(0, Idle)
    case 7 => OnCompleted(0, Some(0))
    case 8 => SteerReturns(0, 0, true)
    case _ => SteerReturns(0, 1, true)
  }

  lemma DrainsAlone(s: Store)
    requires AllLinked(s) && s.max == 2 && s.pending == [] && s.pendingSet == {} && s.active == {} && !Skips(s, 0)
    ensures Drain(s, 0) == Launch(s, 0) && Pump(Launch(s, 0)) == Launch(s, 0)
  {
    var s1 := Listed(s, 0);
    var s2 := Shifted(s1);
    assert s2.pending == s.pending && s2.pendingSet == s.pendingSet;
    assert s2 == s;
    assert Pump(Launch(s, 0)) == Launch(s, 0);
    assert Drain(s, 0) == Pump(s1) == Pump(Launch(s2, 0));
  }

  lemma OverlapEarly(s: Store, k: nat)
    requires AllLinked(s) && Overlapped(s, k) && k < 2
    ensures Possible(s, OverlapEvent(k)) && Contract(s, OverlapEvent(k)) && Overlapped(Step(s, OverlapEvent(k)), k + 1)
  {
  }

  lemma OverlapSettles(s: Store)
    requires AllLinked(s) && Overlapped(s, 2)
    ensures Possible(s, OverlapEvent(2)) && Contract(s, OverlapEvent(2)) && Overlapped(Step(s, OverlapEvent(2)), 3)
  {
  }

  lemma OverlapMiddle(s: Store, k: nat)
    requires AllLinked(s) && Overlapped(s, k) && 3 <= k < 8
    ensures Possible(s, OverlapEvent(k)) && Contract(s, OverlapEvent(k)) && Overlapped(Step(s, OverlapEvent(k)), k + 1)
  {
  }

  function Freed(s: Store, j: nat): (s': Store)
    requires AllLinked(s) && j < |Get(s, 0).steers|
    ensures AllLinked(s')
  {
    Put(s, 0, Unsteered(Get(s, 0), j)).(active := s.active - {0})
  }

  /** The state in which the (k - 8)th returning steer has freed the slot: n more turns wait. */
  ghost predicate Waiting(s: Store, k: nat)
    requires AllLinked(s) && 8 <= k
  {
    var th := Get(s, 0);
    && s.max == 2 && s.pending == [] && s.pendingSet == {} && s.active == {}
    && !th.disposed && th.status == Idle && th.entry == Some(0)
    && |th.subs| == k - 7 && |th.steers| == 2 && |Queue(th)| == 10 - k
    && th.subs[0].entry == 0 && th.subs[0].created && th.subs[0].settled && th.subs[0].completed
    && th.entries[0].run.None? && !th.entries[0].steering
    && (forall j :: 0 <= j < 2 ==>
          th.steers[j].entry == 0 && th.steers[j].target == 0 && th.steers[j].over == (k >= 8 + j))
    && (forall j :: 1 <= j < |th.subs| ==> !th.subs[j].settled)
  }

  lemma FreedWaits(s: Store, k: nat)
    requires AllLinked(s) && Overlapped(s, k) && 8 <= k < 10
    ensures Possible(s, OverlapEvent(k)) && Contract(s, OverlapEvent(k)) && Waiting(Freed(s, k - 8), k)
  {
    assert Freed(s, k - 8).active == {};
  }

  lemma WaitingLaunches(s: Store, k: nat)
    requires AllLinked(s) && 8 <= k < 10 && Waiting(s, k)
    ensures Overlapped(Pump(Drain(s, 0)), k + 1)
  {
    DrainsAlone(s);
    LaunchFacts(s);
  }

  lemma OverlapLate(s: Store, k: nat)
    requires AllLinked(s) && Overlapped(s, k) && 8 <= k < 10
    ensures Possible(s, OverlapEvent(k)) && Contract(s, OverlapEvent(k)) && Overlapped(Step(s, OverlapEvent(k)), k + 1)
  {
    FreedWaits(s, k);
    WaitingLaunches(Freed(s, k - 8), k);
    assert Step(s, OverlapEvent(k)) == Pump(Drain(Freed(s, k - 8), 0));
  }

  lemma LaunchFacts(s: Store)
    requires AllLinked(s) && s.pending == [] && !Skips(s, 0)
    ensures var s' := Launch(s, 0); var th, th' := Get(s, 0), Get(s', 0);
      && s' == s.(threads := s'.threads, active := s.active + {0})
      && |th'.subs| == |th.subs| + 1 && !th'.subs[|th.subs|].settled
      && (forall j :: 0 <= j < |th.subs| ==> th'.subs[j] == th.subs[j])
      && |Queue(th')| == |Queue(th)| - 1
      && th' == th.(entries := th'.entries, subs := th'.subs)
      && th'.entries[th.entry.value] == th.entries[th.entry.value].(queued := Queue(th'))
  {
  }

  /** The events from the k-th to the end. */
  function Overlap(k: nat): seq<Event>
    decreases 10 - k
  {
    if k >= 10 then [] else [OverlapEvent(k)] + Overlap(k + 1)
  }

  lemma {:induction false} OverlapRuns(s: Store, k: nat)
    requires AllLinked(s) && k <= 10 && Overlapped(s, k)
    ensures CanRun(s, Overlap(k)) && Overlapped(After(s, Overlap(k)), 10)
    ensures RunInContract(s, Overlap(k)) && InContract(s, Overlap(k), 0)
    decreases 10 - k
  {
    if k < 10 {
      if k < 2 {
        OverlapEarly(s, k);
      } else if k == 2 {
        OverlapSettles(s);
      } else if k < 8 {
        OverlapMiddle(s, k);
      } else {
        OverlapLate(s, k);
      }
      OverlapRuns(Step(s, OverlapEvent(k)), k + 1);
      assert Overlap(k)[1..] == Overlap(k + 1);
    }
  }

  /** A thread with two live submissions has not kept calm. */
  lemma TwoLiveNotCalm(s: Store, es: seq<Event>, t: ThreadId, i: nat, j: nat)
    requires AllLinked(s) && CanRun(s, es) && InContract(s, es, t) && ThreadSound(s, t)
    requires var th := Get(After(s, es), t);
      !th.disposed && i < j < |th.subs| && Live(th.subs[i]) && Live(th.subs[j])
    ensures !AtMostOne(Get(After(s, es), t), t in After(s, es).active) && !AllCalm(s, es, t)
  {
    if AllCalm(s, es, t) {
      RunKeepsSound(s, es, t);
    }
  }

  /**
    Two steers of one run, in contract throughout: the second frees the slot the first one's turn took, and two
    submissions are in flight.
   */
  lemma OverlappingSteersBreakIt()
    ensures CanRun(Init(2), Overlap(0)) && RunInContract(Init(2), Overlap(0))
    ensures var s := After(Init(2), Overlap(0)); !Get(s, 0).disposed && !AtMostOne(Get(s, 0), 0 in s.active)
    ensures !AllCalm(Init(2), Overlap(0), 0)
  {
    OverlapRuns(Init(2), 0);
    InitSound(2, 0);
    TwoLiveNotCalm(Init(2), Overlap(0), 0, 1, 2);
  }
}
