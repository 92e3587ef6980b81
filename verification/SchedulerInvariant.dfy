/**
  One thread of the scheduler: how a pump can touch it, the books it keeps, and how each move on it
  keeps them.
 */
module SchedulerInvariant {
  import opened Wrappers
  import opened Scheduler

  // ---------------------------------------------------------------- what one pump does to one thread

  /** u was left alone, or its queue's head was submitted, which needs it free to run and takes its slot. */
  predicate Pumped(s: Store, s': Store, u: ThreadId)
    requires AllLinked(s) && AllLinked(s')
  {
    || (Get(s', u) == Get(s, u) && (u in s'.active <==> u in s.active))
    || (!Skips(s, u) && Get(s', u) == SubmitHead(Get(s, u)) && u in s'.active)
  }

  lemma {:induction false} PumpEffect(s: Store, u: ThreadId)
    requires AllLinked(s)
    ensures Pumped(s, Pump(s), u)
    decreases |s.pending|
  {
    if |s.active| < s.max && s.pending != [] {
      var t := s.pending[0];
      PumpEffect(if Skips(Shifted(s), t) then Shifted(s) else Launch(Shifted(s), t), u);
    }
  }

  lemma DrainEffect(s: Store, t: ThreadId, u: ThreadId)
    requires AllLinked(s)
    ensures Pumped(s, Drain(s, t), u)
  {
    if !Skips(s, t) {
      PumpEffect(Listed(s, t), u);
    }
  }

  /** A drain and a pump together are like one pump, and so is a pump after the thread's own entry was given up. */
  lemma DrainPumpEffect(s: Store, t: ThreadId, u: ThreadId)
    requires AllLinked(s)
    ensures Pumped(s, Pump(Drain(s, t)), u)
    ensures t != u ==> Pumped(s, Pump(Evict(Drain(s, t), t)), u)
  {
    DrainEffect(s, t, u);
    PumpEffect(Drain(s, t), u);
    PumpEffect(Evict(Drain(s, t), t), u);
  }

  // ---------------------------------------------------------------- a thread's books

  predicate HasLive(th: Thread) {
    th.subs != [] && Live(th.subs[|th.subs| - 1])
  }

  /** The turn in an unanswered submission. */
  function Trying(th: Thread): seq<nat> {
    if HasLive(th) && !th.subs[|th.subs| - 1].created then [th.subs[|th.subs| - 1].turn] else []
  }

  function KnownRun(th: Thread): Option<nat> {
    if HasLive(th) && th.subs[|th.subs| - 1].created then Some(|th.subs| - 1) else None
  }

  /** The thread's turns in the order they pass through: accepted, being submitted, waiting. */
  function Timeline(th: Thread): seq<nat>
    requires Linked(th)
  {
    th.accepted + Trying(th) + Queue(th)
  }

  predicate Flags(sub: Submission) {
    && (sub.failed ==> sub.settled && !sub.created)
    && (sub.settled && !sub.failed ==> sub.created)
    && (sub.completed ==> sub.created && sub.settled)
  }

  /** One submission in flight, exactly while the thread holds a slot, made for its entry, whose run id is its run. */
  ghost predicate InFlight(th: Thread, holds: bool) {
    && Linked(th)
    && (forall k :: 0 <= k < |th.subs| ==> Flags(th.subs[k]))
    && (forall k :: 0 <= k < |th.subs| - 1 ==> !Live(th.subs[k]))
    && (holds <==> HasLive(th))
    && (HasLive(th) ==> th.entry == Some(th.subs[|th.subs| - 1].entry))
    && (th.entry.Some? ==> th.entries[th.entry.value].run == KnownRun(th))
  }

  /** Turns are in the order sent, and each turn ever sent is in one place. */
  ghost predicate Ledger(line: seq<nat>, cancelled: set<nat>, bounced: set<nat>, sent: nat) {
    && (forall i, j :: 0 <= i < j < |line| ==> line[i] < line[j])
    && (forall i :: 0 <= i < |line| ==> line[i] !in cancelled && line[i] !in bounced)
    && cancelled !! bounced
    && (forall n: nat :: n < sent <==> n in line || n in cancelled || n in bounced)
  }

  ghost predicate Sound(th: Thread, holds: bool) {
    && InFlight(th, holds)
    && Ledger(Timeline(th), th.cancelled, th.bounced, th.sent)
  }

  /** An unfinished steer owns its thread: the steered turn waits, and only the run being cancelled can be live. */
  ghost predicate Steered(th: Thread)
    requires Linked(th)
  {
    && (forall j :: 0 <= j < |th.steers| && !th.steers[j].over ==>
         && th.entry == Some(th.steers[j].entry)
         && th.entries[th.steers[j].entry].steering
         && Queue(th) != []
         && (HasLive(th) ==> th.steers[j].target == |th.subs| - 1))
    && (forall i, j :: 0 <= i < |th.steers| && 0 <= j < |th.steers| ==>
          !th.steers[i].over && !th.steers[j].over ==> i == j)
  }

  lemma Append(line: seq<nat>, cancelled: set<nat>, bounced: set<nat>, sent: nat)
    requires Ledger(line, cancelled, bounced, sent)
    ensures Ledger(line + [sent], cancelled, bounced, sent + 1)
  {
    var line' := line + [sent];
    forall n: nat ensures n < sent + 1 <==> n in line' || n in cancelled || n in bounced {
      assert n in line' <==> n in line || n == sent;
    }
    forall i | 0 <= i < |line| ensures line[i] < sent {
      assert line[i] in line;
    }
  }

  lemma RemoveMembers(line: seq<nat>, i: nat, n: nat)
    requires i < |line| && forall a, b :: 0 <= a < b < |line| ==> line[a] < line[b]
    ensures n in line[..i] + line[i + 1..] <==> n in line && n != line[i]
  {
    var line' := line[..i] + line[i + 1..];
    if n in line && n != line[i] {
      var k :| 0 <= k < |line| && line[k] == n;
      assert line'[if k < i then k else k - 1] == n;
    }
    if n in line' {
      var k :| 0 <= k < |line'| && line'[k] == n;
      assert line[if k < i then k else k + 1] == n;
    }
  }

  /** Taking one turn out of the line, into either pile. */
  lemma Remove(line: seq<nat>, cancelled: set<nat>, bounced: set<nat>, sent: nat, i: nat)
    requires Ledger(line, cancelled, bounced, sent) && i < |line|
    ensures Ledger(line[..i] + line[i + 1..], cancelled + {line[i]}, bounced, sent)
    ensures Ledger(line[..i] + line[i + 1..], cancelled, bounced + {line[i]}, sent)
  {
    var line' := line[..i] + line[i + 1..];
    forall n: nat ensures n in line' <==> n in line && n != line[i] {
      RemoveMembers(line, i, n);
    }
    assert line[i] in line;
    forall k | 0 <= k < |line'| ensures line'[k] in line && line'[k] != line[i] {
      assert line'[k] in line';
    }
  }

  /** Removing from the tail of a concatenation. */
  lemma RemoveRight(a: seq<nat>, q: seq<nat>, i: nat)
    requires i < |q|
    ensures var line := a + q;
      line[..|a| + i] + line[|a| + i + 1..] == a + (q[..i] + q[i + 1..]) && line[|a| + i] == q[i]
  {
  }

  lemma LiveIsLast(th: Thread, holds: bool, k: nat)
    requires InFlight(th, holds) && k < |th.subs| && Live(th.subs[k])
    ensures k == |th.subs| - 1 && HasLive(th) && holds
  {
  }

  // ---------------------------------------------------------------- one thread's moves

  /** The books are the submissions, the history, and the current entry's queue and run id. */
  lemma SameBooks(th: Thread, th': Thread, holds: bool)
    requires Sound(th, holds) && Linked(th')
    requires th'.subs == th.subs && th'.accepted == th.accepted && th'.sent == th.sent
    requires th'.cancelled == th.cancelled && th'.bounced == th.bounced && th'.entry == th.entry
    requires th.entry.Some? ==>
      var e, e' := th.entries[th.entry.value], th'.entries[th.entry.value]; e'.queued == e.queued && e'.run == e.run
    ensures Sound(th', holds)
  {
    assert Timeline(th') == Timeline(th);
  }

  lemma WithEntrySound(th: Thread, holds: bool)
    requires Sound(th, holds)
    ensures Sound(WithEntry(th), holds)
  {
    assert Timeline(WithEntry(th)) == Timeline(th);
  }

  lemma EnqueueSound(th: Thread, holds: bool)
    requires Sound(th, holds) && th.entry.Some?
    ensures Sound(Enqueue(th), holds)
  {
    Append(Timeline(th), th.cancelled, th.bounced, th.sent);
    assert Timeline(Enqueue(th)) == Timeline(th) + [th.sent];
  }

  lemma DirectSound(th: Thread)
    requires Sound(th, false) && th.entry.Some? && Queue(th) == []
    ensures Sound(SubmitNew(th), true)
  {
    Append(Timeline(th), th.cancelled, th.bounced, th.sent);
    assert Timeline(SubmitNew(th)) == Timeline(th) + [th.sent];
  }

  lemma SubmitHeadSound(th: Thread)
    requires Sound(th, false) && Queue(th) != []
    ensures Sound(SubmitHead(th), true)
  {
    assert Timeline(SubmitHead(th)) == Timeline(th);
  }

  lemma CreatedSound(th: Thread, holds: bool, k: nat)
    requires Sound(th, holds) && k < |th.subs| && !th.subs[k].created && !th.subs[k].settled
    ensures Sound(CreatedIn(th, k), holds)
  {
    assert Live(th.subs[k]);
    assert Timeline(CreatedIn(th, k)) == Timeline(th);
  }

  lemma SettledSound(th: Thread, holds: bool, k: nat)
    requires Sound(th, holds) && k < |th.subs| && th.subs[k].created && !th.subs[k].settled
    ensures Sound(Settled(th, k), holds) && Settled(th, k).entries[th.subs[k].entry].run.Some?
  {
    assert Live(th.subs[k]);
    assert Timeline(Settled(th, k)) == Timeline(th);
  }

  lemma FailedFlight(th: Thread, holds: bool, k: nat)
    requires InFlight(th, holds) && k < |th.subs| && !th.subs[k].created && !th.subs[k].settled
    ensures holds && InFlight(FailedIn(th, k), false) && FailedIn(th, k).entries[th.subs[k].entry].run.None?
  {
    LiveIsLast(th, holds, k);
  }

  lemma BouncedTimeline(th: Thread, holds: bool, k: nat)
    requires InFlight(th, holds) && k < |th.subs|
    requires !th.subs[k].created && !th.subs[k].settled && !th.subs[k].queued
    ensures Timeline(th) == th.accepted + ([th.subs[k].turn] + Queue(th))
    ensures Timeline(FailedIn(th, k)) == th.accepted + Queue(th)
  {
    LiveIsLast(th, holds, k);
  }

  lemma BouncedSound(th: Thread, holds: bool, k: nat)
    requires Sound(th, holds) && k < |th.subs| && !th.subs[k].created && !th.subs[k].settled && !th.subs[k].queued
    ensures Ledger(Timeline(FailedIn(th, k)), th.cancelled, th.bounced + {th.subs[k].turn}, th.sent)
  {
    var tail := [th.subs[k].turn] + Queue(th);
    BouncedTimeline(th, holds, k);
    RemoveRight(th.accepted, tail, 0);
    Remove(th.accepted + tail, th.cancelled, th.bounced, th.sent, |th.accepted|);
    assert tail[..0] + tail[1..] == Queue(th);
  }

  lemma RequeuedTimeline(th: Thread, holds: bool, k: nat)
    requires InFlight(th, holds) && k < |th.subs| && !th.subs[k].created && !th.subs[k].settled && th.subs[k].queued
    ensures Timeline(FailedIn(th, k)) == Timeline(th)
  {
    LiveIsLast(th, holds, k);
  }

  lemma FailedSound(th: Thread, holds: bool, k: nat)
    requires Sound(th, holds) && k < |th.subs| && !th.subs[k].created && !th.subs[k].settled
    ensures holds && Sound(FailedIn(th, k), false) && FailedIn(th, k).entries[th.subs[k].entry].run.None?
  {
    FailedFlight(th, holds, k);
    if th.subs[k].queued {
      RequeuedTimeline(th, holds, k);
    } else {
      BouncedSound(th, holds, k);
    }
  }

  lemma CompletedSound(th: Thread, holds: bool, k: nat)
    requires Sound(th, holds) && k < |th.subs|
    requires th.subs[k].created && th.subs[k].settled && !th.subs[k].completed
    ensures Sound(CompletedIn(th, Some(k)), false)
  {
    assert Live(th.subs[k]);
    assert Timeline(CompletedIn(th, Some(k))) == Timeline(th);
  }

  /** The end of a run that no submission made is harmless while none is in flight. */
  lemma ForeignCompletedSound(th: Thread)
    requires Sound(th, false)
    ensures Sound(CompletedIn(th, None), false)
  {
    SameBooks(th, CompletedIn(th, None), false);
  }

  lemma CancelledFlight(th: Thread, holds: bool, i: nat)
    requires InFlight(th, holds) && i < |Queue(th)|
    ensures InFlight(CancelledIn(th, i), holds)
    ensures var q := Queue(th); Timeline(CancelledIn(th, i)) == th.accepted + Trying(th) + (q[..i] + q[i + 1..])
  {
  }

  lemma CancelledSound(th: Thread, holds: bool, i: nat)
    requires Sound(th, holds) && i < |Queue(th)|
    ensures Sound(CancelledIn(th, i), holds)
  {
    CancelledFlight(th, holds, i);
    var front := th.accepted + Trying(th);
    RemoveRight(front, Queue(th), i);
    Remove(front + Queue(th), th.cancelled, th.bounced, th.sent, |front| + i);
  }

  lemma DropSound(th: Thread)
    requires Sound(th, false) && Queue(th) == []
    ensures Sound(DropEntry(th), false)
  {
    assert Timeline(DropEntry(th)) == Timeline(th);
  }

  lemma UnsteeredSound(th: Thread, holds: bool, j: nat)
    requires Sound(th, holds) && j < |th.steers|
    ensures Sound(Unsteered(th, j), holds)
  {
    SameBooks(th, Unsteered(th, j), holds);
  }

  lemma SteeringSound(th: Thread, holds: bool)
    requires Sound(th, holds) && th.entry.Some?
    ensures Sound(Steering(th), holds)
  {
    EnqueueSound(th, holds);
    SameBooks(Enqueue(th), Steering(th), holds);
  }

  lemma HydratingSound(th: Thread, on: bool, holds: bool)
    requires Sound(th, holds) && th.entry.Some?
    ensures Sound(SetEntry(th, th.entries[th.entry.value].(hydrating := on)), holds)
  {
    SameBooks(th, SetEntry(th, th.entries[th.entry.value].(hydrating := on)), holds);
  }

  // ---------------------------------------------------------------- steers

  predicate IsSteering(th: Thread)
    requires Linked(th)
  {
    th.entry.Some? && th.entries[th.entry.value].steering
  }

  /** A steer's ownership survives what starts no submission and leaves the flag and a waiting turn. */
  lemma SameSteers(th: Thread, th': Thread)
    requires Linked(th) && Linked(th') && Steered(th)
    requires th'.steers == th.steers && th'.entry == th.entry && |th'.subs| == |th.subs|
    requires IsSteering(th) ==> IsSteering(th') && (Queue(th) != [] ==> Queue(th') != [])
    requires HasLive(th') ==> HasLive(th)
    ensures Steered(th')
  {
  }

  lemma Unowned(th: Thread)
    requires Linked(th) && Steered(th) && (!IsSteering(th) || Queue(th) == [])
    ensures forall j :: 0 <= j < |th.steers| ==> th.steers[j].over
  {
  }

  lemma FreeThreadSteered(th: Thread)
    requires Linked(th) && Steered(th) && (!IsSteering(th) || Queue(th) == [])
    ensures Steered(WithEntry(th)) && Steered(DropEntry(th))
    ensures Queue(th) != [] ==> Steered(SubmitHead(th))
    ensures th.entry.Some? ==> Steered(SubmitNew(th))
  {
    Unowned(th);
  }

  lemma SteeringSteered(th: Thread, holds: bool)
    requires InFlight(th, holds) && Steered(th) && th.entry.Some? && !IsSteering(th)
    ensures Steered(Steering(th))
  {
    Unowned(th);
  }
}
