/**
  The model registry's catalog cache. Loads are named by position. A load's `answers` are history: what each provider's
  listing came to, and the last good models known at that moment; `committed` collects those of every load that was
  still current when it ended.
 */
module ModelCatalog {
  import opened Wrappers
  import opened Sequences

  type ProviderId = nat

  type ModelId = nat

  datatype Model = Model(provider: ProviderId, id: ModelId)

  /** What a provider's listing came to. */
  datatype Listing = Complete(models: seq<Model>) | Partial(models: seq<Model>, stale: bool) | Failed

  datatype Answer = Answer(provider: ProviderId, listing: Listing, known: Option<seq<Model>>)

  datatype Health = Ready | Degraded | Broken

  datatype Status = Status(provider: ProviderId, health: Health, modelCount: nat, stale: bool)

  datatype Row = Row(models: seq<Model>, isFresh: bool, status: Status)

  datatype Snapshot = Snapshot(models: seq<Model>, providers: seq<Status>)

  datatype Load = Load(
    generation: nat, providers: seq<ProviderId>, rows: seq<Option<Row>>, answers: seq<Option<Answer>>,
    ended: bool, forgotten: bool)

  datatype Cached = Cached(load: nat, snapshot: Snapshot, expiresAt: int)

  datatype InFlight = InFlight(generation: nat, load: nat)

  datatype Registry = Registry(
    providers: seq<ProviderId>, generation: nat,
    catalog: Option<Cached>, inFlight: Option<InFlight>, loads: seq<Load>,
    lastGood: map<ProviderId, seq<Model>>, enabled: map<ProviderId, set<ModelId>>,
    committed: seq<Answer>)

  const CATALOG_TTL_MS: int := 30000

  function Init(): Registry {
    Registry([], 0, None, None, [], map[], map[], [])
  }

  predicate AllIn(load: Load) {
    && |load.answers| == |load.rows|
    && forall i :: 0 <= i < |load.rows| ==> load.rows[i].Some? && load.answers[i].Some?
  }

  function Rows(load: Load): (rows: seq<Row>)
    requires AllIn(load)
    ensures |rows| == |load.rows|
  {
    seq(|load.rows|, i requires 0 <= i < |load.rows| => load.rows[i].value)
  }

  function Answers(load: Load): (answers: seq<Answer>)
    requires AllIn(load)
    ensures |answers| == |load.rows|
  {
    seq(|load.rows|, i requires 0 <= i < |load.rows| => load.answers[i].value)
  }

  function AllModels(rows: seq<Row>): seq<Model> {
    if rows == [] then [] else rows[0].models + AllModels(rows[1..])
  }

  function SnapshotOf(load: Load): Snapshot
    requires AllIn(load)
  {
    var rows := Rows(load);
    Snapshot(AllModels(rows), seq(|rows|, i requires 0 <= i < |rows| => rows[i].status))
  }

  // ---------------------------------------------------------------- operations

  function Register(s: Registry, p: ProviderId): Registry {
    s.(providers := if p in s.providers then s.providers else s.providers + [p],
       catalog := None, generation := s.generation + 1)
  }

  function Configure(s: Registry, p: ProviderId, can: bool): Registry {
    if p in s.providers && can then s.(catalog := None, generation := s.generation + 1) else s
  }

  function SetEnabledModels(s: Registry, p: ProviderId, ids: Option<set<ModelId>>): Registry {
    match ids
    case Some(models) => s.(enabled := s.enabled[p := models])
    case None => s.(enabled := s.enabled - {p})
  }

  predicate Fresh(s: Registry, now: int) {
    s.catalog.Some? && s.catalog.value.expiresAt > now
  }

  function NewLoad(generation: nat, providers: seq<ProviderId>): Load {
    Load(generation, providers, seq(|providers|, i => None), seq(|providers|, i => None), false, false)
  }

  /** loadCatalog up to its return: the load whose snapshot the caller gets. */
  function Request(s: Registry, refresh: bool, now: int): (Registry, nat) {
    if !refresh && Fresh(s, now) then (s, s.catalog.value.load)
    else if s.inFlight.Some? && s.inFlight.value.generation == s.generation then (s, s.inFlight.value.load)
    else
      var load := NewLoad(s.generation, s.providers);
      (s.(loads := s.loads + [load], inFlight := Some(InFlight(s.generation, |s.loads|))), |s.loads|)
  }

  /** One provider's row; a failed listing falls back on the last good models. */
  function RowFor(p: ProviderId, listing: Listing, lastGood: map<ProviderId, seq<Model>>): Row {
    match listing
    case Complete(models) => Row(models, true, Status(p, Ready, |models|, false))
    case Partial(models, stale) => Row(models, false, Status(p, Degraded, |models|, stale))
    case Failed =>
      var models := if p in lastGood then lastGood[p] else [];
      Row(models, false, Status(p, Broken, |models|, models != []))
  }

  function Known(lastGood: map<ProviderId, seq<Model>>, p: ProviderId): Option<seq<Model>> {
    if p in lastGood then Some(lastGood[p]) else None
  }

  predicate HasRow(load: Load, i: nat) {
    i < |load.rows| && |load.rows| == |load.answers| == |load.providers|
  }

  function RowEnds(s: Registry, k: nat, i: nat, listing: Listing): Registry
    requires k < |s.loads| && HasRow(s.loads[k], i)
  {
    var load := s.loads[k];
    var p := load.providers[i];
    s.(loads := s.loads[k := load.(rows := load.rows[i := Some(RowFor(p, listing, s.lastGood))],
                                   answers := load.answers[i := Some(Answer(p, listing, Known(s.lastGood, p)))])])
  }

  function Remember(lastGood: map<ProviderId, seq<Model>>, rows: seq<Row>): map<ProviderId, seq<Model>> {
    if rows == [] then lastGood
    else
      var before := Remember(lastGood, rows[..|rows| - 1]);
      var row := rows[|rows| - 1];
      if row.isFresh then before[row.status.provider := row.models] else before
  }

  /** A load has all its rows: a load overtaken by a newer generation only answers its own callers. */
  function LoadEnds(s: Registry, k: nat, now: int): Registry
    requires k < |s.loads| && AllIn(s.loads[k])
  {
    var load := s.loads[k];
    var s1 := s.(loads := s.loads[k := load.(ended := true)]);
    if s.generation == load.generation then
      s1.(lastGood := Remember(s.lastGood, Rows(load)),
          catalog := Some(Cached(k, SnapshotOf(load), now + CATALOG_TTL_MS)), committed := s.committed + Answers(load))
    else s1
  }

  function LoadForgotten(s: Registry, k: nat): Registry
    requires k < |s.loads|
  {
    s.(loads := s.loads[k := s.loads[k].(forgotten := true)],
       inFlight := if s.inFlight.Some? && s.inFlight.value.load == k then None else s.inFlight)
  }

  predicate IsEnabled(enabled: map<ProviderId, set<ModelId>>, m: Model) {
    m.provider in enabled ==> m.id in enabled[m.provider]
  }

  function EnabledOnly(models: seq<Model>, enabled: map<ProviderId, set<ModelId>>): seq<Model> {
    if models == [] then []
    else (if IsEnabled(enabled, models[0]) then [models[0]] else []) + EnabledOnly(models[1..], enabled)
  }

  /** The rest of listCatalog, once its load has a snapshot: preferences are read now. */
  function Listed(s: Registry, snapshot: Snapshot, includeDisabled: bool): Snapshot {
    if includeDisabled then snapshot else snapshot.(models := EnabledOnly(snapshot.models, s.enabled))
  }

  // ---------------------------------------------------------------- events and runs

  datatype Event =
    | DoRegister(p: ProviderId)
    | DoConfigure(p: ProviderId, can: bool)
    | DoSetEnabled(p: ProviderId, ids: Option<set<ModelId>>)
    | DoRequest(refresh: bool, now: int)
    | DoRow(k: nat, i: nat, listing: Listing)
    | DoEnd(k: nat, now: int)
    | DoForget(k: nat)

  predicate Possible(s: Registry, e: Event) {
    match e
    case DoRow(k, i, _) => k < |s.loads| && HasRow(s.loads[k], i) && s.loads[k].rows[i].None?
    case DoEnd(k, _) => k < |s.loads| && !s.loads[k].ended && AllIn(s.loads[k])
    case DoForget(k) => k < |s.loads| && s.loads[k].ended && !s.loads[k].forgotten
    case _ => true
  }

  function Step(s: Registry, e: Event): Registry
    requires Possible(s, e)
  {
    match e
    case DoRegister(p) => Register(s, p)
    case DoConfigure(p, can) => Configure(s, p, can)
    case DoSetEnabled(p, ids) => SetEnabledModels(s, p, ids)
    case DoRequest(refresh, now) => Request(s, refresh, now).0
    case DoRow(k, i, listing) => RowEnds(s, k, i, listing)
    case DoEnd(k, now) => LoadEnds(s, k, now)
    case DoForget(k) => LoadForgotten(s, k)
  }

  predicate CanRun(s: Registry, es: seq<Event>)
    decreases |es|
  {
    es == [] || (Possible(s, es[0]) && CanRun(Step(s, es[0]), es[1..]))
  }

  function After(s: Registry, es: seq<Event>): Registry
    requires CanRun(s, es)
    decreases |es|
  {
    if es == [] then s else After(Step(s, es[0]), es[1..])
  }

  ghost predicate Reachable(s: Registry) {
    exists es :: CanRun(Init(), es) && After(Init(), es) == s
  }

  // ---------------------------------------------------------------- invariant

  /** The last complete listing of a provider, which is what its last good list should be. */
  function LastComplete(answers: seq<Answer>, p: ProviderId): Option<seq<Model>> {
    if answers == [] then None
    else
      var last := answers[|answers| - 1];
      if last.provider == p && last.listing.Complete? then Some(last.listing.models)
      else LastComplete(answers[..|answers| - 1], p)
  }

  /** A row as its provider's answer asks for: a failed listing shows what was last known, as stale if there is any. */
  predicate Shows(row: Row, a: Answer) {
    && row.status.provider == a.provider && row.status.modelCount == |row.models|
    && (row.isFresh <==> a.listing.Complete?)
    && match a.listing
       case Complete(models) => row.models == models && row.status.health.Ready? && !row.status.stale
       case Partial(models, stale) => row.models == models && row.status.health.Degraded? && row.status.stale == stale
       case Failed =>
         && row.models == (if a.known.Some? then a.known.value else [])
         && row.status.health.Broken? && (row.status.stale <==> row.models != [])
  }

  ghost predicate LoadShows(load: Load) {
    && |load.rows| == |load.answers| == |load.providers|
    && forall i :: 0 <= i < |load.rows| && load.rows[i].Some? ==>
         && load.answers[i].Some? && load.answers[i].value.provider == load.providers[i]
         && Shows(load.rows[i].value, load.answers[i].value)
  }

  ghost predicate AllShow(loads: seq<Load>) {
    forall k :: 0 <= k < |loads| ==> LoadShows(loads[k])
  }

  ghost predicate CacheCurrent(s: Registry) {
    s.catalog.Some? ==>
      var c := s.catalog.value;
      && c.load < |s.loads| && s.loads[c.load].generation == s.generation && s.loads[c.load].ended
      && AllIn(s.loads[c.load]) && c.snapshot == SnapshotOf(s.loads[c.load])
  }

  /** Every load under way for the current generation is the one callers join; loads of one generation never overlap. */
  ghost predicate OneLoad(s: Registry) {
    && (s.inFlight.Some? ==>
          && s.inFlight.value.load < |s.loads| && !s.loads[s.inFlight.value.load].forgotten
          && s.loads[s.inFlight.value.load].generation == s.inFlight.value.generation)
    && (forall k :: 0 <= k < |s.loads| ==> s.loads[k].generation <= s.generation)
    && (forall k :: 0 <= k < |s.loads| && !s.loads[k].forgotten && s.loads[k].generation == s.generation ==>
          s.inFlight == Some(InFlight(s.generation, k)))
    && (forall a, b :: 0 <= a < b < |s.loads| && s.loads[a].generation == s.loads[b].generation ==>
          s.loads[a].forgotten)
  }

  ghost predicate LastGoodExact(lastGood: map<ProviderId, seq<Model>>, committed: seq<Answer>) {
    forall p :: Known(lastGood, p) == LastComplete(committed, p)
  }

  ghost predicate Inv(s: Registry) {
    CacheCurrent(s) && OneLoad(s) && LastGoodExact(s.lastGood, s.committed) && AllShow(s.loads)
  }

  lemma {:induction false} RememberExact(
    lastGood: map<ProviderId, seq<Model>>, committed: seq<Answer>, rows: seq<Row>, answers: seq<Answer>)
    requires LastGoodExact(lastGood, committed) && |rows| == |answers|
    requires forall i :: 0 <= i < |rows| ==> Shows(rows[i], answers[i])
    ensures LastGoodExact(Remember(lastGood, rows), committed + answers)
  {
    if rows == [] {
      assert committed + answers == committed;
    } else {
      var n := |rows| - 1;
      RememberExact(lastGood, committed, rows[..n], answers[..n]);
      assert (committed + answers)[..|committed| + n] == committed + answers[..n];
      assert Shows(rows[n], answers[n]);
    }
  }

  lemma SameRows(a: Load, b: Load)
    requires a.rows == b.rows && a.answers == b.answers && AllIn(a)
    ensures AllIn(b) && SnapshotOf(b) == SnapshotOf(a)
  {
    assert Rows(b) == Rows(a);
  }

  lemma EndCache(s: Registry, k: nat, now: int)
    requires CacheCurrent(s) && Possible(s, DoEnd(k, now))
    ensures CacheCurrent(LoadEnds(s, k, now))
  {
    var load := s.loads[k];
    SameRows(load, load.(ended := true));
  }

  lemma EndKeeps(s: Registry, k: nat, now: int)
    requires Inv(s) && Possible(s, DoEnd(k, now))
    ensures Inv(LoadEnds(s, k, now))
  {
    EndCache(s, k, now);
    assert LoadShows(s.loads[k]);
    RememberExact(s.lastGood, s.committed, Rows(s.loads[k]), Answers(s.loads[k]));
  }

  lemma RequestKeeps(s: Registry, refresh: bool, now: int)
    requires Inv(s)
    ensures Inv(Request(s, refresh, now).0)
  {
  }

  lemma RowKeeps(s: Registry, k: nat, i: nat, listing: Listing)
    requires Inv(s) && Possible(s, DoRow(k, i, listing))
    ensures Inv(RowEnds(s, k, i, listing))
  {
    var load := RowEnds(s, k, i, listing).loads[k];
    assert LoadShows(s.loads[k]);
    assert LoadShows(load);
    assert s.catalog.Some? ==> s.catalog.value.load != k;
  }

  lemma StepKeeps(s: Registry, e: Event)
    requires Inv(s) && Possible(s, e)
    ensures Inv(Step(s, e))
  {
    match e
    case DoEnd(k, now) => EndKeeps(s, k, now);
    case DoRequest(refresh, now) => RequestKeeps(s, refresh, now);
    case DoRow(k, i, listing) => RowKeeps(s, k, i, listing);
    case _ =>
  }

  lemma {:induction false} RunKeeps(s: Registry, es: seq<Event>)
    requires Inv(s) && CanRun(s, es)
    ensures Inv(After(s, es))
    decreases |es|
  {
    if es != [] {
      StepKeeps(s, es[0]);
      RunKeeps(Step(s, es[0]), es[1..]);
    }
  }

  lemma ReachableInv(s: Registry)
    requires Reachable(s)
    ensures Inv(s)
  {
    var es :| CanRun(Init(), es) && After(Init(), es) == s;
    RunKeeps(Init(), es);
  }

  // ---------------------------------------------------------------- what holds in every run

  /** The cached snapshot is that of an ended load of the current generation. */
  lemma CacheIsCurrent(s: Registry)
    requires Reachable(s) && s.catalog.Some?
    ensures var c := s.catalog.value;
      && c.load < |s.loads| && s.loads[c.load].generation == s.generation && s.loads[c.load].ended
      && AllIn(s.loads[c.load]) && c.snapshot == SnapshotOf(s.loads[c.load])
  {
    ReachableInv(s);
  }

  /** Whoever asks is answered from a load of the generation current when asking. */
  lemma AnsweredFromCurrent(s: Registry, refresh: bool, now: int)
    requires Reachable(s)
    ensures var (s', k) := Request(s, refresh, now);
      k < |s'.loads| && s'.loads[k].generation == s.generation == s'.generation
  {
    ReachableInv(s);
  }

  /** At most one load per generation is under way. */
  lemma OneLoadPerGeneration(s: Registry, a: nat, b: nat)
    requires Reachable(s) && a < |s.loads| && b < |s.loads| && s.loads[a].generation == s.loads[b].generation
    requires !s.loads[a].forgotten && !s.loads[b].forgotten
    ensures a == b
  {
    ReachableInv(s);
  }

  /** In every run a provider's last good list is what it last listed completely, in a load current when it ended. */
  lemma LastGoodIsLastComplete(s: Registry, p: ProviderId)
    requires Reachable(s)
    ensures Known(s.lastGood, p) == LastComplete(s.committed, p)
  {
    ReachableInv(s);
  }

  /** The answer at i is a complete listing of the provider, and the last one. */
  ghost predicate IsLastComplete(answers: seq<Answer>, i: nat, p: ProviderId)
    requires i < |answers|
  {
    && answers[i].provider == p && answers[i].listing.Complete?
    && forall j :: i < j < |answers| && answers[j].provider == p ==> !answers[j].listing.Complete?
  }

  lemma {:induction false} LastCompleteIs(answers: seq<Answer>, i: nat, p: ProviderId)
    requires i < |answers| && IsLastComplete(answers, i, p)
    ensures LastComplete(answers, p) == Some(answers[i].listing.models)
    decreases |answers|
  {
    var n := |answers| - 1;
    if i < n {
      assert answers[..n][i] == answers[i];
      LastCompleteIs(answers[..n], i, p);
    }
  }

  /** Every row shows what its provider answered. */
  lemma RowShowsAnswer(s: Registry, k: nat, i: nat)
    requires Reachable(s) && k < |s.loads| && i < |s.loads[k].rows| && s.loads[k].rows[i].Some?
    ensures var load := s.loads[k];
      && i < |load.providers| && i < |load.answers| && load.answers[i].Some?
      && load.answers[i].value.provider == load.providers[i]
      && Shows(load.rows[i].value, load.answers[i].value)
  {
    ReachableInv(s);
    assert LoadShows(s.loads[k]);
  }

  /** A failed listing shows the provider's last complete one of that moment, and is stale exactly if it has models. */
  lemma FailureShowsLastGood(s: Registry, k: nat, i: nat)
    requires Reachable(s) && Possible(s, DoRow(k, i, Failed))
    ensures var row := RowEnds(s, k, i, Failed).loads[k].rows[i];
      var last := LastComplete(s.committed, s.loads[k].providers[i]);
      && row.Some? && row.value.models == (if last.Some? then last.value else [])
      && (row.value.status.stale <==> last.Some? && last.value != [])
  {
    LastGoodIsLastComplete(s, s.loads[k].providers[i]);
  }

  /** An overtaken load changes neither cache nor last good lists nor what is in flight. */
  lemma OvertakenChangesNothing(s: Registry, k: nat, now: int)
    requires Possible(s, DoEnd(k, now)) && s.loads[k].generation != s.generation
    ensures var s' := LoadEnds(s, k, now);
      s'.catalog == s.catalog && s'.lastGood == s.lastGood && s'.inFlight == s.inFlight && s'.committed == s.committed
  {
  }

  /** And no load changes the last good list of a provider that did not list completely in it. */
  lemma IncompleteChangesNothing(s: Registry, k: nat, now: int, p: ProviderId)
    requires Reachable(s) && Possible(s, DoEnd(k, now))
    requires forall a :: a in Answers(s.loads[k]) && a.provider == p ==> !a.listing.Complete?
    ensures Known(LoadEnds(s, k, now).lastGood, p) == Known(s.lastGood, p)
  {
    ReachableInv(s);
    var rows, answers := Rows(s.loads[k]), Answers(s.loads[k]);
    assert LoadShows(s.loads[k]);
    forall row | row in rows && row.isFresh ensures row.status.provider != p {
      var i :| 0 <= i < |rows| && rows[i] == row;
      assert Shows(row, answers[i]) && answers[i] in answers;
    }
    RememberOnlyFresh(s.lastGood, rows, p);
  }

  /**
    A request is answered from the cache exactly while it is unexpired and no refresh is asked for; else from the load
    of this generation under way, if there is one; else from a new one over the providers registered now.
   */
  lemma RequestExactly(s: Registry, refresh: bool, now: int)
    requires Reachable(s)
    ensures var (s', k) := Request(s, refresh, now);
      if !refresh && s.catalog.Some? && now < s.catalog.value.expiresAt then s' == s && k == s.catalog.value.load
      else if exists j :: 0 <= j < |s.loads| && UnderWay(s, j) then s' == s && k < |s.loads| && UnderWay(s, k)
      else
        && k == |s.loads| && |s'.loads| == k + 1 && s'.loads[..k] == s.loads && UnderWay(s', k)
        && s'.loads[k].providers == s.providers && |s'.loads[k].rows| == |s.providers|
        && forall i :: 0 <= i < |s.providers| ==> s'.loads[k].rows[i].None?
  {
    ReachableInv(s);
    if s.inFlight.Some? && s.inFlight.value.generation == s.generation {
      assert UnderWay(s, s.inFlight.value.load);
    }
  }

  predicate UnderWay(s: Registry, k: nat)
    requires k < |s.loads|
  {
    s.loads[k].generation == s.generation && !s.loads[k].forgotten
  }

  /** Registering or configuring a provider overtakes every load and drops the cache; a refusal changes nothing. */
  lemma ChangeOvertakesAll(s: Registry, p: ProviderId, k: nat)
    requires Reachable(s) && k < |s.loads|
    ensures var s' := Register(s, p);
      && p in s'.providers && s.providers <= s'.providers
      && |s'.providers| == |s.providers| + (if p in s.providers then 0 else 1)
      && s'.catalog.None? && s'.loads == s.loads && !UnderWay(s', k)
    ensures p in s.providers ==> var s' := Configure(s, p, true);
      s'.catalog.None? && s'.loads == s.loads && !UnderWay(s', k)
    ensures Configure(s, p, false) == s && (p !in s.providers ==> Configure(s, p, true) == s)
  {
    ReachableInv(s);
  }

  /** A load that ends while current answers every request of the next 30 seconds that does not ask for a refresh. */
  lemma EndedLoadIsCached(s: Registry, k: nat, now: int, later: int)
    requires Possible(s, DoEnd(k, now)) && s.loads[k].generation == s.generation
    ensures var s' := LoadEnds(s, k, now);
      && s'.catalog.Some? && s'.catalog.value.load == k && s'.catalog.value.expiresAt == now + 30000
      && (later < now + 30000 ==> Request(s', false, later) == (s', k))
  {
  }

  /** A snapshot has one status for each provider of its load, in order, and just the models its rows show. */
  lemma SnapshotExactly(s: Registry, k: nat, m: Model)
    requires Reachable(s) && k < |s.loads| && AllIn(s.loads[k])
    ensures var load := s.loads[k]; var snapshot := SnapshotOf(load);
      && |snapshot.providers| == |load.providers| == |load.rows|
      && (forall i :: 0 <= i < |load.rows| ==>
            snapshot.providers[i] == load.rows[i].value.status && snapshot.providers[i].provider == load.providers[i])
      && (m in snapshot.models <==> exists i :: 0 <= i < |load.rows| && m in load.rows[i].value.models)
  {
    ReachableInv(s);
    var load := s.loads[k];
    assert LoadShows(load);
    AllModelsHas(Rows(load), m);
    assert forall i :: 0 <= i < |load.rows| ==> Rows(load)[i] == load.rows[i].value;
  }

  lemma {:induction false} AllModelsHas(rows: seq<Row>, m: Model)
    ensures m in AllModels(rows) <==> exists i :: 0 <= i < |rows| && m in rows[i].models
  {
    if rows != [] {
      AllModelsHas(rows[1..], m);
      HeadAndTail(rows);
      if m in AllModels(rows[1..]) {
        var i :| 0 <= i < |rows[1..]| && m in rows[1..][i].models;
        assert m in rows[i + 1].models;
      }
    }
  }

  /** The snapshot's models are the rows' models, row after row. */
  lemma {:induction false} ModelsInOrder(a: seq<Row>, b: seq<Row>, row: Row)
    ensures AllModels(a + b) == AllModels(a) + AllModels(b) && AllModels([row]) == row.models
  {
    assert [row][1..] == [] && row.models + [] == row.models;
    if a == [] {
      EmptyIsUnit(b);
      EmptyIsUnit(AllModels(b));
    } else {
      TailOfConcat(a, b);
      ModelsInOrder(a[1..], b, row);
      Assoc(a[0].models, AllModels(a[1..]), AllModels(b));
    }
  }

  /** And filtering keeps their order. */
  lemma {:induction false} FilterInOrder(a: seq<Model>, b: seq<Model>, enabled: map<ProviderId, set<ModelId>>)
    ensures EnabledOnly(a + b, enabled) == EnabledOnly(a, enabled) + EnabledOnly(b, enabled)
  {
    if a == [] {
      EmptyIsUnit(b);
      EmptyIsUnit(EnabledOnly(b, enabled));
    } else {
      TailOfConcat(a, b);
      FilterInOrder(a[1..], b, enabled);
      var kept := if IsEnabled(enabled, a[0]) then [a[0]] else [];
      Assoc(kept, EnabledOnly(a[1..], enabled), EnabledOnly(b, enabled));
    }
  }

  lemma {:induction false} RememberOnlyFresh(lastGood: map<ProviderId, seq<Model>>, rows: seq<Row>, p: ProviderId)
    requires forall row :: row in rows && row.isFresh ==> row.status.provider != p
    ensures p in Remember(lastGood, rows) <==> p in lastGood
    ensures p in lastGood ==> Remember(lastGood, rows)[p] == lastGood[p]
  {
    if rows != [] {
      var n := |rows| - 1;
      RememberOnlyFresh(lastGood, rows[..n], p);
      assert rows[n] in rows;
    }
  }

  /** A preference holds for its provider's models from then on, and touches nothing else. */
  lemma PreferenceExactly(s: Registry, p: ProviderId, ids: Option<set<ModelId>>, m: Model)
    ensures var s' := SetEnabledModels(s, p, ids);
      && s' == s.(enabled := s'.enabled)
      && (IsEnabled(s'.enabled, m) <==>
            if m.provider != p then IsEnabled(s.enabled, m) else ids.None? || m.id in ids.value)
  {
  }

  /** A listing shows exactly the snapshot's models enabled at the moment it returns. */
  lemma ShownExactly(models: seq<Model>, enabled: map<ProviderId, set<ModelId>>, m: Model)
    ensures m in EnabledOnly(models, enabled) <==> m in models && IsEnabled(enabled, m)
  {
    EnabledOnlyExactly(models, enabled, m);
    assert m in EnabledOnly(models, enabled) <==> multiset(EnabledOnly(models, enabled))[m] > 0;
    assert m in models <==> multiset(models)[m] > 0;
  }

  /** Asked for disabled models too, it shows the snapshot as it is; its statuses it shows in any case. */
  lemma ListedExactly(s: Registry, snapshot: Snapshot, m: Model)
    ensures Listed(s, snapshot, true) == snapshot
    ensures Listed(s, snapshot, false).providers == snapshot.providers
    ensures m in Listed(s, snapshot, false).models <==> m in snapshot.models && IsEnabled(s.enabled, m)
  {
    ShownExactly(snapshot.models, s.enabled, m);
  }

  /** Each as often as the snapshot does. */
  lemma {:induction false} EnabledOnlyExactly(models: seq<Model>, enabled: map<ProviderId, set<ModelId>>, m: Model)
    ensures multiset(EnabledOnly(models, enabled))[m] == if IsEnabled(enabled, m) then multiset(models)[m] else 0
  {
    if models != [] {
      var rest := models[1..];
      var kept := if IsEnabled(enabled, models[0]) then [models[0]] else [];
      EnabledOnlyExactly(rest, enabled, m);
      HeadAndTail(models);
      MultisetOfConcat([models[0]], rest);
      MultisetOfConcat(kept, EnabledOnly(rest, enabled));
    }
  }

  // ---------------------------------------------------------------- the registry itself

  class ModelRegistry {
    var providers: seq<ProviderId>
    var catalogGeneration: nat
    var catalog: Option<Cached>
    var catalogInFlight: Option<InFlight>
    var loads: seq<Load>
    var lastGoodModels: map<ProviderId, seq<Model>>
    var enabledModels: map<ProviderId, set<ModelId>>
    ghost var committed: seq<Answer>

    ghost function State(): Registry
      reads this
    {
      Registry(providers, catalogGeneration, catalog, catalogInFlight, loads, lastGoodModels, enabledModels, committed)
    }

    constructor ()
      ensures State() == Init()
    {
      providers, catalogGeneration, catalog, catalogInFlight := [], 0, None, None;
      loads, lastGoodModels, enabledModels, committed := [], map[], map[], [];
    }

    method RegisterProvider(p: ProviderId)
      modifies this`providers, this`catalog, this`catalogGeneration
      ensures State() == Register(old(State()), p)
    {
      if p !in providers {
        providers := providers + [p];
      }
      catalog := None;
      catalogGeneration := catalogGeneration + 1;
    }

    method ConfigureProvider(p: ProviderId, can: bool) returns (ok: bool)
      modifies this`catalog, this`catalogGeneration
      ensures State() == Configure(old(State()), p, can) && ok == (p in providers && can)
    {
      if p !in providers || !can {
        return false;
      }
      catalog := None;
      catalogGeneration := catalogGeneration + 1;
      return true;
    }

    method SetEnabled(p: ProviderId, ids: Option<set<ModelId>>)
      modifies this`enabledModels
      ensures State() == SetEnabledModels(old(State()), p, ids)
    {
      if ids.None? {
        enabledModels := enabledModels - {p};
      } else {
        enabledModels := enabledModels[p := ids.value];
      }
    }

    method LoadCatalog(refresh: bool, now: int) returns (load: nat)
      modifies this`loads, this`catalogInFlight
      ensures (State(), load) == Request(old(State()), refresh, now)
    {
      if !refresh && catalog.Some? && catalog.value.expiresAt > now {
        return catalog.value.load;
      }
      if catalogInFlight.Some? && catalogInFlight.value.generation == catalogGeneration {
        return catalogInFlight.value.load;
      }
      load := |loads|;
      loads := loads + [NewLoad(catalogGeneration, providers)];
      catalogInFlight := Some(InFlight(catalogGeneration, load));
    }

    /** One provider's listing has come in or thrown: its row is made, with the last good models if it threw. */
    method OnListing(k: nat, i: nat, listing: Listing)
      requires k < |loads| && HasRow(loads[k], i)
      modifies this`loads
      ensures State() == RowEnds(old(State()), k, i, listing)
    {
      var p := loads[k].providers[i];
      var row: Row;
      match listing {
        case Complete(models) => row := Row(models, true, Status(p, Ready, |models|, false));
        case Partial(models, stale) => row := Row(models, false, Status(p, Degraded, |models|, stale));
        case Failed =>
          var models := if p in lastGoodModels then lastGoodModels[p] else [];
          row := Row(models, false, Status(p, Broken, |models|, |models| > 0));
      }
      var answer := Answer(p, listing, Known(lastGoodModels, p));
      var load := loads[k];
      loads := loads[k := load.(rows := load.rows[i := Some(row)], answers := load.answers[i := Some(answer)])];
    }

    /** Promise.all's continuation: the last good lists are updated row by row. */
    method OnLoaded(k: nat, now: int)
      requires k < |loads| && AllIn(loads[k])
      modifies this`loads, this`lastGoodModels, this`catalog, this`committed
      ensures State() == LoadEnds(old(State()), k, now)
    {
      var load := loads[k];
      var rows := Rows(load);
      var snapshot := SnapshotOf(load);
      loads := loads[k := load.(ended := true)];
      if catalogGeneration == load.generation {
        ghost var before := lastGoodModels;
        for i := 0 to |rows|
          invariant lastGoodModels == Remember(before, rows[..i])
          modifies this`lastGoodModels
        {
          assert rows[..i + 1][..i] == rows[..i];
          if rows[i].isFresh {
            lastGoodModels := lastGoodModels[rows[i].status.provider := rows[i].models];
          }
        }
        assert rows[..|rows|] == rows;
        catalog := Some(Cached(k, snapshot, now + CATALOG_TTL_MS));
        committed := committed + Answers(load);
      }
    }

    method OnForgotten(k: nat)
      requires k < |loads|
      modifies this`loads, this`catalogInFlight
      ensures State() == LoadForgotten(old(State()), k)
    {
      loads := loads[k := loads[k].(forgotten := true)];
      if catalogInFlight.Some? && catalogInFlight.value.load == k {
        catalogInFlight := None;
      }
    }

    /** listCatalog's filter, over preferences as they are now. */
    method Filter(snapshot: Snapshot, includeDisabled: bool) returns (shown: Snapshot)
      ensures shown == Listed(State(), snapshot, includeDisabled)
    {
      shown := if includeDisabled then snapshot else snapshot.(models := EnabledOnly(snapshot.models, enabledModels));
    }
  }
}
