/** The generation-guarded request cache: the object, and every interleaving of context changes,
    invalidations, requests, loads and settlements around it. */
module RequestCache {
  import opened Wrappers

  type Key = string
  type RunId = nat

  datatype Cache = Cache(contextKey: Option<Key>, generation: nat, checkedAt: Option<int>, pending: Option<RunId>)

  const EMPTY: Cache := Cache(None, 0, None, None)

  function Invalidated(cache: Cache): Cache {
    cache.(generation := cache.generation + 1, checkedAt := None, pending := None)
  }

  /** Notices a change of context; any change invalidates. */
  function Synced(cache: Cache, key: Key): Cache {
    if cache.contextKey == Some(key) then cache else Invalidated(cache.(contextKey := Some(key)))
  }

  datatype Outcome = Joined(run: RunId) | StillFresh | Started(generation: nat)

  function Requested(cache: Cache, key: Key, now: int, force: bool, intervalMs: int, newRun: RunId): (Cache, Outcome) {
    var synced := Synced(cache, key);
    if synced.pending.Some? then (synced, Joined(synced.pending.value))
    else if !force && synced.checkedAt.Some? && now - synced.checkedAt.value < intervalMs then (synced, StillFresh)
    else (synced.(pending := Some(newRun)), Started(synced.generation))
  }

  function Settled(cache: Cache, key: Key, generation: nat, now: int): Cache {
    var synced := Synced(cache, key);
    if synced.generation == generation then synced.(checkedAt := Some(now), pending := None) else synced
  }

  /** The object. Each method is one synchronous stretch of the original between two awaits. */
  class ContextRequestCache {
    const intervalMs: int
    var contextKey: Option<Key>
    var generation: nat
    var checkedAt: Option<int>
    var pending: Option<RunId>
    var invalidations: nat

    ghost function State(): Cache
      reads this
    {
      Cache(contextKey, generation, checkedAt, pending)
    }

    constructor (intervalMs: int)
      ensures State() == EMPTY && this.intervalMs == intervalMs && invalidations == 0
    {
      this.intervalMs := intervalMs;
      contextKey, generation, checkedAt, pending, invalidations := None, 0, None, None, 0;
    }

    method Invalidate()
      modifies this
      ensures State() == Invalidated(old(State())) && invalidations == old(invalidations) + 1
    {
      generation := generation + 1;
      checkedAt := None;
      pending := None;
      invalidations := invalidations + 1;
    }

    method SyncContext(key: Key)
      modifies this
      ensures State() == Synced(old(State()), key)
      ensures invalidations - old(invalidations) == generation - old(generation)
    {
      if contextKey == Some(key) {
        return;
      }
      contextKey := Some(key);
      Invalidate();
    }

    method Request(key: Key, now: int, force: bool, newRun: RunId) returns (outcome: Outcome)
      modifies this
      ensures (State(), outcome) == Requested(old(State()), key, now, force, intervalMs, newRun)
    {
      SyncContext(key);
      if pending.Some? {
        return Joined(pending.value);
      }
      if !force && checkedAt.Some? && now - checkedAt.value < intervalMs {
        return StillFresh;
      }
      pending := Some(newRun);
      return Started(generation);
    }

    /** The guard in front of every callback: notices a context change, then compares generations. */
    method IsCurrent(key: Key, runGeneration: nat) returns (current: bool)
      modifies this
      ensures State() == Synced(old(State()), key)
      ensures current <==> generation == runGeneration
    {
      SyncContext(key);
      current := generation == runGeneration;
    }

    method Settle(key: Key, runGeneration: nat, now: int) returns (settled: bool)
      modifies this
      ensures State() == Settled(old(State()), key, runGeneration, now)
      ensures settled <==> generation == runGeneration
    {
      settled := IsCurrent(key, runGeneration);
      if settled {
        checkedAt := Some(now);
        pending := None;
      }
    }
  }

  // ----------------------------------------------------------------- runs

  datatype Phase = Loading | Succeeded | Handled | Finished

  /** One asynchronous body: the generation it captured and the key its load was started under. */
  datatype Run = Run(generation: nat, loadedUnder: Key, phase: Phase)

  /** A callback made with a run's result, and the context key at that moment. */
  datatype Applied = Applied(run: RunId, loadedUnder: Key, currentKey: Key, success: bool)

  /** A completed settlement. */
  datatype Settlement = Settlement(run: RunId, at: int)

  datatype World = World(cache: Cache, key: Key, now: int, runs: map<RunId, Run>, nextRun: RunId,
                         applied: seq<Applied>, settlements: seq<Settlement>)

  datatype Step =
    | ChangeContext(key: Key)
    | Elapse(ms: nat)
    | Sync
    | Invalidate
    | Request(force: bool)
    | LoadEnds(run: RunId, success: bool)
    | CallbackThrows(run: RunId)
    | Settle(run: RunId)

  function Initial(key: Key, now: int): World {
    World(EMPTY, key, now, map[], 0, [], [])
  }

  /** Delivers a result to the run's success or error callback if the run is still current. */
  function Deliver(w: World, run: RunId, success: bool): World
    requires run in w.runs
  {
    var synced := Synced(w.cache, w.key);
    var current := synced.generation == w.runs[run].generation;
    w.(cache := synced,
       runs := w.runs[run := w.runs[run].(phase := if success then Succeeded else Handled)],
       applied := if current then w.applied + [Applied(run, w.runs[run].loadedUnder, w.key, success)] else w.applied)
  }

  /** One step; a step whose run is not at that point of its body does nothing. */
  function Apply(w: World, step: Step, intervalMs: int): World {
    match step
    case ChangeContext(key) => w.(key := key)
    case Elapse(ms) => w.(now := w.now + ms)
    case Sync => w.(cache := Synced(w.cache, w.key))
    case Invalidate => w.(cache := Invalidated(w.cache))
    case Request(force) =>
      var (cache, outcome) := Requested(w.cache, w.key, w.now, force, intervalMs, w.nextRun);
      if outcome.Started?
      then w.(cache := cache, runs := w.runs[w.nextRun := Run(outcome.generation, w.key, Loading)], nextRun := w.nextRun + 1)
      else w.(cache := cache)
    case LoadEnds(run, success) =>
      if run in w.runs && w.runs[run].phase.Loading? then Deliver(w, run, success) else w
    case CallbackThrows(run) =>
      if run in w.runs && w.runs[run].phase.Succeeded? then Deliver(w, run, false) else w
    case Settle(run) =>
      if run in w.runs && (w.runs[run].phase.Succeeded? || w.runs[run].phase.Handled?) then
        var cache := Settled(w.cache, w.key, w.runs[run].generation, w.now);
        w.(cache := cache, runs := w.runs[run := w.runs[run].(phase := Finished)],
           settlements := if cache.generation == w.runs[run].generation
                          then w.settlements + [Settlement(run, w.now)] else w.settlements)
      else w
  }

  function RunAll(w: World, steps: seq<Step>, intervalMs: int): World
    decreases |steps|
  {
    if steps == [] then w else RunAll(Apply(w, steps[0], intervalMs), steps[1..], intervalMs)
  }

  /** The run was started in the cache's present generation. */
  predicate OfCurrentGeneration(w: World, run: RunId) {
    run in w.runs && w.runs[run].generation == w.cache.generation
  }

  predicate Unfinished(w: World, run: RunId) {
    run in w.runs && !w.runs[run].phase.Finished?
  }

  /** What holds in every reachable world. */
  ghost predicate Inv(w: World) {
    && (forall r: RunId | r in w.runs :: r < w.nextRun && w.runs[r].generation <= w.cache.generation)
    // A run of the current generation was loaded under the key the cache last saw.
    && (forall r: RunId | OfCurrentGeneration(w, r) :: w.cache.contextKey == Some(w.runs[r].loadedUnder))
    // A pending run is an unfinished run of the current generation, and the only one.
    && (w.cache.pending.Some? ==> OfCurrentGeneration(w, w.cache.pending.value) && Unfinished(w, w.cache.pending.value))
    && (forall r: RunId | OfCurrentGeneration(w, r) && Unfinished(w, r) :: w.cache.pending == Some(r))
    // Every result was applied under the key it was loaded under.
    && (forall i | 0 <= i < |w.applied| :: w.applied[i].loadedUnder == w.applied[i].currentKey)
    // A timestamp was set by a finished run of the current generation, at that time.
    && (w.cache.checkedAt.Some? ==>
          && w.settlements != []
          && var last := w.settlements[|w.settlements| - 1];
          && OfCurrentGeneration(w, last.run)
          && !Unfinished(w, last.run)
          && last.at == w.cache.checkedAt.value)
  }

  lemma InvalidatingKeepsInv(w: World, contextKey: Option<Key>)
    requires Inv(w)
    ensures Inv(w.(cache := Invalidated(w.cache.(contextKey := contextKey))))
  {
    var after := w.(cache := Invalidated(w.cache.(contextKey := contextKey)));
    assert forall r: RunId :: !OfCurrentGeneration(after, r);
  }

  lemma SyncingKeepsInv(w: World)
    requires Inv(w)
    ensures Inv(w.(cache := Synced(w.cache, w.key)))
  {
    if w.cache.contextKey == Some(w.key) {
      assert w.(cache := Synced(w.cache, w.key)) == w;
    } else {
      InvalidatingKeepsInv(w, Some(w.key));
    }
  }

  lemma EnvironmentKeepsInv(w: World)
    requires Inv(w)
    ensures forall key: Key :: Inv(w.(key := key))
    ensures forall now: int :: Inv(w.(now := now))
  {
    forall key: Key
      ensures Inv(w.(key := key))
    {
      assert forall r: RunId :: OfCurrentGeneration(w.(key := key), r) <==> OfCurrentGeneration(w, r);
      assert forall r: RunId :: Unfinished(w.(key := key), r) <==> Unfinished(w, r);
    }
    forall now: int
      ensures Inv(w.(now := now))
    {
      assert forall r: RunId :: OfCurrentGeneration(w.(now := now), r) <==> OfCurrentGeneration(w, r);
      assert forall r: RunId :: Unfinished(w.(now := now), r) <==> Unfinished(w, r);
    }
  }

  lemma StepKeepsInv(w: World, step: Step, intervalMs: int)
    requires Inv(w)
    ensures Inv(Apply(w, step, intervalMs))
  {
    hide Inv;
    var synced := w.(cache := Synced(w.cache, w.key));
    SyncingKeepsInv(w);
    EnvironmentKeepsInv(w);
    if step.Invalidate? {
      InvalidatingKeepsInv(w, w.cache.contextKey);
    } else if step.Request? {
      RequestKeepsInv(synced, step.force, intervalMs);
      assert Apply(w, step, intervalMs) == Apply(synced, step, intervalMs);
    } else if step.LoadEnds? {
      if step.run in w.runs && w.runs[step.run].phase.Loading? {
        DeliveryKeepsInv(synced, step.run, step.success);
        assert Deliver(w, step.run, step.success) == Deliver(synced, step.run, step.success);
      }
    } else if step.CallbackThrows? {
      if step.run in w.runs && w.runs[step.run].phase.Succeeded? {
        DeliveryKeepsInv(synced, step.run, false);
        assert Deliver(w, step.run, false) == Deliver(synced, step.run, false);
      }
    } else if step.Settle? {
      SettlementKeepsInv(synced, step, intervalMs);
      assert Apply(w, step, intervalMs) == Apply(synced, step, intervalMs) || Apply(w, step, intervalMs) == w;
    }
  }

  lemma RequestKeepsInv(w: World, force: bool, intervalMs: int)
    requires Inv(w) && w.cache == Synced(w.cache, w.key)
    ensures Inv(Apply(w, Request(force), intervalMs))
  {
    var after := Apply(w, Request(force), intervalMs);
    forall r: RunId | OfCurrentGeneration(after, r)
      ensures OfCurrentGeneration(w, r) || r == w.nextRun
    {}
    assert forall r: RunId | Unfinished(after, r) :: Unfinished(w, r) || r == w.nextRun;
  }

  lemma DeliveryKeepsInv(w: World, run: RunId, success: bool)
    requires Inv(w) && w.cache == Synced(w.cache, w.key)
    requires run in w.runs && !w.runs[run].phase.Finished?
    ensures Inv(Deliver(w, run, success))
  {
    var after := Deliver(w, run, success);
    assert forall r: RunId :: OfCurrentGeneration(after, r) <==> OfCurrentGeneration(w, r);
    assert forall r: RunId :: Unfinished(after, r) <==> Unfinished(w, r);
  }

  lemma SettlementKeepsInv(w: World, step: Step, intervalMs: int)
    requires Inv(w) && w.cache == Synced(w.cache, w.key) && step.Settle?
    ensures Inv(Apply(w, step, intervalMs))
  {
    var after := Apply(w, step, intervalMs);
    assert forall r: RunId :: OfCurrentGeneration(after, r) <==> OfCurrentGeneration(w, r);
    assert forall r: RunId :: Unfinished(after, r) ==> Unfinished(w, r);
    if after != w && OfCurrentGeneration(w, step.run) {
      assert Unfinished(w, step.run) && !Unfinished(after, step.run);
      assert w.cache.pending == Some(step.run);
    }
  }

  lemma {:induction false} RunsKeepInv(w: World, steps: seq<Step>, intervalMs: int)
    requires Inv(w)
    ensures Inv(RunAll(w, steps, intervalMs))
    decreases |steps|
  {
    if steps != [] {
      StepKeepsInv(w, steps[0], intervalMs);
      RunsKeepInv(Apply(w, steps[0], intervalMs), steps[1..], intervalMs);
    }
  }

  /** Freshness: whatever the interleaving, no result is ever applied under a context other than
      the one its load was started under. */
  lemma OnlyFreshResultsAreApplied(key: Key, now: int, steps: seq<Step>, intervalMs: int, i: nat)
    ensures var w := RunAll(Initial(key, now), steps, intervalMs);
            i < |w.applied| ==> w.applied[i].loadedUnder == w.applied[i].currentKey
  {
    RunsKeepInv(Initial(key, now), steps, intervalMs);
  }

  /** A request is in flight exactly while some run of the current generation is unfinished, and
      there is never more than one such run. */
  lemma PendingIsTheCurrentRun(key: Key, now: int, steps: seq<Step>, intervalMs: int, r: RunId)
    ensures var w := RunAll(Initial(key, now), steps, intervalMs);
            w.cache.pending == Some(r) <==> OfCurrentGeneration(w, r) && Unfinished(w, r)
  {
    RunsKeepInv(Initial(key, now), steps, intervalMs);
  }

  /** A superseded run changes nothing but what noticing the present context changes: it neither
      clears nor timestamps a newer run, and it makes no callback. A current run does both. */
  lemma SupersededRunsAreHarmless(key: Key, now: int, steps: seq<Step>, intervalMs: int, step: Step)
    requires step.LoadEnds? || step.CallbackThrows? || step.Settle?
    ensures var w := RunAll(Initial(key, now), steps, intervalMs);
            var after := Apply(w, step, intervalMs);
            && (Unfinished(w, step.run) && after != w ==>
                  ((after.applied != w.applied || after.settlements != w.settlements)
                   <==> w.cache.pending == Some(step.run) && w.cache.contextKey == Some(w.key)))
            && (w.cache.pending != Some(step.run) ==>
                  && after.cache in {w.cache, Synced(w.cache, w.key)}
                  && after.applied == w.applied && after.settlements == w.settlements)
  {
    var w := RunAll(Initial(key, now), steps, intervalMs);
    RunsKeepInv(Initial(key, now), steps, intervalMs);
    var after := Apply(w, step, intervalMs);
    assert |after.applied| > |w.applied| || after.applied == w.applied;
    assert |after.settlements| > |w.settlements| || after.settlements == w.settlements;
  }

  /** An unforced request in the same context, with nothing pending and a check within the interval,
      starts no run; every other request joins the pending run or starts one. */
  lemma RecentChecksSuffice(cache: Cache, key: Key, now: int, force: bool, intervalMs: int, newRun: RunId)
    ensures var (after, outcome) := Requested(cache, key, now, force, intervalMs, newRun);
            var known := cache.contextKey == Some(key);
            && (outcome.StillFresh? <==>
                  known && cache.pending.None? && !force && cache.checkedAt.Some? && now - cache.checkedAt.value < intervalMs)
            && (outcome.Joined? <==> known && cache.pending.Some?)
            && (outcome.Joined? ==> cache.pending == Some(outcome.run))
            && (outcome.Started? ==> after.pending == Some(newRun) && outcome.generation == after.generation)
            && (!outcome.Started? ==> after == cache)
  {
  }

  /** A run that settles in its own generation lets unforced requests do without loading for the
      interval that follows, and no longer; a superseded one changes nothing but notices the context. */
  lemma SettlingStartsTheInterval(cache: Cache, key: Key, generation: nat, now: int, later: int, intervalMs: int, newRun: RunId)
    ensures var after := Settled(cache, key, generation, now);
            var current := cache.contextKey == Some(key) && cache.generation == generation;
            && (current ==>
                  (Requested(after, key, later, false, intervalMs, newRun).1.StillFresh? <==> later - now < intervalMs))
            && (cache.contextKey == Some(key) && cache.generation != generation ==> after == cache)
            && (cache.contextKey != Some(key) && cache.generation >= generation ==>
                  after.pending.None? && after.checkedAt.None? && after.contextKey == Some(key) && after.generation > generation)
  {
  }

  // -------------------------------------------------------- what a run reports

  /** A run reports success before it reports failure, each at most once, and settles at most once, at
      its end. */
  ghost predicate ReportRules(w: World) {
    && (forall r | r in w.runs :: r < w.nextRun)
    && (forall i, j | 0 <= i < j < |w.applied| && w.applied[i].run == w.applied[j].run ::
          w.applied[i].success && !w.applied[j].success)
    && (forall i | 0 <= i < |w.applied| :: w.applied[i].run in w.runs && !w.runs[w.applied[i].run].phase.Loading?)
    && (forall i | 0 <= i < |w.applied| :: w.runs[w.applied[i].run].phase.Succeeded? ==> w.applied[i].success)
    && (forall i, j | 0 <= i < j < |w.settlements| :: w.settlements[i].run != w.settlements[j].run)
    && (forall i | 0 <= i < |w.settlements| ::
          && w.settlements[i].run in w.runs && w.runs[w.settlements[i].run].phase.Finished?
          && w.settlements[i].at <= w.now)
  }

  lemma StepKeepsReports(w: World, step: Step, intervalMs: int)
    requires ReportRules(w)
    ensures ReportRules(Apply(w, step, intervalMs))
  {
    hide Synced, Invalidated, Requested, Settled;
  }

  lemma {:induction false} RunsKeepReports(w: World, steps: seq<Step>, intervalMs: int)
    requires ReportRules(w)
    ensures ReportRules(RunAll(w, steps, intervalMs))
    decreases |steps|
  {
    hide ReportRules, Apply;
    if steps != [] {
      StepKeepsReports(w, steps[0], intervalMs);
      RunsKeepReports(Apply(w, steps[0], intervalMs), steps[1..], intervalMs);
    }
  }

  /** Whatever the interleaving, a run makes its success callback at most once, its error callback at
      most once and only after that, and settles at most once, when it has ended. */
  lemma EachRunReportsOnce(key: Key, now: int, steps: seq<Step>, intervalMs: int)
    ensures var w := RunAll(Initial(key, now), steps, intervalMs);
            && (forall i, j | 0 <= i < j < |w.applied| && w.applied[i].run == w.applied[j].run ::
                  w.applied[i].success && !w.applied[j].success)
            && (forall i, j | 0 <= i < j < |w.settlements| :: w.settlements[i].run != w.settlements[j].run)
            && (forall i | 0 <= i < |w.settlements| ::
                  w.settlements[i].run in w.runs && w.runs[w.settlements[i].run].phase.Finished?)
  {
    RunsKeepReports(Initial(key, now), steps, intervalMs);
  }

  /** The pending run settles as soon as its load has ended, whether or not that went well: it is no
      longer pending, and the check counts from then on if the context is still its own. */
  lemma EndedRunsSettle(key: Key, now: int, steps: seq<Step>, intervalMs: int, r: RunId)
    ensures var w := RunAll(Initial(key, now), steps, intervalMs);
            var after := Apply(w, Settle(r), intervalMs);
            w.cache.pending == Some(r) ==>
              && r in w.runs && !w.runs[r].phase.Finished?
              && (!w.runs[r].phase.Loading? ==>
                    && after.cache.pending.None? && after.runs[r].phase.Finished?
                    && after.cache.checkedAt == (if w.cache.contextKey == Some(w.key) then Some(w.now) else None))
  {
    RunsKeepInv(Initial(key, now), steps, intervalMs);
  }

  /** A request answered from the cache really has a recent settlement under the present key. */
  lemma FreshAnswersAreRecent(key: Key, now: int, steps: seq<Step>, intervalMs: int, force: bool)
    ensures var w := RunAll(Initial(key, now), steps, intervalMs);
            Requested(w.cache, w.key, w.now, force, intervalMs, w.nextRun).1.StillFresh? ==>
              && !force
              && w.settlements != []
              && var last := w.settlements[|w.settlements| - 1];
              && 0 <= w.now - last.at < intervalMs
              && last.run in w.runs && w.runs[last.run].loadedUnder == w.key
  {
    RunsKeepReports(Initial(key, now), steps, intervalMs);
    RunsKeepInv(Initial(key, now), steps, intervalMs);
  }
}
