/**
 The model chain-walk of an agent step: plan a sub-chain from the breaker's
 memory, then try its models in order under one shared wall-clock budget, each
 with the reasoning effort of its own hop.
 */
module ChainWalk {
  import opened Options
  import opened Breaker

  datatype Effort = Effort(level: string)

  /** One element of a resolved chain: a model with its paired effort. */
  datatype Hop = Hop(model: Model, effort: Option<Effort>)

  const DEFAULT_MAX_SECONDS: nat := 600
  const MAX_SECONDS_CEILING: nat := 3600
  const DEFAULT_STALL_SECONDS: nat := 120
  const DEFAULT_STEP_BUDGET_SECONDS: nat := 900
  const DEFAULT_TOOL_SETUP_SECONDS: nat := 60
  const MIN_ATTEMPT_SECONDS: nat := 15

  datatype Config = Config(
    maxSeconds: Option<nat>, stallSeconds: Option<nat>, stepBudgetSeconds: Option<nat>, toolSetupSeconds: Option<nat>,
    effort: Option<Effort>, defaultEffort: Option<Effort>)

  function Or<T>(o: Option<T>, d: T): T {
    if o.Some? then o.value else d
  }

  function Min(a: nat, b: nat): nat {
    if a <= b then a else b
  }

  function ConfiguredWall(cfg: Config): nat {
    Min(Or(cfg.maxSeconds, DEFAULT_MAX_SECONDS), MAX_SECONDS_CEILING)
  }

  function StepBudget(cfg: Config): nat {
    Or(cfg.stepBudgetSeconds, DEFAULT_STEP_BUDGET_SECONDS)
  }

  function ToolSetup(cfg: Config): nat {
    Or(cfg.toolSetupSeconds, DEFAULT_TOOL_SETUP_SECONDS)
  }

  /** The (wall, stall) windows of an attempt with `capMs` milliseconds of step budget left. */
  function AttemptWindows(cfg: Config, capMs: nat): (r: (nat, nat))
    ensures r.1 <= r.0 <= ConfiguredWall(cfg) && 1000 * r.0 <= capMs
    ensures r.0 == ConfiguredWall(cfg) || capMs < 1000 * (r.0 + 1)
    ensures r.1 <= Or(cfg.stallSeconds, DEFAULT_STALL_SECONDS)
    ensures r.1 == Or(cfg.stallSeconds, DEFAULT_STALL_SECONDS) || r.1 == r.0
  {
    var wall := Min(ConfiguredWall(cfg), capMs / 1000);
    (wall, Min(Or(cfg.stallSeconds, DEFAULT_STALL_SECONDS), wall))
  }

  /** The configured wall: ten minutes unless said otherwise, and never more than an hour. */
  lemma WallsConfigured(cfg: Config)
    ensures ConfiguredWall(cfg) <= 3600
    ensures cfg.maxSeconds.None? ==> ConfiguredWall(cfg) == 600
    ensures cfg.maxSeconds.Some? && cfg.maxSeconds.value <= 3600 ==> ConfiguredWall(cfg) == cfg.maxSeconds.value
    ensures cfg.stepBudgetSeconds.None? ==> StepBudget(cfg) == 900
    ensures cfg.stepBudgetSeconds.Some? ==> StepBudget(cfg) == cfg.stepBudgetSeconds.value
  {
  }

  function ToolSetupTimeout(cfg: Config, wall: nat): nat {
    Min(ToolSetup(cfg), wall)
  }

  /** The hop's own effort, else the phase's, else the global default. */
  function AppliedEffort(cfg: Config, hop: Option<Effort>): Option<Effort> {
    if hop.Some? then hop else if cfg.effort.Some? then cfg.effort else cfg.defaultEffort
  }

  // ----- pairing efforts with planned attempts -----

  function Models(chain: seq<Hop>): (r: seq<Model>)
    ensures |r| == |chain| && forall i | 0 <= i < |chain| :: r[i] == chain[i].model
  {
    seq(|chain|, i requires 0 <= i < |chain| => chain[i].model)
  }

  /** The efforts of the hops of one model, in order. */
  function EffortsOf(chain: seq<Hop>, m: Model): seq<Option<Effort>> {
    if chain == [] then []
    else if chain[0].model == m then [chain[0].effort] + EffortsOf(chain[1..], m)
    else EffortsOf(chain[1..], m)
  }

  /** The hops of `chain` whose model is not in `asleep`, in order. */
  function KeepHops(chain: seq<Hop>, asleep: set<Model>): seq<Hop> {
    if chain == [] then []
    else if chain[0].model in asleep then KeepHops(chain[1..], asleep)
    else [chain[0]] + KeepHops(chain[1..], asleep)
  }

  lemma ModelsCons(hop: Hop, rest: seq<Hop>)
    ensures Models([hop] + rest) == [hop.model] + Models(rest)
  {
  }

  lemma {:induction false} KeptModels(chain: seq<Hop>, asleep: set<Model>)
    ensures Models(KeepHops(chain, asleep)) == Keep(Models(chain), asleep)
  {
    if chain == [] {
    } else {
      var hop, rest := chain[0], chain[1..];
      KeptModels(rest, asleep);
      assert chain == [hop] + rest;
      ModelsCons(hop, rest);
      assert Models(chain)[0] == hop.model && Models(chain)[1..] == Models(rest);
      ModelsCons(hop, KeepHops(rest, asleep));
    }
  }

  /** Planning removes all hops of a model or none, so it never shifts efforts within a model. */
  lemma {:induction false} KeptEfforts(chain: seq<Hop>, asleep: set<Model>, m: Model)
    requires m !in asleep
    ensures EffortsOf(KeepHops(chain, asleep), m) == EffortsOf(chain, m)
  {
    if chain == [] {
    } else {
      KeptEfforts(chain[1..], asleep, m);
      if chain[0].model !in asleep {
        assert KeepHops(chain, asleep)[1..] == KeepHops(chain[1..], asleep);
      }
    }
  }

  /** The hops a walk may try, with their own efforts: the awake ones in order, or the first one that cooled longest. */
  function Schedule(chain: seq<Hop>, entries: Entries, now: nat): seq<Hop> {
    var kept := KeepHops(chain, Asleep(Models(chain), entries, now, COOLDOWN));
    if kept != [] || chain == [] then kept else [chain[Earliest(Models(chain), entries)]]
  }

  lemma PlanIsSchedule(chain: seq<Hop>, entries: Entries, now: nat)
    ensures Models(Schedule(chain, entries, now)) == Plan(Models(chain), entries, now, COOLDOWN)
  {
    KeptModels(chain, Asleep(Models(chain), entries, now, COOLDOWN));
  }

  /** `hops` are the hops of `chain` at the strictly ascending places `at`. */
  ghost predicate PickedInOrder(chain: seq<Hop>, hops: seq<Hop>, at: seq<nat>) {
    && |at| == |hops|
    && (forall k | 0 <= k < |at| :: at[k] < |chain| && chain[at[k]] == hops[k])
    && (forall i, j | 0 <= i < j < |at| :: at[i] < at[j])
  }

  /** The places of the awake hops. */
  function AwakePlaces(chain: seq<Hop>, asleep: set<Model>): (at: seq<nat>)
    ensures forall i | 0 <= i < |chain| && chain[i].model !in asleep :: i in at
    ensures forall k | 0 <= k < |at| :: at[k] < |chain|
  {
    if chain == [] then []
    else
      var n := |chain| - 1;
      AwakePlaces(chain[..n], asleep) + if chain[n].model in asleep then [] else [n]
  }

  lemma {:induction false} KeepSnoc(chain: seq<Hop>, hop: Hop, asleep: set<Model>)
    ensures KeepHops(chain + [hop], asleep) == KeepHops(chain, asleep) + if hop.model in asleep then [] else [hop]
  {
    if chain == [] {
      assert chain + [hop] == [hop];
    } else {
      KeepSnoc(chain[1..], hop, asleep);
      assert (chain + [hop])[1..] == chain[1..] + [hop];
    }
  }

  lemma PickMore(chain: seq<Hop>, hop: Hop, hops: seq<Hop>, at: seq<nat>)
    requires PickedInOrder(chain, hops, at)
    ensures PickedInOrder(chain + [hop], hops, at) && PickedInOrder(chain + [hop], hops + [hop], at + [|chain|])
  {
    var more := chain + [hop];
    assert more[|chain|] == hop && forall i | 0 <= i < |chain| :: more[i] == chain[i];
  }

  /** Keeping hops picks distinct hops in their original order, and every awake one. */
  lemma {:induction false} KeptInOrder(chain: seq<Hop>, asleep: set<Model>)
    ensures PickedInOrder(chain, KeepHops(chain, asleep), AwakePlaces(chain, asleep))
  {
    if chain == [] {
    } else {
      var before, hop := chain[..|chain| - 1], chain[|chain| - 1];
      KeptInOrder(before, asleep);
      assert chain == before + [hop];
      KeepSnoc(before, hop, asleep);
      PickMore(before, hop, KeepHops(before, asleep), AwakePlaces(before, asleep));
    }
  }

  lemma PickOne(chain: seq<Hop>, i: nat)
    requires i < |chain|
    ensures PickedInOrder(chain, [chain[i]], [i])
  {
  }

  /** A walk's attempts are distinct hops of the chain, in its order. */
  lemma ScheduleInOrder(chain: seq<Hop>, entries: Entries, now: nat) returns (at: seq<nat>)
    ensures PickedInOrder(chain, Schedule(chain, entries, now), at)
    ensures chain != [] ==> at != []
  {
    var asleep := Asleep(Models(chain), entries, now, COOLDOWN);
    KeptInOrder(chain, asleep);
    at := AwakePlaces(chain, asleep);
    if at == [] && chain != [] {
      at := [Earliest(Models(chain), entries)];
      PickOne(chain, at[0]);
    }
  }

  type Queues = map<Model, seq<Option<Effort>>>

  /** From each queue of a model still to come, the efforts come off in the order of `rest`. */
  ghost predicate Serves(queues: Queues, rest: seq<Hop>) {
    forall m | m in Models(rest) :: m in queues && EffortsOf(rest, m) <= queues[m]
  }

  /** Collect each model's efforts in chain order. */
  method QueueEfforts(chain: seq<Hop>) returns (queues: Queues)
    ensures forall m :: m in queues <==> m in Models(chain)
    ensures forall m | m in queues :: queues[m] == EffortsOf(chain, m)
  {
    queues := map[];
    var i := 0;
    while i < |chain|
      invariant 0 <= i <= |chain|
      invariant forall m :: m in queues <==> m in Models(chain[..i])
      invariant forall m | m in queues :: queues[m] == EffortsOf(chain[..i], m)
    {
      var hop := chain[i];
      var had := [];
      if hop.model in queues {
        had := queues[hop.model];
      } else {
        NoEfforts(chain[..i], hop.model);
      }
      queues := queues[hop.model := had + [hop.effort]];
      assert chain[..i + 1] == chain[..i] + [hop];
      forall m ensures m in Models(chain[..i + 1]) <==> m in Models(chain[..i]) || m == hop.model {
        ModelsSnoc(chain[..i], hop, m);
      }
      forall m ensures EffortsOf(chain[..i + 1], m)
                       == EffortsOf(chain[..i], m) + (if m == hop.model then [hop.effort] else []) {
        EffortsSnoc(chain[..i], hop, m);
      }
      i := i + 1;
    }
    assert chain[..i] == chain;
  }

  lemma ModelsSnoc(chain: seq<Hop>, hop: Hop, m: Model)
    ensures m in Models(chain + [hop]) <==> m in Models(chain) || m == hop.model
  {
    assert Models(chain + [hop]) == Models(chain) + [hop.model];
  }

  lemma {:induction false} EffortsSnoc(chain: seq<Hop>, hop: Hop, m: Model)
    ensures EffortsOf(chain + [hop], m) == EffortsOf(chain, m) + (if m == hop.model then [hop.effort] else [])
  {
    if chain == [] {
    } else {
      EffortsSnoc(chain[1..], hop, m);
      assert (chain + [hop])[1..] == chain[1..] + [hop];
    }
  }

  lemma {:induction false} NoEfforts(chain: seq<Hop>, m: Model)
    requires m !in Models(chain)
    ensures EffortsOf(chain, m) == []
  {
    if chain == [] {
    } else {
      assert forall i | 0 <= i < |chain| :: Models(chain)[i] == chain[i].model;
      assert forall i | 1 <= i < |chain| :: Models(chain[1..])[i - 1] == Models(chain)[i];
      NoEfforts(chain[1..], m);
    }
  }

  /** Before the walk starts, the queues built from the whole chain serve the scheduled hops. */
  lemma QueuesServeSchedule(chain: seq<Hop>, entries: Entries, now: nat, queues: Queues)
    requires forall m :: m in queues <==> m in Models(chain)
    requires forall m | m in queues :: queues[m] == EffortsOf(chain, m)
    ensures Serves(queues, Schedule(chain, entries, now))
  {
    var asleep := Asleep(Models(chain), entries, now, COOLDOWN);
    var kept, rest := KeepHops(chain, asleep), Schedule(chain, entries, now);
    KeptModels(chain, asleep);
    if kept != [] {
      forall m | m in Models(rest) ensures m in queues && EffortsOf(rest, m) <= queues[m] {
        KeptEfforts(chain, asleep, m);
      }
    } else if chain != [] {
      var r := Earliest(Models(chain), entries);
      FirstOfItsModel(chain, entries);
      FirstEffort(chain, r);
      assert EffortsOf(rest, chain[r].model) == [chain[r].effort];
      assert Models(chain)[r] in Models(chain);
    }
  }

  /** The model that cooled longest is taken at its first occurrence. */
  lemma FirstOfItsModel(chain: seq<Hop>, entries: Entries)
    requires chain != []
    ensures forall i | 0 <= i < Earliest(Models(chain), entries) ::
              chain[i].model != chain[Earliest(Models(chain), entries)].model
  {
    var r := Earliest(Models(chain), entries);
    forall i | 0 <= i < r ensures chain[i].model != chain[r].model {
      assert Before(OpenedAt(entries, Models(chain)[r]), OpenedAt(entries, Models(chain)[i]));
    }
  }

  lemma {:induction false} FirstEffort(chain: seq<Hop>, r: nat)
    requires r < |chain| && forall i | 0 <= i < r :: chain[i].model != chain[r].model
    ensures [chain[r].effort] <= EffortsOf(chain, chain[r].model)
  {
    if r == 0 {
    } else {
      FirstEffort(chain[1..], r - 1);
    }
  }

  /** Popping the front effort of the next hop's model gives that hop's effort and keeps the rest served. */
  lemma PopServes(queues: Queues, rest: seq<Hop>)
    requires rest != [] && Serves(queues, rest)
    ensures rest[0].model in queues && queues[rest[0].model] != [] && queues[rest[0].model][0] == rest[0].effort
    ensures Serves(queues[rest[0].model := queues[rest[0].model][1..]], rest[1..])
  {
    var m, tail := rest[0].model, rest[1..];
    assert Models(rest)[0] == m;
    var next := queues[m := queues[m][1..]];
    forall x | x in Models(tail) ensures x in next && EffortsOf(tail, x) <= next[x] {
      TailModel(rest, x);
      PopOne(rest, x, queues[x]);
    }
  }

  lemma TailModel(rest: seq<Hop>, x: Model)
    requires rest != [] && x in Models(rest[1..])
    ensures x in Models(rest)
  {
    var i :| 0 <= i < |rest[1..]| && Models(rest[1..])[i] == x;
    assert Models(rest)[i + 1] == x;
  }

  lemma PopOne(rest: seq<Hop>, x: Model, queue: seq<Option<Effort>>)
    requires rest != [] && EffortsOf(rest, x) <= queue
    ensures if x == rest[0].model then queue != [] && EffortsOf(rest[1..], x) <= queue[1..]
            else EffortsOf(rest[1..], x) <= queue
  {
  }

  // ----- the walk -----

  /** How one attempt at a model ended, and how long it took. */
  datatype Ending = Succeeds | Suspends | FailsInfra | FailsContent

  datatype Attempt = Attempt(ending: Ending, ms: nat)

  /** One attempt as it ran: the hop's model, the effort applied, its windows and when it started in the walk. */
  datatype Record = Record(
    model: Model, effort: Option<Effort>, wall: nat, stall: nat, startMs: nat, attempt: Attempt)

  datatype WalkEnd =
    | Finished(suspended: bool) | BudgetSpent | FrontierRefused | EffortUnsupported
    | ChainExhausted | AttemptError | EmptyChain

  /** What an attempt is given: its place in the walk, the model, the effort and its windows in seconds. */
  datatype Trial = Trial(index: nat, model: Model, effort: Option<Effort>, wall: nat, stall: nat)

  /** What the walk cannot see into: how attempts go, and what the model catalog says. */
  datatype World = World(
    attempt: Trial -> Attempt, frontierBlocked: Model -> bool, supports: (Model, Effort) -> bool, startedAt: nat)

  function Remaining(cfg: Config, elapsed: nat): nat {
    if 1000 * StepBudget(cfg) < elapsed then 0 else 1000 * StepBudget(cfg) - elapsed
  }

  /** The hop may be tried: its model passes the cost gate and supports the effort. */
  ghost predicate Admitted(w: World, cfg: Config, hop: Hop) {
    !w.frontierBlocked(hop.model) && !Blocked(w, cfg, hop)
  }

  /** What attempt `k` did is what came of trying that model with that effort under those windows. */
  predicate TrulyRan(w: World, r: Record, k: nat) {
    r.attempt == w.attempt(Trial(k, r.model, r.effort, r.wall, r.stall))
  }

  /** Another attempt is affordable: it is the first, or at least the minimum is left. */
  predicate Affordable(cfg: Config, k: nat, elapsed: nat) {
    k > 0 ==> Remaining(cfg, elapsed) >= 1000 * MIN_ATTEMPT_SECONDS
  }

  /**
   Attempt `k` of the walk ran hop `k` of the schedule, an admitted one, under the
   windows the remaining budget allows, and its record is what came of that.
   */
  ghost predicate FaithfulRecord(w: World, cfg: Config, schedule: seq<Hop>, trace: seq<Record>, k: nat)
    requires k < |trace|
  {
    && k < |schedule| && Admitted(w, cfg, schedule[k]) && TrulyRan(w, trace[k], k)
    && trace[k].model == schedule[k].model && trace[k].effort == AppliedEffort(cfg, schedule[k].effort)
    && trace[k].startMs == TotalMs(trace[..k])
    && (trace[k].wall, trace[k].stall) == AttemptWindows(cfg, Remaining(cfg, trace[k].startMs))
    && Affordable(cfg, k, trace[k].startMs)
  }

  ghost function TotalMs(trace: seq<Record>): nat {
    if trace == [] then 0 else TotalMs(trace[..|trace| - 1]) + trace[|trace| - 1].attempt.ms
  }

  ghost predicate Escalated(trace: seq<Record>, n: nat)
    requires n <= |trace|
  {
    forall k | 0 <= k < n :: trace[k].attempt.ending.FailsInfra?
  }

  ghost predicate Blocked(w: World, cfg: Config, hop: Hop) {
    var e := AppliedEffort(cfg, hop.effort);
    e.Some? && !w.supports(hop.model, e.value)
  }

  /** What each way of ending means, in terms of the attempts made and the schedule. */
  ghost predicate EndJustified(w: World, cfg: Config, schedule: seq<Hop>, trace: seq<Record>, end: WalkEnd) {
    var n := |trace|;
    match end
    case EmptyChain => schedule == [] && n == 0
    case Finished(suspended) =>
      n > 0 && Escalated(trace, n - 1) && trace[n - 1].attempt.ending == (if suspended then Suspends else Succeeds)
    case BudgetSpent =>
      0 < n < |schedule| && Escalated(trace, n) && !Affordable(cfg, n, TotalMs(trace))
    case FrontierRefused =>
      && n < |schedule| && Escalated(trace, n) && Affordable(cfg, n, TotalMs(trace))
      && w.frontierBlocked(schedule[n].model)
    case EffortUnsupported =>
      && n < |schedule| && Escalated(trace, n) && Affordable(cfg, n, TotalMs(trace))
      && !w.frontierBlocked(schedule[n].model) && Blocked(w, cfg, schedule[n])
    case ChainExhausted => n == |schedule| >= 2 && Escalated(trace, n)
    case AttemptError =>
      && n > 0 && Escalated(trace, n - 1)
      && (trace[n - 1].attempt.ending.FailsContent? || (n == |schedule| == 1 && trace[n - 1].attempt.ending.FailsInfra?))
  }

  /** The breaker events a walk leaves: a success or an infrastructure failure per attempt; content errors do not count. */
  ghost function HealthEvents(w: World, trace: seq<Record>): seq<(Model, Event)> {
    if trace == [] then []
    else
      var last := trace[|trace| - 1];
      HealthEvents(w, trace[..|trace| - 1]) + HealthEvent(last.model, last.attempt.ending, w.startedAt + TotalMs(trace))
  }

  ghost function HealthEvent(model: Model, ending: Ending, at: nat): seq<(Model, Event)> {
    match ending
    case Succeeds => [(model, Succeeded)]
    case Suspends => [(model, Succeeded)]
    case FailsInfra => [(model, FailedAt(at))]
    case FailsContent => []
  }

  ghost predicate WalkOk(w: World, cfg: Config, schedule: seq<Hop>, trace: seq<Record>) {
    && |trace| <= |schedule|
    && forall k {:trigger FaithfulRecord(w, cfg, schedule, trace, k)} | 0 <= k < |trace| ::
         FaithfulRecord(w, cfg, schedule, trace, k)
  }

  lemma TraceSnoc(w: World, cfg: Config, schedule: seq<Hop>, trace: seq<Record>, r: Record)
    requires WalkOk(w, cfg, schedule, trace) && |trace| < |schedule|
    requires FaithfulRecord(w, cfg, schedule, trace + [r], |trace|)
    ensures WalkOk(w, cfg, schedule, trace + [r])
  {
    var now := trace + [r];
    forall k | 0 <= k < |now| ensures FaithfulRecord(w, cfg, schedule, now, k) {
      if k < |trace| {
        assert FaithfulRecord(w, cfg, schedule, trace, k);
        FaithfulStays(w, cfg, schedule, trace, r, k);
      }
    }
  }

  lemma TotalSnoc(trace: seq<Record>, r: Record)
    ensures TotalMs(trace + [r]) == TotalMs(trace) + r.attempt.ms
  {
    assert (trace + [r])[..|trace|] == trace;
  }

  lemma FaithfulStays(w: World, cfg: Config, schedule: seq<Hop>, trace: seq<Record>, r: Record, k: nat)
    requires k < |trace| && FaithfulRecord(w, cfg, schedule, trace, k)
    ensures FaithfulRecord(w, cfg, schedule, trace + [r], k)
  {
    assert (trace + [r])[..k] == trace[..k];
  }

  /** Feed one attempt's ending to the breaker. */
  method RecordHealth(registry: Registry, model: Model, ending: Ending, at: nat)
    requires registry.Valid()
    modifies registry
    ensures registry.Valid() && registry.log == old(registry.log) + HealthEvent(model, ending, at)
  {
    match ending {
      case Succeeds => registry.OnSuccess(model);
      case Suspends => registry.OnSuccess(model);
      case FailsInfra => registry.OnFailure(model, at);
      case FailsContent =>
    }
  }

  /** How the walk ends after attempt `idx` of `total`, or `None` to escalate to the next hop. */
  function EndAfter(ending: Ending, idx: nat, total: nat): Option<WalkEnd> {
    match ending
    case Succeeds => Some(Finished(false))
    case Suspends => Some(Finished(true))
    case FailsContent => Some(AttemptError)
    case FailsInfra => if idx + 1 != total then None else if idx > 0 then Some(ChainExhausted) else Some(AttemptError)
  }

  /** Why hop `idx` is not tried, if it is not. */
  function RefusalOf(w: World, model: Model, applied: Option<Effort>, idx: nat, remaining: nat): Option<WalkEnd> {
    if idx > 0 && remaining / 1000 < MIN_ATTEMPT_SECONDS then Some(BudgetSpent)
    else if w.frontierBlocked(model) then Some(FrontierRefused)
    else if applied.Some? && !w.supports(model, applied.value) then Some(EffortUnsupported)
    else None
  }

  /** The loop state of the walk: `trace` so far all escalated, and the queues serve what is left of the schedule. */
  ghost predicate Walking(w: World, cfg: Config, schedule: seq<Hop>, trace: seq<Record>, queues: Queues, elapsed: nat) {
    && WalkOk(w, cfg, schedule, trace) && Escalated(trace, |trace|)
    && elapsed == TotalMs(trace) && Serves(queues, schedule[|trace|..])
  }

  lemma RefusalJustified(w: World, cfg: Config, schedule: seq<Hop>, trace: seq<Record>, queues: Queues, elapsed: nat)
    requires Walking(w, cfg, schedule, trace, queues, elapsed) && |trace| < |schedule|
    ensures var hop := schedule[|trace|];
            var refusal := RefusalOf(w, hop.model, AppliedEffort(cfg, hop.effort), |trace|, Remaining(cfg, elapsed));
            if refusal.Some? then EndJustified(w, cfg, schedule, trace, refusal.value)
            else Admitted(w, cfg, hop) && Affordable(cfg, |trace|, elapsed)
  {
  }

  lemma AttemptJustified(w: World, cfg: Config, schedule: seq<Hop>, trace: seq<Record>, r: Record)
    requires WalkOk(w, cfg, schedule, trace) && Escalated(trace, |trace|) && |trace| < |schedule|
    requires FaithfulRecord(w, cfg, schedule, trace + [r], |trace|)
    ensures WalkOk(w, cfg, schedule, trace + [r]) && TotalMs(trace + [r]) == TotalMs(trace) + r.attempt.ms
    ensures var end := EndAfter(r.attempt.ending, |trace|, |schedule|);
            if end.Some? then EndJustified(w, cfg, schedule, trace + [r], end.value)
            else Escalated(trace + [r], |trace| + 1)
    ensures HealthEvents(w, trace + [r]) ==
              HealthEvents(w, trace) + HealthEvent(r.model, r.attempt.ending, w.startedAt + TotalMs(trace + [r]))
  {
    TraceSnoc(w, cfg, schedule, trace, r);
    TotalSnoc(trace, r);
    HealthSnoc(w, trace, r);
    EscalatedSnoc(trace, r);
  }

  lemma HealthSnoc(w: World, trace: seq<Record>, r: Record)
    ensures HealthEvents(w, trace + [r]) ==
              HealthEvents(w, trace) + HealthEvent(r.model, r.attempt.ending, w.startedAt + TotalMs(trace + [r]))
  {
    assert (trace + [r])[..|trace|] == trace;
  }

  lemma EscalatedSnoc(trace: seq<Record>, r: Record)
    requires Escalated(trace, |trace|)
    ensures Escalated(trace + [r], |trace|) && (trace + [r])[|trace|] == r
    ensures r.attempt.ending.FailsInfra? ==> Escalated(trace + [r], |trace| + 1)
  {
    var more := trace + [r];
    assert forall k | 0 <= k < |trace| :: more[k] == trace[k];
  }

  /** One turn of the walk: refuse hop `idx`, or try it and see whether the walk ends with it. */
  method TryNext(w: World, cfg: Config, model: Model, total: nat, had: Queues, before: seq<Record>, elapsed: nat,
                 registry: Registry, ghost schedule: seq<Hop>)
    returns (ended: Option<WalkEnd>, trace: seq<Record>, queues: Queues, now: nat, ghost heard: seq<(Model, Event)>)
    requires registry.Valid() && |before| < total == |schedule| && schedule[|before|].model == model
    requires Walking(w, cfg, schedule, before, had, elapsed)
    modifies registry
    ensures registry.Valid()
    ensures registry.log == old(registry.log) + heard && HealthEvents(w, trace) == HealthEvents(w, before) + heard
    ensures if ended.Some? then WalkOk(w, cfg, schedule, trace) && EndJustified(w, cfg, schedule, trace, ended.value)
            else |trace| == |before| + 1 < total && Walking(w, cfg, schedule, trace, queues, now)
  {
    var idx, remaining := |before|, Remaining(cfg, elapsed);
    queues, trace, now, heard := had, before, elapsed, [];
    NextServed(had, schedule, idx);
    var applied := AppliedEffort(cfg, had[model][0]);
    ended := RefusalOf(w, model, applied, idx, remaining);
    RefusalJustified(w, cfg, schedule, before, had, elapsed);
    if ended.Some? {
      return;
    }
    queues := had[model := had[model][1..]];
    var (wall, stall) := AttemptWindows(cfg, remaining);
    var attempt := w.attempt(Trial(idx, model, applied, wall, stall));
    var record := Record(model, applied, wall, stall, elapsed, attempt);
    trace := before + [record];
    RecordIsFaithful(w, cfg, schedule, before, record);
    AttemptJustified(w, cfg, schedule, before, record);
    now := elapsed + record.attempt.ms;
    heard := HealthEvent(model, record.attempt.ending, w.startedAt + now);
    RecordHealth(registry, model, record.attempt.ending, w.startedAt + now);
    ended := EndAfter(record.attempt.ending, idx, total);
  }

  lemma NextServed(queues: Queues, schedule: seq<Hop>, idx: nat)
    requires idx < |schedule| && Serves(queues, schedule[idx..])
    ensures var hop := schedule[idx];
            && hop.model in queues && queues[hop.model] != [] && queues[hop.model][0] == hop.effort
            && Serves(queues[hop.model := queues[hop.model][1..]], schedule[idx + 1..])
  {
    assert schedule[idx..][0] == schedule[idx] && schedule[idx..][1..] == schedule[idx + 1..];
    PopServes(queues, schedule[idx..]);
  }

  lemma RecordIsFaithful(w: World, cfg: Config, schedule: seq<Hop>, before: seq<Record>, r: Record)
    requires |before| < |schedule| && r.startMs == TotalMs(before)
    requires Admitted(w, cfg, schedule[|before|]) && TrulyRan(w, r, |before|)
    requires r.model == schedule[|before|].model && r.effort == AppliedEffort(cfg, schedule[|before|].effort)
    requires (r.wall, r.stall) == AttemptWindows(cfg, Remaining(cfg, r.startMs))
    requires Affordable(cfg, |before|, r.startMs)
    ensures FaithfulRecord(w, cfg, schedule, before + [r], |before|)
  {
    assert (before + [r])[..|before|] == before;
  }

  /** Walk the planned models in order, each effort popped from its model's queue. */
  method Walk(w: World, cfg: Config, planned: seq<Model>, queued: Queues, registry: Registry, ghost schedule: seq<Hop>)
    returns (end: WalkEnd, trace: seq<Record>)
    requires registry.Valid() && Models(schedule) == planned && Serves(queued, schedule)
    modifies registry
    ensures registry.Valid() && registry.log == old(registry.log) + HealthEvents(w, trace)
    ensures WalkOk(w, cfg, schedule, trace) && EndJustified(w, cfg, schedule, trace, end)
  {
    trace := [];
    var queues, elapsed: nat := queued, 0;
    assert schedule[0..] == schedule;
    while |trace| < |planned|
      invariant |trace| <= |planned|
      invariant registry.Valid() && registry.log == old(registry.log) + HealthEvents(w, trace)
      invariant Walking(w, cfg, schedule, trace, queues, elapsed)
      invariant |trace| == |planned| ==> trace == []
      decreases |planned| - |trace|
    {
      var ended: Option<WalkEnd>;
      ghost var heard;
      ended, trace, queues, elapsed, heard :=
        TryNext(w, cfg, planned[|trace|], |planned|, queues, trace, elapsed, registry, schedule);
      if ended.Some? {
        return ended.value, trace;
      }
    }
    end := EmptyChain;
  }

  /**
   One agent step: plan, then walk. Attempt k uses the model and the effort of
   scheduled hop k.
   */
  method Execute(w: World, cfg: Config, chain: seq<Hop>, registry: Registry) returns (end: WalkEnd, trace: seq<Record>)
    requires registry.Valid()
    modifies registry
    ensures registry.Valid() && registry.log == old(registry.log) + HealthEvents(w, trace)
    ensures WalkOk(w, cfg, Schedule(chain, old(registry.entries), w.startedAt), trace)
    ensures EndJustified(w, cfg, Schedule(chain, old(registry.entries), w.startedAt), trace, end)
    ensures chain != [] ==> !end.EmptyChain?
  {
    var queues := QueueEfforts(chain);
    var planned := registry.MakePlan(Models(chain), w.startedAt);
    ghost var schedule := Schedule(chain, registry.entries, w.startedAt);
    PlanIsSchedule(chain, registry.entries, w.startedAt);
    QueuesServeSchedule(chain, registry.entries, w.startedAt, queues);
    end, trace := Walk(w, cfg, planned, queues, registry, schedule);
  }

  // ----- what a walk did -----

  /** The effort an attempt ran with: its hop's own, else the phase's, else the default, else none. */
  predicate RanWith(cfg: Config, hop: Hop, effort: Option<Effort>) {
    if hop.effort.Some? then effort == hop.effort
    else if cfg.effort.Some? then effort == cfg.effort
    else effort == cfg.defaultEffort
  }

  /**
   The attempts of a walk are distinct hops of the chain, in its order, each with its
   own hop's model and effort.
   */
  lemma AttemptsAreHops(w: World, cfg: Config, chain: seq<Hop>, entries: Entries, now: nat, trace: seq<Record>)
    returns (at: seq<nat>)
    requires WalkOk(w, cfg, Schedule(chain, entries, now), trace)
    ensures |trace| <= |at| && forall i, j | 0 <= i < j < |at| :: at[i] < at[j]
    ensures forall k | 0 <= k < |trace| ::
              at[k] < |chain| && trace[k].model == chain[at[k]].model && RanWith(cfg, chain[at[k]], trace[k].effort)
  {
    var schedule := Schedule(chain, entries, now);
    at := ScheduleInOrder(chain, entries, now);
    forall k | 0 <= k < |trace|
      ensures at[k] < |chain| && trace[k].model == chain[at[k]].model && RanWith(cfg, chain[at[k]], trace[k].effort)
    {
      assert FaithfulRecord(w, cfg, schedule, trace, k);
    }
  }

  /** One clock: the first attempt starts at zero, each later one when the one before it ended. */
  lemma ClockRuns(w: World, cfg: Config, schedule: seq<Hop>, trace: seq<Record>, k: nat)
    requires WalkOk(w, cfg, schedule, trace) && k < |trace|
    ensures trace[0].startMs == 0
    ensures k + 1 < |trace| ==> trace[k + 1].startMs == trace[k].startMs + trace[k].attempt.ms
    ensures k + 1 == |trace| ==> TotalMs(trace) == trace[k].startMs + trace[k].attempt.ms
  {
    assert FaithfulRecord(w, cfg, schedule, trace, 0) && FaithfulRecord(w, cfg, schedule, trace, k);
    assert trace[..0] == [];
    if k + 1 < |trace| {
      assert FaithfulRecord(w, cfg, schedule, trace, k + 1);
      assert trace[..k + 1][..k] == trace[..k];
    }
  }

  /** Why a walk stops short: less than fifteen seconds of the budget left, or the next hop is barred. */
  lemma StopsShortWhen(w: World, cfg: Config, schedule: seq<Hop>, trace: seq<Record>, end: WalkEnd)
    requires WalkOk(w, cfg, schedule, trace) && EndJustified(w, cfg, schedule, trace, end)
    requires end.BudgetSpent? || end.FrontierRefused? || end.EffortUnsupported?
    ensures |trace| < |schedule|
    ensures end.BudgetSpent? <==> |trace| > 0 && 1000 * StepBudget(cfg) < TotalMs(trace) + 15_000
    ensures end.FrontierRefused? ==> w.frontierBlocked(schedule[|trace|].model)
    ensures end.EffortUnsupported? ==>
      !w.frontierBlocked(schedule[|trace|].model)
      && exists e :: RanWith(cfg, schedule[|trace|], Some(e)) && !w.supports(schedule[|trace|].model, e)
  {
    if end.EffortUnsupported? {
      var hop := schedule[|trace|];
      assert RanWith(cfg, hop, Some(AppliedEffort(cfg, hop.effort).value));
    }
  }

  /**
   What the breaker hears: every attempt but the last failed, and is heard as failing
   when it ended; the last is heard as failing, as succeeding (also if it was suspended),
   or not at all if its error was one of content.
   */
  lemma {:induction false} BreakerHears(w: World, cfg: Config, schedule: seq<Hop>, trace: seq<Record>, k: nat)
    requires WalkOk(w, cfg, schedule, trace) && k < |trace| && Escalated(trace, |trace| - 1)
    ensures var heard, last := HealthEvents(w, trace), trace[|trace| - 1].attempt.ending;
            && |heard| == (if last.FailsContent? then |trace| - 1 else |trace|)
            && (trace[k].attempt.ending.FailsInfra? ==>
                  heard[k] == (trace[k].model, FailedAt(w.startedAt + trace[k].startMs + trace[k].attempt.ms)))
            && (trace[k].attempt.ending.Succeeds? || trace[k].attempt.ending.Suspends? ==>
                  k == |trace| - 1 && heard[k] == (trace[k].model, Succeeded))
    decreases |trace|
  {
    var n := |trace| - 1;
    var before := trace[..n];
    ClockRuns(w, cfg, schedule, trace, n);
    if n > 0 {
      BeforeOk(w, cfg, schedule, trace);
      assert before[n - 1] == trace[n - 1] && trace[n - 1].attempt.ending.FailsInfra?;
      BreakerHears(w, cfg, schedule, before, if k < n then k else 0);
    }
  }

  lemma BeforeOk(w: World, cfg: Config, schedule: seq<Hop>, trace: seq<Record>)
    requires WalkOk(w, cfg, schedule, trace) && trace != []
    ensures WalkOk(w, cfg, schedule, trace[..|trace| - 1])
  {
    var before := trace[..|trace| - 1];
    forall k | 0 <= k < |before| ensures FaithfulRecord(w, cfg, schedule, before, k) {
      assert FaithfulRecord(w, cfg, schedule, trace, k);
      assert before[..k] == trace[..k];
    }
  }

  // ----- the time bound -----

  /** Each attempt keeps to its granted wall plus `setup(wall)` seconds of tool setup. */
  ghost predicate KeepsToWall(trace: seq<Record>, setup: nat -> nat) {
    forall k | 0 <= k < |trace| :: trace[k].attempt.ms <= 1000 * (trace[k].wall + setup(trace[k].wall))
  }

  /** However many models are tried, the walk ends within the step budget plus one tool-setup bound. */
  lemma WalkFitsBudget(w: World, cfg: Config, schedule: seq<Hop>, trace: seq<Record>)
    requires WalkOk(w, cfg, schedule, trace)
    ensures KeepsToWall(trace, wall => ToolSetupTimeout(cfg, wall)) ==>
              TotalMs(trace) <= 1000 * (StepBudget(cfg) + ToolSetup(cfg))
    ensures KeepsToWall(trace, wall => 0) ==> TotalMs(trace) <= 1000 * StepBudget(cfg)
  {
    if trace != [] {
      var n := |trace| - 1;
      assert FaithfulRecord(w, cfg, schedule, trace, n);
      assert 1000 * trace[n].wall <= Remaining(cfg, trace[n].startMs);
    }
  }

  /** The first attempt always runs; a later one is granted at least the smaller of its configured wall and 15 seconds. */
  lemma LaterAttemptsGetTime(w: World, cfg: Config, schedule: seq<Hop>, trace: seq<Record>, k: nat)
    requires WalkOk(w, cfg, schedule, trace) && 0 < k < |trace|
    ensures trace[k].wall >= Min(ConfiguredWall(cfg), MIN_ATTEMPT_SECONDS)
  {
    assert FaithfulRecord(w, cfg, schedule, trace, k);
  }
}
