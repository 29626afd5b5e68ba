/**
 The per-model circuit breaker: cross-call failure memory as a counter and an
 opening time per model, and the plan it makes for a model chain. Time is data.
 */
module Breaker {
  import opened Options

  datatype Model = Model(id: string)

  const U32_MAX: nat := 0xffff_ffff

  /** Consecutive failures (a saturating 32-bit counter) and when the breaker last opened. */
  datatype Entry = Entry(failures: nat, openedAt: Option<nat>)

  const CLOSED := Entry(0, None)

  datatype Availability = Available | Skip | Probe

  function Decide(e: Entry, now: nat, cooldown: nat): Availability {
    match e.openedAt
    case None => Available
    case Some(since) => if Elapsed(since, now) >= cooldown then Probe else Skip
  }

  /** Monotonic clock difference; a later opening counts as no time elapsed. */
  function Elapsed(since: nat, now: nat): nat {
    if now < since then 0 else now - since
  }

  function RecordFailure(e: Entry, now: nat, threshold: nat): Entry {
    var failures := if e.failures < U32_MAX then e.failures + 1 else U32_MAX;
    Entry(failures, if failures >= threshold then Some(now) else e.openedAt)
  }

  function RecordSuccess(e: Entry): Entry {
    CLOSED
  }

  // ----- the entry refines the model's event history -----

  datatype Event = Succeeded | FailedAt(time: nat)

  /** What the entry of a model is after its events, oldest first. */
  function Replay(events: seq<Event>, threshold: nat): Entry {
    if events == [] then CLOSED
    else
      var before := Replay(events[..|events| - 1], threshold);
      match events[|events| - 1]
      case Succeeded => RecordSuccess(before)
      case FailedAt(t) => RecordFailure(before, t, threshold)
  }

  /** Length of the run of failures at the end of the history. */
  function TrailingFailures(events: seq<Event>): nat {
    if events == [] || events[|events| - 1].Succeeded? then 0 else 1 + TrailingFailures(events[..|events| - 1])
  }

  /** When the history says the breaker is open: the trailing failures reached the threshold; anchored at the last one. */
  function OpenSince(events: seq<Event>, threshold: nat): Option<nat> {
    var n := TrailingFailures(events);
    if n > 0 && n >= threshold then Some(events[|events| - 1].time) else None
  }

  /** After any history, the entry is open exactly when the trailing failures reach the threshold, despite saturation. */
  lemma {:induction false} EntryRefinesHistory(events: seq<Event>, threshold: nat)
    requires threshold <= U32_MAX
    ensures Replay(events, threshold).openedAt == OpenSince(events, threshold)
    ensures Replay(events, threshold).failures ==
              if TrailingFailures(events) <= U32_MAX then TrailingFailures(events) else U32_MAX
  {
    if events == [] {
    } else {
      EntryRefinesHistory(events[..|events| - 1], threshold);
    }
  }

  // ----- planning -----

  type Entries = map<Model, Entry>

  predicate Cooling(entries: Entries, now: nat, cooldown: nat, m: Model) {
    m in entries && Decide(entries[m], now, cooldown) == Skip
  }

  /** The models of `chain` outside `asleep`, in order. */
  function Keep(chain: seq<Model>, asleep: set<Model>): (r: seq<Model>)
    ensures forall m :: m in r <==> m in chain && m !in asleep
    ensures r == [] <==> forall m | m in chain :: m in asleep
  {
    if chain == [] then []
    else if chain[0] in asleep then Keep(chain[1..], asleep)
    else [chain[0]] + Keep(chain[1..], asleep)
  }

  function Asleep(chain: seq<Model>, entries: Entries, now: nat, cooldown: nat): set<Model> {
    set m | m in chain && Cooling(entries, now, cooldown, m)
  }

  /** Opening time used to rank models; a model without one ranks first. */
  function OpenedAt(entries: Entries, m: Model): Option<nat> {
    if m in entries then entries[m].openedAt else None
  }

  predicate Before(a: Option<nat>, b: Option<nat>) {
    b.Some? && (a.None? || a.value < b.value)
  }

  /** Index of the first model that opened earliest. */
  function Earliest(chain: seq<Model>, entries: Entries): (r: nat)
    requires chain != []
    ensures r < |chain|
    ensures forall i | 0 <= i < |chain| :: !Before(OpenedAt(entries, chain[i]), OpenedAt(entries, chain[r]))
    ensures forall i | 0 <= i < r :: Before(OpenedAt(entries, chain[r]), OpenedAt(entries, chain[i]))
  {
    if |chain| == 1 then 0
    else
      var rest := Earliest(chain[1..], entries);
      if Before(OpenedAt(entries, chain[1..][rest]), OpenedAt(entries, chain[0])) then rest + 1 else 0
  }

  /** Drop cooling models; if that leaves nothing, try the one that has cooled longest. */
  function Plan(chain: seq<Model>, entries: Entries, now: nat, cooldown: nat): (r: seq<Model>)
    ensures chain != [] ==> r != []
    ensures forall m | m in r :: m in chain
  {
    var planned := Keep(chain, Asleep(chain, entries, now, cooldown));
    if planned != [] then planned
    else if chain == [] then []
    else [chain[Earliest(chain, entries)]]
  }

  // ----- the registry -----

  const FAILURE_THRESHOLD: nat := 2
  const COOLDOWN: nat := 30 * 60 * 1000

  /** The events of one model out of the registry's log. */
  function EventsOf(log: seq<(Model, Event)>, m: Model): seq<Event> {
    if log == [] then []
    else
      var before := EventsOf(log[..|log| - 1], m);
      if log[|log| - 1].0 == m then before + [log[|log| - 1].1] else before
  }

  /** The entries a log leaves behind; a model that never failed has none. */
  ghost predicate Remembers(entries: Entries, log: seq<(Model, Event)>) {
    forall m :: EntryOf(entries, m) == Replay(EventsOf(log, m), FAILURE_THRESHOLD)
  }

  function EntryOf(entries: Entries, m: Model): Entry {
    if m in entries then entries[m] else CLOSED
  }

  function Record(e: Entry, event: Event): Entry {
    match event
    case Succeeded => RecordSuccess(e)
    case FailedAt(t) => RecordFailure(e, t, FAILURE_THRESHOLD)
  }

  /** Recording an event in the entry of its model alone keeps the entries in step with the log. */
  lemma RecordingRemembers(entries: Entries, now: Entries, log: seq<(Model, Event)>, m: Model, e: Event)
    requires Remembers(entries, log)
    requires forall x | x != m :: EntryOf(now, x) == EntryOf(entries, x)
    requires EntryOf(now, m) == Record(EntryOf(entries, m), e)
    ensures Remembers(now, log + [(m, e)])
  {
    var next := log + [(m, e)];
    assert next[..|log|] == log;
    forall x ensures EntryOf(now, x) == Replay(EventsOf(next, x), FAILURE_THRESHOLD) {
      assert EntryOf(entries, x) == Replay(EventsOf(log, x), FAILURE_THRESHOLD);
      if x == m {
        assert EventsOf(next, m) == EventsOf(log, m) + [e];
        assert EventsOf(next, m)[..|EventsOf(log, m)|] == EventsOf(log, m);
      }
    }
  }

  /** A model is cooling by its history: enough trailing failures, the last one less than the cooldown ago. */
  predicate CoolingByHistory(log: seq<(Model, Event)>, now: nat, m: Model) {
    var open := OpenSince(EventsOf(log, m), FAILURE_THRESHOLD);
    open.Some? && Elapsed(open.value, now) < COOLDOWN
  }

  /** The last `n` events are failures. */
  ghost predicate LastFailed(events: seq<Event>, n: nat) {
    n <= |events| && forall i | |events| - n <= i < |events| :: events[i].FailedAt?
  }

  lemma {:induction false} TrailingMeans(events: seq<Event>, n: nat)
    ensures n <= TrailingFailures(events) <==> LastFailed(events, n)
  {
    if events == [] || n == 0 {
    } else {
      var k := |events| - 1;
      TrailingMeans(events[..k], n - 1);
      assert forall i | 0 <= i < k :: events[..k][i] == events[i];
    }
  }

  /**
   A model is skipped exactly while its last two calls both failed and the last failure
   is less than the cooldown ago; a failure the clock puts in the future counts as just now.
   */
  lemma CoolsWhile(log: seq<(Model, Event)>, now: nat, m: Model)
    ensures var events := EventsOf(log, m);
            CoolingByHistory(log, now, m) <==>
              LastFailed(events, FAILURE_THRESHOLD) && now < events[|events| - 1].time + COOLDOWN
  {
    TrailingMeans(EventsOf(log, m), FAILURE_THRESHOLD);
  }

  function CoolingModels(chain: seq<Model>, log: seq<(Model, Event)>, now: nat): set<Model> {
    set m | m in chain && CoolingByHistory(log, now, m)
  }

  function OpenedByHistory(log: seq<(Model, Event)>, m: Model): Option<nat> {
    OpenSince(EventsOf(log, m), FAILURE_THRESHOLD)
  }

  /** `r` is the first position whose model opened no later than any other. */
  ghost predicate LongestCooled(chain: seq<Model>, log: seq<(Model, Event)>, r: nat)
    requires r < |chain|
  {
    && (forall i | 0 <= i < |chain| :: !Before(OpenedByHistory(log, chain[i]), OpenedByHistory(log, chain[r])))
    && (forall i | 0 <= i < r :: Before(OpenedByHistory(log, chain[r]), OpenedByHistory(log, chain[i])))
  }

  class Registry {
    var entries: Entries
    /** Every recorded event, oldest first. */
    ghost var log: seq<(Model, Event)>

    ghost predicate Valid()
      reads this
    {
      Remembers(entries, log)
    }

    constructor ()
      ensures Valid() && log == [] && entries == map[]
    {
      entries, log := map[], [];
    }

    method OnSuccess(m: Model)
      requires Valid()
      modifies this
      ensures Valid() && log == old(log) + [(m, Succeeded)]
    {
      if m in entries {
        entries := entries[m := RecordSuccess(entries[m])];
      }
      log := log + [(m, Succeeded)];
      RecordingRemembers(old(entries), entries, old(log), m, Succeeded);
    }

    method OnFailure(m: Model, now: nat)
      requires Valid()
      modifies this
      ensures Valid() && log == old(log) + [(m, FailedAt(now))]
    {
      entries := entries[m := RecordFailure(EntryOf(entries, m), now, FAILURE_THRESHOLD)];
      log := log + [(m, FailedAt(now))];
      RecordingRemembers(old(entries), entries, old(log), m, FailedAt(now));
    }

    /**
     The plan, said in terms of what happened to each model: exactly the chain
     without the cooling models, or, when all are cooling, the first one whose
     last failure lies furthest back.
     */
    method MakePlan(chain: seq<Model>, now: nat) returns (planned: seq<Model>)
      requires Valid()
      ensures planned == Plan(chain, entries, now, COOLDOWN)
      ensures planned == Keep(chain, CoolingModels(chain, log, now))
              || (forall m | m in chain :: CoolingByHistory(log, now, m))
      ensures chain != [] && (forall m | m in chain :: CoolingByHistory(log, now, m)) ==>
                exists r :: 0 <= r < |chain| && planned == [chain[r]] && LongestCooled(chain, log, r)
    {
      planned := Plan(chain, entries, now, COOLDOWN);
      forall m ensures OpenedAt(entries, m) == OpenedByHistory(log, m)
                       && (Cooling(entries, now, COOLDOWN, m) <==> CoolingByHistory(log, now, m)) {
        EntryRefinesHistory(EventsOf(log, m), FAILURE_THRESHOLD);
      }
      assert Asleep(chain, entries, now, COOLDOWN) == CoolingModels(chain, log, now);
      if chain != [] && forall m | m in chain :: CoolingByHistory(log, now, m) {
        assert LongestCooled(chain, log, Earliest(chain, entries));
      } else if chain != [] {
        var m :| m in chain && !CoolingByHistory(log, now, m);
        assert m in Keep(chain, CoolingModels(chain, log, now));
      }
    }
  }
}
