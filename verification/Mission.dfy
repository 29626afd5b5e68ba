/**
 Mission drivers on a shared interaction bus. Any number of drivers, other
 requesters, consumers and cancellations interleave; each event below is one
 atomic action of one of them.
 */
module Mission {
  import opened Options
  import Bus

  datatype LegalAction = LegalAction(transition: string, actor: string)

  /** The driver's view of a mission at one step, as the gateway last reported it. */
  datatype MissionState = MissionState(status: string, version: nat, actions: seq<LegalAction>)

  predicate Resolved(m: MissionState) {
    m.status == "succeeded" || m.status == "failed"
  }

  /** Every legal move belongs to a human. */
  predicate HumanTurn(m: MissionState) {
    m.actions != [] && forall i | 0 <= i < |m.actions| :: m.actions[i].actor == "human"
  }

  /** The legal moves of one actor, in order. */
  function ActionsOf(actions: seq<LegalAction>, actor: string): (r: seq<LegalAction>)
    ensures forall a :: a in r <==> a in actions && a.actor == actor
  {
    if actions == [] then []
    else if actions[0].actor == actor then [actions[0]] + ActionsOf(actions[1..], actor)
    else ActionsOf(actions[1..], actor)
  }

  function AgentActions(m: MissionState): seq<LegalAction> {
    ActionsOf(m.actions, "agent")
  }

  function DeterministicActions(m: MissionState): seq<LegalAction> {
    ActionsOf(m.actions, "deterministic")
  }

  predicate Legal(m: MissionState, transition: string) {
    exists a | a in m.actions :: a.transition == transition
  }

  /** A legal move that no agent and no deterministic link offers. */
  predicate HumanOnly(m: MissionState, transition: string) {
    Legal(m, transition) && forall a | a in m.actions && a.transition == transition :: a.actor == "human"
  }

  datatype Outcome = ResolvedAs(status: string) | Declined | GaveUp | MaxSteps | TimedOut | Error | ChooserFailed

  /** What a driver drives: its mission, and the loop iterations left. */
  datatype Drive = Drive(mission: string, left: nat)

  /** Where a driver is: awaiting the gateway, deciding, parked on a gate, or done. */
  datatype Driver =
    | Reading(drive: Drive)
    | Deciding(drive: Drive, state: MissionState)
    | Parked(drive: Drive, state: MissionState, gate: Bus.Id, move: string)
    | Ended(outcome: Outcome)

  /** One iteration less. */
  function Less(drive: Drive): Drive
    requires drive.left > 0
  {
    drive.(left := drive.left - 1)
  }

  /** A transition of a mission handed to the gateway, with the state it was decided in. */
  datatype Submit =
    Submit(driver: nat, mission: string, transition: string, version: nat, decidedIn: MissionState, gate: Option<Bus.Id>)

  /** Who opened a gate, for which mission, in which state, and for which move. */
  datatype Opening = Opening(driver: nat, mission: string, state: MissionState, move: string)

  /** `started` is the mission each driver was started for. */
  datatype System = System(
    hub: Bus.Hub, started: map<nat, string>, drivers: map<nat, Driver>, lastRead: map<nat, MissionState>,
    gates: map<Bus.Id, Opening>, submits: seq<Submit>)

  const INITIAL := System(Bus.EMPTY, map[], map[], map[], map[], [])

  /** What the agent runner behind the chooser came back with. */
  datatype Choice = Named(transition: string) | NoMove | RunnerFailed | StepTimeout

  datatype Event =
    | Start(driver: nat, mission: string, maxSteps: nat)
    | Respond(driver: nat, reply: Option<MissionState>)
    | Act(driver: nat)
    | Choose(driver: nat, choice: Choice)
    | Unpark(driver: nat)
    | OnBus(step: Bus.Step)

  function SetDriver(s: System, d: nat, now: Driver): System {
    s.(drivers := s.drivers[d := now])
  }

  function SubmitMove(s: System, d: nat, next: Drive, m: MissionState, transition: string, gate: Option<Bus.Id>): System {
    s.(drivers := s.drivers[d := Reading(next)],
       submits := s.submits + [Submit(d, next.mission, transition, m.version, m, gate)])
  }

  /** Park the driver on a new gate, for one move. */
  function OpenGate(s: System, d: nat, next: Drive, m: MissionState, move: string): System {
    s.(hub := Bus.Apply(s.hub, Bus.Allocate(Bus.Approve)),
       drivers := s.drivers[d := Parked(next, m, s.hub.nextId, move)],
       gates := s.gates[s.hub.nextId := Opening(d, next.mission, m, move)])
  }

  /** What a driver does next: stop, ask a human, ask the chooser, or fire a move. */
  datatype Turn = Halt(outcome: Outcome) | AskHuman(move: string) | AskChooser | Fire(move: string)

  function TurnFor(left: nat, m: MissionState): Turn {
    if left == 0 then Halt(MaxSteps)
    else if Resolved(m) then Halt(ResolvedAs(m.status))
    else if HumanTurn(m) then AskHuman(m.actions[0].transition)
    else if AgentActions(m) != [] then AskChooser
    else if DeterministicActions(m) != [] then Fire(DeterministicActions(m)[0].transition)
    else Halt(GaveUp)
  }

  function Carry(s: System, d: nat, drive: Drive, m: MissionState, turn: Turn): System
    requires turn.AskHuman? || turn.Fire? ==> drive.left > 0
  {
    match turn
    case Halt(outcome) => SetDriver(s, d, Ended(outcome))
    case AskHuman(move) => OpenGate(s, d, Less(drive), m, move)
    case AskChooser => s
    case Fire(move) => SubmitMove(s, d, Less(drive), m, move, None)
  }

  /** One iteration of the drive loop up to its next wait. */
  function ActIn(s: System, d: nat, drive: Drive, m: MissionState): System {
    Carry(s, d, drive, m, TurnFor(drive.left, m))
  }

  /** The chooser accepts only the name of an agent move it offered. */
  function ChooseIn(s: System, d: nat, drive: Drive, m: MissionState, choice: Choice): System
    requires drive.left > 0
  {
    match choice
    case Named(t) =>
      if exists a | a in AgentActions(m) :: a.transition == t then SubmitMove(s, d, Less(drive), m, t, None)
      else SetDriver(s, d, Ended(GaveUp))
    case NoMove => SetDriver(s, d, Ended(GaveUp))
    case RunnerFailed => SetDriver(s, d, Ended(ChooserFailed))
    case StepTimeout => SetDriver(s, d, Ended(TimedOut))
  }

  predicate Autonomous(m: MissionState) {
    !Resolved(m) && !HumanTurn(m) && AgentActions(m) != []
  }

  /** Back from the gate with a reply: submit the move it was opened for if approved, else stop. */
  function UnparkWith(s: System, d: nat, p: Driver, reply: Bus.Reply): System
    requires p.Parked?
  {
    Resume(s.(hub := Bus.Apply(s.hub, Bus.Return(p.gate))), d, p, reply)
  }

  /** After the gate: submit the move it was opened for, or end as declined. */
  function Resume(s: System, d: nat, p: Driver, reply: Bus.Reply): System
    requires p.Parked?
  {
    if reply.approved then SubmitMove(s, d, p.drive, p.state, p.move, Some(p.gate))
    else SetDriver(s, d, Ended(Declined))
  }

  /** The id is the gate of a parked driver; only that driver returns from it. */
  predicate OwnedGate(s: System, id: Bus.Id) {
    exists d | d in s.drivers :: s.drivers[d].Parked? && s.drivers[d].gate == id
  }

  function Next(s: System, e: Event): System {
    match e
    case Start(d, mission, maxSteps) =>
      if d in s.drivers then s
      else SetDriver(s, d, Reading(Drive(mission, maxSteps))).(started := s.started[d := mission])
    case Respond(d, reply) =>
      if d !in s.drivers || !s.drivers[d].Reading? then s
      else if reply.None? then SetDriver(s, d, Ended(Error))
      else SetDriver(s, d, Deciding(s.drivers[d].drive, reply.value)).(lastRead := s.lastRead[d := reply.value])
    case Act(d) =>
      if d !in s.drivers || !s.drivers[d].Deciding? then s
      else ActIn(s, d, s.drivers[d].drive, s.drivers[d].state)
    case Choose(d, choice) =>
      if d in s.drivers && s.drivers[d].Deciding? && s.drivers[d].drive.left > 0 && Autonomous(s.drivers[d].state)
      then ChooseIn(s, d, s.drivers[d].drive, s.drivers[d].state, choice)
      else s
    case Unpark(d) =>
      if d in s.drivers && s.drivers[d].Parked?
         && Bus.InPhase(s.hub, s.drivers[d].gate, Bus.Waiting) && Bus.ReplyFor(s.hub, s.drivers[d].gate).Some?
      then UnparkWith(s, d, s.drivers[d], Bus.ReplyFor(s.hub, s.drivers[d].gate).value)
      else s
    case OnBus(step) =>
      if step.Return? && OwnedGate(s, step.id) then s else s.(hub := Bus.Apply(s.hub, step))
  }

  function Run(events: seq<Event>): System {
    if events == [] then INITIAL else Next(Run(events[..|events| - 1]), events[|events| - 1])
  }

  // ----- safety -----

  /** A proven human answered this gate, and approved. */
  ghost predicate HumanApproved(h: Bus.Hub, gate: Bus.Id) {
    && gate in h.kinds && h.kinds[gate] == Bus.Approve
    && gate in h.delivered && h.delivered[gate].reply.approved && Bus.IsHuman(h.delivered[gate].from)
  }

  /** The gate was opened by this driver, for this mission, in this state and for this move, the first legal one there. */
  predicate OpenedBy(s: System, gate: Bus.Id, driver: nat, mission: string, state: MissionState, move: string) {
    && gate in s.gates && s.gates[gate] == Opening(driver, mission, state, move)
    && state.actions != [] && move == state.actions[0].transition
  }

  /**
   A submit is in order: it goes to the mission its driver was started for; it is
   legal where it was decided, with that state's version; a human-only move has a
   gate; and a gate it has was opened by the same driver for the same mission, in the
   same state and for this very move, the first legal one, and approved by a proven human.
   */
  ghost predicate SubmitOk(s: System, b: Submit) {
    && b.driver in s.started && s.started[b.driver] == b.mission
    && Legal(b.decidedIn, b.transition) && b.version == b.decidedIn.version
    && (HumanOnly(b.decidedIn, b.transition) ==> b.gate.Some?)
    && (b.gate.Some? ==>
          HumanApproved(s.hub, b.gate.value) && OpenedBy(s, b.gate.value, b.driver, b.mission, b.decidedIn, b.transition))
  }

  ghost predicate DriverOk(s: System, d: nat) {
    d in s.drivers ==>
      && d in s.started && (!s.drivers[d].Ended? ==> s.drivers[d].drive.mission == s.started[d])
      && (s.drivers[d].Deciding? ==> d in s.lastRead && s.lastRead[d] == s.drivers[d].state)
      && (s.drivers[d].Parked? ==>
            && d in s.lastRead && s.lastRead[d] == s.drivers[d].state
            && HumanTurn(s.drivers[d].state)
            && s.drivers[d].gate in s.hub.kinds && s.hub.kinds[s.drivers[d].gate] == Bus.Approve
            && OpenedBy(s, s.drivers[d].gate, d, s.started[d], s.drivers[d].state, s.drivers[d].move)
            && !Used(s.submits, s.drivers[d].gate))
  }

  /** The gate has already paid for a submitted move. */
  ghost predicate Used(submits: seq<Submit>, gate: Bus.Id) {
    exists i | 0 <= i < |submits| :: submits[i].gate == Some(gate)
  }

  lemma UsedStep(submits: seq<Submit>, b: Submit, gate: Bus.Id)
    ensures Used(submits + [b], gate) <==> Used(submits, gate) || b.gate == Some(gate)
  {
    var now, n := submits + [b], |submits|;
    assert now[n] == b && forall i | 0 <= i < n :: now[i] == submits[i];
  }

  lemma UsedIsIssued(s: System, gate: Bus.Id)
    requires forall i | 0 <= i < |s.submits| :: SubmitOk(s, s.submits[i])
    ensures Used(s.submits, gate) ==> gate in s.hub.kinds
  {
  }

  ghost predicate DistinctGates(s: System) {
    && (forall d, c | d in s.drivers && c in s.drivers && d != c && s.drivers[d].Parked? && s.drivers[c].Parked? ::
          s.drivers[d].gate != s.drivers[c].gate)
    && (forall i, j | 0 <= i < j < |s.submits| && s.submits[i].gate.Some? :: s.submits[i].gate != s.submits[j].gate)
  }

  ghost predicate Inv(s: System) {
    && Bus.Inv(s.hub)
    && (forall d: nat {:trigger DriverOk(s, d)} :: DriverOk(s, d))
    && (forall i | 0 <= i < |s.submits| :: SubmitOk(s, s.submits[i]))
    && DistinctGates(s)
    && (forall gate | gate in s.gates :: gate in s.hub.kinds) && s.started.Keys <= s.drivers.Keys
  }

  /** Nothing a bus step does revokes an approval or changes what a request asked for. */
  lemma BusStepKeepsApprovals(h: Bus.Hub, step: Bus.Step)
    requires Bus.Inv(h)
    ensures Bus.Inv(Bus.Apply(h, step))
    ensures forall id | id in h.kinds :: id in Bus.Apply(h, step).kinds && Bus.Apply(h, step).kinds[id] == h.kinds[id]
    ensures forall id | HumanApproved(h, id) :: HumanApproved(Bus.Apply(h, step), id)
  {
    Bus.StepKeeps(h, step);
    Bus.StepSettles(h, step);
    assert Bus.Sound(h, h.nextId);
  }

  lemma BusEventKeeps(s: System, step: Bus.Step)
    requires Inv(s)
    ensures Inv(s.(hub := Bus.Apply(s.hub, step)))
  {
    var s' := s.(hub := Bus.Apply(s.hub, step));
    BusStepKeepsApprovals(s.hub, step);
    forall d: nat {:trigger DriverOk(s', d)} ensures DriverOk(s', d) {
      assert DriverOk(s, d);
    }
    forall i | 0 <= i < |s'.submits| ensures SubmitOk(s', s'.submits[i]) {
      assert SubmitOk(s, s.submits[i]);
    }
  }

  /** A driver that stops leaves everything in order. */
  lemma EndKeeps(s: System, d: nat, outcome: Outcome)
    requires Inv(s) && d in s.drivers
    ensures Inv(SetDriver(s, d, Ended(outcome)))
  {
    var s' := SetDriver(s, d, Ended(outcome));
    forall c: nat {:trigger DriverOk(s', c)} ensures DriverOk(s', c) {
      assert DriverOk(s, c);
    }
    forall i | 0 <= i < |s'.submits| ensures SubmitOk(s', s'.submits[i]) {
      assert SubmitOk(s, s.submits[i]);
    }
  }

  /** A new driver has submitted nothing. */
  lemma StartKeeps(s: System, d: nat, mission: string, maxSteps: nat)
    requires Inv(s) && d !in s.drivers
    ensures Inv(Next(s, Start(d, mission, maxSteps)))
  {
    var s' := Next(s, Start(d, mission, maxSteps));
    forall c: nat {:trigger DriverOk(s', c)} ensures DriverOk(s', c) {
      assert DriverOk(s, c);
    }
    forall i | 0 <= i < |s'.submits| ensures SubmitOk(s', s'.submits[i]) {
      assert SubmitOk(s, s.submits[i]);
    }
  }

  lemma RespondKeeps(s: System, d: nat, m: MissionState)
    requires Inv(s) && d in s.drivers && s.drivers[d].Reading?
    ensures Inv(SetDriver(s, d, Deciding(s.drivers[d].drive, m)).(lastRead := s.lastRead[d := m]))
  {
    var s' := SetDriver(s, d, Deciding(s.drivers[d].drive, m)).(lastRead := s.lastRead[d := m]);
    forall c: nat {:trigger DriverOk(s', c)} ensures DriverOk(s', c) {
      assert DriverOk(s, c);
    }
    forall i | 0 <= i < |s'.submits| ensures SubmitOk(s', s'.submits[i]) {
      assert SubmitOk(s, s.submits[i]);
    }
  }

  /** A new gate is fresh: no driver waits on it, no submit used it, and nobody opened it before. */
  lemma ParkKeeps(s: System, d: nat, drive: Drive, m: MissionState)
    requires Inv(s) && d in s.drivers && s.drivers[d] == Deciding(drive, m) && drive.left > 0 && HumanTurn(m)
    ensures Inv(OpenGate(s, d, Less(drive), m, m.actions[0].transition))
  {
    var step := Bus.Allocate(Bus.Approve);
    BusEventKeeps(s, step);
    var mid := s.(hub := Bus.Apply(s.hub, step));
    var s' := OpenGate(s, d, Less(drive), m, m.actions[0].transition);
    assert Bus.Sound(s.hub, s.hub.nextId) && DriverOk(s, d);
    UsedIsIssued(s, s.hub.nextId);
    forall c: nat {:trigger DriverOk(s', c)} ensures DriverOk(s', c) {
      assert DriverOk(mid, c) && DriverOk(s, c);
    }
    forall c | c in s.drivers && s.drivers[c].Parked? ensures s.drivers[c].gate != s.hub.nextId {
      assert DriverOk(s, c);
    }
    forall i | 0 <= i < |s'.submits| ensures SubmitOk(s', s'.submits[i]) {
      assert SubmitOk(mid, mid.submits[i]) && SubmitOk(s, s.submits[i]);
    }
  }

  /** Handing in a move that is in order keeps the invariant; a gate it pays with is used up. */
  lemma SubmitKeeps(s: System, d: nat, next: Drive, m: MissionState, t: string, gate: Option<Bus.Id>)
    requires Inv(s) && d in s.drivers
    requires SubmitOk(s, Submit(d, next.mission, t, m.version, m, gate))
    requires gate.Some? ==> s.drivers[d].Parked? && s.drivers[d].gate == gate.value
    ensures Inv(SubmitMove(s, d, next, m, t, gate))
  {
    var s' := SubmitMove(s, d, next, m, t, gate);
    var n, b := |s.submits|, Submit(d, next.mission, t, m.version, m, gate);
    assert DriverOk(s, d);
    forall c: nat {:trigger DriverOk(s', c)} ensures DriverOk(s', c) {
      assert DriverOk(s, c);
      if c in s'.drivers && s'.drivers[c].Parked? {
        UsedStep(s.submits, b, s'.drivers[c].gate);
      }
    }
    forall i | 0 <= i < |s'.submits| ensures SubmitOk(s', s'.submits[i]) {
      assert i < n ==> SubmitOk(s, s.submits[i]);
    }
  }

  lemma ActKeeps(s: System, d: nat)
    requires Inv(s) && d in s.drivers && s.drivers[d].Deciding?
    ensures Inv(Next(s, Act(d)))
  {
    var drive, m := s.drivers[d].drive, s.drivers[d].state;
    assert DriverOk(s, d);
    if drive.left > 0 && !Resolved(m) {
      if HumanTurn(m) {
        ParkKeeps(s, d, drive, m);
      } else if AgentActions(m) == [] && DeterministicActions(m) != [] {
        var a := DeterministicActions(m)[0];
        assert a in DeterministicActions(m);
        SubmitKeeps(s, d, Less(drive), m, a.transition, None);
      } else if AgentActions(m) == [] {
        EndKeeps(s, d, GaveUp);
      }
    } else {
      EndKeeps(s, d, MaxSteps);
      EndKeeps(s, d, ResolvedAs(m.status));
    }
  }

  lemma ChooseKeeps(s: System, d: nat, choice: Choice)
    requires Inv(s) && d in s.drivers && s.drivers[d].Deciding? && s.drivers[d].drive.left > 0
    ensures Inv(ChooseIn(s, d, s.drivers[d].drive, s.drivers[d].state, choice))
  {
    var drive, m := s.drivers[d].drive, s.drivers[d].state;
    assert DriverOk(s, d);
    match choice
    case Named(t) =>
      if exists a | a in AgentActions(m) :: a.transition == t {
        ChosenKeeps(s, d, drive, m, t);
      } else {
        EndKeeps(s, d, GaveUp);
      }
    case NoMove => EndKeeps(s, d, GaveUp);
    case RunnerFailed => EndKeeps(s, d, ChooserFailed);
    case StepTimeout => EndKeeps(s, d, TimedOut);
  }

  lemma ChosenKeeps(s: System, d: nat, drive: Drive, m: MissionState, t: string)
    requires Inv(s) && d in s.drivers && d in s.started && drive.left > 0 && drive.mission == s.started[d]
    requires exists a | a in AgentActions(m) :: a.transition == t
    ensures Inv(SubmitMove(s, d, Less(drive), m, t, None))
  {
    var a :| a in AgentActions(m) && a.transition == t;
    assert a in m.actions && a.actor == "agent";
    SubmitKeeps(s, d, Less(drive), m, t, None);
  }

  /** A driver leaves its gate with an approval only if a proven human gave it. */
  lemma UnparkKeeps(s: System, d: nat)
    requires Inv(s) && d in s.drivers && s.drivers[d].Parked? && Bus.ReplyFor(s.hub, s.drivers[d].gate).Some?
    ensures Inv(UnparkWith(s, d, s.drivers[d], Bus.ReplyFor(s.hub, s.drivers[d].gate).value))
  {
    var gate, m := s.drivers[d].gate, s.drivers[d].state;
    var back := s.(hub := Bus.Apply(s.hub, Bus.Return(gate)));
    BusEventKeeps(s, Bus.Return(gate));
    BusStepKeepsApprovals(s.hub, Bus.Return(gate));
    assert DriverOk(s, d) && Bus.Sound(s.hub, gate);
    if Bus.ReplyFor(s.hub, gate).value.approved {
      assert HumanApproved(s.hub, gate);
      assert m.actions[0] in m.actions;
      SubmitKeeps(back, d, s.drivers[d].drive, m, s.drivers[d].move, Some(gate));
    } else {
      EndKeeps(back, d, Declined);
    }
  }

  lemma EventKeeps(s: System, e: Event)
    requires Inv(s)
    ensures Inv(Next(s, e))
  {
    match e
    case Start(d, mission, maxSteps) =>
      if d !in s.drivers {
        StartKeeps(s, d, mission, maxSteps);
      }
    case Respond(d, reply) =>
      if d in s.drivers && s.drivers[d].Reading? {
        EndKeeps(s, d, Error);
        if reply.Some? {
          RespondKeeps(s, d, reply.value);
        }
      }
    case Act(d) =>
      if d in s.drivers && s.drivers[d].Deciding? {
        ActKeeps(s, d);
      }
    case Choose(d, choice) =>
      if d in s.drivers && s.drivers[d].Deciding? && s.drivers[d].drive.left > 0 {
        ChooseKeeps(s, d, choice);
      }
    case Unpark(d) =>
      if d in s.drivers && s.drivers[d].Parked? && Bus.ReplyFor(s.hub, s.drivers[d].gate).Some? {
        UnparkKeeps(s, d);
      }
    case OnBus(step) =>
      BusEventKeeps(s, step);
  }

  /**
   Human-gate safety, over every interleaving: each submitted move was legal in
   the state it was decided in and carries that state's version; a human-only
   move was paid for by the gate its own driver opened in that state, which a
   proven human answered approvingly; no approval pays twice.
   */
  lemma {:induction false} EverySubmitIsInOrder(events: seq<Event>)
    ensures Inv(Run(events))
  {
    if events == [] {
      Bus.EveryInterleaving([]);
    } else {
      EverySubmitIsInOrder(events[..|events| - 1]);
      EventKeeps(Run(events[..|events| - 1]), events[|events| - 1]);
    }
  }

  /** A driver decides in the state it last read, and only drivers submit. */
  lemma DecidedInLastRead(s: System, e: Event)
    requires Inv(s)
    ensures var after := Next(s, e);
            || after.submits == s.submits
            || (&& |after.submits| == |s.submits| + 1 && after.submits[..|s.submits|] == s.submits
                && var b := after.submits[|s.submits|];
                   b.driver in s.lastRead && b.decidedIn == s.lastRead[b.driver])
  {
    if e.Act? || e.Choose? || e.Unpark? {
      assert DriverOk(s, e.driver);
    }
  }

  /** The first action of an actor. */
  predicate FirstOf(actions: seq<LegalAction>, actor: string, i: nat) {
    i < |actions| && actions[i].actor == actor && forall j | 0 <= j < i :: actions[j].actor != actor
  }

  lemma {:induction false} FirstAction(actions: seq<LegalAction>, actor: string) returns (i: nat)
    requires ActionsOf(actions, actor) != []
    ensures FirstOf(actions, actor, i) && ActionsOf(actions, actor)[0] == actions[i]
  {
    if actions[0].actor == actor {
      i := 0;
    } else {
      var k := FirstAction(actions[1..], actor);
      i := k + 1;
      assert forall j | 1 <= j < |actions| :: actions[1..][j - 1] == actions[j];
    }
  }

  lemma ActorHasNone(actions: seq<LegalAction>, actor: string)
    requires ActionsOf(actions, actor) == []
    ensures forall a | a in actions :: a.actor != actor
  {
    forall a | a in actions ensures a.actor != actor {
      assert a !in ActionsOf(actions, actor);
    }
  }

  /** The submit an event adds, if it does. */
  predicate Adds(s: System, e: Event, b: Submit) {
    Next(s, e).submits == s.submits + [b]
  }

  /** After the chooser: the agent's move it named. */
  lemma ChoiceSubmits(s: System, d: nat, choice: Choice)
    requires Next(s, Choose(d, choice)).submits != s.submits
    ensures choice.Named? && d in s.drivers && s.drivers[d].Deciding?
    ensures var m := s.drivers[d].state;
            && Adds(s, Choose(d, choice), Submit(d, s.drivers[d].drive.mission, choice.transition, m.version, m, None))
            && exists a | a in m.actions :: a.actor == "agent" && a.transition == choice.transition
  {
    var m := s.drivers[d].state;
    var a :| a in AgentActions(m) && a.transition == choice.transition;
    assert a in m.actions && a.actor == "agent";
  }

  /** In the loop itself: where no agent has a move, the first deterministic one. */
  lemma ActSubmits(s: System, d: nat) returns (i: nat)
    requires Next(s, Act(d)).submits != s.submits
    ensures d in s.drivers && s.drivers[d].Deciding?
    ensures var m := s.drivers[d].state;
            && FirstOf(m.actions, "deterministic", i) && (forall a | a in m.actions :: a.actor != "agent")
            && Adds(s, Act(d), Submit(d, s.drivers[d].drive.mission, m.actions[i].transition, m.version, m, None))
  {
    var m := s.drivers[d].state;
    i := FirstAction(m.actions, "deterministic");
    ActorHasNone(m.actions, "agent");
  }

  /** After a gate: the move it was opened for, if the reply that came back approves. */
  lemma UnparkSubmits(s: System, d: nat)
    requires Inv(s) && Next(s, Unpark(d)).submits != s.submits
    ensures d in s.drivers && s.drivers[d].Parked? && s.drivers[d].gate in s.gates && s.drivers[d].gate in s.hub.delivered
    ensures var m, gate := s.drivers[d].state, s.drivers[d].gate;
            && s.hub.delivered[gate].reply.approved
            && Adds(s, Unpark(d), Submit(d, s.drivers[d].drive.mission, s.gates[gate].move, m.version, m, Some(gate)))
  {
    assert DriverOk(s, d);
  }

  /** Nothing else submits. */
  lemma OnlyTheseSubmit(s: System, e: Event)
    requires !e.Choose? && !e.Act? && !e.Unpark?
    ensures Next(s, e).submits == s.submits
  {
  }

  // ----- why a driver stops -----

  predicate Stops(s: System, e: Event, d: nat, outcome: Outcome) {
    d in s.drivers && !s.drivers[d].Ended? && d in Next(s, e).drivers && Next(s, e).drivers[d] == Ended(outcome)
  }

  /** What one driver does leaves the others where they are. */
  lemma ActOthers(s: System, c: nat, drive: Drive, m: MissionState, turn: Turn, d: nat)
    requires d in s.drivers && d != c && (turn.AskHuman? || turn.Fire? ==> drive.left > 0)
    ensures d in Carry(s, c, drive, m, turn).drivers && Carry(s, c, drive, m, turn).drivers[d] == s.drivers[d]
  {
  }

  lemma ChooseOthers(s: System, c: nat, drive: Drive, m: MissionState, choice: Choice, d: nat)
    requires d in s.drivers && d != c && drive.left > 0
    ensures d in ChooseIn(s, c, drive, m, choice).drivers && ChooseIn(s, c, drive, m, choice).drivers[d] == s.drivers[d]
  {
  }

  /** A driver is moved by its own events only. */
  lemma OthersStay(s: System, e: Event, d: nat)
    requires d in s.drivers && (e.OnBus? || e.driver != d)
    ensures d in Next(s, e).drivers && Next(s, e).drivers[d] == s.drivers[d]
  {
    match e
    case Act(c) =>
      if c in s.drivers && s.drivers[c].Deciding? {
        ActOthers(s, c, s.drivers[c].drive, s.drivers[c].state, TurnFor(s.drivers[c].drive.left, s.drivers[c].state), d);
      }
    case Choose(c, choice) =>
      if c in s.drivers && s.drivers[c].Deciding? && s.drivers[c].drive.left > 0 {
        ChooseOthers(s, c, s.drivers[c].drive, s.drivers[c].state, choice, d);
      }
    case _ =>
  }

  lemma ActStops(s: System, d: nat, outcome: Outcome)
    requires Stops(s, Act(d), d, outcome)
    ensures s.drivers[d].Deciding?
    ensures var m, left := s.drivers[d].state, s.drivers[d].drive.left;
            || (outcome == MaxSteps && left == 0)
            || (outcome == ResolvedAs(m.status) && left > 0 && (m.status == "succeeded" || m.status == "failed"))
            || (outcome == GaveUp && left > 0 && m.status != "succeeded" && m.status != "failed"
                && forall a | a in m.actions :: a.actor != "agent" && a.actor != "deterministic")
  {
    var m := s.drivers[d].state;
    if outcome == GaveUp {
      ActorHasNone(m.actions, "agent");
      ActorHasNone(m.actions, "deterministic");
    }
  }

  lemma ChoiceStops(s: System, d: nat, choice: Choice, outcome: Outcome)
    requires Stops(s, Choose(d, choice), d, outcome)
    ensures s.drivers[d].Deciding?
    ensures match choice
            case StepTimeout => outcome == TimedOut
            case RunnerFailed => outcome == ChooserFailed
            case NoMove => outcome == GaveUp
            case Named(t) =>
              outcome == GaveUp && forall a | a in s.drivers[d].state.actions && a.actor == "agent" :: a.transition != t
  {
    var m := s.drivers[d].state;
    assert forall a :: a in AgentActions(m) <==> a in m.actions && a.actor == "agent";
  }

  lemma UnparkStops(s: System, d: nat, outcome: Outcome)
    requires Stops(s, Unpark(d), d, outcome)
    ensures outcome == Declined && s.drivers[d].Parked?
    ensures var gate := s.drivers[d].gate;
            if gate in s.hub.delivered then !s.hub.delivered[gate].reply.approved else gate in s.hub.abandoned
  {
  }

  // ----- how often a driver submits -----

  function SubmitsOf(submits: seq<Submit>, d: nat): nat {
    if submits == [] then 0
    else SubmitsOf(submits[..|submits| - 1], d) + if submits[|submits| - 1].driver == d then 1 else 0
  }

  lemma SubmitsSnoc(submits: seq<Submit>, b: Submit, d: nat)
    ensures SubmitsOf(submits + [b], d) == SubmitsOf(submits, d) + if b.driver == d then 1 else 0
  {
    assert (submits + [b])[..|submits|] == submits;
  }

  /** The steps a driver was started with, by its first `Start`. */
  function StepsOf(events: seq<Event>, d: nat): nat {
    if events == [] then 0
    else
      var n := |events| - 1;
      if events[n].Start? && events[n].driver == d && d !in Run(events[..n]).drivers then events[n].maxSteps
      else StepsOf(events[..n], d)
  }

  /** What a driver has used up: its submits, and the iteration it is parked in. */
  function UsedUp(s: System, d: nat): nat {
    SubmitsOf(s.submits, d) + if d in s.drivers && s.drivers[d].Parked? then 1 else 0
  }

  ghost predicate WithinSteps(s: System, d: nat, steps: nat) {
    if d !in s.drivers then UsedUp(s, d) == 0
    else if s.drivers[d].Ended? then UsedUp(s, d) <= steps
    else UsedUp(s, d) + s.drivers[d].drive.left <= steps
  }

  lemma SubmitCounts(s: System, c: nat, next: Drive, m: MissionState, t: string, gate: Option<Bus.Id>, d: nat)
    ensures SubmitsOf(SubmitMove(s, c, next, m, t, gate).submits, d) == SubmitsOf(s.submits, d) + if c == d then 1 else 0
  {
    SubmitsSnoc(s.submits, Submit(c, next.mission, t, m.version, m, gate), d);
  }

  /** How many more submits of `d` there are after an event. */
  lemma ActCounts(s: System, c: nat, drive: Drive, m: MissionState, turn: Turn, d: nat)
    requires turn.AskHuman? || turn.Fire? ==> drive.left > 0
    ensures c != d ==> SubmitsOf(Carry(s, c, drive, m, turn).submits, d) == SubmitsOf(s.submits, d)
    ensures c == d && d in s.drivers && s.drivers[d] == Deciding(drive, m) ==>
      forall steps {:trigger WithinSteps(s, d, steps)} | WithinSteps(s, d, steps) ::
        WithinSteps(Carry(s, c, drive, m, turn), d, steps)
  {
    if turn.Fire? {
      SubmitCounts(s, c, Less(drive), m, turn.move, None, d);
    }
  }

  lemma ChooseCounts(s: System, c: nat, drive: Drive, m: MissionState, choice: Choice, d: nat)
    requires drive.left > 0
    ensures c != d ==> SubmitsOf(ChooseIn(s, c, drive, m, choice).submits, d) == SubmitsOf(s.submits, d)
    ensures c == d && d in s.drivers && s.drivers[d] == Deciding(drive, m) ==>
      forall steps {:trigger WithinSteps(s, d, steps)} | WithinSteps(s, d, steps) ::
        WithinSteps(ChooseIn(s, c, drive, m, choice), d, steps)
  {
    if choice.Named? {
      SubmitCounts(s, c, Less(drive), m, choice.transition, None, d);
    }
  }

  lemma UnparkCounts(s: System, c: nat, reply: Bus.Reply, d: nat)
    requires c in s.drivers && s.drivers[c].Parked?
    ensures forall steps {:trigger WithinSteps(s, d, steps)} | WithinSteps(s, d, steps) ::
      WithinSteps(Resume(s, c, s.drivers[c], reply), d, steps)
  {
    var p := s.drivers[c];
    SubmitCounts(s, c, p.drive, p.state, p.move, Some(p.gate), d);
  }

  lemma ActSteps(s: System, c: nat, d: nat, steps: nat)
    requires WithinSteps(s, d, steps) && c in s.drivers && s.drivers[c].Deciding?
    ensures WithinSteps(Next(s, Act(c)), d, steps)
  {
    var drive, m := s.drivers[c].drive, s.drivers[c].state;
    ActCounts(s, c, drive, m, TurnFor(drive.left, m), d);
    if c != d && d in s.drivers {
      ActOthers(s, c, drive, m, TurnFor(drive.left, m), d);
    }
  }

  lemma ChooseSteps(s: System, c: nat, choice: Choice, d: nat, steps: nat)
    requires WithinSteps(s, d, steps) && c in s.drivers && s.drivers[c].Deciding? && s.drivers[c].drive.left > 0
    ensures WithinSteps(ChooseIn(s, c, s.drivers[c].drive, s.drivers[c].state, choice), d, steps)
  {
    ChooseCounts(s, c, s.drivers[c].drive, s.drivers[c].state, choice, d);
    if c != d && d in s.drivers {
      ChooseOthers(s, c, s.drivers[c].drive, s.drivers[c].state, choice, d);
    }
  }

  lemma UnparkSteps(s: System, c: nat, reply: Bus.Reply, d: nat, steps: nat)
    requires WithinSteps(s, d, steps) && c in s.drivers && s.drivers[c].Parked?
    ensures WithinSteps(UnparkWith(s, c, s.drivers[c], reply), d, steps)
  {
    var hub := Bus.Apply(s.hub, Bus.Return(s.drivers[c].gate));
    BusSteps(s, hub, d, steps);
    UnparkCounts(s.(hub := hub), c, reply, d);
  }

  lemma OtherSteps(s: System, e: Event, d: nat, steps: nat)
    requires WithinSteps(s, d, steps) && !(e.Start? && e.driver == d && d !in s.drivers)
    requires e.Start? || e.Respond?
    ensures WithinSteps(Next(s, e), d, steps)
  {
  }

  lemma BusSteps(s: System, hub: Bus.Hub, d: nat, steps: nat)
    requires WithinSteps(s, d, steps)
    ensures WithinSteps(s.(hub := hub), d, steps)
  {
  }

  lemma StepsStep(s: System, e: Event, d: nat, steps: nat)
    requires WithinSteps(s, d, steps) && !(e.Start? && e.driver == d && d !in s.drivers)
    ensures WithinSteps(Next(s, e), d, steps)
  {
    match e
    case Act(c) =>
      if c in s.drivers && s.drivers[c].Deciding? {
        ActSteps(s, c, d, steps);
      }
    case Choose(c, choice) =>
      if c in s.drivers && s.drivers[c].Deciding? && s.drivers[c].drive.left > 0 {
        ChooseSteps(s, c, choice, d, steps);
      }
    case Unpark(c) =>
      if c in s.drivers && s.drivers[c].Parked? && Bus.ReplyFor(s.hub, s.drivers[c].gate).Some? {
        UnparkSteps(s, c, Bus.ReplyFor(s.hub, s.drivers[c].gate).value, d, steps);
      }
    case OnBus(step) => BusSteps(s, Bus.Apply(s.hub, step), d, steps);
    case _ => OtherSteps(s, e, d, steps);
  }

  /** Over every interleaving, a driver submits at most as many moves as it was started with steps. */
  lemma {:induction false} FewSubmits(events: seq<Event>, d: nat)
    ensures WithinSteps(Run(events), d, StepsOf(events, d))
    ensures SubmitsOf(Run(events).submits, d) <= StepsOf(events, d)
  {
    if events == [] {
    } else {
      var n := |events| - 1;
      FewSubmits(events[..n], d);
      if !(events[n].Start? && events[n].driver == d && d !in Run(events[..n]).drivers) {
        StepsStep(Run(events[..n]), events[n], d, StepsOf(events[..n], d));
      }
    }
  }

  // ----- headless runs -----

  ghost predicate NoHumanAnswer(h: Bus.Hub) {
    && (forall id | id in h.inFlight :: !Bus.IsHuman(h.inFlight[id].from))
    && (forall id | id in h.delivered :: !Bus.IsHuman(h.delivered[id].from))
  }

  /** No consumer in the run is a proven human. */
  ghost predicate Headless(events: seq<Event>) {
    forall i | 0 <= i < |events| && events[i].OnBus? && events[i].step.Accept? :: !Bus.IsHuman(events[i].step.given.from)
  }

  lemma HeadlessStep(h: Bus.Hub, step: Bus.Step)
    requires NoHumanAnswer(h) && (step.Accept? ==> !Bus.IsHuman(step.given.from))
    ensures NoHumanAnswer(Bus.Apply(h, step))
  {
  }

  /** Outside `OnBus`, an event does at most one bus step, and never answers. */
  lemma HeadlessEvent(s: System, e: Event)
    requires NoHumanAnswer(s.hub)
    requires e.OnBus? && e.step.Accept? ==> !Bus.IsHuman(e.step.given.from)
    ensures NoHumanAnswer(Next(s, e).hub)
  {
    match e
    case OnBus(step) =>
      HeadlessStep(s.hub, step);
    case Act(_) =>
      HeadlessStep(s.hub, Bus.Allocate(Bus.Approve));
    case Unpark(d) =>
      if d in s.drivers && s.drivers[d].Parked? {
        HeadlessStep(s.hub, Bus.Return(s.drivers[d].gate));
      }
    case _ =>
  }

  lemma {:induction false} HeadlessAnswers(events: seq<Event>)
    requires Headless(events)
    ensures NoHumanAnswer(Run(events).hub)
  {
    if events == [] {
    } else {
      var n := |events| - 1;
      HeadlessAnswers(events[..n]);
      HeadlessEvent(Run(events[..n]), events[n]);
    }
  }

  /** Without a human consumer no human-only move is ever submitted. */
  lemma HeadlessNeverSubmitsHumanMove(events: seq<Event>)
    requires Headless(events)
    ensures forall i | 0 <= i < |Run(events).submits| ::
              !HumanOnly(Run(events).submits[i].decidedIn, Run(events).submits[i].transition)
  {
    EverySubmitIsInOrder(events);
    HeadlessAnswers(events);
    var s := Run(events);
    forall i | 0 <= i < |s.submits| ensures !HumanOnly(s.submits[i].decidedIn, s.submits[i].transition) {
      assert SubmitOk(s, s.submits[i]);
    }
  }
}
