/**
 Running sessions, suspending them durably, and resuming them. A suspended
 session is a frame in the parked store; whatever the provider, the tools and the
 store do, no frame is lost before its session is answered.
 */
module SessionRunner {
  import opened Options
  import opened Contract
  import opened Conversation
  import opened Parking
  import opened ToolRecord
  import opened Scripts
  import opened ToolLoop

  datatype Id = Id(uuid: string)

  datatype Frame = Frame(session: Session, parked: Parked)

  datatype Refusal =
    ToolsUnsupported | AwaitUnsupported | UnknownCorrelation | ParkedSessionCorrupt | ParkStore | LoopFailed | Crashed

  datatype Outcome =
    | Completed(answer: Answer)
    | Suspended(id: Id)
    | NoResult
    | NoWrites
    | TimedOut
    | Refused(why: Refusal)

  /** How the store answers a removal; an error may come before or after the row is gone. */
  datatype RemoveReply = Removed | RemoveFailed | GoneThenError

  /** How the store answers a park; the wall clock may cut the run before or after the row is committed. */
  datatype ParkReply = Stored | ParkFailed | CutBefore | CutAfter

  /** What one operation finds outside: the correlation id drawn, and how the store behaves. */
  datatype Luck = Luck(id: Id, park: ParkReply, loadFails: bool, remove: RemoveReply)

  type Frames = map<Id, Frame>

  // ----- the passes of all sessions -----

  /** A pass of a session, and the frame and reply it resumes, if it does: the frame is what pass `visit` left. */
  datatype Visit = Visit(pass: Passage, resumes: Option<Resumption>)

  datatype Resumption = Resumption(visit: nat, reply: string)

  /** The number of the next reply. */
  function NextStamp(visits: seq<Visit>): int {
    if visits == [] then 0 else LastReply(visits[|visits| - 1].pass) + 1
  }

  /** A frame with no turn left is given the last one again. */
  function StartTurn(maxTurns: nat, turnsUsed: nat): nat {
    var lastTurn := if maxTurns > 0 then maxTurns - 1 else 0;
    if turnsUsed < lastTurn then turnsUsed else lastTurn
  }

  /** A pass begins where the replies so far end: with its goal, or with the frame and the reply it resumes. */
  ghost predicate Begins(world: World, visits: seq<Visit>, script: Script, input: Msg, resumes: Option<Resumption>) {
    && script.firstStamp == NextStamp(visits)
    && match resumes
       case None =>
         && script.start == 0 && script.history == [] && script.ledger == []
         && IsGoal(input) && input == script.session.goal
       case Some(r) =>
         && r.visit < |visits| && visits[r.visit].pass.end.Awaiting?
         && var p := visits[r.visit].pass;
            Takes(world, script, input, Frame(p.script.session, p.end.parked), r.reply)
  }

  /** The session, conversation, ledger and turn are the frame's, and the prompt is its results with the reply. */
  predicate Takes(world: World, script: Script, input: Msg, frame: Frame, reply: string) {
    && script.session == frame.session && script.history == frame.parked.history && script.ledger == frame.parked.ledger
    && script.start == StartTurn(world.maxTurns, frame.parked.turnsUsed)
    && input == User(Filled(frame.parked.pending, reply))
  }

  ghost predicate VisitOk(world: World, visits: seq<Visit>, i: nat)
    requires i < |visits|
  {
    var p := visits[i].pass;
    IsPassage(world, p) && Begins(world, visits[..i], p.script, First(p.chat), visits[i].resumes)
  }

  ghost predicate AllVisitsOk(world: World, visits: seq<Visit>) {
    forall i {:trigger VisitOk(world, visits, i)} | 0 <= i < |visits| :: VisitOk(world, visits, i)
  }

  lemma VisitsSnoc(world: World, visits: seq<Visit>, visit: Visit)
    requires AllVisitsOk(world, visits) && IsPassage(world, visit.pass)
    requires Begins(world, visits, visit.pass.script, First(visit.pass.chat), visit.resumes)
    ensures AllVisitsOk(world, visits + [visit])
  {
    var more := visits + [visit];
    forall i | 0 <= i < |more| ensures VisitOk(world, more, i) {
      assert more[..i] == visits[..i];
      assert i < |visits| ==> VisitOk(world, visits, i);
      assert i == |visits| ==> visits[..i] == visits;
    }
  }

  /** Every pass starts with a conversation its first prompt continues. */
  lemma {:induction false} VisitStartsWell(world: World, visits: seq<Visit>, i: nat)
    requires AllVisitsOk(world, visits) && i < |visits|
    ensures StartsWell(visits[i].pass.script, visits[i].pass.chat)
    decreases i
  {
    assert VisitOk(world, visits, i);
    var p := visits[i].pass;
    if visits[i].resumes.Some? {
      var r := visits[i].resumes.value;
      VisitStartsWell(world, visits, r.visit);
      assert VisitOk(world, visits, r.visit);
      FrameContinues(world, visits[r.visit].pass, r.reply);
    } else {
      GoalStartsWell(p.script.session.goal);
    }
  }

  lemma GoalStartsWell(goal: Msg)
    requires IsGoal(goal)
    ensures WellFormed(goal, [] + [goal])
  {
  }

  /** A frame left by a pass can always be resumed, and its conversation goes on. */
  lemma FrameContinues(world: World, p: Passage, reply: string)
    requires IsPassage(world, p) && StartsWell(p.script, p.chat) && p.end.Awaiting?
    ensures var parked := p.end.parked;
            && ResumeInput(parked.pending, reply) == Some(User(Filled(parked.pending, reply)))
            && parked.history != []
            && WellFormed(p.script.session.goal, parked.history + [User(Filled(parked.pending, reply))])
  {
    FramesAreResumable(world, p);
    ResumeContinues(p.script.session.goal, p.end.parked, reply);
  }

  /** Every request ever sent is a well-formed conversation of its session. */
  lemma SentIsWellFormed(world: World, visits: seq<Visit>, i: nat, n: nat)
    requires AllVisitsOk(world, visits) && i < |visits|
    requires n < |Requests(world, visits[i].pass.script, visits[i].pass.chat)|
    ensures var p := visits[i].pass; WellFormed(p.script.session.goal, Requests(world, p.script, p.chat)[n])
  {
    var p := visits[i].pass;
    assert VisitOk(world, visits, i);
    VisitStartsWell(world, visits, i);
    RequestsWellFormed(world, p.script, p.ran, p.chat, n);
  }

  /** The replies of different passes are different. */
  lemma {:induction false} StampsApart(world: World, visits: seq<Visit>, u: nat, v: nat)
    requires AllVisitsOk(world, visits) && u < v < |visits|
    ensures LastReply(visits[u].pass) < visits[v].pass.script.firstStamp
    decreases v
  {
    assert VisitOk(world, visits, v);
    if u < v - 1 {
      StampsApart(world, visits, u, v - 1);
      assert VisitOk(world, visits, v - 1);
    }
  }

  /** Every call was asked for by reply `stamp` or a later one. */
  ghost predicate RanFrom(ran: seq<Exec>, stamp: nat) {
    forall k | 0 <= k < |ran| :: stamp <= ran[k].stamp
  }

  lemma RanFromStart(world: World, p: Passage)
    requires IsPassage(world, p)
    ensures RanFrom(p.ran, p.script.firstStamp)
  {
    forall k | 0 <= k < |p.ran| ensures p.script.firstStamp <= p.ran[k].stamp {
      assert ToolRecord.Within(p.ran[k], p.script.firstStamp, p.script.firstStamp + Count(p.chat), 0);
    }
  }

  /** Every call on record was asked for by a reply of its own pass: resuming never re-runs what was parked. */
  lemma RecordsAreOfTheirPass(world: World, visits: seq<Visit>, v: nat, j: nat)
    requires AllVisitsOk(world, visits) && v < |visits| && j < |visits[v].pass.ran|
    ensures var p, exec := visits[v].pass, visits[v].pass.ran[j];
            p.script.firstStamp <= exec.stamp <= LastReply(p) && Asked(world, exec.stamp, exec.index, exec.call)
    ensures forall u | 0 <= u < |visits| && u != v ::
              !(visits[u].pass.script.firstStamp <= visits[v].pass.ran[j].stamp <= LastReply(visits[u].pass))
  {
    var p, exec := visits[v].pass, visits[v].pass.ran[j];
    assert VisitOk(world, visits, v);
    assert ToolRecord.Within(exec, p.script.firstStamp, p.script.firstStamp + Count(p.chat), 0);
    assert Genuine(world, p.script.session, exec);
    forall u | 0 <= u < |visits| && u != v
      ensures !(visits[u].pass.script.firstStamp <= exec.stamp <= LastReply(visits[u].pass))
    {
      if u < v {
        StampsApart(world, visits, u, v);
      } else {
        StampsApart(world, visits, v, u);
      }
    }
  }

  /** The calls of a parked turn. */
  function ParkedCalls(world: World, p: Passage): seq<ToolCall>
    requires p.chat.Sent?
  {
    var reply := ReplyOf(world, LastReply(p));
    if reply.Turn? then reply.calls else []
  }

  /**
   However often its session is resumed, each call of a parked turn that awaits no
   human is on record exactly once in all passes, with the parked output.
   */
  lemma ParkedTurnRanOnce(world: World, visits: seq<Visit>, v: nat, i: nat) returns (k: nat)
    requires AllVisitsOk(world, visits) && v < |visits| && visits[v].pass.chat.Sent? && visits[v].pass.end.Awaiting?
    requires i < |ParkedCalls(world, visits[v].pass)| && ParkedCalls(world, visits[v].pass)[i].name != AWAIT_HUMAN
    ensures var p := visits[v].pass;
            && k < |p.ran| && i < |p.end.parked.pending| && p.end.parked.pending[i].output.Some?
            && IsRecord(p.ran[k], LastReply(p), i, ParkedCalls(world, p)[i], p.end.parked.pending[i].output.value)
    ensures forall u, j | 0 <= u < |visits| && 0 <= j < |visits[u].pass.ran| ::
              IsCallOf(visits[u].pass.ran[j], LastReply(visits[v].pass), i) ==> u == v && j == k
  {
    var p := visits[v].pass;
    assert VisitOk(world, visits, v);
    k := ParkedOnRecord(world, p, i);
    forall u, j | 0 <= u < |visits| && 0 <= j < |visits[u].pass.ran| && IsCallOf(visits[u].pass.ran[j], LastReply(p), i)
      ensures u == v && j == k
    {
      OnlyIn(world, visits, u, j, v);
      RanOnce(p.ran, j, k);
    }
  }

  /** An awaiting call of a parked turn is carried out in no pass. */
  lemma AwaitNeverRan(world: World, visits: seq<Visit>, v: nat, i: nat, u: nat, j: nat)
    requires AllVisitsOk(world, visits) && v < |visits| && visits[v].pass.chat.Sent? && visits[v].pass.end.Awaiting?
    requires i < |ParkedCalls(world, visits[v].pass)| && ParkedCalls(world, visits[v].pass)[i].name == AWAIT_HUMAN
    requires u < |visits| && j < |visits[u].pass.ran|
    ensures !IsCallOf(visits[u].pass.ran[j], LastReply(visits[v].pass), i)
  {
    assert VisitOk(world, visits, v) && VisitOk(world, visits, u);
    OnlyIn(world, visits, u, j, v);
    assert Genuine(world, visits[u].pass.script.session, visits[u].pass.ran[j]);
  }

  predicate IsCallOf(exec: Exec, stamp: int, index: nat) {
    exec.stamp == stamp && exec.index == index
  }

  /** A record with the last stamp of a pass is in that pass. */
  lemma OnlyIn(world: World, visits: seq<Visit>, u: nat, j: nat, v: nat)
    requires AllVisitsOk(world, visits) && u < |visits| && v < |visits| && j < |visits[u].pass.ran|
    ensures visits[u].pass.ran[j].stamp == LastReply(visits[v].pass) ==> u == v
  {
    assert VisitOk(world, visits, v);
    RecordsAreOfTheirPass(world, visits, u, j);
  }

  lemma ParkedOnRecord(world: World, p: Passage, i: nat) returns (k: nat)
    requires IsPassage(world, p) && p.end.Awaiting?
    requires i < |ParkedCalls(world, p)| && ParkedCalls(world, p)[i].name != AWAIT_HUMAN
    ensures k < |p.ran| && i < |p.end.parked.pending| && p.end.parked.pending[i].output.Some?
    ensures IsRecord(p.ran[k], LastReply(p), i, ParkedCalls(world, p)[i], p.end.parked.pending[i].output.value)
  {
    var calls, pending := ParkedCalls(world, p), p.end.parked.pending;
    assert ParkedAt(p.ran, LastReply(p), calls, pending, i);
    k :| 0 <= k < |p.ran| && IsRecord(p.ran[k], LastReply(p), i, calls[i], pending[i].output.value);
  }

  /**
   The first prompt of a resumed pass answers each call of the turn it was parked in:
   with the output on record for it in the parked pass, with the human's reply at the
   first await, and with an error at a later one. The pass goes on with the session,
   conversation and ledger that were parked.
   */
  lemma ResumedTurnIsTold(world: World, visits: seq<Visit>, v: nat, i: nat)
    requires AllVisitsOk(world, visits) && v < |visits| && visits[v].pass.chat.Sent? && visits[v].resumes.Some?
    ensures var r, p, first := visits[v].resumes.value, visits[v].pass, First(visits[v].pass.chat);
            && r.visit < v && visits[r.visit].pass.chat.Sent? && visits[r.visit].pass.end.Awaiting?
            && var q := visits[r.visit].pass;
               var calls := ParkedCalls(world, q);
               && p.script.session == q.script.session && p.script.history == q.end.parked.history
               && p.script.ledger == q.end.parked.ledger
               && first.User? && |first.items| == |calls|
               && (i < |calls| ==> Tells(calls, first.items, r.reply, i))
               && (i < |calls| && calls[i].name != AWAIT_HUMAN ==>
                     RanCall(q.ran, LastReply(q), i, calls[i], first.items[i].output))
  {
    assert VisitOk(world, visits, v);
    var r := visits[v].resumes.value;
    assert VisitOk(world, visits, r.visit);
    var q := visits[r.visit].pass;
    var calls := ParkedCalls(world, q);
    FilledLength(q.end.parked.pending, r.reply);
    if i < |calls| {
      FilledTells(calls, q.end.parked.pending, r.reply, i);
      if calls[i].name != AWAIT_HUMAN {
        var _ := ParkedOnRecord(world, q, i);
      }
    }
  }

  // ----- the turn budget over all passes of a session -----

  /** The requests of pass `i` and of the passes it resumes. */
  function Spent(visits: seq<Visit>, i: nat): nat
    requires i < |visits|
  {
    Count(visits[i].pass.chat) + if ResumesEarlier(visits, i) then Spent(visits, visits[i].resumes.value.visit) else 0
  }

  /** How often a frame without a turn left was resumed on the way to pass `i`. */
  function LateResumes(world: World, visits: seq<Visit>, i: nat): nat
    requires i < |visits|
  {
    if !ResumesEarlier(visits, i) then 0
    else
      var r := visits[i].resumes.value.visit;
      var end := visits[r].pass.end;
      LateResumes(world, visits, r) + if end.Awaiting? && end.parked.turnsUsed >= world.maxTurns then 1 else 0
  }

  predicate ResumesEarlier(visits: seq<Visit>, i: nat)
    requires i < |visits|
  {
    visits[i].resumes.Some? && visits[i].resumes.value.visit < i
  }

  /**
   A frame's turn count is within the limit, and is all its session has spent but one
   turn per resumption without one left.
   */
  lemma {:induction false} TurnsAddUp(world: World, visits: seq<Visit>, i: nat)
    requires AllVisitsOk(world, visits) && i < |visits| && visits[i].pass.end.Awaiting?
    ensures visits[i].pass.end.parked.turnsUsed + LateResumes(world, visits, i) == Spent(visits, i)
    ensures visits[i].pass.end.parked.turnsUsed <= world.maxTurns
    decreases i
  {
    assert VisitOk(world, visits, i);
    VisitStartsWell(world, visits, i);
    FramesAreResumable(world, visits[i].pass);
    if visits[i].resumes.Some? {
      TurnsAddUp(world, visits, visits[i].resumes.value.visit);
    }
  }

  // ----- the parked store -----

  ghost predicate HasFrame(frames: Frames, session: nat) {
    exists id :: id in frames && frames[id].session.id == session
  }

  /** The frame is what that pass left. */
  predicate Leaves(p: Passage, frame: Frame) {
    p.end == Awaiting(frame.parked) && p.script.session == frame.session
  }

  ghost predicate OkAt(frames: Frames, visits: seq<Visit>, origin: map<Id, nat>, id: Id) {
    id in frames ==> id in origin && origin[id] < |visits| && Leaves(visits[origin[id]].pass, frames[id])
  }

  /** Every frame is what some pass left. */
  ghost predicate AllFramesOk(frames: Frames, visits: seq<Visit>, origin: map<Id, nat>) {
    forall id {:trigger OkAt(frames, visits, origin, id)} :: OkAt(frames, visits, origin, id)
  }

  lemma OkWithOneMore(frames: Frames, visits: seq<Visit>, origin: map<Id, nat>, id: Id, frame: Frame, visit: nat)
    requires AllFramesOk(frames, visits, origin) && visit < |visits| && Leaves(visits[visit].pass, frame)
    ensures AllFramesOk(frames[id := frame], visits, origin[id := visit])
  {
    var frames', origin' := frames[id := frame], origin[id := visit];
    forall other ensures OkAt(frames', visits, origin', other) {
      assert OkAt(frames, visits, origin, other);
    }
  }

  lemma OkWithOneLess(frames: Frames, visits: seq<Visit>, origin: map<Id, nat>, id: Id)
    requires AllFramesOk(frames, visits, origin)
    ensures AllFramesOk(frames - {id}, visits, origin)
  {
    var frames' := frames - {id};
    forall other ensures OkAt(frames', visits, origin, other) {
      assert OkAt(frames, visits, origin, other);
    }
  }

  lemma OkWithMoreVisits(frames: Frames, visits: seq<Visit>, origin: map<Id, nat>, visit: Visit)
    requires AllFramesOk(frames, visits, origin)
    ensures AllFramesOk(frames, visits + [visit], origin)
  {
    var more := visits + [visit];
    forall id ensures OkAt(frames, more, origin, id) {
      assert OkAt(frames, visits, origin, id);
    }
  }

  // ----- how a call on the runner settles -----

  /** What a call reports, the store it leaves, and every state the store went through. */
  datatype Settled = Settled(outcome: Outcome, frames: Frames, states: seq<Frames>)

  /** A pass that awaits a human is stored under its fresh id, unless the clock or the store prevents it. */
  function Parks(frames: Frames, session: Session, end: LoopEnd, luck: Luck): Settled {
    match end
    case Awaiting(parked) =>
      var more := frames[luck.id := Frame(session, parked)];
      if luck.park.CutBefore? then Settled(TimedOut, frames, [])
      else if luck.park.ParkFailed? || luck.id in frames then Settled(Refused(ParkStore), frames, [])
      else Settled(if luck.park.CutAfter? then TimedOut else Suspended(luck.id), more, [more])
    case Answered(answer) => Settled(Completed(answer), frames, [])
    case Exhausted => Settled(NoResult, frames, [])
    case NoFileWrites => Settled(NoWrites, frames, [])
    case LoopError => Settled(Refused(LoopFailed), frames, [])
    case WallElapsed => Settled(TimedOut, frames, [])
    case Panicked => Settled(Refused(Crashed), frames, [])
  }

  /** A resumed frame goes only when its session completes or its next frame is stored. */
  function Finishes(frames: Frames, id: Id, session: Session, end: LoopEnd, luck: Luck): Settled {
    var s := Parks(frames, session, end, luck);
    if !s.outcome.Completed? && !s.outcome.Suspended? then s
    else if luck.remove.RemoveFailed? then s.(outcome := Refused(ParkStore))
    else
      var less := s.frames - {id};
      Settled(if luck.remove.Removed? then s.outcome else Refused(ParkStore), less, s.states + [less])
  }

  /**
   What a pass settles as: its answer, or why there is none; it is suspended only under
   a fresh id, once its frame is stored under it. Nothing else changes the store.
   */
  lemma ParksWhen(frames: Frames, session: Session, end: LoopEnd, luck: Luck)
    ensures var s := Parks(frames, session, end, luck);
            && (s.outcome.Completed? <==> end.Answered?) && (end.Answered? ==> s.outcome.answer == end.answer)
            && (s.outcome.NoResult? <==> end.Exhausted?) && (s.outcome.NoWrites? <==> end.NoFileWrites?)
            && (s.outcome == Refused(LoopFailed) <==> end.LoopError?) && (s.outcome == Refused(Crashed) <==> end.Panicked?)
            && (s.outcome.Suspended? <==> end.Awaiting? && luck.id !in frames && luck.park.Stored?)
            && (s.outcome.Suspended? ==> s.outcome.id == luck.id)
            && (s.outcome.Suspended? || s.frames != frames ==>
                  end.Awaiting? && luck.id !in frames && s.frames == frames[luck.id := Frame(session, end.parked)])
            && (end.Awaiting? && luck.id !in frames && luck.park.CutAfter? ==> s.frames != frames)
            && s.states == if s.frames == frames then [] else [s.frames]
  {
    if end.Awaiting? && luck.id !in frames {
      assert luck.id in frames[luck.id := Frame(session, end.parked)];
    }
  }

  /** A resumed frame goes exactly when its pass was answered or suspended anew and the store removed it. */
  lemma FrameGoesWhen(frames: Frames, id: Id, session: Session, end: LoopEnd, luck: Luck)
    requires id in frames
    ensures var s := Finishes(frames, id, session, end, luck);
            var again := end.Awaiting? && luck.id !in frames && luck.park.Stored?;
            && (id !in s.frames <==> (end.Answered? || again) && !luck.remove.RemoveFailed?)
            && (s.outcome.Completed? <==> end.Answered? && luck.remove.Removed?)
            && (s.outcome.Suspended? <==> again && luck.remove.Removed?)
            && (again ==> luck.id in s.frames && s.frames[luck.id] == Frame(session, end.parked))
            && (forall other | other in frames && other != id :: other in s.frames && s.frames[other] == frames[other])
  {
  }

  /** If the session had a frame before, it has one after and in every state of the store in between. */
  ghost predicate Safe(before: Frames, states: seq<Frames>, after: Frames, session: nat) {
    HasFrame(before, session) ==> HasFrame(after, session) && forall i | 0 <= i < |states| :: HasFrame(states[i], session)
  }

  /** Every session but those in `done` is safe. */
  ghost predicate AllSafe(before: Frames, states: seq<Frames>, after: Frames, done: set<nat>) {
    forall session {:trigger Safe(before, states, after, session)} | session !in done :: Safe(before, states, after, session)
  }

  /** Storing a frame under a new id keeps every session's frame. */
  lemma StoreKeeps(frames: Frames, id: Id, frame: Frame, session: nat)
    requires HasFrame(frames, session) && id !in frames
    ensures HasFrame(frames[id := frame], session)
  {
    var other :| other in frames && frames[other].session.id == session;
    assert frames[id := frame][other] == frames[other];
  }

  /** Removing a frame keeps the frames of other sessions. */
  lemma RemoveKeeps(frames: Frames, id: Id, session: nat)
    requires HasFrame(frames, session) && (id in frames ==> frames[id].session.id != session)
    ensures HasFrame(frames - {id}, session)
  {
    var other :| other in frames && frames[other].session.id == session;
    assert (frames - {id})[other] == frames[other];
  }

  /** Parking takes no session's frame. */
  lemma ParksIsSafe(frames: Frames, session: Session, end: LoopEnd, luck: Luck)
    ensures var s := Parks(frames, session, end, luck); AllSafe(frames, s.states, s.frames, {})
  {
    var s := Parks(frames, session, end, luck);
    forall other: nat ensures Safe(frames, s.states, s.frames, other) {
      if HasFrame(frames, other) && end.Awaiting? && luck.id !in frames {
        StoreKeeps(frames, luck.id, Frame(session, end.parked), other);
      }
    }
  }

  /** Resuming a frame takes no session's last frame, unless that session is answered. */
  lemma FinishesIsSafe(frames: Frames, id: Id, session: Session, end: LoopEnd, luck: Luck)
    requires id in frames && frames[id].session == session
    ensures var s := Finishes(frames, id, session, end, luck);
            AllSafe(frames, s.states, s.frames, if end.Answered? then {session.id} else {})
  {
    var p, s := Parks(frames, session, end, luck), Finishes(frames, id, session, end, luck);
    ParksIsSafe(frames, session, end, luck);
    forall other: nat | !(end.Answered? && other == session.id) ensures Safe(frames, s.states, s.frames, other) {
      assert Safe(frames, p.states, p.frames, other);
      if HasFrame(frames, other) && s.states != p.states {
        FrameSurvives(frames, id, session, end, luck, other);
      }
    }
  }

  lemma FrameSurvives(frames: Frames, id: Id, session: Session, end: LoopEnd, luck: Luck, other: nat)
    requires id in frames && frames[id].session == session
    requires var p := Parks(frames, session, end, luck);
             p.outcome.Suspended? || (p.outcome.Completed? && p.frames == frames && other != session.id)
    requires HasFrame(Parks(frames, session, end, luck).frames, other)
    ensures HasFrame(Parks(frames, session, end, luck).frames - {id}, other)
  {
    var p := Parks(frames, session, end, luck);
    if other == session.id {
      assert luck.id in p.frames - {id} && (p.frames - {id})[luck.id].session.id == other;
    } else {
      RemoveKeeps(p.frames, id, other);
    }
  }

  lemma SafeThen(before: Frames, first: seq<Frames>, middle: Frames, done: set<nat>,
                 second: seq<Frames>, after: Frames, more: set<nat>)
    requires AllSafe(before, first, middle, done) && AllSafe(middle, second, after, more)
    ensures AllSafe(before, first + second, after, done + more)
  {
    forall session: nat | session !in done + more ensures Safe(before, first + second, after, session) {
      assert Safe(before, first, middle, session) && Safe(middle, second, after, session);
    }
  }

  /** The sessions one of whose frames was resumed to an answer in these passes. */
  function Answerings(visits: seq<Visit>): set<nat> {
    set i | 0 <= i < |visits| && visits[i].resumes.Some? && visits[i].pass.end.Answered? :: visits[i].pass.script.session.id
  }

  lemma AnsweringsConcat(a: seq<Visit>, b: seq<Visit>)
    ensures Answerings(a + b) == Answerings(a) + Answerings(b)
  {
    var all := a + b;
    assert forall i | 0 <= i < |a| :: all[i] == a[i];
    assert forall i | 0 <= i < |b| :: all[|a| + i] == b[i];
  }

  /** Why a run is refused before anything is sent. */
  function RunRefusal(world: World, hasStore: bool, session: Session): Option<Refusal> {
    if session.declaresTools && !world.hasHost then Some(ToolsUnsupported)
    else if session.awaitEnabled && !hasStore then Some(AwaitUnsupported)
    else None
  }

  /** Why a resumption is refused before anything is sent. */
  function ResumeRefusal(world: World, hasStore: bool, frames: Frames, id: Id, luck: Luck): Option<Refusal> {
    if !hasStore then Some(AwaitUnsupported)
    else if luck.loadFails then Some(ParkStore)
    else if id !in frames then Some(UnknownCorrelation)
    else if frames[id].session.declaresTools && !world.hasHost then Some(ToolsUnsupported)
    else None
  }

  /** One call on a runner. */
  datatype Op = RunOp(session: Session, luck: Luck) | ResumeOp(id: Id, reply: string, luck: Luck)

  predicate IsOp(op: Op) {
    op.RunOp? ==> IsGoal(op.session.goal)
  }

  /** What a call came to: the pass it made, unless it was refused up front, and how it settled. */
  datatype Served = Served(visit: Option<Visit>, settled: Settled)

  /**
   A call made a pass of its own session, or of the frame and reply it names, and
   settled as that pass ended; or it was refused without effect.
   */
  ghost predicate ServedOk(world: World, hasStore: bool, visits: seq<Visit>, frames: Frames, op: Op, d: Served) {
    match op
    case RunOp(session, luck) =>
      var refusal := RunRefusal(world, hasStore, session);
      if refusal.Some? then d == Served(None, Settled(Refused(refusal.value), frames, []))
      else
        && d.visit.Some? && d.visit.value.resumes.None? && d.visit.value.pass.script.session == session
        && d.settled == Parks(frames, session, d.visit.value.pass.end, luck)
    case ResumeOp(id, reply, luck) =>
      var refusal := ResumeRefusal(world, hasStore, frames, id, luck);
      if refusal.Some? then d == Served(None, Settled(Refused(refusal.value), frames, []))
      else
        && d.visit.Some? && d.visit.value.resumes.Some? && d.visit.value.resumes.value.reply == reply
        && d.visit.value.resumes.value.visit < |visits|
        && Leaves(visits[d.visit.value.resumes.value.visit].pass, frames[id])
        && d.visit.value.pass.script.session == frames[id].session
        && d.settled == Finishes(frames, id, frames[id].session, d.visit.value.pass.end, luck)
  }

  function VisitOf(d: Served): seq<Visit> {
    if d.visit.Some? then [d.visit.value] else []
  }

  /** The passes and store states of a sequence of calls, and the store they leave. */
  function VisitsOf(served: seq<Served>): seq<Visit> {
    if served == [] then [] else VisitsOf(served[..|served| - 1]) + VisitOf(served[|served| - 1])
  }

  function StatesOf(served: seq<Served>): seq<Frames> {
    if served == [] then [] else StatesOf(served[..|served| - 1]) + served[|served| - 1].settled.states
  }

  function FramesAfter(frames: Frames, served: seq<Served>): Frames {
    if served == [] then frames else served[|served| - 1].settled.frames
  }

  lemma ServedSnoc(served: seq<Served>, d: Served)
    ensures VisitsOf(served + [d]) == VisitsOf(served) + VisitOf(d)
    ensures StatesOf(served + [d]) == StatesOf(served) + d.settled.states
  {
    assert (served + [d])[..|served|] == served;
  }

  ghost predicate ServedAt(world: World, hasStore: bool, visits: seq<Visit>, frames: Frames, ops: seq<Op>,
                           served: seq<Served>, n: nat)
    requires n < |ops| && n < |served|
  {
    ServedOk(world, hasStore, visits + VisitsOf(served[..n]), FramesAfter(frames, served[..n]), ops[n], served[n])
  }

  /** Each call was served, one after the other. */
  ghost predicate ServedAll(world: World, hasStore: bool, visits: seq<Visit>, frames: Frames, ops: seq<Op>,
                            served: seq<Served>)
  {
    && |served| <= |ops|
    && forall n {:trigger ServedAt(world, hasStore, visits, frames, ops, served, n)} | 0 <= n < |served| ::
         ServedAt(world, hasStore, visits, frames, ops, served, n)
  }

  lemma {:induction false} ServedAllSnoc(world: World, hasStore: bool, visits: seq<Visit>, frames: Frames, ops: seq<Op>,
                      served: seq<Served>, d: Served)
    requires ServedAll(world, hasStore, visits, frames, ops, served) && |served| < |ops|
    requires ServedOk(world, hasStore, visits + VisitsOf(served), FramesAfter(frames, served), ops[|served|], d)
    ensures ServedAll(world, hasStore, visits, frames, ops, served + [d])
  {
    var more := served + [d];
    forall n | 0 <= n < |more| ensures ServedAt(world, hasStore, visits, frames, ops, more, n) {
      assert more[..n] == served[..n];
      assert n < |served| ==> ServedAt(world, hasStore, visits, frames, ops, served, n);
      assert n == |served| ==> served[..n] == served;
    }
  }

  /** A call that was served takes no session's last frame, unless it resumed one of its frames to an answer. */
  lemma {:induction false} ServedIsSafe(world: World, hasStore: bool, visits: seq<Visit>, frames: Frames, op: Op, d: Served)
    requires ServedOk(world, hasStore, visits, frames, op, d)
    ensures AllSafe(frames, d.settled.states, d.settled.frames, Answerings(VisitOf(d)))
  {
    if d.visit.Some? {
      var visit, end := d.visit.value, d.visit.value.pass.end;
      match op
      case RunOp(session, luck) => ParksIsSafe(frames, session, end, luck);
      case ResumeOp(id, reply, luck) =>
        FinishesIsSafe(frames, id, frames[id].session, end, luck);
        assert end.Answered? ==> VisitOf(d)[0].pass.script.session.id in Answerings(VisitOf(d));
    }
  }

  lemma {:induction false} SafeServed(before: Frames, served: seq<Served>, middle: Frames, d: Served)
    requires AllSafe(before, StatesOf(served), middle, Answerings(VisitsOf(served)))
    requires AllSafe(middle, d.settled.states, d.settled.frames, Answerings(VisitOf(d)))
    ensures AllSafe(before, StatesOf(served + [d]), d.settled.frames, Answerings(VisitsOf(served + [d])))
  {
    ServedSnoc(served, d);
    SafeThen(before, StatesOf(served), middle, Answerings(VisitsOf(served)), d.settled.states, d.settled.frames,
             Answerings(VisitOf(d)));
    AnsweringsConcat(VisitsOf(served), VisitOf(d));
  }

  /** The calls so far were served, their outcomes are these, and every session was safe but those answered. */
  ghost predicate SoFar(world: World, hasStore: bool, visits: seq<Visit>, frames: Frames, ops: seq<Op>,
                        outcomes: seq<Outcome>, served: seq<Served>)
  {
    && ServedAll(world, hasStore, visits, frames, ops, served)
    && |outcomes| == |served| && (forall i | 0 <= i < |served| :: outcomes[i] == served[i].settled.outcome)
    && AllSafe(frames, StatesOf(served), FramesAfter(frames, served), Answerings(VisitsOf(served)))
  }

  lemma {:induction false} SoFarStep(world: World, hasStore: bool, visits: seq<Visit>, frames: Frames, ops: seq<Op>,
                  outcomes: seq<Outcome>, served: seq<Served>, outcome: Outcome, d: Served)
    requires SoFar(world, hasStore, visits, frames, ops, outcomes, served) && |served| < |ops|
    requires ServedOk(world, hasStore, visits + VisitsOf(served), FramesAfter(frames, served), ops[|served|], d)
    requires outcome == d.settled.outcome
    ensures SoFar(world, hasStore, visits, frames, ops, outcomes + [outcome], served + [d])
    ensures VisitsOf(served + [d]) == VisitsOf(served) + VisitOf(d)
    ensures StatesOf(served + [d]) == StatesOf(served) + d.settled.states
  {
    assert FramesAfter(frames, served + [d]) == d.settled.frames;
    ServedAllSnoc(world, hasStore, visits, frames, ops, served, d);
    ServedIsSafe(world, hasStore, visits + VisitsOf(served), FramesAfter(frames, served), ops[|served|], d);
    SafeServed(frames, served, FramesAfter(frames, served), d);
    ServedSnoc(served, d);
  }

  class Runner {
    const world: World
    const hasStore: bool
    var parked: Frames
    var requests: nat
    /** The pass that left each frame. */
    ghost var origin: map<Id, nat>
    ghost var visits: seq<Visit>
    /** The requests of each pass. */
    ghost var sent: seq<seq<seq<Msg>>>
    /** Every state of the parked store after the first. */
    ghost var trace: seq<Frames>

    ghost predicate Valid()
      reads this
    {
      && Faithful(world.codec) && AllVisitsOk(world, visits) && requests == NextStamp(visits)
      && AllFramesOk(parked, visits, origin) && SentAll()
    }

    /** What was sent is what the passes say. */
    ghost predicate SentAll()
      reads this`sent, this`visits
    {
      && |sent| == |visits|
      && forall i | 0 <= i < |visits| :: sent[i] == Requests(world, visits[i].pass.script, visits[i].pass.chat)
    }

    constructor (world: World, hasStore: bool)
      requires Faithful(world.codec)
      ensures Valid() && parked == map[] && visits == [] && trace == []
      ensures this.world == world && this.hasStore == hasStore
    {
      this.world, this.hasStore := world, hasStore;
      parked, requests := map[], 0;
      origin, visits, sent, trace := map[], [], [], [];
    }

    /** Drive the loop of one pass. */
    method Pass(script: Script, input: Msg)
      returns (end: LoopEnd, used: nat, ghost pass: Passage, ghost requested: seq<seq<Msg>>)
      requires Faithful(world.codec) && (script.history == [] ==> script.ledger == [])
      ensures IsPassage(world, pass) && pass.script == script && First(pass.chat) == input && pass.end == end
      ensures used == Count(pass.chat) && requested == Requests(world, script, pass.chat)
      ensures RanFrom(pass.ran, script.firstStamp)
    {
      var segment := new Segment(world, script, input);
      end := segment.Drive();
      used, pass, requested := segment.requests, segment.Passed(end), segment.sent;
      RanFromStart(world, pass);
    }

    /** One pass of a session, put on record. */
    method Enter(script: Script, input: Msg, ghost resumes: Option<Resumption>)
      returns (end: LoopEnd, ghost visit: Visit)
      requires Valid() && Begins(world, visits, script, input, resumes)
      requires script.history == [] ==> script.ledger == []
      modifies this`requests, this`visits, this`sent
      ensures Valid() && visits == old(visits) + [visit]
      ensures visit.pass.script == script && visit.pass.end == end && visit.resumes == resumes
      ensures RanFrom(visit.pass.ran, old(requests))
    {
      var driven, used, pass, requested := Pass(script, input);
      end := driven;
      visit := Visit(pass, resumes);
      VisitsSnoc(world, visits, visit);
      OkWithMoreVisits(parked, visits, origin, visit);
      requests := requests + used;
      sent := sent + [requested];
      visits := visits + [visit];
    }

    /** Store the frame of a pass that awaits a human; only then is its session suspended. */
    method Park(session: Session, end: LoopEnd, luck: Luck) returns (outcome: Outcome)
      requires Valid() && visits != []
      requires visits[|visits| - 1].pass.end == end && visits[|visits| - 1].pass.script.session == session
      modifies this`parked, this`origin, this`trace
      ensures Valid() && var s := Parks(old(parked), session, end, luck);
              outcome == s.outcome && parked == s.frames && trace == old(trace) + s.states
    {
      match end
      case Answered(answer) => outcome := Completed(answer);
      case Exhausted => outcome := NoResult;
      case NoFileWrites => outcome := NoWrites;
      case LoopError => outcome := Refused(LoopFailed);
      case WallElapsed => outcome := TimedOut;
      case Panicked => outcome := Refused(Crashed);
      case Awaiting(turn) =>
        if luck.park.CutBefore? {
          outcome := TimedOut;
        } else if luck.park.ParkFailed? || luck.id in parked {
          outcome := Refused(ParkStore);
        } else {
          OkWithOneMore(parked, visits, origin, luck.id, Frame(session, turn), |visits| - 1);
          parked := parked[luck.id := Frame(session, turn)];
          origin := origin[luck.id := |visits| - 1];
          trace := trace + [parked];
          outcome := if luck.park.CutAfter? then TimedOut else Suspended(luck.id);
        }
    }

    /** Run a session from its goal: refused up front, or one pass and how it settles. */
    method Run(session: Session, luck: Luck) returns (outcome: Outcome, ghost visit: Option<Visit>)
      requires Valid() && IsGoal(session.goal)
      modifies this
      ensures Valid()
      ensures visit.None? <==> (session.declaresTools && !world.hasHost) || (session.awaitEnabled && !hasStore)
      ensures visit.None? ==>
        && outcome == Refused(if session.declaresTools && !world.hasHost then ToolsUnsupported else AwaitUnsupported)
        && parked == old(parked) && visits == old(visits) && sent == old(sent) && trace == old(trace)
      ensures visit.Some? ==>
        && visits == old(visits) + [visit.value] && visit.value.pass.script.session == session && visit.value.resumes.None?
        && var s := Parks(old(parked), session, visit.value.pass.end, luck);
           outcome == s.outcome && parked == s.frames && trace == old(trace) + s.states
    {
      visit := None;
      var refusal := RunRefusal(world, hasStore, session);
      if refusal.Some? {
        outcome := Refused(refusal.value);
      } else {
        var end, entered := Enter(Script(session, requests, 0, [], []), session.goal, None);
        visit := Some(entered);
        outcome := Park(session, end, luck);
      }
    }

    /** One pass that takes up a stored frame with a human's reply. */
    method Continue(id: Id, reply: string) returns (end: LoopEnd, ghost visit: Visit)
      requires Valid() && id in parked
      modifies this`requests, this`visits, this`sent
      ensures Valid() && visits == old(visits) + [visit] && visit.pass.end == end
      ensures id in origin && visit.resumes == Some(Resumption(origin[id], reply))
      ensures visit.pass.script.session == parked[id].session && RanFrom(visit.pass.ran, old(requests))
    {
      var frame := parked[id];
      assert OkAt(parked, visits, origin, id);
      ghost var from := origin[id];
      assert VisitOk(world, visits, from);
      VisitStartsWell(world, visits, from);
      FrameContinues(world, visits[from].pass, reply);
      var input := ResumeInput(frame.parked.pending, reply);
      var start := StartTurn(world.maxTurns, frame.parked.turnsUsed);
      end, visit := Enter(Script(frame.session, requests, start, frame.parked.history, frame.parked.ledger),
                          input.value, Some(Resumption(from, reply)));
    }

    /** Resume a suspended session with a human's reply: refused up front, or one pass and how it settles. */
    method Resume(id: Id, reply: string, luck: Luck) returns (outcome: Outcome, ghost visit: Option<Visit>)
      requires Valid()
      modifies this
      ensures Valid()
      ensures visit.Some? <==>
        hasStore && !luck.loadFails && id in old(parked) && (old(parked)[id].session.declaresTools ==> world.hasHost)
      ensures visit.None? ==>
        && outcome == Refused(if !hasStore then AwaitUnsupported else if luck.loadFails then ParkStore
                              else if id !in old(parked) then UnknownCorrelation else ToolsUnsupported)
        && parked == old(parked) && visits == old(visits) && sent == old(sent) && trace == old(trace)
      ensures visit.Some? ==>
        && visits == old(visits) + [visit.value] && id in old(parked) && id in old(origin)
        && visit.value.resumes == Some(Resumption(old(origin)[id], reply))
        && visit.value.pass.script.session == old(parked)[id].session && RanFrom(visit.value.pass.ran, old(requests))
        && var s := Finishes(old(parked), id, old(parked)[id].session, visit.value.pass.end, luck);
           outcome == s.outcome && parked == s.frames && trace == old(trace) + s.states
      ensures visit.Some? && visit.value.pass.end.Answered? ==>
        && (outcome == Completed(visit.value.pass.end.answer) <==> luck.remove.Removed?)
        && (!outcome.Completed? && id !in parked <==> luck.remove.GoneThenError?)
      ensures outcome != Refused(ParkedSessionCorrupt)
    {
      visit := None;
      var refusal := ResumeRefusal(world, hasStore, parked, id, luck);
      if refusal.Some? {
        outcome := Refused(refusal.value);
      } else {
        var session := parked[id].session;
        var end, entered := Continue(id, reply);
        visit := Some(entered);
        outcome := Park(session, end, luck);
        if outcome.Completed? || outcome.Suspended? {
          var removed := Remove(id, luck.remove);
          outcome := if removed then outcome else Refused(ParkStore);
        }
      }
    }

    /** Ask the store to remove a frame; true if it says so. */
    method Remove(id: Id, reply: RemoveReply) returns (ok: bool)
      requires Valid()
      modifies this`parked, this`trace
      ensures Valid() && (ok <==> reply.Removed?)
      ensures if reply.RemoveFailed? then parked == old(parked) && trace == old(trace)
              else parked == old(parked) - {id} && trace == old(trace) + [parked]
    {
      ok := reply.Removed?;
      if !reply.RemoveFailed? {
        OkWithOneLess(parked, visits, origin, id);
        parked := parked - {id};
        trace := trace + [parked];
      }
    }

    /**
     Any sequence of calls, each served in turn: a session that has a frame keeps one,
     in every state of the store, until one of its frames is resumed to an answer.
     */
    method Serve(ops: seq<Op>) returns (outcomes: seq<Outcome>, ghost served: seq<Served>)
      requires Valid() && forall i | 0 <= i < |ops| :: IsOp(ops[i])
      modifies this
      ensures Valid() && |outcomes| == |served| == |ops|
      ensures ServedAll(world, hasStore, old(visits), old(parked), ops, served)
      ensures forall i | 0 <= i < |ops| :: outcomes[i] == served[i].settled.outcome
      ensures visits == old(visits) + VisitsOf(served) && trace == old(trace) + StatesOf(served)
      ensures parked == FramesAfter(old(parked), served)
      ensures AllSafe(old(parked), StatesOf(served), parked, Answerings(VisitsOf(served)))
    {
      outcomes, served := [], [];
      for n := 0 to |ops|
        invariant Valid() && |served| == n && SoFar(world, hasStore, old(visits), old(parked), ops, outcomes, served)
        invariant visits == old(visits) + VisitsOf(served) && trace == old(trace) + StatesOf(served)
        invariant parked == FramesAfter(old(parked), served)
      {
        var outcome, d := Perform(ops[n]);
        SoFarStep(world, hasStore, old(visits), old(parked), ops, outcomes, served, outcome, d);
        Regroup(old(visits), VisitsOf(served), VisitOf(d));
        Regroup(old(trace), StatesOf(served), d.settled.states);
        outcomes, served := outcomes + [outcome], served + [d];
      }
    }

    /** One call. */
    method Perform(op: Op) returns (outcome: Outcome, ghost d: Served)
      requires Valid() && IsOp(op)
      modifies this
      ensures Valid() && ServedOk(world, hasStore, old(visits), old(parked), op, d) && outcome == d.settled.outcome
      ensures visits == old(visits) + VisitOf(d) && trace == old(trace) + d.settled.states && parked == d.settled.frames
    {
      ghost var visit;
      match op {
        case RunOp(session, luck) =>
          outcome, visit := Run(session, luck);
          d := Served(visit, if visit.None? then Settled(outcome, parked, [])
                             else Parks(old(parked), session, visit.value.pass.end, luck));
        case ResumeOp(id, reply, luck) =>
          assert OkAt(parked, visits, origin, id);
          outcome, visit := Resume(id, reply, luck);
          d := Served(visit, if visit.None? then Settled(outcome, parked, [])
                             else Finishes(old(parked), id, old(parked)[id].session, visit.value.pass.end, luck));
      }
    }
  }
}
