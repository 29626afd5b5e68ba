/**
 Overlapping calls on one parked store. Any number of runs and resumptions are under
 way at once; each event below is one operation of one of them on the store, or its
 pass coming to an end, and they interleave in any order. A call can stop at any point.
 */
module Suspensions {
  import opened Options
  import opened Contract
  import opened Parking
  import opened ToolRecord
  import opened SessionRunner

  /** Where a resumption is: it holds the frame it loaded, or is about to remove it. */
  datatype Caller = Resuming(id: Id, session: Session) | Removing(id: Id)

  /** The store and the calls; what was ever parked, the last frame of each session, and the sessions answered. */
  datatype State = State(
    frames: Frames, callers: map<nat, Caller>, ever: Frames, newest: map<nat, Id>, answered: set<nat>)

  const INITIAL := State(map[], map[], map[], map[], {})

  datatype Event =
    | Suspend(id: Id, frame: Frame)                  // a run parks its session
    | Load(caller: nat, id: Id)
    | Repark(caller: nat, id: Id, parked: Parked)    // the resumed pass awaits a human again
    | Finish(caller: nat)                            // the resumed pass answers
    | Remove(caller: nat)
    | Stop(caller: nat)                              // any other end, a failed operation, the clock

  function WithFrame(s: State, id: Id, frame: Frame): State {
    s.(frames := s.frames[id := frame], ever := s.ever[id := frame], newest := s.newest[frame.session.id := id])
  }

  function SetCaller(s: State, c: nat, now: Caller): State {
    s.(callers := s.callers[c := now])
  }

  function Gone(s: State, c: nat): State {
    s.(callers := s.callers - {c})
  }

  function Next(s: State, e: Event): State {
    match e
    case Suspend(id, frame) => if id in s.frames then s else WithFrame(s, id, frame)
    case Load(c, id) =>
      if c in s.callers || id !in s.frames then s else SetCaller(s, c, Resuming(id, s.frames[id].session))
    case Repark(c, id, parked) =>
      if c !in s.callers || !s.callers[c].Resuming? || id in s.frames then s
      else SetCaller(WithFrame(s, id, Frame(s.callers[c].session, parked)), c, Removing(s.callers[c].id))
    case Finish(c) =>
      if c !in s.callers || !s.callers[c].Resuming? then s
      else SetCaller(s, c, Removing(s.callers[c].id)).(answered := s.answered + {s.callers[c].session.id})
    case Remove(c) =>
      if c !in s.callers || !s.callers[c].Removing? then s
      else Gone(s.(frames := s.frames - {s.callers[c].id}), c)
    case Stop(c) => Gone(s, c)
  }

  function Play(s: State, events: seq<Event>): State {
    if events == [] then s else Next(Play(s, events[..|events| - 1]), events[|events| - 1])
  }

  /** The correlation id an event draws. */
  function Draws(e: Event): Option<Id> {
    match e
    case Suspend(id, _) => Some(id)
    case Repark(_, id, _) => Some(id)
    case _ => None
  }

  /** No correlation id is drawn twice. */
  predicate FreshIds(events: seq<Event>) {
    forall i, j | 0 <= i < j < |events| && Draws(events[i]).Some? :: Draws(events[i]) != Draws(events[j])
  }

  // ----- what every interleaving keeps -----

  /** A frame in the store is as it was parked. */
  ghost predicate FrameOk(s: State, id: Id) {
    id in s.frames ==> id in s.ever && s.ever[id] == s.frames[id]
  }

  /** Whose frame an id was. */
  function OwnerOf(s: State, id: Id): nat
    requires id in s.ever
  {
    s.ever[id].session.id
  }

  ghost predicate EverOk(s: State, id: Id) {
    id in s.ever ==> OwnerOf(s, id) in s.newest
  }

  /** The last frame of a session that was not answered is in the store. */
  ghost predicate NewestOk(s: State, session: nat) {
    session in s.newest ==>
      && s.newest[session] in s.ever && OwnerOf(s, s.newest[session]) == session
      && (session !in s.answered ==> s.newest[session] in s.frames)
  }

  /** A frame about to be removed is not its session's last, unless the session was answered. */
  ghost predicate CallerOk(s: State, c: nat) {
    c in s.callers ==>
      && s.callers[c].id in s.ever && OwnerOf(s, s.callers[c].id) in s.newest
      && (s.callers[c].Resuming? ==> OwnerOf(s, s.callers[c].id) == s.callers[c].session.id)
      && (s.callers[c].Removing? ==>
            OwnerOf(s, s.callers[c].id) in s.answered || s.newest[OwnerOf(s, s.callers[c].id)] != s.callers[c].id)
  }

  ghost predicate Inv(s: State) {
    && (forall id {:trigger FrameOk(s, id)} :: FrameOk(s, id))
    && (forall id {:trigger EverOk(s, id)} :: EverOk(s, id))
    && (forall session: nat {:trigger NewestOk(s, session)} :: NewestOk(s, session))
    && (forall c: nat {:trigger CallerOk(s, c)} :: CallerOk(s, c))
  }

  lemma ParkKeeps(s: State, id: Id, frame: Frame)
    requires Inv(s) && id !in s.ever
    ensures Inv(WithFrame(s, id, frame))
  {
    var s' := WithFrame(s, id, frame);
    forall x ensures FrameOk(s', x) && EverOk(s', x) {
      assert FrameOk(s, x) && EverOk(s, x);
    }
    forall session: nat ensures NewestOk(s', session) {
      assert NewestOk(s, session);
    }
    forall c: nat ensures CallerOk(s', c) {
      assert CallerOk(s, c);
    }
  }

  /** A caller may move on to remove its frame once that is not the last one, or its session was answered. */
  lemma CallerKeeps(s: State, c: nat, now: Caller, answered: set<nat>)
    requires Inv(s) && now.id in s.ever && s.answered <= answered
    requires now.Resuming? ==> OwnerOf(s, now.id) == now.session.id
    requires now.Removing? && OwnerOf(s, now.id) in s.newest ==>
      OwnerOf(s, now.id) in answered || s.newest[OwnerOf(s, now.id)] != now.id
    ensures Inv(SetCaller(s, c, now).(answered := answered))
  {
    var s' := SetCaller(s, c, now).(answered := answered);
    assert EverOk(s, now.id);
    forall x ensures FrameOk(s', x) && EverOk(s', x) {
      assert FrameOk(s, x) && EverOk(s, x);
    }
    forall session: nat ensures NewestOk(s', session) {
      assert NewestOk(s, session);
    }
    forall d: nat ensures CallerOk(s', d) {
      assert CallerOk(s, d);
    }
  }

  lemma RemoveKeeps(s: State, c: nat)
    requires Inv(s) && c in s.callers && s.callers[c].Removing?
    ensures Inv(Next(s, Remove(c)))
  {
    var s' := Next(s, Remove(c));
    assert CallerOk(s, c);
    forall x ensures FrameOk(s', x) && EverOk(s', x) {
      assert FrameOk(s, x) && EverOk(s, x);
    }
    forall session: nat ensures NewestOk(s', session) {
      assert NewestOk(s, session);
    }
    forall d: nat ensures CallerOk(s', d) {
      assert CallerOk(s, d);
    }
  }

  lemma StopKeeps(s: State, c: nat)
    requires Inv(s)
    ensures Inv(Gone(s, c))
  {
    var s' := Gone(s, c);
    forall x ensures FrameOk(s', x) && EverOk(s', x) {
      assert FrameOk(s, x) && EverOk(s, x);
    }
    forall session: nat ensures NewestOk(s', session) {
      assert NewestOk(s, session);
    }
    forall d: nat ensures CallerOk(s', d) {
      assert CallerOk(s, d);
    }
  }

  /** The new frame is stored before the old one may go, and is then its session's last. */
  lemma ReparkKeeps(s: State, c: nat, id: Id, parked: Parked)
    requires Inv(s) && c in s.callers && s.callers[c].Resuming? && id !in s.ever
    ensures Inv(Next(s, Repark(c, id, parked)))
  {
    assert CallerOk(s, c) && FrameOk(s, id);
    var mid := WithFrame(s, id, Frame(s.callers[c].session, parked));
    ParkKeeps(s, id, Frame(s.callers[c].session, parked));
    CallerKeeps(mid, c, Removing(s.callers[c].id), s.answered);
  }

  lemma EventKeeps(s: State, e: Event)
    requires Inv(s) && (Draws(e).Some? ==> Draws(e).value !in s.ever)
    ensures Inv(Next(s, e))
  {
    match e
    case Suspend(id, frame) =>
      ParkKeeps(s, id, frame);
    case Load(c, id) =>
      if c !in s.callers && id in s.frames {
        assert FrameOk(s, id);
        CallerKeeps(s, c, Resuming(id, s.frames[id].session), s.answered);
      }
    case Repark(c, id, parked) =>
      if c in s.callers && s.callers[c].Resuming? {
        ReparkKeeps(s, c, id, parked);
      }
    case Finish(c) =>
      if c in s.callers && s.callers[c].Resuming? {
        assert CallerOk(s, c);
        CallerKeeps(s, c, Removing(s.callers[c].id), s.answered + {s.callers[c].session.id});
      }
    case Remove(c) =>
      if c in s.callers && s.callers[c].Removing? {
        RemoveKeeps(s, c);
      }
    case Stop(c) =>
      StopKeeps(s, c);
  }

  /** Only drawn ids were ever parked. */
  lemma {:induction false} EverDrawn(events: seq<Event>, id: Id) returns (i: nat)
    requires id in Play(INITIAL, events).ever
    ensures i < |events| && Draws(events[i]) == Some(id)
  {
    var n := |events| - 1;
    if id in Play(INITIAL, events[..n]).ever {
      i := EverDrawn(events[..n], id);
    } else {
      i := n;
    }
  }

  lemma {:induction false} EveryInterleaving(events: seq<Event>)
    requires FreshIds(events)
    ensures Inv(Play(INITIAL, events))
  {
    if events == [] {
    } else {
      var n := |events| - 1;
      var before := events[..n];
      EveryInterleaving(before);
      if Draws(events[n]).Some? && Draws(events[n]).value in Play(INITIAL, before).ever {
        var i := EverDrawn(before, Draws(events[n]).value);
        assert false;
      }
      EventKeeps(Play(INITIAL, before), events[n]);
    }
  }

  /**
   However runs and resumptions overlap, and wherever they stop: a session that was
   ever suspended has its last frame in the store, as it was parked, until one of its
   frames is resumed to an answer.
   */
  lemma SuspendedKeepsFrame(events: seq<Event>, session: nat)
    requires FreshIds(events)
    ensures var s := Play(INITIAL, events);
            session in s.newest && session !in s.answered ==>
              && s.newest[session] in s.frames && s.newest[session] in s.ever
              && s.frames[s.newest[session]] == s.ever[s.newest[session]]
              && HasFrame(s.frames, session)
  {
    var s := Play(INITIAL, events);
    EveryInterleaving(events);
    assert NewestOk(s, session);
    if session in s.newest && session !in s.answered {
      assert FrameOk(s, s.newest[session]);
    }
  }

  // ----- calls as sequences of these events -----

  lemma PlaySnoc(s: State, events: seq<Event>, e: Event)
    ensures Play(s, events + [e]) == Next(Play(s, events), e)
  {
    assert (events + [e])[..|events|] == events;
  }

  /** How a resumption takes its frame out. */
  function Clears(c: nat, luck: Luck): Event {
    if luck.remove.RemoveFailed? then Stop(c) else Remove(c)
  }

  /** What a resumption does after it loaded its frame, if its pass ends so. */
  function AfterLoad(frames: Frames, c: nat, end: LoopEnd, luck: Luck): seq<Event> {
    match end
    case Awaiting(parked) =>
      if luck.park.CutBefore? || luck.park.ParkFailed? || luck.id in frames then [Stop(c)]
      else [Repark(c, luck.id, parked), if luck.park.CutAfter? then Stop(c) else Clears(c, luck)]
    case Answered(_) => [Finish(c), Clears(c, luck)]
    case _ => [Stop(c)]
  }

  lemma PlayLoaded(s: State, first: Event, rest: seq<Event>)
    requires 1 <= |rest| <= 2
    ensures Play(s, [first] + rest) ==
      if |rest| == 1 then Next(Next(s, first), rest[0]) else Next(Next(Next(s, first), rest[0]), rest[1])
  {
    PlaySnoc(s, [], first);
    PlaySnoc(s, [first], rest[0]);
    assert [] + [first] == [first] && [first] + [rest[0]] == [first, rest[0]];
    if |rest| == 1 {
      assert [first] + rest == [first, rest[0]];
    } else {
      PlaySnoc(s, [first, rest[0]], rest[1]);
      assert [first] + rest == [first, rest[0]] + [rest[1]];
    }
  }

  lemma CallerBack(callers: map<nat, Caller>, c: nat, x: Caller, y: Caller)
    requires c !in callers
    ensures callers[c := x] - {c} == callers && callers[c := x][c := y] == callers[c := y]
  {
  }

  lemma ClearedBy(s: State, c: nat, id: Id, luck: Luck)
    requires c !in s.callers
    ensures var after := Next(SetCaller(s, c, Removing(id)), Clears(c, luck));
            && after.callers == s.callers && after.answered == s.answered
            && after.frames == if luck.remove.RemoveFailed? then s.frames else s.frames - {id}
  {
    CallerBack(s.callers, c, Removing(id), Removing(id));
  }

  lemma ReparkedBy(s: State, c: nat, id: Id, parked: Parked, luck: Luck)
    requires c !in s.callers && id in s.frames && luck.id !in s.frames && (luck.park.Stored? || luck.park.CutAfter?)
    ensures var session := s.frames[id].session;
            var loaded := SetCaller(s, c, Resuming(id, session));
            var last := if luck.park.CutAfter? then Stop(c) else Clears(c, luck);
            var after := Next(Next(loaded, Repark(c, luck.id, parked)), last);
            && after.frames == Finishes(s.frames, id, session, Awaiting(parked), luck).frames
            && after.callers == s.callers && after.answered == s.answered
  {
    var session := s.frames[id].session;
    var stored := WithFrame(s, luck.id, Frame(session, parked));
    CallerBack(s.callers, c, Resuming(id, session), Removing(id));
    CallerBack(s.callers, c, Removing(id), Removing(id));
    assert Next(SetCaller(s, c, Resuming(id, session)), Repark(c, luck.id, parked)) == SetCaller(stored, c, Removing(id));
    ClearedBy(stored, c, id, luck);
  }

  lemma AnsweredBy(s: State, c: nat, id: Id, answer: Answer, luck: Luck)
    requires c !in s.callers && id in s.frames
    ensures var session := s.frames[id].session;
            var after := Next(Next(SetCaller(s, c, Resuming(id, session)), Finish(c)), Clears(c, luck));
            && after.frames == Finishes(s.frames, id, session, Answered(answer), luck).frames
            && after.callers == s.callers && after.answered == s.answered + {session.id}
  {
    var session := s.frames[id].session;
    var told := s.(answered := s.answered + {session.id});
    CallerBack(s.callers, c, Resuming(id, session), Removing(id));
    assert Next(SetCaller(s, c, Resuming(id, session)), Finish(c)) == SetCaller(told, c, Removing(id));
    ClearedBy(told, c, id, luck);
  }

  /** A resumption that nothing interrupts leaves the store as `Runner.Resume` says, in these steps. */
  lemma ResumeIsSteps(s: State, c: nat, id: Id, end: LoopEnd, luck: Luck)
    requires c !in s.callers && id in s.frames
    ensures var session := s.frames[id].session;
            var after := Play(s, [Load(c, id)] + AfterLoad(s.frames, c, end, luck));
            && after.frames == Finishes(s.frames, id, session, end, luck).frames && after.callers == s.callers
            && after.answered == s.answered + if end.Answered? then {session.id} else {}
  {
    var session, rest := s.frames[id].session, AfterLoad(s.frames, c, end, luck);
    PlayLoaded(s, Load(c, id), rest);
    assert Next(s, Load(c, id)) == SetCaller(s, c, Resuming(id, session));
    if |rest| == 1 {
      CallerBack(s.callers, c, Resuming(id, session), Removing(id));
    } else if end.Answered? {
      AnsweredBy(s, c, id, end.answer, luck);
    } else {
      ReparkedBy(s, c, id, end.parked, luck);
    }
  }

  /** So does a run. */
  lemma RunIsSteps(s: State, session: Session, end: LoopEnd, luck: Luck)
    ensures var after := Play(s, if end.Awaiting? && !luck.park.CutBefore? && !luck.park.ParkFailed?
                                 then [Suspend(luck.id, Frame(session, end.parked))] else []);
            after.frames == Parks(s.frames, session, end, luck).frames && after.callers == s.callers
  {
    if end.Awaiting? {
      PlaySnoc(s, [], Suspend(luck.id, Frame(session, end.parked)));
      assert [] + [Suspend(luck.id, Frame(session, end.parked))] == [Suspend(luck.id, Frame(session, end.parked))];
    }
  }

  // ----- why ids must not be drawn twice -----

  /** Two resumptions of one frame answer; the second removal comes after the id was drawn again, for another session. */
  function Reuse(id: Id, f: Frame, g: Frame): seq<Event> {
    [Suspend(id, f), Load(0, id), Load(1, id), Finish(0), Finish(1), Remove(0), Suspend(id, g), Remove(1)]
  }

  lemma {:induction false} PlayStep(s: State, es: seq<Event>, n: nat, now: State)
    requires n < |es| && Play(s, es[..n]) == now
    ensures Play(s, es[..n + 1]) == Next(now, es[n])
  {
    assert es[..n + 1][..n] == es[..n];
  }

  function BothLoaded(id: Id, f: Frame): State {
    State(map[id := f], map[0 := Resuming(id, f.session), 1 := Resuming(id, f.session)], map[id := f],
          map[f.session.id := id], {})
  }

  lemma LoadBoth(id: Id, f: Frame)
    ensures Next(Next(Next(INITIAL, Suspend(id, f)), Load(0, id)), Load(1, id)) == BothLoaded(id, f)
  {
  }

  function BothRemoving(id: Id, f: Frame): State {
    BothLoaded(id, f).(callers := map[0 := Removing(id), 1 := Removing(id)], answered := {f.session.id})
  }

  lemma FinishBoth(id: Id, f: Frame)
    ensures Next(Next(BothLoaded(id, f), Finish(0)), Finish(1)) == BothRemoving(id, f)
  {
    var one := Next(BothLoaded(id, f), Finish(0));
    assert one.callers == map[0 := Removing(id), 1 := Resuming(id, f.session)];
    assert Next(one, Finish(1)).callers == map[0 := Removing(id), 1 := Removing(id)];
  }

  lemma RemoveBoth(id: Id, f: Frame, g: Frame)
    requires f.session.id != g.session.id
    ensures var s := Next(Next(Next(BothRemoving(id, f), Remove(0)), Suspend(id, g)), Remove(1));
            s.frames == map[] && g.session.id in s.newest && g.session.id !in s.answered
  {
    var one := Next(BothRemoving(id, f), Remove(0));
    assert one.frames == map[] && one.callers == map[1 := Removing(id)];
    assert Next(one, Suspend(id, g)) == WithFrame(one, id, g);
  }

  lemma {:induction false} PlayTo(s: State, es: seq<Event>, n: nat, k: nat, now: State)
    requires n + k <= |es| && Play(s, es[..n]) == now
    ensures k == 2 ==> Play(s, es[..n + 2]) == Next(Next(now, es[n]), es[n + 1])
    ensures k == 3 ==> Play(s, es[..n + 3]) == Next(Next(Next(now, es[n]), es[n + 1]), es[n + 2])
  {
    if k >= 2 {
      PlayStep(s, es, n, now);
      PlayStep(s, es, n + 1, Next(now, es[n]));
    }
    if k == 3 {
      PlayStep(s, es, n + 2, Next(Next(now, es[n]), es[n + 1]));
    }
  }

  lemma {:induction false} ReuseStarts(id: Id, f: Frame, g: Frame)
    ensures Play(INITIAL, Reuse(id, f, g)[..3]) == BothLoaded(id, f)
  {
    var es := Reuse(id, f, g);
    assert es[..0] == [];
    LoadBoth(id, f);
    PlayTo(INITIAL, es, 0, 3, INITIAL);
  }

  lemma {:induction false} ReuseGoesOn(id: Id, f: Frame, g: Frame)
    ensures Play(INITIAL, Reuse(id, f, g)[..5]) == BothRemoving(id, f)
  {
    ReuseStarts(id, f, g);
    FinishBoth(id, f);
    PlayTo(INITIAL, Reuse(id, f, g), 3, 2, BothLoaded(id, f));
  }

  /** If an id is drawn twice, a session that was suspended and never answered can be left without a frame. */
  lemma {:induction false} ReusedIdLoses(id: Id, f: Frame, g: Frame)
    requires f.session.id != g.session.id
    ensures var s := Play(INITIAL, Reuse(id, f, g));
            && !FreshIds(Reuse(id, f, g))
            && g.session.id in s.newest && g.session.id !in s.answered && !HasFrame(s.frames, g.session.id)
  {
    var es := Reuse(id, f, g);
    assert Draws(es[0]) == Draws(es[6]) == Some(id);
    assert es[..8] == es;
    ReuseGoesOn(id, f, g);
    RemoveBoth(id, f, g);
    PlayTo(INITIAL, es, 5, 3, BothRemoving(id, f));
  }
}
