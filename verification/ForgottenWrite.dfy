/**
 Sessions refused for missing writes although they wrote: the write was made before
 they were suspended, and a resumed pass counts its own writes only.
 */
module ForgottenWrite {
  import opened Options
  import opened Contract
  import opened Conversation
  import opened Parking
  import opened Codecs
  import opened ToolNames
  import opened ToolRecord
  import opened Scripts
  import opened SessionRunner

  /** The reply offers a conforming answer and asks for nothing. */
  ghost predicate JustAnswers(world: World, session: Session, stamp: nat) {
    var reply := ReplyOf(world, stamp);
    reply.Turn? && reply.calls == [] && reply.answer.Some? && Conforming(reply.answer.value.output, session.shape)
  }

  /** The first reply awaits a human and makes a write, call `i`; all later ones just answer. */
  ghost predicate WritesThenAnswers(world: World, session: Session, i: nat) {
    var reply := ReplyOf(world, 0);
    && world.maxTurns > 0 && world.hasHost && IsGoal(session.goal) && session.requiresFileWrite
    && Suspends(session, reply) && Returns(world, 0)
    && i < |reply.calls| && reply.calls[i].name != AWAIT_HUMAN && IsWriteTo(world, reply.calls[i].name)
    && Dispatch(world, 0, i, reply.calls[i]).HostOk?
    && forall stamp {:trigger JustAnswers(world, session, stamp)} | stamp > 0 :: JustAnswers(world, session, stamp)
  }

  lemma FirstWrites(world: World, session: Session, i: nat, visits: seq<Visit>) returns (k: nat)
    requires WritesThenAnswers(world, session, i) && AllVisitsOk(world, visits) && |visits| == 1
    requires visits[0].resumes.None? && visits[0].pass.script.session == session
    ensures visits[0].pass.end.Awaiting? && NextStamp(visits) == 1
    ensures k < |visits[0].pass.ran| && MadeWrite(world, visits[0].pass.ran[k])
  {
    var p := visits[0].pass;
    assert VisitOk(world, visits, 0);
    ParkedAtOnce(world, p);
    k := ParkedOnRecord(world, p, i);
    assert Genuine(world, session, p.ran[k]);
  }

  /** A pass in which every reply just answers, though writes are required, carries out nothing and is refused. */
  lemma AnswersAreRefused(world: World, p: Passage)
    requires IsPassage(world, p) && p.script.session.requiresFileWrite
    requires forall stamp {:trigger JustAnswers(world, p.script.session, stamp)} | stamp >= p.script.firstStamp ::
               JustAnswers(world, p.script.session, stamp)
    ensures p.ran == [] && p.end.NoFileWrites?
  {
    assert p.ran != [] ==>
      ToolRecord.Within(p.ran[0], p.script.firstStamp, p.script.firstStamp + Count(p.chat), 0)
      && Genuine(world, p.script.session, p.ran[0]) && JustAnswers(world, p.script.session, p.ran[0].stamp);
    assert JustAnswers(world, p.script.session, LastReply(p));
  }

  lemma SecondIsRefused(world: World, session: Session, i: nat, visits: seq<Visit>)
    requires WritesThenAnswers(world, session, i) && AllVisitsOk(world, visits) && |visits| == 2
    requires visits[1].pass.script.session == session && NextStamp(visits[..1]) == 1
    ensures visits[1].pass.end.NoFileWrites?
  {
    assert VisitOk(world, visits, 1);
    AnswersAreRefused(world, visits[1].pass);
  }

  /** The session made its write, is resumed, answers, and is refused for missing writes. */
  method Forget(world: World, session: Session, id: Id, reply: string, ghost i: nat)
    returns (runner: Runner, suspended: Outcome, resumed: Outcome, ghost k: nat)
    requires Faithful(world.codec) && WritesThenAnswers(world, session, i)
    ensures runner.Valid() && suspended == Suspended(id) && resumed == NoWrites && |runner.visits| == 2
    ensures k < |runner.visits[0].pass.ran| && MadeWrite(world, runner.visits[0].pass.ran[k])
  {
    runner := new Runner(world, true);
    var luck := Luck(id, Stored, false, Removed);
    ghost var first, second;
    suspended, first := runner.Run(session, luck);
    ghost var visits := runner.visits;
    k := FirstWrites(world, session, i, visits);
    resumed, second := runner.Resume(id, reply, luck);
    assert runner.visits[..1] == visits && runner.visits[0] == visits[0];
    SecondIsRefused(world, session, i, runner.visits);
  }

  const SESSION := Session(0, User([]), true, true, true, Shape([], map[]))

  function Replies(n: nat): Reply {
    if n == 0 then Turn("", [ToolCall("1", "write_file", ""), ToolCall("2", AWAIT_HUMAN, "")], None)
    else Turn("", [], Some(Answer(Success, Object(map[]))))
  }

  /** There is such a session. */
  lemma CanForget() returns (world: World)
    ensures Faithful(world.codec) && WritesThenAnswers(world, SESSION, 0)
  {
    BracketsAreFaithful();
    world := World(1, 0, true, map["write_file" := Route("fs", "write_file")], _ => 0, Codec(EncodePair, DecodePair),
                   _ => 0, _ => "", _ => None, _ => None, _ => None, _ => [], [], Replies, _ => HostOk([]));
    var calls := Replies(0).calls;
    assert Awaits(calls) == 1;
  }
}
