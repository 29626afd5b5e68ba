/**
 Sessions that lose their answer: they await a human, are resumed, and answer; the
 store removes the frame and then reports an error.
 */
module LostAnswer {
  import opened Options
  import opened Contract
  import opened Conversation
  import opened Parking
  import opened Codecs
  import opened ToolRecord
  import opened Scripts
  import opened SessionRunner

  /** The first reply awaits a human, its other calls come back, and the second reply answers. */
  ghost predicate AsksThenAnswers(world: World, session: Session, answer: Answer) {
    && world.maxTurns > 0 && world.hasHost && IsGoal(session.goal) && !session.requiresFileWrite
    && Suspends(session, ReplyOf(world, 0)) && Returns(world, 0)
    && Offered(world, session, ReplyOf(world, 1), false) == Some(answer)
  }

  lemma FirstParks(world: World, session: Session, answer: Answer, visits: seq<Visit>)
    requires AsksThenAnswers(world, session, answer) && AllVisitsOk(world, visits) && |visits| == 1
    requires visits[0].resumes.None? && visits[0].pass.script.session == session
    ensures visits[0].pass.end.Awaiting? && NextStamp(visits) == 1
  {
    assert VisitOk(world, visits, 0);
    ParkedAtOnce(world, visits[0].pass);
  }

  lemma SecondAnswers(world: World, session: Session, answer: Answer, visits: seq<Visit>)
    requires AsksThenAnswers(world, session, answer) && AllVisitsOk(world, visits) && |visits| == 2
    requires visits[1].pass.script.session == session && visits[1].resumes.Some? && NextStamp(visits[..1]) == 1
    ensures visits[1].pass.end == Answered(answer)
  {
    assert VisitOk(world, visits, 1);
    AnsweredAtOnce(world, visits[1].pass);
  }

  /** The answer was given, the store holds nothing, and the caller sees a store error. */
  method Lose(world: World, session: Session, id: Id, reply: string, ghost answer: Answer)
    returns (runner: Runner, suspended: Outcome, resumed: Outcome)
    requires Faithful(world.codec) && AsksThenAnswers(world, session, answer)
    ensures runner.Valid() && suspended == Suspended(id) && resumed == Refused(ParkStore)
    ensures |runner.visits| == 2 && runner.visits[1].pass.end == Answered(answer) && runner.parked == map[]
  {
    runner := new Runner(world, true);
    var luck := Luck(id, Stored, false, GoneThenError);
    ghost var first, second;
    suspended, first := runner.Run(session, luck);
    FirstParks(world, session, answer, runner.visits);
    ghost var visits := runner.visits;
    resumed, second := runner.Resume(id, reply, luck);
    assert runner.visits[..1] == visits;
    SecondAnswers(world, session, answer, runner.visits);
  }

  const SESSION := Session(0, User([]), false, true, false, Shape([], map[]))
  const ANSWER := Answer(Success, Object(map[]))

  function Replies(n: nat): Reply {
    if n == 0 then Turn("", [ToolCall("call", AWAIT_HUMAN, "")], None) else Turn("", [], Some(ANSWER))
  }

  /** There is such a session. */
  lemma CanLose() returns (world: World)
    ensures Faithful(world.codec) && AsksThenAnswers(world, SESSION, ANSWER)
  {
    BracketsAreFaithful();
    world := World(1, 0, true, map[], _ => 0, Codec(EncodePair, DecodePair), _ => 0, _ => "", _ => None, _ => None,
                   _ => None, _ => [], [], Replies, _ => HostUnfinished);
    assert Awaits(Replies(0).calls) == 1;
  }
}
