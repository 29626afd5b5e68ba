/**
 What a pass through the tool loop says and sends, as a function of the prompts
 exchanged and of the provider's replies; and which passes are possible.
 */
module Scripts {
  import opened Options
  import opened Contract
  import Spill
  import opened Conversation
  import opened Parking
  import opened ToolRecord

  const MAX_WRITE_NUDGES: nat := 2

  // ----- the history budget -----

  /** What is re-sent: the history, and the ledger of what was elided from it. */
  datatype Talk = Talk(history: seq<Msg>, ledger: seq<Line>)

  function LineFor(world: World, index: nat, assistant: Msg, user: Msg): Line {
    Line(index, if assistant.Assistant? then assistant.calls else [], world.size(Serialized(user)),
         world.hash(world.codec.encode(Pair(assistant, user))))
  }

  /** The oldest turn-pair becomes a ledger line. */
  function ElideOne(world: World, t: Talk): Talk
    requires |t.history| >= 3
  {
    Talk(Elided(t.history, 1), t.ledger + [LineFor(world, |t.ledger| + 1, t.history[1], t.history[2])])
  }

  function Drained(world: World, t: Talk, low: nat): Talk
    decreases |t.history|
  {
    if Bytes(t.history, world.size) > low && |t.history| > KEEP_RECENT + 1 then Drained(world, ElideOne(world, t), low)
    else t
  }

  /** Nothing within the budget; down to low water, or five messages, beyond it. */
  function Trimmed(world: World, t: Talk): Talk {
    if Bytes(t.history, world.size) <= world.budget then t else Drained(world, t, LowWater(world.budget))
  }

  /**
   The history guard: afterwards the bytes fit the budget or at most five messages
   remain; `k` pairs went, no more than it takes to reach low water; and the goal and
   three messages are left exactly when the history drains to them.
   */
  lemma TrimmedFits(world: World, t: Talk) returns (k: nat)
    ensures var r := Trimmed(world, t);
            && Shrunk(t.history, t.ledger, r.history, r.ledger, k)
            && (Bytes(r.history, world.size) <= world.budget || |r.history| <= KEEP_RECENT + 1)
            && (k > 0 ==> Bytes(t.history, world.size) > world.budget)
            && (k > 0 ==> Bytes(r.history, world.size) <= LowWater(world.budget) || |r.history| <= KEEP_RECENT + 1)
            && NoneToSpare(t.history, k, world.size, LowWater(world.budget))
            && (k > 0 && |r.history| == KEEP_RECENT <==> DrainsToFour(t.history, world.budget, world.size))
  {
    k := 0;
    if Bytes(t.history, world.size) > world.budget {
      k := DrainedShrinks(world, t, t, 0, LowWater(world.budget));
    }
    var r := Trimmed(world, t);
    DrainsWhen(t.history, t.ledger, r.history, r.ledger, k, world.budget, world.size);
  }

  lemma {:induction false} DrainedShrinks(world: World, t: Talk, r: Talk, k: nat, low: nat) returns (n: nat)
    requires Shrunk(t.history, t.ledger, r.history, r.ledger, k) && NoneToSpare(t.history, k, world.size, low)
    ensures var d := Drained(world, r, low);
            && Shrunk(t.history, t.ledger, d.history, d.ledger, n) && NoneToSpare(t.history, n, world.size, low)
            && (Bytes(d.history, world.size) <= low || |d.history| <= KEEP_RECENT + 1)
    decreases |r.history|
  {
    if Bytes(r.history, world.size) > low && |r.history| > KEEP_RECENT + 1 {
      ElisionShrinks(world, t, r, k, low);
      n := DrainedShrinks(world, t, ElideOne(world, r), k + 1, low);
    } else {
      n := k;
    }
  }

  lemma ElisionShrinks(world: World, t: Talk, r: Talk, k: nat, low: nat)
    requires |r.history| > KEEP_RECENT + 1 && Bytes(r.history, world.size) > low
    requires Shrunk(t.history, t.ledger, r.history, r.ledger, k) && NoneToSpare(t.history, k, world.size, low)
    ensures var e := ElideOne(world, r);
            Shrunk(t.history, t.ledger, e.history, e.ledger, k + 1) && NoneToSpare(t.history, k + 1, world.size, low)
    ensures Drained(world, r, low) == Drained(world, ElideOne(world, r), low)
  {
    var line := LineFor(world, |r.ledger| + 1, r.history[1], r.history[2]);
    ShrunkFurther(t.history, t.ledger, r.history, r.ledger, k, line, world.size, low);
  }

  // ----- what is said and sent -----

  /** Where a pass starts: the session, its first reply's number, its first turn, and the conversation so far. */
  datatype Script = Script(session: Session, firstStamp: nat, start: nat, history: seq<Msg>, ledger: seq<Line>)

  /** How many turns of the loop there are, before the sign-off. */
  function Turns(world: World, c: Script): nat {
    if c.start < world.maxTurns then world.maxTurns - c.start else 0
  }

  /** What was sent so far, the last request outermost: the talk as it was then, and the prompt. */
  datatype Chat = Start | Sent(before: Chat, talk: Talk, prompt: Msg)

  function Count(chat: Chat): nat {
    match chat
    case Start => 0
    case Sent(before, _, _) => Count(before) + 1
  }

  function First(chat: Chat): Msg
    requires chat.Sent?
  {
    if chat.before.Sent? then First(chat.before) else chat.prompt
  }

  /** The reply to the `i`-th request. */
  function ReplyTo(world: World, c: Script, i: nat): Reply {
    ReplyOf(world, c.firstStamp + i)
  }

  /** The assistant message that records a reply. */
  function TurnOf(world: World, reply: Reply): Msg {
    if !reply.Turn? then Assistant("", [])
    else if reply.answer.Some? then Assistant(Spelled(world, reply.answer.value.output), [])
    else if reply.calls == [] then Assistant(if reply.text == "" then "(no content)" else reply.text, [])
    else Assistant(reply.text, reply.calls)
  }

  /** The talk after the last reply was recorded. */
  function After(world: World, c: Script, chat: Chat): Talk {
    match chat
    case Start => Talk(c.history, c.ledger)
    case Sent(before, t, prompt) =>
      Talk(t.history + [prompt, TurnOf(world, ReplyTo(world, c, Count(before)))], t.ledger)
  }

  /** The talk as it is sent next: trimmed in the loop, as it is for the sign-off. */
  function NextTalk(world: World, c: Script, chat: Chat): Talk {
    if Count(chat) < Turns(world, c) then Trimmed(world, After(world, c, chat)) else After(world, c, chat)
  }

  predicate PartOf(x: Chat, chat: Chat) {
    x == chat || (chat.Sent? && PartOf(x, chat.before))
  }

  ghost predicate Opens(world: World, c: Script, x: Chat) {
    x.Sent? ==> x.talk == NextTalk(world, c, x.before)
  }

  /** Every request was sent with the talk of its time. */
  ghost predicate AllOpen(world: World, c: Script, chat: Chat) {
    forall x {:trigger Opens(world, c, x)} | PartOf(x, chat) :: Opens(world, c, x)
  }

  lemma {:induction false} OpenSnoc(world: World, c: Script, before: Chat, prompt: Msg)
    requires AllOpen(world, c, before)
    ensures AllOpen(world, c, Sent(before, NextTalk(world, c, before), prompt))
  {
  }

  lemma {:induction false} OpenBefore(world: World, c: Script, chat: Chat)
    requires AllOpen(world, c, chat) && chat.Sent?
    ensures AllOpen(world, c, chat.before) && chat.talk == NextTalk(world, c, chat.before)
  {
    assert Opens(world, c, chat);
  }

  /** The last request: in the loop the ledger rides on the prompt. */
  function LastRequest(world: World, c: Script, chat: Chat): seq<Msg>
    requires chat.Sent?
  {
    var t, looping := chat.talk, Count(chat.before) < Turns(world, c);
    t.history + [if looping then WithLedger(chat.prompt, t.ledger) else chat.prompt]
  }

  function Requests(world: World, c: Script, chat: Chat): seq<seq<Msg>> {
    if chat.Start? then [] else Requests(world, c, chat.before) + [LastRequest(world, c, chat)]
  }

  /** Everything said: the conversation at the start, then each prompt and the turn that answered it. */
  function LogAfter(world: World, c: Script, chat: Chat): seq<Msg> {
    match chat
    case Start => c.history
    case Sent(before, _, prompt) =>
      LogAfter(world, c, before) + [prompt, TurnOf(world, ReplyTo(world, c, Count(before)))]
  }

  /**
   How a reply is put on record: an answer as its output spelled out, words alone as
   they are, and calls with the words they came with.
   */
  predicate RecordsReply(world: World, reply: Reply, turn: Msg) {
    && turn.Assistant?
    && (reply.Turn? ==>
          match reply.answer
          case Some(answer) => turn.text == world.spell(answer.output) && turn.calls == []
          case None =>
            && turn.calls == reply.calls
            && (reply.calls != [] || reply.text != "" ==> turn.text == reply.text)
            && (reply.calls == [] && reply.text == "" ==> turn.text == "(no content)"))
  }

  /**
   The log of a pass is what was said before it, then each prompt, in the order sent,
   and after it the record of the reply to it.
   */
  lemma {:induction false} LogRecords(world: World, c: Script, chat: Chat, i: nat) returns (x: Chat)
    requires i < Count(chat)
    ensures PartOf(x, chat) && x.Sent? && Count(x.before) == i
    ensures var log, at := LogAfter(world, c, chat), |c.history| + 2 * i;
            && |log| == |c.history| + 2 * Count(chat) && log[..|c.history|] == c.history
            && log[at] == x.prompt && RecordsReply(world, ReplyOf(world, c.firstStamp + i), log[at + 1])
    decreases chat
  {
    if i < Count(chat.before) {
      x := LogRecords(world, c, chat.before, i);
    } else {
      x := chat;
      LogGrows(world, c, chat.before);
    }
  }

  lemma {:induction false} LogGrows(world: World, c: Script, chat: Chat)
    ensures var log := LogAfter(world, c, chat); |log| == |c.history| + 2 * Count(chat) && log[..|c.history|] == c.history
    decreases chat
  {
    match chat
    case Start =>
    case Sent(before, _, _) => LogGrows(world, c, before);
  }

  // ----- how a pass goes on -----

  /** The answer a reply offers: its own if it conforms; in the loop, also one salvaged from words alone. */
  ghost function Offered(world: World, session: Session, reply: Reply, signing: bool): Option<Answer> {
    if !reply.Turn? then None
    else if reply.answer.Some? then
      if Conforming(reply.answer.value.output, session.shape) then reply.answer else None
    else if reply.calls == [] && !signing then Salvaged(Extracted(world, reply.text), session.shape, world.envelope)
    else None
  }

  /** No call asked for before reply `stamp` counted as a write. */
  ghost predicate NoWriteBefore(ran: seq<Exec>, stamp: nat) {
    forall k {:trigger NoWriteAt(ran, stamp, k)} | 0 <= k < |ran| :: NoWriteAt(ran, stamp, k)
  }

  predicate NoWriteAt(ran: seq<Exec>, stamp: nat, k: nat)
    requires k < |ran|
  {
    ran[k].stamp < stamp ==> !ran[k].evidence
  }

  const NUDGE := User([Prose(WriteEvidence)])

  predicate AsksTools(reply: Reply) {
    reply.Turn? && reply.answer.None? && reply.calls != []
  }

  /**
   `next` is what reply `stamp` is met with: the reminder to write if it offered an
   answer and writes are required, the output contract if it offered none, and
   otherwise one item for each of the calls it asked for.
   */
  ghost predicate Meets(world: World, session: Session, stamp: nat, next: Msg) {
    var reply := ReplyOf(world, stamp);
    && reply.Turn?
    && if Offered(world, session, reply, false).Some? then next == NUDGE && session.requiresFileWrite
       else if !AsksTools(reply) then next == User([Prose(Feedback(session.shape))])
       else !Suspends(session, reply) && world.hasHost && next.User? && |next.items| == |reply.calls|
  }

  /** A reminder is sent before any write, and the items are the results of their calls. */
  ghost predicate OnRecord(ran: seq<Exec>, stamp: nat, reply: Reply, next: Msg) {
    && (IsNudge(next) ==> NoWriteBefore(ran, stamp))
    && (AsksTools(reply) && next.User? ==> Realized(ran, stamp, reply.calls, next.items))
  }

  /** `next` is the prompt that follows up on reply `stamp`. */
  ghost predicate FollowsUp(world: World, session: Session, ran: seq<Exec>, stamp: nat, next: Msg) {
    Meets(world, session, stamp, next) && OnRecord(ran, stamp, ReplyOf(world, stamp), next)
  }

  ghost predicate MeetsAt(world: World, c: Script, x: Chat) {
    x.Sent? && x.before.Sent? ==> Meets(world, c.session, c.firstStamp + Count(x.before) - 1, x.prompt)
  }

  ghost predicate RecordedAt(world: World, c: Script, ran: seq<Exec>, x: Chat) {
    x.Sent? && x.before.Sent? ==>
      var stamp := c.firstStamp + Count(x.before) - 1; OnRecord(ran, stamp, ReplyOf(world, stamp), x.prompt)
  }

  ghost predicate FollowsAt(world: World, c: Script, ran: seq<Exec>, x: Chat) {
    MeetsAt(world, c, x) && RecordedAt(world, c, ran, x)
  }

  /** Every prompt after the first follows up on the reply to the one before. */
  ghost predicate FollowsAll(world: World, c: Script, ran: seq<Exec>, chat: Chat) {
    && (forall x {:trigger MeetsAt(world, c, x)} | PartOf(x, chat) :: MeetsAt(world, c, x))
    && (forall x {:trigger RecordedAt(world, c, ran, x)} | PartOf(x, chat) :: RecordedAt(world, c, ran, x))
  }

  lemma {:induction false} FollowsBefore(world: World, c: Script, ran: seq<Exec>, chat: Chat)
    requires FollowsAll(world, c, ran, chat) && chat.Sent?
    ensures FollowsAll(world, c, ran, chat.before) && FollowsAt(world, c, ran, chat)
  {
  }

  lemma {:induction false} FollowsSnoc(world: World, c: Script, ran: seq<Exec>, chat: Chat)
    requires chat.Sent? && FollowsAll(world, c, ran, chat.before) && FollowsAt(world, c, ran, chat)
    ensures FollowsAll(world, c, ran, chat)
  {
  }

  /** Whether the last prompt follows up does not depend on the talk it is sent with. */
  lemma {:induction false} FollowsRetold(world: World, c: Script, ran: seq<Exec>, before: Chat, t: Talk, t': Talk,
                                         prompt: Msg)
    requires FollowsAll(world, c, ran, Sent(before, t, prompt))
    ensures FollowsAll(world, c, ran, Sent(before, t', prompt))
  {
    FollowsBefore(world, c, ran, Sent(before, t, prompt));
    FollowsSnoc(world, c, ran, Sent(before, t', prompt));
  }

  lemma NoWriteStays(before: seq<Exec>, ran: seq<Exec>, later: nat, stamp: nat)
    requires NoWriteBefore(before, stamp) && RanSince(before, ran, later) && stamp <= later
    ensures NoWriteBefore(ran, stamp)
  {
    forall k | 0 <= k < |ran| ensures NoWriteAt(ran, stamp, k) {
      assert k < |before| ==> NoWriteAt(before, stamp, k) && ran[k] == before[k];
      assert k >= |before| ==> RanIn(ran, later, k);
    }
  }

  /** The record may grow by later calls. */
  lemma OnRecordStays(before: seq<Exec>, ran: seq<Exec>, later: nat, stamp: nat, reply: Reply, next: Msg)
    requires OnRecord(before, stamp, reply, next) && RanSince(before, ran, later) && stamp <= later
    ensures OnRecord(ran, stamp, reply, next)
  {
    if IsNudge(next) {
      NoWriteStays(before, ran, later, stamp);
    }
    if AsksTools(reply) && next.User? {
      RealizedGrows(before, ran[|before|..], stamp, reply.calls, next.items);
      assert ran == before + ran[|before|..];
    }
  }

  lemma {:induction false} RecordStays(world: World, c: Script, before: seq<Exec>, ran: seq<Exec>, later: nat, x: Chat)
    requires RecordedAt(world, c, before, x) && RanSince(before, ran, later) && c.firstStamp + Count(x) <= later + 1
    ensures RecordedAt(world, c, ran, x)
  {
    if x.Sent? && x.before.Sent? {
      var stamp := c.firstStamp + Count(x.before) - 1;
      OnRecordStays(before, ran, later, stamp, ReplyOf(world, stamp), x.prompt);
    }
  }

  lemma {:induction false} PartIsShorter(x: Chat, chat: Chat)
    requires PartOf(x, chat)
    ensures Count(x) <= Count(chat)
    decreases chat
  {
    if x != chat {
      PartIsShorter(x, chat.before);
    }
  }

  lemma {:induction false} FollowsAllSince(world: World, c: Script, before: seq<Exec>, ran: seq<Exec>, stamp: nat,
                                           chat: Chat)
    requires FollowsAll(world, c, before, chat) && RanSince(before, ran, stamp) && c.firstStamp + Count(chat) <= stamp + 1
    ensures FollowsAll(world, c, ran, chat)
  {
    forall x | PartOf(x, chat) ensures RecordedAt(world, c, ran, x) {
      PartIsShorter(x, chat);
      assert RecordedAt(world, c, before, x);
      RecordStays(world, c, before, ran, stamp, x);
    }
  }

  // ----- what spill reads find -----

  /** The ledger lines this pass added. */
  function Fresh(c: Script, ledger: seq<Line>): seq<Line> {
    if |c.ledger| <= |ledger| then ledger[|c.ledger|..] else []
  }

  lemma FreshAre(c: Script, lines: seq<Line>)
    ensures Fresh(c, c.ledger + lines) == lines
  {
  }

  ghost predicate ReadsAt(world: World, c: Script, ran: seq<Exec>, x: Chat) {
    x.Sent? ==> ReadsIn(world, Fresh(c, x.talk.ledger), ran, c.firstStamp + Count(x.before))
  }

  /** Every spill read found its slot exactly if a handle or a ledger line of this pass had named it. */
  ghost predicate ReadsAll(world: World, c: Script, ran: seq<Exec>, chat: Chat) {
    forall x {:trigger ReadsAt(world, c, ran, x)} | PartOf(x, chat) :: ReadsAt(world, c, ran, x)
  }

  lemma {:induction false} ReadsAllSnoc(world: World, c: Script, ran: seq<Exec>, before: Chat, t: Talk, prompt: Msg)
    requires ReadsAll(world, c, ran, before) && InTurn(ran, c.firstStamp, c.firstStamp + Count(before), 0)
    ensures ReadsAll(world, c, ran, Sent(before, t, prompt))
  {
    ReadsNoneYet(world, Fresh(c, t.ledger), ran, c.firstStamp, c.firstStamp + Count(before));
  }

  lemma {:induction false} ReadsBefore(world: World, c: Script, ran: seq<Exec>, chat: Chat)
    requires ReadsAll(world, c, ran, chat) && chat.Sent?
    ensures ReadsAll(world, c, ran, chat.before)
  {
  }

  lemma {:induction false} ReadsAllSince(world: World, c: Script, before: seq<Exec>, ran: seq<Exec>, stamp: nat, chat: Chat)
    requires chat.Sent? && stamp == c.firstStamp + Count(chat.before)
    requires ReadsAll(world, c, before, chat) && RanSince(before, ran, stamp)
    requires ReadsIn(world, Fresh(c, chat.talk.ledger), ran, stamp)
    ensures ReadsAll(world, c, ran, chat)
  {
    forall x | PartOf(x, chat) ensures ReadsAt(world, c, ran, x) {
      assert ReadsAt(world, c, before, x);
      if x != chat && x.Sent? {
        PartIsShorter(x, chat.before);
        ReadsStay(world, Fresh(c, x.talk.ledger), before, ran, stamp, c.firstStamp + Count(x.before));
      }
    }
  }

  /** How many prompts after the first are reminders to write. */
  function Nudged(chat: Chat): nat {
    if chat.Start? || chat.before.Start? then 0 else Nudged(chat.before) + if IsNudge(chat.prompt) then 1 else 0
  }

  /** How many requests after the first are prompted by the reminder to write. */
  function RemindersSent(requests: seq<seq<Msg>>): nat {
    if |requests| <= 1 then 0
    else RemindersSent(requests[..|requests| - 1]) + if IsReminder(requests[|requests| - 1]) then 1 else 0
  }

  predicate IsReminder(request: seq<Msg>) {
    request != [] && IsNudge(request[|request| - 1])
  }

  lemma RemindersSnoc(requests: seq<seq<Msg>>, request: seq<Msg>)
    requires requests != []
    ensures RemindersSent(requests + [request]) == RemindersSent(requests) + if IsReminder(request) then 1 else 0
  {
    assert (requests + [request])[..|requests|] == requests;
  }

  // ----- how a pass ends -----

  /** The frame holds the conversation as it is after the last reply. */
  predicate ParksAfter(world: World, c: Script, chat: Chat, parked: Parked) {
    Talk(parked.history, parked.ledger) == After(world, c, chat) && parked.turnsUsed == c.start + Count(chat)
  }

  /**
   How a pass may end with its last reply:
   - an answer is the one that reply offered, and required writes were made;
   - a refusal is of an offered answer without them, after two reminders or at the sign-off;
   - exhaustion is a sign-off that offered none;
   - a parked turn is the suspending reply, kept with everything sent, its results and its turn number;
   - an error is the provider's, or calls without a host;
   - the clock or a panic stopped the reply or the last call.
   */
  ghost predicate Ends(world: World, c: Script, chat: Chat, ran: seq<Exec>, end: LoopEnd)
    requires chat.Sent?
  {
    var n := Count(chat.before);
    var stamp, signing := c.firstStamp + n, n >= Turns(world, c);
    var reply := ReplyOf(world, stamp);
    var offered, unearned := Offered(world, c.session, reply, signing), c.session.requiresFileWrite && Writes(ran) == 0;
    && (signing ==> InTurn(ran, c.firstStamp, stamp, 0))
    && match end
       case Answered(answer) => offered == Some(answer) && !unearned
       case NoFileWrites => offered.Some? && unearned && (signing || Nudged(chat) == MAX_WRITE_NUDGES)
       case Exhausted => signing && !reply.Unfinished? && offered.None?
       case Awaiting(parked) =>
         !signing && Suspends(c.session, reply) && ParksAfter(world, c, chat, parked)
         && ParksFirstAwait(reply.calls, parked.pending) && ParkedResults(ran, stamp, reply.calls, parked.pending)
       case LoopError =>
         !signing && (reply.Broke? || (AsksTools(reply) && !Suspends(c.session, reply) && !world.hasHost))
       case WallElapsed => reply.Unfinished? || (!signing && AsksTools(reply) && StopsIn(ran, stamp, end))
       case Panicked => !signing && AsksTools(reply) && StopsIn(ran, stamp, end)
  }

  /** A pass that stopped in a call. */
  lemma EndsStopped(world: World, c: Script, chat: Chat, ran: seq<Exec>, end: LoopEnd)
    requires chat.Sent? && Count(chat.before) < Turns(world, c) && AsksTools(ReplyTo(world, c, Count(chat.before)))
    requires StopsIn(ran, c.firstStamp + Count(chat.before), end)
    ensures Ends(world, c, chat, ran, end)
  {
  }

  /** A pass whose provider failed, or did not answer in time. */
  lemma EndsBroken(world: World, c: Script, chat: Chat, ran: seq<Exec>)
    requires chat.Sent? && Count(chat.before) < Turns(world, c) && !ReplyTo(world, c, Count(chat.before)).Turn?
    ensures Ends(world, c, chat, ran, if ReplyTo(world, c, Count(chat.before)).Broke? then LoopError else WallElapsed)
  {
  }

  /** How the sign-off ends. */
  ghost function SignedOff(world: World, session: Session, reply: Reply, ran: seq<Exec>): LoopEnd {
    var offered := Offered(world, session, reply, true);
    if reply.Unfinished? then WallElapsed
    else if offered.None? then Exhausted
    else if session.requiresFileWrite && Writes(ran) == 0 then NoFileWrites
    else Answered(offered.value)
  }

  lemma EndsSigned(world: World, c: Script, chat: Chat, ran: seq<Exec>)
    requires chat.Sent? && Count(chat.before) >= Turns(world, c)
    requires InTurn(ran, c.firstStamp, c.firstStamp + Count(chat.before), 0)
    ensures Ends(world, c, chat, ran, SignedOff(world, c.session, ReplyTo(world, c, Count(chat.before)), ran))
  {
  }

  /** One pass through the loop: where it started, its prompts, the calls it carried out and how it ended. */
  datatype Passage = Passage(script: Script, chat: Chat, ran: seq<Exec>, end: LoopEnd)

  /** The number of the last reply of a pass. */
  function LastReply(p: Passage): int {
    p.script.firstStamp + Count(p.chat) - 1
  }

  /** Every prompt follows up on its reply, calls are carried out once and only as asked, and it ends as it may. */
  ghost predicate IsPassage(world: World, p: Passage) {
    && p.chat.Sent? && Count(p.chat) <= Turns(world, p.script) + 1
    && AllOpen(world, p.script, p.chat) && FollowsAll(world, p.script, p.ran, p.chat) && Nudged(p.chat) <= MAX_WRITE_NUDGES
    && AllGenuine(world, p.script.session, p.ran) && ReadsAll(world, p.script, p.ran, p.chat)
    && InTurn(p.ran, p.script.firstStamp, p.script.firstStamp + Count(p.chat), 0)
    && Ends(world, p.script, p.chat, p.ran, p.end)
  }

  /** A pass starts with a conversation that its first prompt continues. */
  ghost predicate StartsWell(c: Script, chat: Chat) {
    && chat.Sent? && WellFormed(c.session.goal, c.history + [First(chat)])
    && (c.history == [] ==> c.ledger == [])
  }

  // ----- what every pass keeps -----

  /** The talk and the prompt make a well-formed conversation, and there is no ledger without a history. */
  ghost predicate InForm(goal: Msg, t: Talk, prompt: Msg) {
    WellFormed(goal, t.history + [prompt]) && (t.history == [] ==> t.ledger == [])
  }

  lemma TrimKeepsForm(world: World, goal: Msg, t: Talk, prompt: Msg)
    requires InForm(goal, t, prompt)
    ensures InForm(goal, Trimmed(world, t), prompt)
  {
    var k := TrimmedFits(world, t);
    if k > 0 {
      ElisionKeepsForm(goal, t.history, k, prompt);
    }
  }

  lemma PushKeepsForm(goal: Msg, t: Talk, prompt: Msg, turn: Msg, next: Msg)
    requires InForm(goal, t, prompt) && Answers(turn, next)
    ensures InForm(goal, Talk(t.history + [prompt, turn], t.ledger), next)
  {
    TurnKeepsForm(goal, t.history, prompt, turn, next);
  }

  /** A follow-up answers exactly the calls of the recorded turn. */
  lemma FollowUpAnswers(world: World, session: Session, ran: seq<Exec>, stamp: nat, next: Msg)
    requires FollowsUp(world, session, ran, stamp, next)
    ensures Answers(TurnOf(world, ReplyOf(world, stamp)), next)
  {
    var reply := ReplyOf(world, stamp);
    if AsksTools(reply) {
      RealizedAnswers(ran, stamp, reply.calls, next.items);
    }
  }

  lemma {:induction false} TalkKeepsForm(world: World, c: Script, ran: seq<Exec>, chat: Chat)
    requires StartsWell(c, chat) && AllOpen(world, c, chat) && FollowsAll(world, c, ran, chat)
    ensures InForm(c.session.goal, chat.talk, chat.prompt)
    decreases chat
  {
    OpenBefore(world, c, chat);
    FollowsBefore(world, c, ran, chat);
    if chat.before.Sent? {
      TalkKeepsForm(world, c, ran, chat.before);
      FollowKeepsForm(world, c, ran, chat);
    }
    TrimKeepsForm(world, c.session.goal, After(world, c, chat.before), chat.prompt);
  }

  lemma {:induction false} FollowKeepsForm(world: World, c: Script, ran: seq<Exec>, chat: Chat)
    requires chat.Sent? && chat.before.Sent? && FollowsAt(world, c, ran, chat)
    requires InForm(c.session.goal, chat.before.talk, chat.before.prompt)
    ensures InForm(c.session.goal, After(world, c, chat.before), chat.prompt)
  {
    var before, prompt := chat.before, chat.prompt;
    FollowUpAnswers(world, c.session, ran, c.firstStamp + Count(before) - 1, prompt);
    PushKeepsForm(c.session.goal, before.talk, before.prompt,
                  TurnOf(world, ReplyTo(world, c, Count(before.before))), prompt);
  }

  /** Every request of a pass is a well-formed conversation. */
  lemma {:induction false} RequestsWellFormed(world: World, c: Script, ran: seq<Exec>, chat: Chat, n: nat)
    requires StartsWell(c, chat) && AllOpen(world, c, chat) && FollowsAll(world, c, ran, chat)
    requires n < |Requests(world, c, chat)|
    ensures WellFormed(c.session.goal, Requests(world, c, chat)[n])
    decreases chat
  {
    if n < |Requests(world, c, chat.before)| {
      OpenBefore(world, c, chat);
      FollowsBefore(world, c, ran, chat);
      RequestsWellFormed(world, c, ran, chat.before, n);
    } else {
      TalkKeepsForm(world, c, ran, chat);
      LedgerKeepsForm(c.session.goal, chat.talk.history, chat.prompt, chat.talk.ledger);
    }
  }

  /** A history is the log, or the goal and what follows its oldest turn-pairs. */
  ghost predicate Recent(history: seq<Msg>, log: seq<Msg>) {
    history == log || exists k :: 0 < k && 2 * k < |log| && history == Elided(log, k)
  }

  lemma RecentElided(history: seq<Msg>, log: seq<Msg>, k: nat)
    requires Recent(history, log) && 0 < k && 2 * k < |history|
    ensures Recent(Elided(history, k), log)
  {
    if history != log {
      var j :| 0 < j && 2 * j < |log| && history == Elided(log, j);
      assert Elided(history, k) == Elided(log, j + k);
    }
  }

  lemma RecentPushed(history: seq<Msg>, log: seq<Msg>, more: seq<Msg>)
    requires Recent(history, log)
    ensures Recent(history + more, log + more)
  {
    if history != log {
      var j :| 0 < j && 2 * j < |log| && history == Elided(log, j);
      assert history + more == Elided(log + more, j);
    }
  }

  lemma RecentTrimmed(world: World, t: Talk, log: seq<Msg>)
    requires Recent(t.history, log)
    ensures Recent(Trimmed(world, t).history, log)
  {
    var k := TrimmedFits(world, t);
    if k > 0 {
      RecentElided(t.history, log, k);
    }
  }

  lemma {:induction false} TalkIsRecent(world: World, c: Script, chat: Chat)
    requires AllOpen(world, c, chat)
    ensures Recent(After(world, c, chat).history, LogAfter(world, c, chat))
    ensures chat.Sent? ==> Recent(chat.talk.history, LogAfter(world, c, chat.before))
    decreases chat
  {
    match chat
    case Start =>
    case Sent(before, t, prompt) =>
      OpenBefore(world, c, chat);
      TalkIsRecent(world, c, before);
      RecentTrimmed(world, After(world, c, before), LogAfter(world, c, before));
      RecentPushed(t.history, LogAfter(world, c, before), [prompt, TurnOf(world, ReplyTo(world, c, Count(before)))]);
  }

  /** A ledger line names a turn-pair: its place, its calls, its bytes, and the slot it is kept under. */
  predicate Names(world: World, line: Line, index: nat, turn: Msg, user: Msg) {
    && line.index == index && line.bytes == world.size(Serialized(user))
    && line.slot == world.hash(world.codec.encode(Pair(turn, user)))
    && (turn.Assistant? ==> line.calls == turn.calls)
  }

  ghost predicate NamesAt(world: World, base: nat, ledger: seq<Line>, log: seq<Msg>, i: nat)
    requires base + i < |ledger| && 2 * i + 2 < |log|
  {
    Names(world, ledger[base + i], base + i + 1, log[2 * i + 1], log[2 * i + 2])
  }

  /** The history is the log without its `k` oldest turn-pairs, and the new ledger lines name exactly those, in order. */
  ghost predicate Lists(world: World, base: seq<Line>, log: seq<Msg>, t: Talk, k: nat) {
    && t.history == (if k == 0 then log else if 2 * k < |log| then Elided(log, k) else [])
    && (k > 0 ==> 2 * k < |log|) && |t.ledger| == |base| + k && t.ledger[..|base|] == base
    && forall i {:trigger NamesAt(world, |base|, t.ledger, log, i)} | 0 <= i < k :: NamesAt(world, |base|, t.ledger, log, i)
  }

  lemma ListsOneMore(world: World, base: seq<Line>, log: seq<Msg>, t: Talk, k: nat)
    requires Lists(world, base, log, t, k) && |t.history| >= 3
    ensures Lists(world, base, log, ElideOne(world, t), k + 1)
  {
    var e := ElideOne(world, t);
    assert t.history[1] == log[2 * k + 1] && t.history[2] == log[2 * k + 2];
    assert e.history == Elided(log, k + 1);
    forall i | 0 <= i < k + 1 ensures NamesAt(world, |base|, e.ledger, log, i) {
      if i < k {
        assert NamesAt(world, |base|, t.ledger, log, i) && e.ledger[|base| + i] == t.ledger[|base| + i];
      }
    }
  }

  lemma {:induction false} ListsDrained(world: World, base: seq<Line>, log: seq<Msg>, t: Talk, k: nat, low: nat)
    returns (n: nat)
    requires Lists(world, base, log, t, k)
    ensures Lists(world, base, log, Drained(world, t, low), n)
    decreases |t.history|
  {
    if Bytes(t.history, world.size) > low && |t.history| > KEEP_RECENT + 1 {
      ListsOneMore(world, base, log, t, k);
      n := ListsDrained(world, base, log, ElideOne(world, t), k + 1, low);
    } else {
      n := k;
    }
  }

  lemma ListsPushed(world: World, base: seq<Line>, log: seq<Msg>, t: Talk, k: nat, more: seq<Msg>)
    requires Lists(world, base, log, t, k)
    ensures Lists(world, base, log + more, Talk(t.history + more, t.ledger), k)
  {
    if k > 0 {
      assert t.history + more == Elided(log + more, k);
    }
    forall i | 0 <= i < k ensures NamesAt(world, |base|, t.ledger, log + more, i) {
      assert NamesAt(world, |base|, t.ledger, log, i);
    }
  }

  /**
   Nothing elided is forgotten: what is sent is the log without its oldest turn-pairs,
   and the ledger sent with it has gained one line for each of them, in order.
   */
  lemma {:induction false} LedgerListsElided(world: World, c: Script, chat: Chat) returns (k: nat)
    requires AllOpen(world, c, chat) && chat.Sent?
    ensures Lists(world, c.ledger, LogAfter(world, c, chat.before), chat.talk, k)
    decreases chat
  {
    var before := chat.before;
    OpenBefore(world, c, chat);
    k := 0;
    if before.Sent? {
      k := LedgerListsElided(world, c, before);
      ListsPushed(world, c.ledger, LogAfter(world, c, before.before), before.talk, k,
                  [before.prompt, TurnOf(world, ReplyTo(world, c, Count(before.before)))]);
    }
    var t := After(world, c, before);
    if Count(before) < Turns(world, c) && Bytes(t.history, world.size) > world.budget {
      k := ListsDrained(world, c.ledger, LogAfter(world, c, before), t, k, LowWater(world.budget));
    }
  }

  // ----- how often the history is trimmed -----

  lemma ElidedParts(history: seq<Msg>, k: nat) returns (head: seq<Msg>, gone: seq<Msg>, rest: seq<Msg>)
    requires 2 * k < |history|
    ensures history == head + (gone + rest) && Elided(history, k) == head + rest
  {
    head, gone, rest := [history[0]], history[1..2 * k + 1], history[2 * k + 1..];
  }

  lemma BytesElided(history: seq<Msg>, k: nat, size: Serialized -> nat)
    requires 2 * k < |history|
    ensures Bytes(Elided(history, k), size) <= Bytes(history, size)
  {
    var head, gone, rest := ElidedParts(history, k);
    BytesConcat(head, rest, size);
    BytesConcat(gone, rest, size);
    BytesConcat(head, gone + rest, size);
  }

  lemma TrimmingSheds(world: World, t: Talk)
    ensures Bytes(Trimmed(world, t).history, world.size) <= Bytes(t.history, world.size)
  {
    var k := TrimmedFits(world, t);
    if k > 0 {
      BytesElided(t.history, k, world.size);
    }
  }

  /** What was said from request `x` up to the time request `y` was sent. */
  function SaidBetween(world: World, c: Script, x: Chat, y: Chat): seq<Msg> {
    if x == y || y.Start? || y.before.Start? then []
    else
      SaidBetween(world, c, x, y.before)
      + [y.before.prompt, TurnOf(world, ReplyTo(world, c, Count(y.before.before)))]
  }

  /** It is what the log of everything said has gained. */
  lemma {:induction false} LogGains(world: World, c: Script, x: Chat, y: Chat)
    requires x.Sent? && y.Sent? && PartOf(x, y)
    ensures LogAfter(world, c, y.before) == LogAfter(world, c, x.before) + SaidBetween(world, c, x, y)
    decreases y
  {
    if x == y {
    } else {
      LogGains(world, c, x, y.before);
      Regroup(LogAfter(world, c, x.before), SaidBetween(world, c, x, y.before),
              [y.before.prompt, TurnOf(world, ReplyTo(world, c, Count(y.before.before)))]);
    }
  }

  /** The talk of a request outweighs that of an earlier one by no more than what was said between them. */
  lemma {:induction false} TalkGains(world: World, c: Script, x: Chat, y: Chat)
    requires AllOpen(world, c, y) && x.Sent? && y.Sent? && PartOf(x, y)
    ensures Bytes(y.talk.history, world.size)
         <= Bytes(x.talk.history, world.size) + Bytes(SaidBetween(world, c, x, y), world.size)
    ensures x != y ==>
      Bytes(After(world, c, y.before).history, world.size)
      <= Bytes(x.talk.history, world.size) + Bytes(SaidBetween(world, c, x, y), world.size)
    decreases y
  {
    if x == y {
    } else {
      var b := y.before;
      var more := [b.prompt, TurnOf(world, ReplyTo(world, c, Count(b.before)))];
      OpenBefore(world, c, y);
      TalkGains(world, c, x, b);
      BytesConcat(b.talk.history, more, world.size);
      BytesConcat(SaidBetween(world, c, x, b), more, world.size);
      TrimmingSheds(world, After(world, c, b));
    }
  }

  /**
   Trims are far apart: once the talk of a request is down at low water, the budget is
   not crossed again before more than their distance in bytes was said.
   */
  lemma {:induction false} TrimsAreApart(world: World, c: Script, x: Chat, y: Chat)
    requires AllOpen(world, c, y) && x.Sent? && y.Sent? && PartOf(x, y) && x != y
    requires Bytes(x.talk.history, world.size) <= LowWater(world.budget)
    requires Bytes(After(world, c, y.before).history, world.size) > world.budget
    ensures LogAfter(world, c, y.before) == LogAfter(world, c, x.before) + SaidBetween(world, c, x, y)
    ensures Bytes(SaidBetween(world, c, x, y), world.size) > world.budget - LowWater(world.budget)
  {
    LogGains(world, c, x, y);
    TalkGains(world, c, x, y);
    BytesConcat(x.talk.history, SaidBetween(world, c, x, y), world.size);
    Hysteresis(x.talk.history, SaidBetween(world, c, x, y), world.budget, world.size);
  }

  /** A request fits the budget, or is down to the messages always kept. */
  predicate Bounded(world: World, request: seq<Msg>) {
    |request| <= KEEP_RECENT + 2 || Bytes(request[..|request| - 1], world.size) <= world.budget
  }

  /**
   Each request is the goal, the most recent part of everything said so far, and the
   prompt, to which a request of the loop adds the ledger, if it has lines, and nothing
   else; requests of the loop are within the history budget.
   */
  lemma {:induction false} RequestCarriesLog(world: World, c: Script, chat: Chat)
    requires AllOpen(world, c, chat) && chat.Sent?
    ensures var request := LastRequest(world, c, chat);
            && request != [] && Recent(request[..|request| - 1], LogAfter(world, c, chat.before))
            && (var ledger, last := chat.talk.ledger, request[|request| - 1];
                if Count(chat.before) < Turns(world, c) && ledger != [] && chat.prompt.User?
                then last == User(chat.prompt.items + [Recallable(ledger)]) else last == chat.prompt)
            && (Count(chat.before) < Turns(world, c) ==> Bounded(world, request))
  {
    var request := LastRequest(world, c, chat);
    OpenBefore(world, c, chat);
    TalkIsRecent(world, c, chat);
    assert request[..|request| - 1] == chat.talk.history;
    var _ := TrimmedFits(world, After(world, c, chat.before));
  }

  lemma {:induction false} ReminderIsNudge(world: World, c: Script, chat: Chat)
    requires chat.Sent?
    ensures IsReminder(LastRequest(world, c, chat)) <==> IsNudge(chat.prompt)
  {
    var request := LastRequest(world, c, chat);
    assert IsNudge(WithLedger(chat.prompt, chat.talk.ledger)) <==> IsNudge(chat.prompt);
    assert request[|request| - 1] == chat.prompt || request[|request| - 1] == WithLedger(chat.prompt, chat.talk.ledger);
  }

  lemma {:induction false} RemindersAreNudges(world: World, c: Script, chat: Chat)
    ensures RemindersSent(Requests(world, c, chat)) == Nudged(chat)
    decreases chat
  {
    if chat.Sent? && chat.before.Sent? {
      RemindersAreNudges(world, c, chat.before);
      ReminderIsNudge(world, c, chat);
      RemindersSnoc(Requests(world, c, chat.before), LastRequest(world, c, chat));
    }
  }

  /** At most two requests of a pass after its first are prompted by the reminder to write. */
  lemma FewReminders(world: World, p: Passage)
    requires IsPassage(world, p)
    ensures RemindersSent(Requests(world, p.script, p.chat)) <= MAX_WRITE_NUDGES
  {
    RemindersAreNudges(world, p.script, p.chat);
  }

  /** Every prompt of a pass but its first is one of three answers to the reply before it. */
  lemma {:induction false} FollowUpIs(world: World, p: Passage, x: Chat)
    requires IsPassage(world, p) && PartOf(x, p.chat) && x.Sent? && x.before.Sent?
    ensures var stamp, shape := p.script.firstStamp + Count(x.before) - 1, p.script.session.shape;
            var reply := ReplyOf(world, stamp);
            && reply.Turn?
            && var done := if reply.answer.Some? then Conforming(reply.answer.value.output, shape)
                           else reply.calls == [] && Salvaged(world.extract(reply.text), shape, world.envelope).Some?;
               if done then p.script.session.requiresFileWrite && x.prompt == User([Prose(WriteEvidence)])
               else if reply.answer.Some? || reply.calls == [] then x.prompt == User([Prose(Feedback(shape))])
               else x.prompt.User? && Results(p.ran, stamp, reply.calls, x.prompt.items)
  {
    assert FollowsAt(world, p.script, p.ran, x);
    var stamp := p.script.firstStamp + Count(x.before) - 1;
    var reply := ReplyOf(world, stamp);
    if AsksTools(reply) {
      forall i | 0 <= i < |reply.calls| ensures IsResult(p.ran, stamp, reply.calls, x.prompt.items, i) {
        assert RealizedAt(p.ran, stamp, reply.calls, x.prompt.items, i);
      }
    }
  }

  ghost predicate IsResult(ran: seq<Exec>, stamp: nat, calls: seq<ToolCall>, items: seq<Item>, i: nat)
    requires i < |calls| && i < |items|
  {
    items[i].Result? && items[i].id == calls[i].id && RanCall(ran, stamp, i, calls[i], items[i].output)
  }

  /** One item per call, with the output on record for that call. */
  ghost predicate Results(ran: seq<Exec>, stamp: nat, calls: seq<ToolCall>, items: seq<Item>) {
    && |items| == |calls|
    && forall i {:trigger IsResult(ran, stamp, calls, items, i)} | 0 <= i < |calls| :: IsResult(ran, stamp, calls, items, i)
  }

  /** A reminder to write is sent only when no call before it made a write. */
  lemma {:induction false} RemindedBeforeWrites(world: World, p: Passage, x: Chat, k: nat)
    requires IsPassage(world, p) && PartOf(x, p.chat) && x.Sent? && x.before.Sent?
    requires x.prompt == User([Prose(WriteEvidence)]) && k < |p.ran|
    requires p.ran[k].stamp < p.script.firstStamp + Count(x.before) - 1
    ensures !MadeWrite(world, p.ran[k])
  {
    assert FollowsAt(world, p.script, p.ran, x);
    assert NoWriteAt(p.ran, p.script.firstStamp + Count(x.before) - 1, k);
    assert Genuine(world, p.script.session, p.ran[k]);
    assert ToolRecord.Within(p.ran[k], p.script.firstStamp, p.script.firstStamp + Count(p.chat), 0);
    PartIsShorter(x, p.chat);
    FollowedIsNoSuspension(world, p, p.ran[k]);
  }

  /** A pass is exhausted only at the sign-off, which failed or had no conforming answer of its own. */
  lemma ExhaustedWhen(world: World, p: Passage)
    requires IsPassage(world, p)
    ensures p.end.Exhausted? ==>
      var reply := ReplyOf(world, LastReply(p));
      && Count(p.chat) == Turns(world, p.script) + 1 && !reply.Unfinished?
      && (reply.Turn? && reply.answer.Some? ==> !Conforming(reply.answer.value.output, p.script.session.shape))
    ensures p.end.Answered? && Count(p.chat) > Turns(world, p.script) ==>
      ReplyOf(world, LastReply(p)).Turn? && ReplyOf(world, LastReply(p)).answer == Some(p.end.answer)
  {
  }

  /** An answer conforms, the last reply offered it, and if writes are required the loop asked for one that succeeded. */
  lemma AnswersAreEarned(world: World, p: Passage) returns (k: nat)
    requires IsPassage(world, p) && p.end.Answered?
    ensures Conforming(p.end.answer.output, p.script.session.shape)
    ensures var reply := ReplyOf(world, LastReply(p));
            reply.Turn? && (reply.answer == Some(p.end.answer) || (reply.answer.None? && reply.calls == []))
    ensures p.script.session.requiresFileWrite ==> k < |p.ran| && MadeWrite(world, p.ran[k])
  {
    var session := p.script.session;
    var reply := ReplyOf(world, LastReply(p));
    SalvagedConforms(Extracted(world, reply.text), session.shape, world.envelope);
    k := 0;
    if session.requiresFileWrite {
      k := WriteWasMade(world, session, p.ran);
    }
  }

  lemma {:induction false} NodeAt(chat: Chat, n: nat) returns (x: Chat)
    requires 0 < n <= Count(chat)
    ensures PartOf(x, chat) && x.Sent? && Count(x) == n
    decreases chat
  {
    if n == Count(chat) {
      x := chat;
    } else {
      x := NodeAt(chat.before, n);
    }
  }

  /** A call of a reply that was followed up was not made in a suspending turn. */
  lemma FollowedIsNoSuspension(world: World, p: Passage, exec: Exec)
    requires IsPassage(world, p) && Genuine(world, p.script.session, exec)
    requires p.script.firstStamp <= exec.stamp < LastReply(p)
    ensures !Suspends(p.script.session, ReplyOf(world, exec.stamp))
  {
    var x := NodeAt(p.chat, exec.stamp - p.script.firstStamp + 2);
    assert FollowsAt(world, p.script, p.ran, x);
  }

  lemma NoWriteInRefused(world: World, p: Passage, k: nat)
    requires IsPassage(world, p) && p.end.NoFileWrites? && k < |p.ran|
    ensures !MadeWrite(world, p.ran[k])
  {
    var exec := p.ran[k];
    NoWriteWasMade(world, p.script.session, p.ran, k);
    assert Genuine(world, p.script.session, exec);
    assert ToolRecord.Within(exec, p.script.firstStamp, p.script.firstStamp + Count(p.chat), 0);
    FollowedIsNoSuspension(world, p, exec);
  }

  /** A call of the pass made a write. */
  ghost predicate Wrote(world: World, p: Passage) {
    exists k :: 0 <= k < |p.ran| && MadeWrite(world, p.ran[k])
  }

  /** An answer a pass came to is refused exactly when writes are required and this pass made none. */
  lemma RefusedWhen(world: World, p: Passage)
    requires IsPassage(world, p) && (p.end.Answered? || p.end.NoFileWrites?)
    ensures p.end.NoFileWrites? <==> p.script.session.requiresFileWrite && !Wrote(world, p)
  {
    if p.end.Answered? {
      var _ := AnswersAreEarned(world, p);
    } else {
      forall k | 0 <= k < |p.ran| ensures !MadeWrite(world, p.ran[k]) {
        NoWriteInRefused(world, p, k);
      }
    }
  }

  /**
   A spill read of a pass is told the slot is unknown exactly if no handle shown before
   it, and no ledger line of this pass sent with its turn, names the slot.
   */
  lemma UnknownOnlyUnnamed(world: World, p: Passage, k: nat) returns (x: Chat)
    requires IsPassage(world, p) && k < |p.ran|
    requires p.ran[k].call.name == SPILL_READ && SpillArgs(world, p.ran[k].call).Some?
    ensures PartOf(x, p.chat) && x.Sent? && p.script.firstStamp + Count(x.before) == p.ran[k].stamp
    ensures p.ran[k].output == Some(Recalled(Spill.UnknownSlot)) <==>
              !Named(p.ran[..k], Fresh(p.script, x.talk.ledger), SpillArgs(world, p.ran[k].call).value.0)
  {
    var exec := p.ran[k];
    assert ToolRecord.Within(exec, p.script.firstStamp, p.script.firstStamp + Count(p.chat), 0);
    x := NodeAt(p.chat, exec.stamp - p.script.firstStamp + 1);
    assert ReadsAt(world, p.script, p.ran, x);
    assert FindsNamed(world, Fresh(p.script, x.talk.ledger), p.ran, k) && Genuine(world, p.script.session, exec);
  }

  /** A pass panics only in a spill read whose range ends before the character its start falls in. */
  lemma PanicsOnlyCutOff(world: World, p: Passage)
    requires IsPassage(world, p) && p.end.Panicked?
    ensures p.ran != [] && EndsInCharacter(world, p.ran[|p.ran| - 1])
  {
    var last := p.ran[|p.ran| - 1];
    assert Genuine(world, p.script.session, last);
    CutOffWhen(world, p.script.session, last);
  }

  /** A parked pass leaves a frame that holds everything sent and can be resumed. */
  lemma FramesAreResumable(world: World, p: Passage)
    requires IsPassage(world, p) && StartsWell(p.script, p.chat) && p.end.Awaiting?
    ensures Resumable(p.script.session.goal, p.end.parked)
    ensures LastCalls(p.end.parked) == ReplyOf(world, LastReply(p)).calls
    ensures Recent(p.end.parked.history, LogAfter(world, p.script, p.chat))
    ensures p.end.parked.turnsUsed == p.script.start + Count(p.chat) <= world.maxTurns
    ensures p.script.session.awaitEnabled && exists i | 0 <= i < |LastCalls(p.end.parked)| ::
              LastCalls(p.end.parked)[i].name == AWAIT_HUMAN
  {
    AwaitsMean(ReplyOf(world, LastReply(p)).calls);
    TalkKeepsForm(world, p.script, p.ran, p.chat);
    ParkedWell(world, p.script, p.chat, p.end.parked);
    TalkIsRecent(world, p.script, p.chat);
  }

  lemma ParkedWell(world: World, c: Script, chat: Chat, parked: Parked)
    requires chat.Sent? && ParksAfter(world, c, chat, parked)
    requires Suspends(c.session, ReplyTo(world, c, Count(chat.before)))
    requires ParksFirstAwait(ReplyTo(world, c, Count(chat.before)).calls, parked.pending)
    requires InForm(c.session.goal, chat.talk, chat.prompt)
    ensures Resumable(c.session.goal, parked) && LastCalls(parked) == ReplyTo(world, c, Count(chat.before)).calls
  {
    var t, reply := chat.talk, ReplyTo(world, c, Count(chat.before));
    AwaitsSomething(reply.calls);
    ParkedIsResumable(c.session.goal, t.history, chat.prompt, reply.text, reply.calls, t.ledger,
                      parked.pending, parked.turnsUsed);
  }

  lemma {:induction false} FirstFollowUp(world: World, c: Script, ran: seq<Exec>, chat: Chat) returns (next: Msg)
    requires FollowsAll(world, c, ran, chat) && Count(chat) > 1
    ensures FollowsUp(world, c.session, ran, c.firstStamp, next)
    decreases chat
  {
    FollowsBefore(world, c, ran, chat);
    if Count(chat) == 2 {
      next := chat.prompt;
    } else {
      next := FirstFollowUp(world, c, ran, chat.before);
    }
  }

  /** A pass whose first reply offers an answer, with no writes required, ends with it. */
  lemma AnsweredAtOnce(world: World, p: Passage)
    requires IsPassage(world, p) && Turns(world, p.script) > 0 && !p.script.session.requiresFileWrite
    requires Offered(world, p.script.session, ReplyOf(world, p.script.firstStamp), false).Some?
    ensures Count(p.chat) == 1
    ensures p.end == Answered(Offered(world, p.script.session, ReplyOf(world, p.script.firstStamp), false).value)
  {
    if Count(p.chat) > 1 {
      var _ := FirstFollowUp(world, p.script, p.ran, p.chat);
      assert false;
    }
  }

  /** No call of this reply stops the run. */
  ghost predicate Returns(world: World, stamp: nat) {
    var reply := ReplyOf(world, stamp);
    reply.Turn? && forall i | 0 <= i < |reply.calls| && reply.calls[i].name != AWAIT_HUMAN ::
      reply.calls[i].name != SPILL_READ && !Dispatch(world, stamp, i, reply.calls[i]).HostUnfinished?
  }

  /** A pass whose first reply awaits a human, and whose other calls come back, is parked. */
  lemma ParkedAtOnce(world: World, p: Passage)
    requires IsPassage(world, p) && Turns(world, p.script) > 0
    requires Suspends(p.script.session, ReplyOf(world, p.script.firstStamp)) && Returns(world, p.script.firstStamp)
    ensures Count(p.chat) == 1 && p.end.Awaiting?
  {
    if Count(p.chat) > 1 {
      var _ := FirstFollowUp(world, p.script, p.ran, p.chat);
      assert false;
    }
    if p.ran != [] {
      assert Genuine(world, p.script.session, p.ran[|p.ran| - 1]);
    }
  }

  lemma AwaitsSomething(calls: seq<ToolCall>)
    ensures Awaits(calls) > 0 ==> calls != []
  {
  }
}
