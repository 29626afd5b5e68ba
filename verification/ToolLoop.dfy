/**
 The multi-turn tool loop of one run segment. The provider and the tool host may
 answer anything; what the segment sends, says and ends with is what `Scripts`
 says of a pass, and nothing it elides is lost.
 */
module ToolLoop {
  import opened Options
  import opened Contract
  import opened Spill
  import opened Conversation
  import opened Memory
  import opened Parking
  import opened ToolRecord
  import opened Scripts

  datatype ToolRun = Came(output: Output) | Stopped(end: LoopEnd)

  class Segment {
    const world: World
    const script: Script
    const store: Store
    var history: seq<Msg>
    var input: Msg
    var ledger: seq<Line>
    var requests: nat
    var writesSeen: nat
    var writeNudges: nat
    /** The prompts whose replies are recorded, and everything said with them. */
    ghost var done: Chat
    ghost var log: seq<Msg>
    /** The ledger lines added in this segment. */
    ghost var lines: seq<Line>
    ghost var stored: set<Payload>
    ghost var sent: seq<seq<Msg>>
    ghost var ran: seq<Exec>

    ghost function Mem(): Archive
      reads this`stored, store
    {
      Archive(store.slots, stored, store.hash, world.codec)
    }

    /** What was sent, with the current prompt. */
    ghost function Chatting(): Chat
      reads this`done, this`history, this`ledger, this`input
    {
      Sent(done, Talk(history, ledger), input)
    }

    /** The number of the last reply. */
    ghost function LastStamp(): nat
      requires requests > 0
      reads this`requests
    {
      script.firstStamp + requests - 1
    }

    /** Between turns: the talk and the requests sent are those of the script. */
    ghost predicate Between()
      reads this`history, this`ledger, this`sent, this`requests, this`done, this`log
    {
      && Count(done) == requests && AllOpen(world, script, done) && Talk(history, ledger) == After(world, script, done)
      && sent == Requests(world, script, done) && log == LogAfter(world, script, done)
    }

    /** Within a turn: so is the current request. */
    ghost predicate Within()
      reads this`history, this`input, this`ledger, this`sent, this`requests, this`done, this`log
    {
      && Count(done) + 1 == requests && AllOpen(world, script, Chatting())
      && sent == Requests(world, script, Chatting()) && log == LogAfter(world, script, done)
    }

    /** Nothing said in this segment is lost. */
    ghost predicate Keeps()
      reads this`history, this`ledger, this`lines, this`log, this`stored, store
    {
      && Faithful(world.codec) && store.hash == world.hash && ledger == script.ledger + lines
      && (history == [] ==> lines == [])
      && Remembers(Mem(), log, lines, history)
    }

    /** The write counter is true to what ran: each call as its reply asked for it, once and in order. */
    ghost predicate Tallies()
      reads this`ran, this`writesSeen, this`requests
    {
      && writesSeen == Writes(ran) && AllGenuine(world, script.session, ran)
      && InTurn(ran, script.firstStamp, script.firstStamp + requests, 0)
    }

    /** The same in the middle of a turn, before call `index` of the last reply. */
    ghost predicate Tallying(index: nat)
      reads this`ran, this`writesSeen, this`requests, this`lines
    {
      && writesSeen == Writes(ran) && AllGenuine(world, script.session, ran)
      && requests > 0 && InTurn(ran, script.firstStamp, LastStamp(), index)
      && ReadsIn(world, lines, ran, LastStamp())
    }

    /** The store has exactly the slots named so far. */
    ghost predicate Shelved()
      reads this`ran, this`lines, store
    {
      Shelves(store.slots, ran, lines)
    }

    /** Spill reads found the slots that had been named. */
    ghost predicate Reads()
      reads this`ran, this`done, this`history, this`ledger, this`input
    {
      ReadsAll(world, script, ran, Chatting())
    }

    /** Spill reads found what had been stored. */
    ghost predicate Sees()
      reads this`ran, this`stored
    {
      AllFoundStored(world, stored, ran)
    }

    /** Every prompt follows up on the reply before it. */
    ghost predicate Follows()
      reads this`ran, this`done, this`history, this`ledger, this`input
    {
      FollowsAll(world, script, ran, Chatting())
    }

    /** The reminders are counted, and few. */
    ghost predicate Reminds()
      reads this`done, this`history, this`ledger, this`input, this`writeNudges
    {
      writeNudges == Nudged(Chatting()) && writeNudges <= MAX_WRITE_NUDGES
    }

    /** What a turn keeps of the conversation. */
    ghost predicate Talks()
      reads this, store
    {
      Keeps() && Follows() && Reminds() && Reads()
    }

    ghost predicate Sound()
      reads this, store
    {
      Talks() && Tallies() && Sees() && Shelved()
    }

    ghost predicate Valid()
      reads this, store
    {
      Between() && Sound()
    }

    constructor (world: World, script: Script, input: Msg)
      requires Faithful(world.codec) && (script.history == [] ==> script.ledger == [])
      ensures Valid() && fresh(store) && this.world == world && this.script == script && this.input == input
      ensures done == Start && sent == [] && ran == []
    {
      this.world, this.script := world, script;
      store := new Store(world.hash);
      history, this.input, ledger := script.history, input, script.ledger;
      requests, writesSeen, writeNudges := 0, 0, 0;
      done, log, lines, stored, sent, ran := Start, script.history, [], {}, [], [];
      new;
      StartsWhole(Mem(), history);
      FollowsSnoc(world, script, ran, Chatting());
      ReadsAllSnoc(world, script, ran, done, Talk(history, ledger), input);
    }

    // ----- the history budget -----

    /** Move the oldest turn-pair into the store and onto the ledger. */
    method ElideOldest()
      requires Keeps() && Sees() && Shelved() && |history| > KEEP_RECENT + 1
      modifies this`history, this`ledger, this`lines, this`stored, store
      ensures Keeps() && Sees() && Shelved()
      ensures Talk(history, ledger) == ElideOne(world, Talk(old(history), old(ledger)))
    {
      var assistant, user := history[1], history[2];
      var payload := world.codec.encode(Pair(assistant, user));
      ghost var before := Mem();
      var slot := store.Put(payload);
      var line := LineFor(world, |ledger| + 1, assistant, user);
      ElideKeepsMemory(before, log, lines, history, line);
      FoundStoredGrows(world, stored, stored + {payload}, ran);
      Regroup(script.ledger, lines, [line]);
      ShelvesLine(before.slots, ran, lines, line, payload);
      history := Elided(history, 1);
      ledger, lines := ledger + [line.(slot := slot)], lines + [line];
      stored := stored + {payload};
      assert Mem() == WithPut(before, payload);
    }

    /** Elide the oldest pairs, but only once the budget is crossed, and then down to the low-water mark. */
    method EnforceHistoryBudget()
      requires Keeps() && Sees() && Shelved()
      modifies this`history, this`ledger, this`lines, this`stored, store
      ensures Keeps() && Sees() && Shelved()
      ensures Talk(history, ledger) == Trimmed(world, Talk(old(history), old(ledger)))
    {
      if Bytes(history, world.size) <= world.budget {
        return;
      }
      var lowWater := LowWater(world.budget);
      while Bytes(history, world.size) > lowWater && |history| >= 3 && |history| > KEEP_RECENT + 1
        invariant Keeps() && Sees() && Shelved()
        invariant Drained(world, Talk(history, ledger), lowWater)
               == Drained(world, Talk(old(history), old(ledger)), lowWater)
        decreases |history|
      {
        ElideOldest();
      }
    }

    // ----- one request -----

    /** About to send: the talk is that of the next request. */
    ghost predicate Ready()
      reads this`history, this`input, this`ledger, this`sent, this`requests, this`done, this`log
    {
      && Count(done) == requests && AllOpen(world, script, Chatting())
      && sent == Requests(world, script, done) && log == LogAfter(world, script, done)
    }

    /** In the loop, bound the history before it is sent. */
    method Bound(looping: bool)
      requires Valid() && (looping <==> requests < Turns(world, script))
      modifies this`history, this`ledger, this`lines, this`stored, store
      ensures Ready() && Sound()
    {
      ghost var before := Talk(history, ledger);
      if looping {
        EnforceHistoryBudget();
      }
      OpenSnoc(world, script, done, input);
      FollowsRetold(world, script, ran, done, before, Talk(history, ledger), input);
      ReadsBefore(world, script, ran, Sent(done, before, input));
      ReadsAllSnoc(world, script, ran, done, Talk(history, ledger), input);
    }

    /** Send the history and the prompt; in the loop, the ledger rides on the prompt's tail. */
    method Send(looping: bool) returns (reply: Reply)
      requires Ready() && Tallies() && (looping <==> requests < Turns(world, script))
      modifies this`requests, this`sent
      ensures Within() && Tallies() && Tallying(0) && requests == old(requests) + 1
      ensures sent == old(sent) + [LastRequest(world, script, Chatting())]
      ensures reply == ReplyOf(world, LastStamp())
    {
      sent := sent + [history + [if looping then WithLedger(input, ledger) else input]];
      reply := ReplyOf(world, script.firstStamp + requests);
      Tick();
    }

    /** One request more. */
    method Tick()
      requires Tallies()
      modifies this`requests
      ensures Tallies() && Tallying(0) && requests == old(requests) + 1
    {
      LaterInTurn(ran, script.firstStamp, script.firstStamp + requests, 0, script.firstStamp + requests + 1);
      ReadsNoneYet(world, lines, ran, script.firstStamp, script.firstStamp + requests);
      requests := requests + 1;
    }

    /** One request: bound the history, then send it. */
    method Ask(looping: bool) returns (reply: Reply)
      requires Valid() && (looping <==> requests < Turns(world, script))
      modifies this`history, this`ledger, this`lines, this`stored, this`requests, this`sent, store
      ensures Within() && Sound() && Tallying(0) && requests == old(requests) + 1
      ensures sent == old(sent) + [LastRequest(world, script, Chatting())]
      ensures reply == ReplyOf(world, LastStamp())
    {
      Bound(looping);
      reply := Send(looping);
    }

    method Push(turn: Msg)
      requires Keeps()
      modifies this`history, this`log
      ensures Keeps() && history == old(history) + [input, turn] && log == old(log) + [input, turn]
    {
      PushKeepsMemory(Mem(), log, lines, history, [input, turn]);
      history := history + [input, turn];
      log := log + [input, turn];
    }

    /** Record the turn. */
    method Record(turn: Msg)
      requires Within() && Keeps() && turn == TurnOf(world, ReplyOf(world, LastStamp()))
      modifies this`history, this`done, this`log
      ensures Between() && Keeps() && done == old(Chatting())
    {
      assert After(world, script, Chatting()) == Talk(history + [input, turn], ledger);
      assert LogAfter(world, script, Chatting()) == log + [input, turn];
      ghost var now := Chatting();
      Push(turn);
      done := now;
    }

    /** Take the next prompt, which follows up on the last reply. */
    method TakePrompt(next: Msg)
      requires done.Sent? && FollowsAll(world, script, ran, done)
      requires writeNudges == Nudged(done) <= MAX_WRITE_NUDGES
      requires FollowsUp(world, script.session, ran, script.firstStamp + Count(done) - 1, next)
      requires IsNudge(next) ==> writeNudges < MAX_WRITE_NUDGES
      modifies this`input, this`writeNudges
      ensures Follows() && Reminds() && input == next
    {
      writeNudges := if IsNudge(next) then writeNudges + 1 else writeNudges;
      input := next;
      FollowsSnoc(world, script, ran, Chatting());
    }

    /** Record the turn and take the next prompt. */
    method Advance(turn: Msg, next: Msg)
      requires Within() && Talks() && Tallies() && turn == TurnOf(world, ReplyOf(world, LastStamp()))
      requires FollowsUp(world, script.session, ran, LastStamp(), next)
      requires IsNudge(next) ==> writeNudges < MAX_WRITE_NUDGES
      modifies this`history, this`input, this`done, this`log, this`writeNudges
      ensures Between() && Talks() && done == old(Chatting()) && input == next
    {
      Record(turn);
      assert script.firstStamp + Count(done) - 1 == LastStamp();
      TakePrompt(next);
      ReadsAllSnoc(world, script, ran, done, Talk(history, ledger), input);
    }

    // ----- tools -----

    /** In the middle of carrying out the calls of the last reply, before call `index`. */
    ghost predicate Works(index: nat)
      reads this, store
    {
      Keeps() && Sees() && Shelved() && Tallying(index)
    }

    /** A call to be carried out: the last reply asked for it, and not to suspend the session. */
    ghost predicate Due(index: nat, call: ToolCall)
      requires requests > 0
      reads this`requests
    {
      && Asked(world, LastStamp(), index, call)
      && (Suspends(script.session, ReplyOf(world, LastStamp())) ==> call.name != AWAIT_HUMAN)
    }

    /** Carry out call `index` of the last reply; only calls of turns that do not suspend count as writes. */
    method RunTool(index: nat, call: ToolCall, counting: bool) returns (r: ToolRun, ghost exec: Exec)
      requires Works(index) && Due(index, call)
      requires counting <==> !Suspends(script.session, ReplyOf(world, LastStamp()))
      modifies this`stored, this`ran, this`writesSeen, store
      ensures Works(index + 1) && ran == old(ran) + [exec]
      ensures exec.stamp == LastStamp() && exec.index == index && exec.call == call
      ensures call.name == SPILL_READ ==>
        exec.found == Found(old(store.slots), SpillArgs(world, call)) && store.slots == old(store.slots)
      ensures if r.Came? then exec.output == Some(r.output) else StopsIn(ran, LastStamp(), r.end)
    {
      if call.name == SPILL_READ {
        r, exec := RunSpillRead(index, call);
      } else {
        r, exec := RunHosted(index, call, counting);
      }
    }

    method RunSpillRead(index: nat, call: ToolCall) returns (r: ToolRun, ghost exec: Exec)
      requires Works(index) && Due(index, call) && call.name == SPILL_READ
      modifies this`ran, this`writesSeen
      ensures Works(index + 1) && ran == old(ran) + [exec]
      ensures exec.stamp == LastStamp() && exec.index == index && exec.call == call
      ensures exec.found == Found(store.slots, SpillArgs(world, call))
      ensures if r.Came? then exec.output == Some(r.output) else StopsIn(ran, LastStamp(), r.end)
    {
      var output;
      output, exec := ReadSpill(index, call);
      Execute(exec, false);
      r := if output.Some? then Came(output.value) else Stopped(Panicked);
    }

    method ReadSpill(index: nat, call: ToolCall) returns (output: Option<Output>, ghost exec: Exec)
      requires Keeps() && Shelved() && requests > 0 && Due(index, call) && call.name == SPILL_READ
      ensures Genuine(world, script.session, exec) && FoundStored(world, stored, exec) && !exec.evidence
      ensures exec.stamp == LastStamp() && exec.index == index && exec.call == call && exec.output == output
      ensures exec.found == Found(store.slots, SpillArgs(world, call))
      ensures Shelves(store.slots, ran + [exec], lines)
      ensures FindsNamed(world, lines, ran + [exec], |ran|)
    {
      var args := SpillArgs(world, call);
      if args.None? {
        output := Some(BadArguments);
      } else {
        var read := store.Get(args.value.0, args.value.1, args.value.2);
        output := if read.BadSlice? then None else Some(Recalled(read));
      }
      exec := Exec(LastStamp(), index, call, Found(store.slots, args), output, false);
      SpillRecord(world, script.session, Mem(), exec);
      FoundIsNamed(world, lines, store.slots, ran, exec);
      ShelvesCall(store.slots, store.slots, ran, exec, lines);
    }

    method RunHosted(index: nat, call: ToolCall, counting: bool) returns (r: ToolRun, ghost exec: Exec)
      requires Works(index) && Due(index, call) && call.name != SPILL_READ
      requires counting <==> !Suspends(script.session, ReplyOf(world, LastStamp()))
      modifies this`stored, this`ran, this`writesSeen, store
      ensures Works(index + 1) && ran == old(ran) + [exec]
      ensures exec.stamp == LastStamp() && exec.index == index && exec.call == call
      ensures if r.Came? then exec.output == Some(r.output) else StopsIn(ran, LastStamp(), r.end)
    {
      var output, evidence;
      output, evidence, exec := CallHost(index, call, counting);
      Execute(exec, evidence);
      r := if output.Some? then Came(output.value) else Stopped(WallElapsed);
    }

    method CallHost(index: nat, call: ToolCall, counting: bool)
      returns (output: Option<Output>, evidence: bool, ghost exec: Exec)
      requires Keeps() && Sees() && Shelved() && requests > 0 && Due(index, call) && call.name != SPILL_READ
      requires counting <==> !Suspends(script.session, ReplyOf(world, LastStamp()))
      modifies this`stored, store
      ensures Keeps() && Sees() && Shelves(store.slots, ran + [exec], lines)
      ensures FindsNamed(world, lines, ran + [exec], |ran|)
      ensures Genuine(world, script.session, exec) && FoundStored(world, stored, exec) && exec.evidence == evidence
      ensures exec.stamp == LastStamp() && exec.index == index && exec.call == call && exec.output == output
    {
      var reply := Dispatch(world, script.firstStamp + requests - 1, index, call);
      evidence := counting && IsWriteTo(world, call.name) && reply.HostOk?;
      ghost var slots := store.slots;
      output := Ingest(reply);
      exec := Exec(LastStamp(), index, call, None, output, evidence);
      HostRecord(world, script.session, stored, exec);
      FindsOther(world, lines, ran, exec);
      ShelvesCall(slots, store.slots, ran, exec, lines);
    }

    method Ingest(reply: HostReply) returns (r: Option<Output>)
      requires Keeps() && Sees()
      modifies this`stored, store
      ensures Keeps() && Sees() && Stocked(old(store.slots), store.slots, r)
      ensures CameBack(world, reply, r)
    {
      if reply.HostUnfinished? {
        return None;
      }
      var shown := Spilled(reply.bytes);
      r := Some(Shown(shown));
    }

    method Spilled(raw: Payload) returns (shown: ToolText)
      requires Keeps() && Sees()
      modifies this`stored, store
      ensures Keeps() && Sees() && Shows(world, shown, raw)
      ensures Stocked(old(store.slots), store.slots, Some(Shown(shown)))
    {
      ghost var before := Mem();
      shown := SpillOnIngress(store, raw);
      if |raw| > MAX_TOOL_RESULT_BYTES {
        PutKeepsMemory(before, log, lines, history, raw);
        FoundStoredGrows(world, stored, stored + {raw}, ran);
        stored := stored + {raw};
        assert Mem() == WithPut(before, raw);
      }
    }

    method Execute(ghost exec: Exec, evidence: bool)
      requires Keeps() && Sees() && Tallying(exec.index) && exec.stamp == LastStamp()
      requires Genuine(world, script.session, exec) && FoundStored(world, stored, exec) && exec.evidence == evidence
      requires FindsNamed(world, lines, ran + [exec], |ran|)
      requires Shelves(store.slots, ran + [exec], lines)
      modifies this`ran, this`writesSeen
      ensures Works(exec.index + 1) && ran == old(ran) + [exec]
      ensures exec.output.None? ==>
        StopsIn(ran, LastStamp(), if exec.call.name == SPILL_READ then Panicked else WallElapsed)
    {
      ReadsSnoc(world, lines, ran, exec);
      NextInTurn(ran, script.firstStamp, exec);
      WritesSnoc(ran, exec);
      GenuineSnoc(world, script.session, ran, exec);
      FoundStoredSnoc(world, stored, ran, exec);
      writesSeen := if evidence then writesSeen + 1 else writesSeen;
      ran := ran + [exec];
    }

    /** The calls of the last reply, a turn without an answer. */
    ghost predicate Calls(calls: seq<ToolCall>)
      requires requests > 0
      reads this`requests
    {
      var reply := ReplyOf(world, LastStamp());
      reply.Turn? && reply.answer.None? && reply.calls == calls
    }

    /** Carry out the calls of the last reply, in order. */
    method RunTools(calls: seq<ToolCall>) returns (items: seq<Item>, stop: Option<LoopEnd>)
      requires Works(0) && Calls(calls) && !Suspends(script.session, ReplyOf(world, LastStamp()))
      modifies this`stored, this`ran, this`writesSeen, store
      ensures Keeps() && Sees() && Shelved() && Tallies() && RanSince(old(ran), ran, LastStamp())
      ensures ReadsIn(world, lines, ran, LastStamp())
      ensures if stop.None? then |items| == |calls| && Realized(ran, LastStamp(), calls, items)
              else StopsIn(ran, LastStamp(), stop.value)
    {
      items, stop := [], None;
      var i := 0;
      while i < |calls| && stop.None?
        invariant Works(i) && 0 <= i <= |calls| && RanSince(old(ran), ran, LastStamp())
        invariant if stop.None? then |items| == i && Realized(ran, LastStamp(), calls, items)
                  else StopsIn(ran, LastStamp(), stop.value)
        decreases |calls| - i
      {
        ghost var before := ran;
        items, stop := RunNext(calls, i, items);
        RanSinceThen(old(ran), before, ran, LastStamp());
        i := i + 1;
      }
      LaterInTurn(ran, script.firstStamp, LastStamp(), i, script.firstStamp + requests);
    }

    method RunNext(calls: seq<ToolCall>, i: nat, items: seq<Item>) returns (more: seq<Item>, stop: Option<LoopEnd>)
      requires Works(i) && Calls(calls) && !Suspends(script.session, ReplyOf(world, LastStamp()))
      requires i == |items| < |calls| && Realized(ran, LastStamp(), calls, items)
      modifies this`stored, this`ran, this`writesSeen, store
      ensures Works(i + 1) && RanSince(old(ran), ran, LastStamp())
      ensures if stop.None? then |more| == i + 1 && Realized(ran, LastStamp(), calls, more)
              else StopsIn(ran, LastStamp(), stop.value)
    {
      ghost var before := ran;
      var r, exec := RunTool(i, calls[i], true);
      if r.Stopped? {
        return items, Some(r.end);
      }
      RealizedStep(before, exec, LastStamp(), calls, items, r.output);
      return items + [Result(calls[i].id, r.output)], None;
    }

    /** Carry out the other calls of a turn that awaits a human, leaving a hole for the first await. */
    method ParkTools(calls: seq<ToolCall>) returns (pending: seq<Pending>, stop: Option<LoopEnd>)
      requires Works(0) && Calls(calls) && Suspends(script.session, ReplyOf(world, LastStamp()))
      modifies this`stored, this`ran, this`writesSeen, store
      ensures Keeps() && Sees() && Shelved() && Tallies() && RanSince(old(ran), ran, LastStamp())
      ensures ReadsIn(world, lines, ran, LastStamp())
      ensures if stop.None? then ParksFirstAwait(calls, pending) && ParkedResults(ran, LastStamp(), calls, pending)
              else StopsIn(ran, LastStamp(), stop.value)
    {
      pending, stop := [], None;
      var i := 0;
      ParkNothing(ran, LastStamp(), calls);
      while i < |calls| && stop.None?
        invariant Works(i) && 0 <= i <= |calls| && RanSince(old(ran), ran, LastStamp())
        invariant if stop.None? then ParkedUpTo(ran, LastStamp(), calls, i, pending)
                  else StopsIn(ran, LastStamp(), stop.value)
        decreases |calls| - i
      {
        ghost var before := ran;
        pending, stop := ParkNext(calls, i, pending);
        RanSinceThen(old(ran), before, ran, LastStamp());
        i := i + 1;
      }
      LaterInTurn(ran, script.firstStamp, LastStamp(), i, script.firstStamp + requests);
      assert calls[..|calls|] == calls;
    }

    method ParkNext(calls: seq<ToolCall>, i: nat, pending: seq<Pending>) returns (more: seq<Pending>, stop: Option<LoopEnd>)
      requires Works(i) && Calls(calls) && Suspends(script.session, ReplyOf(world, LastStamp()))
      requires i < |calls| && ParkedUpTo(ran, LastStamp(), calls, i, pending)
      modifies this`stored, this`ran, this`writesSeen, store
      ensures Works(i + 1) && RanSince(old(ran), ran, LastStamp())
      ensures if stop.None? then ParkedUpTo(ran, LastStamp(), calls, i + 1, more)
              else StopsIn(ran, LastStamp(), stop.value)
    {
      if calls[i].name == AWAIT_HUMAN {
        var output := if Awaits(calls[..i]) > 0 then Some(AwaitedAlready) else None;
        ParkAwait(ran, LastStamp(), calls, i, pending, output);
        SkipInTurn(ran, script.firstStamp, LastStamp(), i);
        return pending + [Pending(calls[i].id, output)], None;
      } else {
        more, stop := ParkCall(calls, i, pending);
      }
    }

    method ParkCall(calls: seq<ToolCall>, i: nat, pending: seq<Pending>) returns (more: seq<Pending>, stop: Option<LoopEnd>)
      requires Works(i) && Calls(calls) && Suspends(script.session, ReplyOf(world, LastStamp()))
      requires i < |calls| && calls[i].name != AWAIT_HUMAN && ParkedUpTo(ran, LastStamp(), calls, i, pending)
      modifies this`stored, this`ran, this`writesSeen, store
      ensures Works(i + 1) && RanSince(old(ran), ran, LastStamp())
      ensures if stop.None? then ParkedUpTo(ran, LastStamp(), calls, i + 1, more)
              else StopsIn(ran, LastStamp(), stop.value)
    {
      var r, exec := RunTool(i, calls[i], false);
      if r.Stopped? {
        return pending, Some(r.end);
      }
      ParkResult(old(ran), exec, LastStamp(), calls, i, pending, r.output);
      return pending + [Pending(calls[i].id, Some(r.output))], None;
    }

    // ----- replies -----

    /** The segment may end so with the last reply. */
    ghost predicate MayEnd(end: LoopEnd)
      reads this`ran, this`done, this`history, this`ledger, this`input
    {
      Ends(world, script, Chatting(), ran, end)
    }

    /** Writes are required and none was made. */
    predicate Unearned()
      reads this`writesSeen
    {
      script.session.requiresFileWrite && writesSeen == 0
    }

    /** An answer the last reply offered: taken if earned, else met with a reminder, twice at most, else refused. */
    method Weigh(answer: Answer, turn: Msg) returns (end: Option<LoopEnd>)
      requires Within() && Talks() && Tallies() && Count(done) < Turns(world, script)
      requires turn == TurnOf(world, ReplyOf(world, LastStamp()))
      requires Offered(world, script.session, ReplyOf(world, LastStamp()), false) == Some(answer)
      modifies this`history, this`input, this`done, this`log, this`writeNudges
      ensures end == if !Unearned() then Some(Answered(answer))
                     else if old(writeNudges) < MAX_WRITE_NUDGES then None else Some(NoFileWrites)
      ensures Talks()
      ensures if end.None? then Between() && done == old(Chatting()) && input == NUDGE
              else Within() && MayEnd(end.value) && Chatting() == old(Chatting())
    {
      if !Unearned() {
        end := Some(Answered(answer));
      } else if writeNudges < MAX_WRITE_NUDGES {
        ZeroWrites(ran);
        Advance(turn, NUDGE);
        end := None;
      } else {
        end := Some(NoFileWrites);
      }
    }

    /** The last reply of the loop offered no answer and asked for nothing: it is met with the output contract. */
    method Remind(turn: Msg)
      requires Within() && Talks() && Tallies() && turn == TurnOf(world, ReplyOf(world, LastStamp()))
      requires var reply := ReplyOf(world, LastStamp());
               reply.Turn? && (reply.answer.Some? || reply.calls == []) && Offered(world, script.session, reply, false).None?
      modifies this`history, this`input, this`done, this`log, this`writeNudges
      ensures Between() && Talks() && done == old(Chatting()) && input == User([Prose(Feedback(script.session.shape))])
    {
      Advance(turn, User([Prose(Feedback(script.session.shape))]));
    }

    /** A turn with a final answer. */
    method OnAnswer(answer: Answer) returns (end: Option<LoopEnd>)
      requires Within() && Talks() && Tallies() && Count(done) < Turns(world, script)
      requires ReplyOf(world, LastStamp()).Turn? && ReplyOf(world, LastStamp()).answer == Some(answer)
      modifies this`history, this`input, this`done, this`log, this`writeNudges
      ensures Talks()
      ensures if end.None? then Between() && done == old(Chatting())
              else Within() && MayEnd(end.value) && Chatting() == old(Chatting())
    {
      var turn := Assistant(Spelled(world, answer.output), []);
      var ok := Conforms(answer.output, script.session.shape);
      if ok {
        end := Weigh(answer, turn);
      } else {
        Remind(turn);
        end := None;
      }
    }

    /** A turn of words alone. */
    method OnProse(text: string) returns (end: Option<LoopEnd>)
      requires Within() && Talks() && Tallies() && Count(done) < Turns(world, script)
      requires ReplyOf(world, LastStamp()) == Turn(text, [], None)
      modifies this`history, this`input, this`done, this`log, this`writeNudges
      ensures Talks()
      ensures if end.None? then Between() && done == old(Chatting())
              else Within() && MayEnd(end.value) && Chatting() == old(Chatting())
    {
      var turn := Assistant(if text == "" then "(no content)" else text, []);
      var salvaged := Salvage(text, script.session.shape, world.extract, world.envelope);
      if salvaged.Some? {
        end := Weigh(salvaged.value, turn);
      } else {
        Remind(turn);
        end := None;
      }
    }

    /** The prompt that answers the calls of the last reply. */
    method Results(calls: seq<ToolCall>) returns (next: Msg, stop: Option<LoopEnd>)
      requires Count(done) + 1 == requests <= Turns(world, script) && Works(0) && Follows() && Reads()
      requires calls != [] && world.hasHost
      requires Calls(calls) && !Suspends(script.session, ReplyOf(world, LastStamp()))
      modifies this`stored, this`ran, this`writesSeen, store
      ensures Keeps() && Sees() && Shelved() && Tallies() && Follows() && Reads()
      ensures if stop.None? then FollowsUp(world, script.session, ran, LastStamp(), next) && !IsNudge(next)
              else MayEnd(stop.value)
    {
      var items;
      items, stop := RunTools(calls);
      next := User(items);
      FollowsAllSince(world, script, old(ran), ran, LastStamp(), Chatting());
      FreshAre(script, lines);
      ReadsAllSince(world, script, old(ran), ran, LastStamp(), Chatting());
      if stop.None? {
        ResultsAreNoNudge(ran, LastStamp(), calls, items);
      } else {
        EndsStopped(world, script, Chatting(), ran, stop.value);
      }
    }

    /** A turn with tool calls, none of which suspends the session. */
    method OnCalls(text: string, calls: seq<ToolCall>) returns (end: Option<LoopEnd>)
      requires Within() && Sound() && Tallying(0) && Count(done) < Turns(world, script) && calls != []
      requires ReplyOf(world, LastStamp()) == Turn(text, calls, None)
      requires !Suspends(script.session, ReplyOf(world, LastStamp()))
      modifies this`history, this`input, this`done, this`log, this`writeNudges
      modifies this`stored, this`ran, this`writesSeen, store
      ensures Sound()
      ensures if end.None? then Between() && done == old(Chatting())
              else Within() && MayEnd(end.value) && Chatting() == old(Chatting())
    {
      if !world.hasHost {
        return Some(LoopError);
      }
      var next;
      next, end := Results(calls);
      if end.None? {
        Advance(Assistant(text, calls), next);
      }
    }

    /** The frame of the current turn, with the results of its calls. */
    method Pack(text: string, calls: seq<ToolCall>, pending: seq<Pending>) returns (end: LoopEnd)
      requires Within() && Count(done) < Turns(world, script) && ReplyOf(world, LastStamp()) == Turn(text, calls, None)
      requires Suspends(script.session, ReplyOf(world, LastStamp()))
      requires ParksFirstAwait(calls, pending) && ParkedResults(ran, LastStamp(), calls, pending)
      ensures MayEnd(end)
    {
      AwaitsSomething(calls);
      end := Awaiting(Parked(history + [input, Assistant(text, calls)], ledger, pending, script.start + requests));
    }

    /** Carry out the turn's other calls and park it with everything said. */
    method ParkTurn(text: string, calls: seq<ToolCall>) returns (end: LoopEnd)
      requires Within() && Works(0) && Count(done) < Turns(world, script)
      requires ReplyOf(world, LastStamp()) == Turn(text, calls, None)
      requires Suspends(script.session, ReplyOf(world, LastStamp()))
      modifies this`stored, this`ran, this`writesSeen, store
      ensures Keeps() && Sees() && Shelved() && Tallies() && RanSince(old(ran), ran, LastStamp()) && MayEnd(end)
      ensures ReadsIn(world, lines, ran, LastStamp())
    {
      var pending, stop := ParkTools(calls);
      if stop.None? {
        end := Pack(text, calls, pending);
      } else {
        AwaitsSomething(calls);
        EndsStopped(world, script, Chatting(), ran, stop.value);
        end := stop.value;
      }
    }

    /** A turn that awaits a human. */
    method OnAwait(text: string, calls: seq<ToolCall>) returns (end: LoopEnd)
      requires Within() && Works(0) && Follows() && Reads() && Count(done) < Turns(world, script)
      requires ReplyOf(world, LastStamp()) == Turn(text, calls, None)
      requires Suspends(script.session, ReplyOf(world, LastStamp()))
      modifies this`stored, this`ran, this`writesSeen, store
      ensures Keeps() && Sees() && Shelved() && Tallies() && Follows() && Reads() && MayEnd(end)
    {
      end := ParkTurn(text, calls);
      FollowsAllSince(world, script, old(ran), ran, LastStamp(), Chatting());
      FreshAre(script, lines);
      ReadsAllSince(world, script, old(ran), ran, LastStamp(), Chatting());
    }

    // ----- the loop -----

    /** A turn with an answer, or of words alone. */
    method OnWords(reply: Reply) returns (end: Option<LoopEnd>)
      requires Within() && Talks() && Tallies() && Count(done) < Turns(world, script)
      requires reply.Turn? && (reply.answer.Some? || reply.calls == []) && reply == ReplyOf(world, LastStamp())
      modifies this`history, this`input, this`done, this`log, this`writeNudges
      ensures Talks()
      ensures if end.None? then Between() && done == old(Chatting())
              else Within() && MayEnd(end.value) && Chatting() == old(Chatting())
    {
      if reply.answer.Some? {
        end := OnAnswer(reply.answer.value);
      } else {
        end := OnProse(reply.text);
      }
    }

    /** A turn with tool calls. */
    method OnTools(text: string, calls: seq<ToolCall>) returns (end: Option<LoopEnd>)
      requires Within() && Sound() && Tallying(0) && Count(done) < Turns(world, script) && calls != []
      requires ReplyOf(world, LastStamp()) == Turn(text, calls, None)
      modifies this`history, this`input, this`done, this`log, this`writeNudges
      modifies this`stored, this`ran, this`writesSeen, store
      ensures Sound()
      ensures if end.None? then Between() && done == old(Chatting())
              else Within() && MayEnd(end.value) && Chatting() == old(Chatting())
    {
      if script.session.awaitEnabled && Awaits(calls) > 0 {
        var e := OnAwait(text, calls);
        end := Some(e);
      } else {
        end := OnCalls(text, calls);
      }
    }

    method OnReply(reply: Reply) returns (end: Option<LoopEnd>)
      requires Within() && Sound() && Tallying(0) && Count(done) < Turns(world, script)
      requires reply == ReplyOf(world, LastStamp())
      modifies this`history, this`input, this`done, this`log, this`writeNudges
      modifies this`stored, this`ran, this`writesSeen, store
      ensures Sound()
      ensures if end.None? then Between() && done == old(Chatting())
              else Within() && MayEnd(end.value) && Chatting() == old(Chatting())
    {
      if !reply.Turn? {
        EndsBroken(world, script, Chatting(), ran);
        end := Some(if reply.Broke? then LoopError else WallElapsed);
      } else if reply.answer.Some? || reply.calls == [] {
        end := OnWords(reply);
      } else {
        end := OnTools(reply.text, reply.calls);
      }
    }

    /** What the reply to the sign-off comes to. */
    method Conclude(reply: Reply) returns (end: LoopEnd)
      requires Count(done) + 1 == requests > Turns(world, script) && writesSeen == Writes(ran)
      requires InTurn(ran, script.firstStamp, LastStamp(), 0) && reply == ReplyOf(world, LastStamp())
      ensures MayEnd(end)
    {
      EndsSigned(world, script, Chatting(), ran);
      if reply.Unfinished? {
        end := WallElapsed;
      } else if reply.Broke? || reply.answer.None? {
        end := Exhausted;
      } else {
        var ok := Conforms(reply.answer.value.output, script.session.shape);
        end := if !ok then Exhausted else if Unearned() then NoFileWrites else Answered(reply.answer.value);
      }
    }

    /** One last request, without the ledger, after the turns are spent. */
    method SignOff() returns (end: LoopEnd)
      requires Valid() && requests >= Turns(world, script)
      modifies this`history, this`ledger, this`lines, this`stored, this`requests, this`sent, store
      ensures Within() && Sound() && MayEnd(end) && requests == old(requests) + 1
      ensures done == old(done) && input == old(input)
    {
      var reply := Ask(false);
      end := Conclude(reply);
    }

    /** The pass this segment made, if it ended so. */
    ghost function Passed(end: LoopEnd): Passage
      reads this`ran, this`done, this`history, this`ledger, this`input
    {
      Passage(script, Chatting(), ran, end)
    }

    lemma EndedIsPassage(end: LoopEnd)
      requires Within() && Sound() && MayEnd(end) && requests <= Turns(world, script) + 1
      ensures IsPassage(world, Passed(end))
      ensures ledger == script.ledger + lines
      ensures NoCollision(Mem()) ==> Represents(Mem(), log, lines, history)
    {
    }

    /** The turns of the loop. */
    method Loop() returns (stop: Option<LoopEnd>)
      requires Valid() && done == Start
      modifies this, store
      ensures Sound()
      ensures if stop.None? then Between() && requests >= Turns(world, script) else Within() && MayEnd(stop.value)
      ensures requests <= Turns(world, script) && First(Chatting()) == old(input)
    {
      stop := None;
      var turn := script.start;
      while turn < world.maxTurns && stop.None?
        invariant Sound()
        invariant if stop.None? then Between() && turn == script.start + requests else Within() && MayEnd(stop.value)
        invariant requests <= Turns(world, script) && First(Chatting()) == old(input)
        decreases world.maxTurns - turn
      {
        stop := TakeTurn();
        turn := turn + 1;
      }
    }

    /** One turn: send the history and the prompt, and act on the reply. */
    method TakeTurn() returns (end: Option<LoopEnd>)
      requires Valid() && requests < Turns(world, script)
      modifies this, store
      ensures requests == old(requests) + 1
      ensures Sound()
      ensures if end.None? then Between() && done.Sent? && done.before == old(done) && done.prompt == old(input)
              else Within() && MayEnd(end.value) && done == old(done) && input == old(input)
    {
      var reply := Ask(true);
      end := OnReply(reply);
    }

    /**
     The loop and its sign-off: for any provider and tools it is a pass as `Scripts`
     says, the requests sent are exactly that pass's, and what is elided can be recalled.
     */
    method Drive() returns (end: LoopEnd)
      requires Valid() && done == Start
      modifies this, store
      ensures IsPassage(world, Passed(end)) && First(Chatting()) == old(input)
      ensures sent == Requests(world, script, Chatting()) && requests == Count(Chatting())
      ensures RemindersSent(sent) <= MAX_WRITE_NUDGES
      ensures ledger == script.ledger + lines && AllFoundStored(world, stored, ran)
      ensures log == LogAfter(world, script, done)
      ensures NoCollision(Mem()) ==> Represents(Mem(), log, lines, history)
    {
      var stop := Loop();
      if stop.Some? {
        end := stop.value;
      } else {
        end := SignOff();
      }
      EndedIsPassage(end);
      FewReminders(world, Passed(end));
    }
  }
}
