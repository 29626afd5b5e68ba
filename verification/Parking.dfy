/**
 Parked turns: a session that awaits a human is kept as its history and one entry
 per call of its last turn, with a hole for the human's reply.
 */
module Parking {
  import opened Options
  import opened Conversation

  const AWAIT_HUMAN := "await_human"

  /** One entry of a parked turn: the call, and its output unless a human is awaited for it. */
  datatype Pending = Pending(id: string, output: Option<Output>)

  /** A parked conversation. */
  datatype Parked = Parked(history: seq<Msg>, ledger: seq<Line>, pending: seq<Pending>, turnsUsed: nat)

  function PendingIds(pending: seq<Pending>): seq<string> {
    if pending == [] then [] else PendingIds(pending[..|pending| - 1]) + [pending[|pending| - 1].id]
  }

  function Holes(pending: seq<Pending>): nat {
    if pending == [] then 0
    else Holes(pending[..|pending| - 1]) + if pending[|pending| - 1].output.None? then 1 else 0
  }

  function Filled(pending: seq<Pending>, reply: string): seq<Item> {
    if pending == [] then []
    else
      var p := pending[|pending| - 1];
      Filled(pending[..|pending| - 1], reply)
      + [Result(p.id, if p.output.Some? then p.output.value else HumanReply(reply))]
  }

  /** Each entry answers its own call: with its output, or with the reply where there is none. */
  lemma {:induction false} FilledAt(pending: seq<Pending>, reply: string, i: nat)
    requires i < |pending|
    ensures |Filled(pending, reply)| == |pending|
    ensures Filled(pending, reply)[i] ==
      Result(pending[i].id, if pending[i].output.Some? then pending[i].output.value else HumanReply(reply))
  {
    var n := |pending| - 1;
    if n > 0 {
      FilledAt(pending[..n], reply, if i < n then i else 0);
    } else {
      assert pending[..n] == [];
    }
  }

  lemma FilledLength(pending: seq<Pending>, reply: string)
    ensures |Filled(pending, reply)| == |pending|
  {
    if pending == [] {
    } else {
      FilledAt(pending, reply, 0);
    }
  }

  /** There is exactly one hole, here. */
  ghost predicate OnlyHole(pending: seq<Pending>, i: nat) {
    i < |pending| && forall j | 0 <= j < |pending| :: pending[j].output.None? <==> j == i
  }

  lemma {:induction false} HolesMean(pending: seq<Pending>)
    ensures Holes(pending) == 0 <==> forall j | 0 <= j < |pending| :: pending[j].output.Some?
    ensures Holes(pending) == 1 <==> exists i :: OnlyHole(pending, i)
  {
    if pending == [] {
    } else {
      var n := |pending| - 1;
      var before := pending[..n];
      HolesMean(before);
      assert forall j | 0 <= j < n :: before[j] == pending[j];
      if Holes(pending) == 1 {
        if pending[n].output.None? {
          assert OnlyHole(pending, n);
        } else {
          var i :| OnlyHole(before, i);
          assert OnlyHole(pending, i);
        }
      }
      if i: nat :| OnlyHole(pending, i) {
        assert i < n ==> OnlyHole(before, i);
      }
    }
  }

  /** A parked turn is refused as corrupt exactly if it does not have exactly one hole. */
  lemma ResumesWhen(pending: seq<Pending>, reply: string)
    ensures ResumeInput(pending, reply).Some? <==> exists i :: OnlyHole(pending, i)
  {
    HolesMean(pending);
  }

  /** The prompt that resumes a parked turn; none if it does not have exactly one hole. */
  function ResumeInput(pending: seq<Pending>, reply: string): Option<Msg> {
    if Holes(pending) != 1 then None else Some(User(Filled(pending, reply)))
  }

  lemma {:induction false} FilledAnswers(pending: seq<Pending>, reply: string)
    ensures ResultIds(Filled(pending, reply)) == PendingIds(pending)
  {
    if pending == [] {
    } else {
      var n := |pending| - 1;
      FilledAnswers(pending[..n], reply);
      ResultIdsConcat(Filled(pending[..n], reply), [Filled(pending, reply)[|Filled(pending, reply)| - 1]]);
    }
  }

  /** A frame that can be resumed: one entry per call of its last turn, in order, and exactly one hole. */
  ghost predicate Resumable(goal: Msg, parked: Parked) {
    var h := parked.history;
    && |h| >= 2 && h[|h| - 1].Assistant?
    && WellFormed(goal, h[..|h| - 1])
    && PendingIds(parked.pending) == CallIds(h[|h| - 1].calls)
    && Holes(parked.pending) == 1
  }

  /** The calls of the turn a frame is parked in. */
  function LastCalls(parked: Parked): seq<ToolCall> {
    var h := parked.history;
    if h != [] && h[|h| - 1].Assistant? then h[|h| - 1].calls else []
  }

  /** Resuming such a frame never fails, and continues a well-formed conversation. */
  lemma ResumeContinues(goal: Msg, parked: Parked, reply: string)
    requires Resumable(goal, parked)
    ensures ResumeInput(parked.pending, reply).Some?
    ensures WellFormed(goal, parked.history + [ResumeInput(parked.pending, reply).value])
  {
    var h := parked.history;
    var input := ResumeInput(parked.pending, reply).value;
    FilledAnswers(parked.pending, reply);
    assert h[..|h| - 1] == h[..|h| - 2] + [h[|h| - 2]];
    TurnKeepsForm(goal, h[..|h| - 2], h[|h| - 2], h[|h| - 1], input);
    assert h + [input] == h[..|h| - 2] + [h[|h| - 2], h[|h| - 1]] + [input];
  }

  /** Entry `i` is a hole exactly if its call is the first to await a human; later awaits hold an error. */
  predicate HoleAt(calls: seq<ToolCall>, pending: seq<Pending>, i: nat)
    requires i < |calls| && i < |pending|
  {
    && (pending[i].output.None? <==> calls[i].name == AWAIT_HUMAN && Awaits(calls[..i]) == 0)
    && (calls[i].name == AWAIT_HUMAN && pending[i].output.Some? ==> pending[i].output.value == AwaitedAlready)
  }

  /** The hole of a parked turn is its first awaiting call. */
  ghost predicate ParksFirstAwait(calls: seq<ToolCall>, pending: seq<Pending>) {
    && |pending| == |calls| && PendingIds(pending) == CallIds(calls)
    && (forall i {:trigger HoleAt(calls, pending, i)} | 0 <= i < |calls| :: HoleAt(calls, pending, i))
    && Holes(pending) == if Awaits(calls) == 0 then 0 else 1
  }

  /** A turn that awaits a human, with its other calls' results, makes a resumable frame. */
  lemma ParkedIsResumable(goal: Msg, history: seq<Msg>, input: Msg, text: string, calls: seq<ToolCall>, ledger: seq<Line>,
                          pending: seq<Pending>, turnsUsed: nat)
    requires WellFormed(goal, history + [input]) && ParksFirstAwait(calls, pending) && Awaits(calls) > 0
    ensures var parked := Parked(history + [input, Assistant(text, calls)], ledger, pending, turnsUsed);
            Resumable(goal, parked) && LastCalls(parked) == calls
  {
    var h := history + [input, Assistant(text, calls)];
    assert h[..|h| - 1] == history + [input] && h[|h| - 1] == Assistant(text, calls);
  }

  function Awaits(calls: seq<ToolCall>): nat {
    if calls == [] then 0
    else Awaits(calls[..|calls| - 1]) + if calls[|calls| - 1].name == AWAIT_HUMAN then 1 else 0
  }

  /** Whether some call awaits a human. */
  lemma {:induction false} AwaitsMean(calls: seq<ToolCall>)
    ensures Awaits(calls) == 0 <==> forall j | 0 <= j < |calls| :: calls[j].name != AWAIT_HUMAN
  {
    if calls == [] {
    } else {
      var n := |calls| - 1;
      AwaitsMean(calls[..n]);
      assert forall j | 0 <= j < n :: calls[..n][j] == calls[j];
    }
  }

  lemma {:induction false} PendingIdAt(pending: seq<Pending>, i: nat)
    requires i < |pending|
    ensures |PendingIds(pending)| == |pending| && PendingIds(pending)[i] == pending[i].id
  {
    var n := |pending| - 1;
    if n > 0 {
      PendingIdAt(pending[..n], if i < n then i else 0);
    } else {
      assert pending[..n] == [];
    }
  }

  lemma {:induction false} CallIdAt(calls: seq<ToolCall>, i: nat)
    requires i < |calls|
    ensures |CallIds(calls)| == |calls| && CallIds(calls)[i] == calls[i].id
  {
    var n := |calls| - 1;
    if n > 0 {
      CallIdAt(calls[..n], if i < n then i else 0);
    } else {
      assert calls[..n] == [];
    }
  }

  /** Call `i` is the first to await a human. */
  ghost predicate FirstAwait(calls: seq<ToolCall>, i: nat) {
    i < |calls| && calls[i].name == AWAIT_HUMAN && forall j | 0 <= j < i :: calls[j].name != AWAIT_HUMAN
  }

  /** Item `i` answers call `i`: the first await with the human's reply, a later one with an error. */
  ghost predicate Tells(calls: seq<ToolCall>, items: seq<Item>, reply: string, i: nat)
    requires i < |calls| && i < |items|
  {
    && items[i].Result? && items[i].id == calls[i].id
    && (calls[i].name == AWAIT_HUMAN ==>
          items[i].output == if FirstAwait(calls, i) then HumanReply(reply) else AwaitedAlready)
  }

  /** Filling a parked turn answers each of its calls; where nobody is awaited, with the output kept for it. */
  lemma FilledTells(calls: seq<ToolCall>, pending: seq<Pending>, reply: string, i: nat)
    requires ParksFirstAwait(calls, pending) && i < |calls|
    ensures |Filled(pending, reply)| == |calls| && Tells(calls, Filled(pending, reply), reply, i)
    ensures calls[i].name != AWAIT_HUMAN ==>
      pending[i].output.Some? && Filled(pending, reply)[i].output == pending[i].output.value
  {
    FilledAt(pending, reply, i);
    PendingIdAt(pending, i);
    CallIdAt(calls, i);
    AwaitsMean(calls[..i]);
    assert HoleAt(calls, pending, i);
    assert FirstAwait(calls, i) <==> calls[i].name == AWAIT_HUMAN && Awaits(calls[..i]) == 0;
  }

  lemma HolesSnoc(pending: seq<Pending>, entry: Pending)
    ensures Holes(pending + [entry]) == Holes(pending) + if entry.output.None? then 1 else 0
    ensures PendingIds(pending + [entry]) == PendingIds(pending) + [entry.id]
  {
    assert (pending + [entry])[..|pending|] == pending;
  }

  lemma AwaitsSnoc(calls: seq<ToolCall>, n: nat)
    requires n < |calls|
    ensures Awaits(calls[..n + 1]) == Awaits(calls[..n]) + if calls[n].name == AWAIT_HUMAN then 1 else 0
    ensures CallIds(calls[..n + 1]) == CallIds(calls[..n]) + [calls[n].id]
  {
    assert calls[..n + 1][..n] == calls[..n];
  }

  lemma ParkOneMore(calls: seq<ToolCall>, n: nat, pending: seq<Pending>, output: Option<Output>)
    requires n < |calls| && ParksFirstAwait(calls[..n], pending)
    requires output.None? <==> calls[n].name == AWAIT_HUMAN && Awaits(calls[..n]) == 0
    requires calls[n].name == AWAIT_HUMAN && output.Some? ==> output.value == AwaitedAlready
    ensures ParksFirstAwait(calls[..n + 1], pending + [Pending(calls[n].id, output)])
  {
    var cs, ps := calls[..n + 1], pending + [Pending(calls[n].id, output)];
    HolesSnoc(pending, Pending(calls[n].id, output));
    AwaitsSnoc(calls, n);
    forall i | 0 <= i < |cs| ensures HoleAt(cs, ps, i) {
      if i < n {
        assert HoleAt(calls[..n], pending, i);
        assert cs[..i] == calls[..n][..i];
      } else {
        assert cs[..i] == calls[..n];
      }
    }
  }
}
