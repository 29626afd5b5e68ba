/**
 The conversation an agent loop keeps re-sending: messages, the rule that calls
 are answered by the next user message, and the elision of old turns into the
 spill store.
 */
module Conversation {
  import opened Options
  import opened Contract
  import opened Spill

  datatype ToolCall = ToolCall(id: string, name: string, arguments: string)

  /** What a tool call comes back with. */
  datatype Output =
    | Shown(text: ToolText)
    | Recalled(read: Read)
    | BadArguments
    | AwaitedAlready
    | HumanReply(reply: string)

  /** One line of the recall ledger: the number of the elided pair, what it called, its size, and its slot. */
  datatype Line = Line(index: nat, calls: seq<ToolCall>, bytes: nat, slot: Slot)

  /** The words of a user message: written by someone, or one of the loop's own reminders. */
  datatype Words = Written(text: string) | WriteEvidence | AnyObject | OutputKeys(keys: seq<KeySpec>)

  /** A required key, with its declared type if it has one. */
  datatype KeySpec = KeySpec(key: string, ty: Option<string>)

  /** The reminder of the output contract. */
  function Feedback(shape: Shape): Words {
    if shape.keys == [] && shape.types == map[] then AnyObject
    else
      OutputKeys(seq(|shape.keys|, i requires 0 <= i < |shape.keys| =>
        KeySpec(shape.keys[i], if shape.keys[i] in shape.types then Some(shape.types[shape.keys[i]]) else None)))
  }

  /** It names every required key in order, with its declared type if it has one; or asks for any object. */
  lemma FeedbackLists(shape: Shape, i: nat)
    ensures shape.keys == [] && shape.types == map[] ==> Feedback(shape) == AnyObject
    ensures shape.keys != [] || shape.types != map[] ==>
      Feedback(shape).OutputKeys? && |Feedback(shape).keys| == |shape.keys|
    ensures i < |shape.keys| ==>
      var spec := Feedback(shape).keys[i];
      && spec.key == shape.keys[i] && (spec.ty.Some? <==> shape.keys[i] in shape.types)
      && (spec.ty.Some? ==> spec.ty.value == shape.types[shape.keys[i]])
  {
  }

  datatype Item =
    | Prose(words: Words)
    | Image(data: string)
    | Result(id: string, output: Output)
    | Recallable(lines: seq<Line>)

  datatype Msg = User(items: seq<Item>) | Assistant(text: string, calls: seq<ToolCall>)

  function IdOf(item: Item): seq<string> {
    if item.Result? then [item.id] else []
  }

  function ResultIds(items: seq<Item>): seq<string> {
    if items == [] then [] else IdOf(items[0]) + ResultIds(items[1..])
  }

  function CallIds(calls: seq<ToolCall>): seq<string> {
    if calls == [] then [] else CallIds(calls[..|calls| - 1]) + [calls[|calls| - 1].id]
  }

  /** `reply` carries one result per call of `turn`, in call order, and no other result. */
  predicate Answers(turn: Msg, reply: Msg) {
    turn.Assistant? && reply.User? && ResultIds(reply.items) == CallIds(turn.calls)
  }

  predicate IsGoal(m: Msg) {
    m.User? && ResultIds(m.items) == []
  }

  predicate AnsweredAt(ms: seq<Msg>, i: nat)
    requires i + 1 < |ms|
  {
    Answers(ms[i], ms[i + 1])
  }

  /** A conversation a provider accepts: the goal, then assistant turns each answered by the next user message. */
  ghost predicate WellFormed(goal: Msg, ms: seq<Msg>) {
    && |ms| % 2 == 1 && ms[0] == goal && IsGoal(goal)
    && forall i {:trigger AnsweredAt(ms, i)} | 0 < i < |ms| && i % 2 == 1 :: AnsweredAt(ms, i)
  }

  lemma ResultIdsCons(item: Item, rest: seq<Item>)
    ensures ResultIds([item] + rest) == IdOf(item) + ResultIds(rest)
  {
    assert ([item] + rest)[1..] == rest;
  }

  lemma {:induction false} ResultIdsConcat(a: seq<Item>, b: seq<Item>)
    ensures ResultIds(a + b) == ResultIds(a) + ResultIds(b)
  {
    if a == [] {
      assert a + b == b;
    } else {
      var head, tail := a[0], a[1..];
      ResultIdsConcat(tail, b);
      Regroup([head], tail, b);
      assert a == [head] + tail;
      ResultIdsCons(head, tail + b);
      ResultIdsCons(head, tail);
      Regroup(IdOf(head), ResultIds(tail), ResultIds(b));
    }
  }

  lemma Regroup<T>(x: seq<T>, y: seq<T>, z: seq<T>)
    ensures x + y + z == x + (y + z)
  {
  }

  /** One more turn: the prompt and the assistant's turn join the history, and the new prompt answers the turn. */
  lemma TurnKeepsForm(goal: Msg, history: seq<Msg>, input: Msg, turn: Msg, next: Msg)
    requires WellFormed(goal, history + [input]) && Answers(turn, next)
    ensures WellFormed(goal, history + [input, turn] + [next])
  {
    var ms := history + [input, turn] + [next];
    forall i | 0 < i < |ms| && i % 2 == 1 ensures AnsweredAt(ms, i) {
      if i < |history| {
        assert AnsweredAt(history + [input], i);
      }
    }
  }

  /** The prompt as sent, with the ledger on its tail. */
  function WithLedger(input: Msg, ledger: seq<Line>): Msg {
    if ledger == [] || input.Assistant? then input else User(input.items + [Recallable(ledger)])
  }

  /** The ledger rides on a prompt without disturbing what the prompt answers. */
  lemma LedgerKeepsForm(goal: Msg, history: seq<Msg>, input: Msg, ledger: seq<Line>)
    requires WellFormed(goal, history + [input])
    requires history == [] ==> ledger == []
    ensures WellFormed(goal, history + [WithLedger(input, ledger)])
  {
    if ledger != [] && input.User? {
      assert ResultIds(input.items + [Recallable(ledger)]) == ResultIds(input.items) by {
        ResultIdsConcat(input.items, [Recallable(ledger)]);
      }
      var ms, sent := history + [input], history + [WithLedger(input, ledger)];
      forall i | 0 < i < |sent| && i % 2 == 1 ensures AnsweredAt(sent, i) {
        assert AnsweredAt(ms, i);
      }
    }
  }

  // ----- elision -----

  const USIZE_MAX: nat := 0xffff_ffff_ffff_ffff
  const KEEP_RECENT: nat := 4

  /** A message as it goes over the wire, where its size is measured. */
  datatype Serialized = Serialized(message: Msg)

  function Bytes(ms: seq<Msg>, size: Serialized -> nat): nat {
    if ms == [] then 0 else size(Serialized(ms[0])) + Bytes(ms[1..], size)
  }

  /** The low-water mark: two thirds of the budget, the doubling saturating. */
  function LowWater(budget: nat): (r: nat)
    ensures r <= budget
    ensures 2 * budget <= USIZE_MAX ==> 3 * r <= 2 * budget < 3 * (r + 1)
    ensures 2 * budget > USIZE_MAX ==> 3 * r <= USIZE_MAX < 3 * (r + 1)
  {
    (if 2 * budget > USIZE_MAX then USIZE_MAX else 2 * budget) / 3
  }

  /** The history without its `k` oldest turn-pairs. */
  function Elided(history: seq<Msg>, k: nat): seq<Msg>
    requires 2 * k < |history|
  {
    [history[0]] + history[2 * k + 1..]
  }

  /** Dropping whole pairs after the goal keeps the form. */
  lemma ElisionKeepsForm(goal: Msg, history: seq<Msg>, k: nat, input: Msg)
    requires WellFormed(goal, history + [input]) && 2 * k < |history|
    ensures WellFormed(goal, Elided(history, k) + [input])
  {
    var ms, kept := history + [input], Elided(history, k) + [input];
    forall i | 0 < i < |kept| && i % 2 == 1 ensures AnsweredAt(kept, i) {
      assert AnsweredAt(ms, i + 2 * k);
    }
  }

  /** `history` and `ledger` are what `k` elisions leave of `history0` and `ledger0`. */
  ghost predicate Shrunk(history0: seq<Msg>, ledger0: seq<Line>, history: seq<Msg>, ledger: seq<Line>, k: nat) {
    && (k == 0 ==> history == history0)
    && (k > 0 ==> 2 * k < |history0| && history == Elided(history0, k) && |history| >= KEEP_RECENT)
    && |ledger| == |ledger0| + k && ledger[..|ledger0|] == ledger0
    && forall i {:trigger NumberedAt(ledger, i)} | |ledger0| <= i < |ledger| :: NumberedAt(ledger, i)
  }

  predicate NumberedAt(ledger: seq<Line>, i: nat)
    requires i < |ledger|
  {
    ledger[i].index == i + 1
  }

  lemma ShrunkFurther(history0: seq<Msg>, ledger0: seq<Line>, history: seq<Msg>, ledger: seq<Line>, k: nat, line: Line,
                      size: Serialized -> nat, low: nat)
    requires Shrunk(history0, ledger0, history, ledger, k) && |history| > KEEP_RECENT + 1 && line.index == |ledger| + 1
    requires NoneToSpare(history0, k, size, low) && Bytes(history, size) > low
    ensures Shrunk(history0, ledger0, Elided(history, 1), ledger + [line], k + 1)
    ensures NoneToSpare(history0, k + 1, size, low)
  {
    if k > 0 {
      ElidedFurther(history0, k);
    }
    var more := ledger + [line];
    forall i | |ledger0| <= i < |more| ensures NumberedAt(more, i) {
      assert i < |ledger| ==> NumberedAt(ledger, i);
    }
    forall j | 1 <= j < k + 1 && 2 * j < |history0| ensures StillAbove(history0, j, size, low) {
      assert j < k ==> StillAbove(history0, j, size, low);
    }
  }

  /** No fewer than `k` elisions (but for the first, made on crossing the budget) bring the bytes down to `low`. */
  ghost predicate NoneToSpare(history0: seq<Msg>, k: nat, size: Serialized -> nat, low: nat) {
    forall j {:trigger StillAbove(history0, j, size, low)} | 1 <= j < k && 2 * j < |history0| ::
      StillAbove(history0, j, size, low)
  }

  predicate StillAbove(history0: seq<Msg>, j: nat, size: Serialized -> nat, low: nat)
    requires 2 * j < |history0|
  {
    Bytes(Elided(history0, j), size) > low
  }

  /** Six messages or more, over budget, and above low water as long as six are left. */
  ghost predicate DrainsToFour(history0: seq<Msg>, budget: nat, size: Serialized -> nat) {
    && |history0| % 2 == 0 && |history0| >= KEEP_RECENT + 2 && Bytes(history0, size) > budget
    && NoneToSpare(history0, (|history0| - KEEP_RECENT) / 2, size, LowWater(budget))
  }

  /** A pass leaves four messages, the goal and three, exactly when the history drains to them. */
  lemma DrainsWhen(history0: seq<Msg>, ledger0: seq<Line>, history: seq<Msg>, ledger: seq<Line>, k: nat,
                   budget: nat, size: Serialized -> nat)
    requires Shrunk(history0, ledger0, history, ledger, k) && NoneToSpare(history0, k, size, LowWater(budget))
    requires Bytes(history, size) <= budget || |history| <= KEEP_RECENT + 1
    requires k > 0 ==> Bytes(history0, size) > budget
    requires k > 0 ==> Bytes(history, size) <= LowWater(budget) || |history| <= KEEP_RECENT + 1
    ensures k > 0 && |history| == KEEP_RECENT <==> DrainsToFour(history0, budget, size)
  {
    var above := 2 * k < |history0| && StillAbove(history0, k, size, LowWater(budget));
    assert k > 0 ==> |history| == |history0| - 2 * k && (|history| == KEEP_RECENT ==> k == (|history0| - KEEP_RECENT) / 2);
  }

  lemma {:induction false} SameSizeBytes(ms: seq<Msg>, each: nat)
    ensures Bytes(ms, _ => each) == |ms| * each
  {
    if ms == [] {
    } else {
      SameSizeBytes(ms[1..], each);
      assert |ms| * each == each + (|ms| - 1) * each;
    }
  }

  /** Six messages of ten bytes each against a budget of fifty drain to four. */
  lemma GuardCanKeepThree(goal: Msg, text: string) returns (history: seq<Msg>, input: Msg)
    requires IsGoal(goal)
    ensures |history| == 6 && WellFormed(goal, history + [input]) && DrainsToFour(history, 50, _ => 10)
  {
    var a, u := Assistant(text, []), User([Prose(Written(text))]);
    history, input := [goal, a, u, a, u, a], u;
    SameSizeBytes(history, 10);
    var ms := history + [input];
    forall i | 0 < i < |ms| && i % 2 == 1 ensures AnsweredAt(ms, i) {
      assert ms[i] == a && ms[i + 1] == u;
    }
  }

  lemma ElidedFurther(history: seq<Msg>, k: nat)
    requires 2 * (k + 1) < |history|
    ensures Elided(Elided(history, k), 1) == Elided(history, k + 1)
  {
  }

  lemma {:induction false} BytesConcat(a: seq<Msg>, b: seq<Msg>, size: Serialized -> nat)
    ensures Bytes(a + b, size) == Bytes(a, size) + Bytes(b, size)
  {
    if a == [] {
      assert a + b == b;
    } else {
      BytesConcat(a[1..], b, size);
      assert (a + b)[1..] == a[1..] + b;
    }
  }

  /** After a pass that reached low water, the budget is not crossed again before more than their distance in new bytes. */
  lemma Hysteresis(history: seq<Msg>, more: seq<Msg>, budget: nat, size: Serialized -> nat)
    requires Bytes(history, size) <= LowWater(budget)
    ensures Bytes(history + more, size) > budget ==> Bytes(more, size) > budget - LowWater(budget)
  {
    BytesConcat(history, more, size);
  }

  /** A turn-pair: what the assistant said, and the user message that answered it. */
  datatype Pair = Pair(assistant: Msg, user: Msg)

  /** How a turn-pair is written to the store and read back. */
  datatype Codec = Codec(encode: Pair -> Payload, decode: Payload -> Option<Pair>)

  ghost predicate Faithful(codec: Codec) {
    forall pair :: codec.decode(codec.encode(pair)) == Some(pair)
  }
}
