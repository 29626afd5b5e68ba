/**
 What a run remembers of its conversation: elided turn-pairs are in the spill
 store, under slots the ledger lists, and can be paged back.
 */
module Memory {
  import opened Options
  import opened Spill
  import opened Conversation

  /** The spill store, with everything ever put into it. */
  datatype Archive = Archive(slots: map<Slot, Payload>, stored: set<Payload>, hash: Payload -> Slot, codec: Codec)

  function WithPut(m: Archive, p: Payload): Archive {
    m.(slots := m.slots[m.hash(p) := p], stored := m.stored + {p})
  }

  /** A slot holds something that was put there. */
  ghost predicate Sourced(m: Archive, slot: Slot) {
    slot in m.slots ==> m.slots[slot] in m.stored && m.hash(m.slots[slot]) == slot
  }

  ghost predicate Placed(m: Archive, p: Payload) {
    p in m.stored ==> m.hash(p) in m.slots
  }

  /** Everything put has a slot, and every slot holds something put there. */
  ghost predicate Intact(m: Archive) {
    && (forall p {:trigger Placed(m, p)} :: Placed(m, p))
    && (forall slot: Slot {:trigger Sourced(m, slot)} :: Sourced(m, slot))
  }

  ghost predicate Apart(m: Archive, p: Payload, q: Payload) {
    p in m.stored && q in m.stored && m.hash(p) == m.hash(q) ==> p == q
  }

  /** No two payloads share a slot. */
  ghost predicate NoCollision(m: Archive) {
    forall p, q {:trigger Apart(m, p, q)} :: Apart(m, p, q)
  }

  lemma PutStaysIntact(m: Archive, p: Payload)
    requires Intact(m)
    ensures Intact(WithPut(m, p))
  {
    var after := WithPut(m, p);
    forall slot: Slot ensures Sourced(after, slot) {
      assert Sourced(m, slot);
    }
    forall q ensures Placed(after, q) {
      assert Placed(m, q);
    }
  }

  /** Without collisions a payload is found where it was put. */
  lemma FoundInItsSlot(m: Archive, p: Payload)
    requires Intact(m) && NoCollision(m) && p in m.stored
    ensures m.hash(p) in m.slots && m.slots[m.hash(p)] == p
  {
    assert Placed(m, p) && Sourced(m, m.hash(p)) && Apart(m, p, m.slots[m.hash(p)]);
  }

  lemma NoCollisionBefore(m: Archive, p: Payload)
    requires NoCollision(WithPut(m, p))
    ensures NoCollision(m)
  {
    forall x, y ensures Apart(m, x, y) {
      assert Apart(WithPut(m, p), x, y);
    }
  }

  // ----- recalling a ledger -----

  /** The messages behind a ledger: each slot's pair, in ledger order. */
  function Recall(m: Archive, ledger: seq<Line>): seq<Msg> {
    if ledger == [] then []
    else
      var slot := ledger[|ledger| - 1].slot;
      var pair := if slot in m.slots then m.codec.decode(m.slots[slot]) else None;
      Recall(m, ledger[..|ledger| - 1]) + if pair.Some? then [pair.value.assistant, pair.value.user] else []
  }

  /** The slot is where some turn-pair was put. */
  ghost predicate PairStored(m: Archive, slot: Slot) {
    exists a, u :: m.codec.encode(Pair(a, u)) in m.stored && m.hash(m.codec.encode(Pair(a, u))) == slot
  }

  ghost predicate Backed(m: Archive, ledger: seq<Line>) {
    forall i {:trigger PairStored(m, ledger[i].slot)} | 0 <= i < |ledger| :: PairStored(m, ledger[i].slot)
  }

  lemma BackedBefore(m: Archive, ledger: seq<Line>, n: nat)
    requires Backed(m, ledger) && n < |ledger|
    ensures Backed(m, ledger[..n]) && PairStored(m, ledger[n].slot)
  {
    forall i | 0 <= i < n ensures PairStored(m, ledger[..n][i].slot) {
      assert PairStored(m, ledger[i].slot);
    }
    assert PairStored(m, ledger[n].slot);
  }

  lemma BackedAfterPut(m: Archive, ledger: seq<Line>, p: Payload)
    requires Backed(m, ledger)
    ensures Backed(WithPut(m, p), ledger)
  {
    var after := WithPut(m, p);
    forall i | 0 <= i < |ledger| ensures PairStored(after, ledger[i].slot) {
      assert PairStored(m, ledger[i].slot);
      var a, u :| m.codec.encode(Pair(a, u)) in m.stored && m.hash(m.codec.encode(Pair(a, u))) == ledger[i].slot;
      assert after.codec.encode(Pair(a, u)) in after.stored;
    }
  }

  /** Without collisions a backed slot holds the encoding of its pair. */
  lemma SlotHoldsPair(m: Archive, slot: Slot) returns (a: Msg, u: Msg)
    requires Faithful(m.codec) && Intact(m) && NoCollision(m) && PairStored(m, slot)
    ensures slot in m.slots && m.slots[slot] == m.codec.encode(Pair(a, u))
    ensures m.codec.decode(m.slots[slot]) == Some(Pair(a, u))
  {
    a, u :| m.codec.encode(Pair(a, u)) in m.stored && m.hash(m.codec.encode(Pair(a, u))) == slot;
    FoundInItsSlot(m, m.codec.encode(Pair(a, u)));
  }

  /** A later put does not disturb what a ledger recalls. */
  lemma {:induction false} RecallSurvivesPut(m: Archive, ledger: seq<Line>, p: Payload)
    requires Faithful(m.codec) && Intact(m) && Backed(m, ledger) && NoCollision(WithPut(m, p))
    ensures Recall(WithPut(m, p), ledger) == Recall(m, ledger)
  {
    if ledger == [] {
    } else {
      var n := |ledger| - 1;
      BackedBefore(m, ledger, n);
      RecallSurvivesPut(m, ledger[..n], p);
      SlotSurvivesPut(m, ledger[n].slot, p);
    }
  }

  lemma SlotSurvivesPut(m: Archive, slot: Slot, p: Payload)
    requires Faithful(m.codec) && Intact(m) && PairStored(m, slot) && NoCollision(WithPut(m, p))
    ensures slot in m.slots && slot in WithPut(m, p).slots && WithPut(m, p).slots[slot] == m.slots[slot]
  {
    var after := WithPut(m, p);
    NoCollisionBefore(m, p);
    var a, u := SlotHoldsPair(m, slot);
    assert Sourced(m, slot);
    assert Apart(after, p, m.slots[slot]);
  }

  /** Line `i` of a ledger recalls messages `2 i` and `2 i + 1`, and its slot holds exactly their encoding. */
  lemma {:induction false} RecallAt(m: Archive, ledger: seq<Line>, i: nat) returns (a: Msg, u: Msg)
    requires Faithful(m.codec) && Intact(m) && NoCollision(m) && Backed(m, ledger) && i < |ledger|
    ensures |Recall(m, ledger)| == 2 * |ledger|
    ensures Recall(m, ledger)[2 * i] == a && Recall(m, ledger)[2 * i + 1] == u
    ensures ledger[i].slot in m.slots && m.slots[ledger[i].slot] == m.codec.encode(Pair(a, u))
  {
    var n := |ledger| - 1;
    BackedBefore(m, ledger, n);
    RecallSize(m, ledger[..n]);
    var x, y := SlotHoldsPair(m, ledger[n].slot);
    if i == n {
      a, u := x, y;
    } else {
      a, u := RecallAt(m, ledger[..n], i);
    }
  }

  lemma {:induction false} RecallSize(m: Archive, ledger: seq<Line>)
    requires Faithful(m.codec) && Intact(m) && NoCollision(m) && Backed(m, ledger)
    ensures |Recall(m, ledger)| == 2 * |ledger|
  {
    if ledger == [] {
    } else {
      var n := |ledger| - 1;
      BackedBefore(m, ledger, n);
      RecallSize(m, ledger[..n]);
      var _, _ := SlotHoldsPair(m, ledger[n].slot);
    }
  }

  /**
   Reading a ledger line's slot in windows, at any ascending cut points over the
   whole payload, gives back the elided pair.
   */
  lemma PagingRecalls(m: Archive, ledger: seq<Line>, i: nat, cuts: seq<nat>) returns (a: Msg, u: Msg)
    requires Faithful(m.codec) && Intact(m) && NoCollision(m) && Backed(m, ledger) && i < |ledger|
    requires |cuts| >= 2 && Ascending(cuts) && cuts[0] == 0
    ensures |Recall(m, ledger)| == 2 * |ledger|
    ensures Recall(m, ledger)[2 * i] == a && Recall(m, ledger)[2 * i + 1] == u
    ensures ledger[i].slot in m.slots
    ensures cuts[|cuts| - 1] >= |m.slots[ledger[i].slot]| ==>
              m.codec.decode(Pages(m.slots[ledger[i].slot], cuts)) == Some(Pair(a, u))
  {
    a, u := RecallAt(m, ledger, i);
    var p := m.slots[ledger[i].slot];
    if cuts[|cuts| - 1] >= |p| {
      PagesOfAll(p, cuts);
    }
  }

  lemma RecallSnoc(m: Archive, ledger: seq<Line>, line: Line, a: Msg, u: Msg)
    requires line.slot in m.slots && m.codec.decode(m.slots[line.slot]) == Some(Pair(a, u))
    ensures Recall(m, ledger + [line]) == Recall(m, ledger) + [a, u]
  {
    assert (ledger + [line])[..|ledger|] == ledger;
  }

  // ----- the whole conversation -----

  /** What has ever been said, kept in three places: the goal, the pairs the ledger recalls, and the rest of the history. */
  ghost predicate Represents(m: Archive, log: seq<Msg>, ledger: seq<Line>, history: seq<Msg>) {
    log == if history == [] then [] else [history[0]] + Recall(m, ledger) + history[1..]
  }

  /** The bookkeeping that makes the representation hold as long as no two stored payloads collide. */
  ghost predicate Remembers(m: Archive, log: seq<Msg>, ledger: seq<Line>, history: seq<Msg>) {
    Intact(m) && Backed(m, ledger) && (NoCollision(m) ==> Represents(m, log, ledger, history))
  }

  /** A segment starts with an empty store and everything said so far in its history. */
  lemma StartsWhole(m: Archive, history: seq<Msg>)
    requires m.slots == map[] && m.stored == {}
    ensures Remembers(m, history, [], history)
  {
    assert history != [] ==> history == [history[0]] + [] + history[1..];
  }

  lemma SlotIsSourced(m: Archive, slot: Slot)
    requires Intact(m) && slot in m.slots
    ensures m.slots[slot] in m.stored && m.hash(m.slots[slot]) == slot
  {
    assert Sourced(m, slot);
  }

  lemma PutKeepsMemory(m: Archive, log: seq<Msg>, ledger: seq<Line>, history: seq<Msg>, p: Payload)
    requires Faithful(m.codec) && Remembers(m, log, ledger, history)
    ensures Remembers(WithPut(m, p), log, ledger, history)
  {
    PutStaysIntact(m, p);
    BackedAfterPut(m, ledger, p);
    if NoCollision(WithPut(m, p)) {
      NoCollisionBefore(m, p);
      RecallSurvivesPut(m, ledger, p);
    }
  }

  lemma ElidedLog(history: seq<Msg>, recalled: seq<Msg>)
    requires |history| >= 3
    ensures [history[0]] + recalled + history[1..]
         == [Elided(history, 1)[0]] + (recalled + [history[1], history[2]]) + Elided(history, 1)[1..]
  {
    assert history[1..] == [history[1], history[2]] + history[3..];
    assert Elided(history, 1)[1..] == history[3..];
  }

  lemma BackedSnoc(m: Archive, ledger: seq<Line>, line: Line, a: Msg, u: Msg)
    requires Backed(m, ledger) && m.codec.encode(Pair(a, u)) in m.stored && m.hash(m.codec.encode(Pair(a, u))) == line.slot
    ensures Backed(m, ledger + [line])
  {
    var more := ledger + [line];
    forall i | 0 <= i < |more| ensures PairStored(m, more[i].slot) {
      assert i < |ledger| ==> PairStored(m, ledger[i].slot);
    }
  }

  /** Moving the oldest pair from the history to the store and the ledger loses nothing. */
  lemma ElideKeepsMemory(m: Archive, log: seq<Msg>, ledger: seq<Line>, history: seq<Msg>, line: Line)
    requires Faithful(m.codec) && |history| >= 3 && Remembers(m, log, ledger, history)
    requires line.slot == m.hash(m.codec.encode(Pair(history[1], history[2])))
    ensures Remembers(WithPut(m, m.codec.encode(Pair(history[1], history[2]))), log, ledger + [line], Elided(history, 1))
  {
    var p := m.codec.encode(Pair(history[1], history[2]));
    var after := WithPut(m, p);
    PutKeepsMemory(m, log, ledger, history, p);
    BackedSnoc(after, ledger, line, history[1], history[2]);
    if NoCollision(after) {
      RecallSnoc(after, ledger, line, history[1], history[2]);
      ElidedLog(history, Recall(after, ledger));
    }
  }

  lemma PushedLog(history: seq<Msg>, recalled: seq<Msg>, more: seq<Msg>)
    requires history != []
    ensures [history[0]] + recalled + history[1..] + more == [(history + more)[0]] + recalled + (history + more)[1..]
  {
    assert (history + more)[1..] == history[1..] + more;
  }

  lemma FirstLog(more: seq<Msg>)
    requires more != []
    ensures [] + more == [more[0]] + [] + more[1..]
  {
  }

  /** What is pushed to the history is pushed to the log. */
  lemma PushKeepsMemory(m: Archive, log: seq<Msg>, ledger: seq<Line>, history: seq<Msg>, more: seq<Msg>)
    requires Remembers(m, log, ledger, history) && more != [] && (history == [] ==> ledger == [])
    ensures Remembers(m, log + more, ledger, history + more)
  {
    if history == [] {
      assert history + more == more;
      FirstLog(more);
    } else {
      PushedLog(history, Recall(m, ledger), more);
    }
  }
}
