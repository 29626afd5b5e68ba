/**
 What a run segment is up against (provider, tool host, limits) and the record of
 the tool calls it carries out.
 */
module ToolRecord {
  import opened Options
  import opened Contract
  import opened Spill
  import opened Conversation
  import opened Memory
  import opened Parking
  import opened ToolNames

  const SPILL_READ := "spill_read"

  datatype Session = Session(
    id: nat, goal: Msg, declaresTools: bool, awaitEnabled: bool, requiresFileWrite: bool, shape: Shape)

  /** How the provider answers a request: an error, nothing before the wall clock, or a turn. */
  datatype Reply = Broke | Unfinished | Turn(text: string, calls: seq<ToolCall>, answer: Option<Answer>)

  datatype HostReply = HostOk(bytes: Payload) | HostError(bytes: Payload) | HostUnfinished

  /** What the host is asked: the request and the call's place there, the connection and tool, and the arguments. */
  datatype HostCall = HostCall(stamp: nat, index: nat, route: Route, arguments: string)

  /**
   Everything the loop does not decide: limits, routes, message sizes, encodings,
   and the answers of the provider (by request number) and of the tool host (by
   request number and call).
   */
  datatype World = World(
    maxTurns: nat, budget: nat, hasHost: bool, routes: map<string, Route>,
    size: Serialized -> nat, codec: Codec, hash: Payload -> Slot,
    spell: Json -> string, extract: string -> Option<Json>, envelope: Json -> Option<Answer>,
    spillArguments: string -> Option<(Slot, nat, nat)>, unknownTool: string -> Payload, noHost: Payload,
    provider: nat -> Reply, host: HostCall -> HostReply)

  function ReplyOf(world: World, stamp: nat): Reply {
    world.provider(stamp)
  }

  function Spelled(world: World, output: Json): string {
    world.spell(output)
  }

  function Extracted(world: World, text: string): Option<Json> {
    world.extract(text)
  }

  /** The slot and range a spill read asks for. */
  function SpillArgs(world: World, call: ToolCall): Option<(Slot, nat, nat)> {
    world.spillArguments(call.arguments)
  }

  datatype LoopEnd =
    | Answered(answer: Answer)
    | Awaiting(parked: Parked)
    | Exhausted
    | NoFileWrites
    | LoopError
    | WallElapsed
    | Panicked

  // ----- what ran -----

  /**
   A tool call carried out: the request whose reply asked for it, its place
   there, the payload it found if it read the spill store, what came back (unless
   the run stopped in it), and whether it counts as a write.
   */
  datatype Exec = Exec(
    stamp: nat, index: nat, call: ToolCall, found: Option<Payload>, output: Option<Output>, evidence: bool)

  predicate Before(a: Exec, b: Exec) {
    a.stamp < b.stamp || (a.stamp == b.stamp && a.index < b.index)
  }

  /** Carried out in order, each at most once. */
  ghost predicate InOrder(ran: seq<Exec>) {
    forall i, j {:trigger Before(ran[i], ran[j])} | 0 <= i < j < |ran| :: Before(ran[i], ran[j])
  }

  /** Asked for by reply `first` or later, and before call `index` of reply `stamp`. */
  predicate Within(exec: Exec, first: nat, stamp: nat, index: nat) {
    first <= exec.stamp && (exec.stamp < stamp || (exec.stamp == stamp && exec.index < index))
  }

  ghost predicate InTurn(ran: seq<Exec>, first: nat, stamp: nat, index: nat) {
    && InOrder(ran)
    && forall i {:trigger Within(ran[i], first, stamp, index)} | 0 <= i < |ran| :: Within(ran[i], first, stamp, index)
  }

  lemma NextInTurn(ran: seq<Exec>, first: nat, exec: Exec)
    requires InTurn(ran, first, exec.stamp, exec.index) && first <= exec.stamp
    ensures InTurn(ran + [exec], first, exec.stamp, exec.index + 1)
  {
    var more := ran + [exec];
    forall i | 0 <= i < |more| ensures Within(more[i], first, exec.stamp, exec.index + 1) {
      assert i < |ran| ==> Within(ran[i], first, exec.stamp, exec.index);
    }
    forall i, j | 0 <= i < j < |more| ensures Before(more[i], more[j]) {
      if j < |ran| {
        assert Before(ran[i], ran[j]);
      } else {
        assert Within(ran[i], first, exec.stamp, exec.index);
      }
    }
  }

  /** What came before some point came before any later reply. */
  lemma LaterInTurn(ran: seq<Exec>, first: nat, stamp: nat, index: nat, later: nat)
    requires InTurn(ran, first, stamp, index) && (stamp < later || (stamp == later && index == 0))
    ensures InTurn(ran, first, later, 0)
  {
    forall i | 0 <= i < |ran| ensures Within(ran[i], first, later, 0) {
      assert Within(ran[i], first, stamp, index);
    }
  }

  /** A call that is not carried out leaves the record as it is. */
  lemma SkipInTurn(ran: seq<Exec>, first: nat, stamp: nat, index: nat)
    requires InTurn(ran, first, stamp, index)
    ensures InTurn(ran, first, stamp, index + 1)
  {
    forall i | 0 <= i < |ran| ensures Within(ran[i], first, stamp, index + 1) {
      assert Within(ran[i], first, stamp, index);
    }
  }

  /** No call of a reply is in the record twice. */
  lemma RanOnce(ran: seq<Exec>, j: nat, k: nat)
    requires InOrder(ran) && j < |ran| && k < |ran|
    ensures ran[j].stamp == ran[k].stamp && ran[j].index == ran[k].index ==> j == k
  {
    var _ := Before(ran[j], ran[k]);
    var _ := Before(ran[k], ran[j]);
  }

  /** The record grew by calls of reply `stamp` alone. */
  ghost predicate RanSince(before: seq<Exec>, ran: seq<Exec>, stamp: nat) {
    before <= ran && forall k {:trigger RanIn(ran, stamp, k)} | |before| <= k < |ran| :: RanIn(ran, stamp, k)
  }

  predicate RanIn(ran: seq<Exec>, stamp: nat, k: nat)
    requires k < |ran|
  {
    ran[k].stamp == stamp
  }

  lemma RanSinceThen(first: seq<Exec>, second: seq<Exec>, third: seq<Exec>, stamp: nat)
    requires RanSince(first, second, stamp) && RanSince(second, third, stamp)
    ensures RanSince(first, third, stamp)
  {
    forall k | |first| <= k < |third| ensures RanIn(third, stamp, k) {
      assert k < |second| ==> RanIn(second, stamp, k) && third[k] == second[k];
    }
  }

  function Writes(ran: seq<Exec>): nat {
    if ran == [] then 0 else Writes(ran[..|ran| - 1]) + if ran[|ran| - 1].evidence then 1 else 0
  }

  lemma WritesSnoc(ran: seq<Exec>, exec: Exec)
    ensures Writes(ran + [exec]) == Writes(ran) + if exec.evidence then 1 else 0
  {
    assert (ran + [exec])[..|ran|] == ran;
  }

  // ----- which slots there are -----

  /** The call's result was spilled to this slot. */
  predicate HandleTo(exec: Exec, slot: Slot) {
    exec.output.Some? && SpilledTo(exec.output.value, slot)
  }

  predicate SpilledTo(output: Output, slot: Slot) {
    output.Shown? && output.text.Handle? && output.text.slot == slot
  }

  predicate LineTo(line: Line, slot: Slot) {
    line.slot == slot
  }

  /** A run has named the slot: in a handle, or in one of these ledger lines. */
  ghost predicate Named(ran: seq<Exec>, lines: seq<Line>, slot: Slot) {
    || (exists j {:trigger HandleTo(ran[j], slot)} :: 0 <= j < |ran| && HandleTo(ran[j], slot))
    || (exists i {:trigger LineTo(lines[i], slot)} :: 0 <= i < |lines| && LineTo(lines[i], slot))
  }

  ghost predicate ShelvedAt(slots: map<Slot, Payload>, ran: seq<Exec>, lines: seq<Line>, slot: Slot) {
    slot in slots <==> Named(ran, lines, slot)
  }

  /** The store has exactly the slots named so far. */
  ghost predicate Shelves(slots: map<Slot, Payload>, ran: seq<Exec>, lines: seq<Line>) {
    forall slot: Slot {:trigger ShelvedAt(slots, ran, lines, slot)} :: ShelvedAt(slots, ran, lines, slot)
  }

  lemma NamedCall(ran: seq<Exec>, exec: Exec, lines: seq<Line>, slot: Slot)
    ensures Named(ran + [exec], lines, slot) <==> Named(ran, lines, slot) || HandleTo(exec, slot)
  {
    var more := ran + [exec];
    assert forall j | 0 <= j < |ran| :: more[j] == ran[j];
    assert more[|ran|] == exec;
    assert forall j {:trigger HandleTo(ran[j], slot)} | 0 <= j < |ran| && HandleTo(ran[j], slot) :: HandleTo(more[j], slot);
    assert HandleTo(exec, slot) ==> HandleTo(more[|ran|], slot);
  }

  lemma NamedLine(ran: seq<Exec>, lines: seq<Line>, line: Line, slot: Slot)
    ensures Named(ran, lines + [line], slot) <==> Named(ran, lines, slot) || LineTo(line, slot)
  {
    var more := lines + [line];
    assert forall i | 0 <= i < |lines| :: more[i] == lines[i];
    assert more[|lines|] == line;
    assert forall i {:trigger LineTo(lines[i], slot)} | 0 <= i < |lines| && LineTo(lines[i], slot) :: LineTo(more[i], slot);
    assert LineTo(line, slot) ==> LineTo(more[|lines|], slot);
  }

  /** The store gained the slot the output was spilled to, if it was. */
  ghost predicate Stocked(slots: map<Slot, Payload>, after: map<Slot, Payload>, output: Option<Output>) {
    if output.Some? && output.value.Shown? && output.value.text.Handle? then
      after.Keys == slots.Keys + {output.value.text.slot}
    else after.Keys == slots.Keys
  }

  lemma ShelvesCall(slots: map<Slot, Payload>, after: map<Slot, Payload>, ran: seq<Exec>, exec: Exec, lines: seq<Line>)
    requires Shelves(slots, ran, lines) && Stocked(slots, after, exec.output)
    ensures Shelves(after, ran + [exec], lines)
  {
    var more := ran + [exec];
    forall slot: Slot ensures ShelvedAt(after, more, lines, slot) {
      assert ShelvedAt(slots, ran, lines, slot);
      NamedCall(ran, exec, lines, slot);
    }
  }

  /** An elided pair adds its line's slot. */
  lemma ShelvesLine(slots: map<Slot, Payload>, ran: seq<Exec>, lines: seq<Line>, line: Line, p: Payload)
    requires Shelves(slots, ran, lines)
    ensures Shelves(slots[line.slot := p], ran, lines + [line])
  {
    var after, more := slots[line.slot := p], lines + [line];
    forall slot: Slot ensures ShelvedAt(after, ran, more, slot) {
      assert ShelvedAt(slots, ran, lines, slot);
      NamedLine(ran, lines, line, slot);
    }
  }

  /** Record `k`, if it is a spill read, found its slot exactly if the slot was named before it. */
  ghost predicate FindsNamed(world: World, lines: seq<Line>, ran: seq<Exec>, k: nat)
    requires k < |ran|
  {
    ran[k].call.name == SPILL_READ && SpillArgs(world, ran[k].call).Some? ==>
      (ran[k].found.Some? <==> Named(ran[..k], lines, SpillArgs(world, ran[k].call).value.0))
  }

  /** So did every spill read of reply `stamp`, these being the ledger lines then. */
  ghost predicate ReadsIn(world: World, lines: seq<Line>, ran: seq<Exec>, stamp: nat) {
    forall k {:trigger FindsNamed(world, lines, ran, k)} | 0 <= k < |ran| && ran[k].stamp == stamp ::
      FindsNamed(world, lines, ran, k)
  }

  lemma ReadsNoneYet(world: World, lines: seq<Line>, ran: seq<Exec>, first: nat, stamp: nat)
    requires InTurn(ran, first, stamp, 0)
    ensures ReadsIn(world, lines, ran, stamp)
  {
    forall k | 0 <= k < |ran| ensures ran[k].stamp != stamp {
      assert Within(ran[k], first, stamp, 0);
    }
  }

  lemma FindsNamedStays(world: World, lines: seq<Line>, ran: seq<Exec>, more: seq<Exec>, k: nat)
    requires k < |ran| && ran <= more && FindsNamed(world, lines, ran, k)
    ensures FindsNamed(world, lines, more, k)
  {
    assert more[..k] == ran[..k] && more[k] == ran[k];
  }

  lemma ReadsSnoc(world: World, lines: seq<Line>, ran: seq<Exec>, exec: Exec)
    requires ReadsIn(world, lines, ran, exec.stamp) && FindsNamed(world, lines, ran + [exec], |ran|)
    ensures ReadsIn(world, lines, ran + [exec], exec.stamp)
  {
    var more := ran + [exec];
    forall k | 0 <= k < |more| && more[k].stamp == exec.stamp ensures FindsNamed(world, lines, more, k) {
      if k < |ran| {
        assert FindsNamed(world, lines, ran, k);
        FindsNamedStays(world, lines, ran, more, k);
      }
    }
  }

  /** Calls of a later reply do not change what an earlier reply's reads found. */
  lemma ReadsStay(world: World, lines: seq<Line>, before: seq<Exec>, ran: seq<Exec>, later: nat, stamp: nat)
    requires ReadsIn(world, lines, before, stamp) && RanSince(before, ran, later) && stamp != later
    ensures ReadsIn(world, lines, ran, stamp)
  {
    forall k | 0 <= k < |ran| && ran[k].stamp == stamp ensures FindsNamed(world, lines, ran, k) {
      assert k >= |before| ==> RanIn(ran, later, k);
      assert ran[k] == before[k] && FindsNamed(world, lines, before, k);
      FindsNamedStays(world, lines, before, ran, k);
    }
  }

  // ----- what each call came back with -----

  predicate IsWriteTo(world: World, name: string) {
    && name in world.routes
    && (world.routes[name].tool == "write_file" || world.routes[name].tool == "edit_file")
  }

  /** What a call is handed to and comes back with; calls that cannot be handed on come back as errors. */
  function Dispatch(world: World, stamp: nat, index: nat, call: ToolCall): HostReply {
    if call.name !in world.routes then HostError(world.unknownTool(call.name))
    else if world.hasHost then world.host(HostCall(stamp, index, world.routes[call.name], call.arguments))
    else HostError(world.noHost)
  }

  /** The text itself if it is short, else a handle to it. */
  predicate Shows(world: World, text: ToolText, raw: Payload) {
    if |raw| <= MAX_TOOL_RESULT_BYTES then text == Whole(raw)
    else Describes(text, raw) && text.slot == world.hash(raw)
  }

  function Found(slots: map<Slot, Payload>, args: Option<(Slot, nat, nat)>): Option<Payload> {
    if args.Some? && args.value.0 in slots then Some(slots[args.value.0]) else None
  }

  /** What a spill read of a found payload comes back with; none if the slice panics. */
  function SpillOutput(args: Option<(Slot, nat, nat)>, found: Option<Payload>): Option<Output> {
    if args.None? then Some(BadArguments)
    else if found.None? then Some(Recalled(UnknownSlot))
    else
      var read := ReadWindow(found.value, args.value.1, args.value.2);
      if read.BadSlice? then None else Some(Recalled(read))
  }

  /** Reply `stamp` is a turn that asks for this call at this place. */
  predicate Asked(world: World, stamp: nat, index: nat, call: ToolCall) {
    var reply := ReplyOf(world, stamp);
    reply.Turn? && reply.answer.None? && index < |reply.calls| && reply.calls[index] == call
  }

  /** A turn that suspends the session: an await among its calls, and the session may await. */
  predicate Suspends(session: Session, reply: Reply) {
    reply.Turn? && reply.answer.None? && session.awaitEnabled && Awaits(reply.calls) > 0
  }

  /** A call that counts as a write: made outside a suspending turn, routed to a write or edit, and successful. */
  predicate IsEvidence(world: World, session: Session, stamp: nat, index: nat, call: ToolCall) {
    && call.name != SPILL_READ && IsWriteTo(world, call.name)
    && Dispatch(world, stamp, index, call).HostOk? && !Suspends(session, ReplyOf(world, stamp))
  }

  /**
   A record is true: its reply asked for the call (and not to await a human), its
   output is what the call came back with, and it counts as a write exactly if it is
   one.
   */
  predicate Genuine(world: World, session: Session, exec: Exec) {
    && Asked(world, exec.stamp, exec.index, exec.call)
    && (Suspends(session, ReplyOf(world, exec.stamp)) ==> exec.call.name != AWAIT_HUMAN)
    && (exec.evidence <==> IsEvidence(world, session, exec.stamp, exec.index, exec.call))
    && if exec.call.name == SPILL_READ then
         exec.output == SpillOutput(SpillArgs(world, exec.call), exec.found)
       else
         CameBack(world, Dispatch(world, exec.stamp, exec.index, exec.call), exec.output)
  }

  /** What is shown of a host's reply; nothing if the clock cut it. */
  predicate CameBack(world: World, reply: HostReply, output: Option<Output>) {
    && (output.None? <==> reply.HostUnfinished?)
    && (output.Some? ==> output.value.Shown? && Shows(world, output.value.text, reply.bytes))
  }

  ghost predicate AllGenuine(world: World, session: Session, ran: seq<Exec>) {
    forall i {:trigger Genuine(world, session, ran[i])} | 0 <= i < |ran| :: Genuine(world, session, ran[i])
  }

  lemma GenuineSnoc(world: World, session: Session, ran: seq<Exec>, exec: Exec)
    requires AllGenuine(world, session, ran) && Genuine(world, session, exec)
    ensures AllGenuine(world, session, ran + [exec])
  {
    var more := ran + [exec];
    forall i | 0 <= i < |more| ensures Genuine(world, session, more[i]) {
      assert i < |ran| ==> Genuine(world, session, ran[i]);
    }
  }

  /** A write or edit that a reply asked for and its host carried out. */
  predicate MadeWrite(world: World, exec: Exec) {
    && Asked(world, exec.stamp, exec.index, exec.call)
    && exec.call.name != SPILL_READ && exec.call.name in world.routes && world.hasHost
    && var route := world.routes[exec.call.name];
       && (route.tool == "write_file" || route.tool == "edit_file")
       && world.host(HostCall(exec.stamp, exec.index, route, exec.call.arguments)).HostOk?
  }

  /**
   A call that is not a spill read was handed to the connection and tool its name is
   routed to, with its own arguments, and what is shown is what came back; if there is
   no such tool or no host, what is shown is that error.
   */
  lemma WasRouted(world: World, session: Session, exec: Exec)
    requires Genuine(world, session, exec) && exec.call.name != SPILL_READ
    ensures var name := exec.call.name;
            if name !in world.routes then IsShown(world, world.unknownTool(name), exec.output)
            else if !world.hasHost then IsShown(world, world.noHost, exec.output)
            else
              var reply := world.host(HostCall(exec.stamp, exec.index, world.routes[name], exec.call.arguments));
              if reply.HostUnfinished? then exec.output.None? else IsShown(world, reply.bytes, exec.output)
  {
  }

  /** The bytes are shown whole, or if they are more than 64 KiB, as a handle to the slot they are kept in. */
  predicate IsShown(world: World, raw: Payload, output: Option<Output>) {
    && output.Some? && output.value.Shown?
    && var text := output.value.text;
       if |raw| <= 64 * 1024 then text == Whole(raw)
       else text.Handle? && text.slot == world.hash(raw) && text.bytes == |raw| && text.head <= raw
  }

  /** What a spill read comes back with: an error, or the window it asked for of what it found. */
  lemma SpillReadIs(world: World, session: Session, exec: Exec)
    requires Genuine(world, session, exec) && exec.call.name == SPILL_READ
    ensures SpillArgs(world, exec.call).None? <==> exec.output == Some(BadArguments)
    ensures SpillArgs(world, exec.call).Some? && exec.found.None? ==> exec.output == Some(Recalled(UnknownSlot))
    ensures SpillArgs(world, exec.call).Some? && exec.found.Some? && exec.output.Some? ==>
      var args := SpillArgs(world, exec.call).value;
      exec.output == Some(Recalled(ReadWindow(exec.found.value, args.1, args.2)))
  {
  }

  /** A positive count means such a write was made. */
  lemma {:induction false} WriteWasMade(world: World, session: Session, ran: seq<Exec>) returns (k: nat)
    requires AllGenuine(world, session, ran) && Writes(ran) > 0
    ensures k < |ran| && MadeWrite(world, ran[k])
  {
    var n := |ran| - 1;
    assert Genuine(world, session, ran[n]);
    if ran[n].evidence {
      k := n;
    } else {
      forall i | 0 <= i < n ensures Genuine(world, session, ran[..n][i]) {
        assert Genuine(world, session, ran[i]);
      }
      k := WriteWasMade(world, session, ran[..n]);
    }
  }

  lemma {:induction false} ZeroWrites(ran: seq<Exec>)
    requires Writes(ran) == 0
    ensures forall k | 0 <= k < |ran| :: !ran[k].evidence
  {
    if ran == [] {
    } else {
      var n := |ran| - 1;
      ZeroWrites(ran[..n]);
      assert forall k | 0 <= k < n :: ran[k] == ran[..n][k];
    }
  }

  /** A count of zero means none of the calls carried out is one that counts. */
  lemma {:induction false} NoWriteWasMade(world: World, session: Session, ran: seq<Exec>, k: nat)
    requires AllGenuine(world, session, ran) && Writes(ran) == 0 && k < |ran|
    ensures !IsEvidence(world, session, ran[k].stamp, ran[k].index, ran[k].call)
  {
    var n := |ran| - 1;
    if k == n {
      assert Genuine(world, session, ran[n]);
    } else {
      forall i | 0 <= i < n ensures Genuine(world, session, ran[..n][i]) {
        assert Genuine(world, session, ran[i]);
      }
      NoWriteWasMade(world, session, ran[..n], k);
    }
  }

  /** What a spill read found had been stored, under the slot it asked for. */
  predicate FoundStored(world: World, stored: set<Payload>, exec: Exec) {
    exec.found.Some? ==>
      && exec.found.value in stored && SpillArgs(world, exec.call).Some?
      && world.hash(exec.found.value) == SpillArgs(world, exec.call).value.0
  }

  ghost predicate AllFoundStored(world: World, stored: set<Payload>, ran: seq<Exec>) {
    forall i {:trigger FoundStored(world, stored, ran[i])} | 0 <= i < |ran| :: FoundStored(world, stored, ran[i])
  }

  lemma FoundStoredGrows(world: World, stored: set<Payload>, more: set<Payload>, ran: seq<Exec>)
    requires AllFoundStored(world, stored, ran) && stored <= more
    ensures AllFoundStored(world, more, ran)
  {
    forall i | 0 <= i < |ran| ensures FoundStored(world, more, ran[i]) {
      assert FoundStored(world, stored, ran[i]);
    }
  }

  lemma FoundStoredSnoc(world: World, stored: set<Payload>, ran: seq<Exec>, exec: Exec)
    requires AllFoundStored(world, stored, ran) && FoundStored(world, stored, exec)
    ensures AllFoundStored(world, stored, ran + [exec])
  {
    var more := ran + [exec];
    forall i | 0 <= i < |more| ensures FoundStored(world, stored, more[i]) {
      assert i < |ran| ==> FoundStored(world, stored, ran[i]);
    }
  }

  /** A spill read whose range ends before the character its start falls in. */
  predicate EndsInCharacter(world: World, exec: Exec) {
    && exec.call.name == SPILL_READ && exec.found.Some?
    && var args := SpillArgs(world, exec.call);
       args.Some? && args.value.1 < |exec.found.value| && args.value.2 < Floor(exec.found.value, args.value.1)
  }

  /** The run stopped in the last call, one of reply `stamp`: a spill read that panicked, or a call cut by the clock. */
  predicate StopsIn(ran: seq<Exec>, stamp: nat, end: LoopEnd) {
    && ran != [] && var last := ran[|ran| - 1];
    && last.stamp == stamp && last.output.None?
    && end == if last.call.name == SPILL_READ then Panicked else WallElapsed
  }

  /** A spill read stops the run exactly when its range ends before the character its start falls in. */
  lemma SpillStopsWhen(args: Option<(Slot, nat, nat)>, found: Option<Payload>)
    ensures SpillOutput(args, found).None? <==>
      && args.Some? && found.Some?
      && args.value.1 < |found.value| && args.value.2 < Floor(found.value, args.value.1)
  {
    if args.Some? && found.Some? {
      ReadDefinedWhen(found.value, args.value.1, args.value.2);
    }
  }

  /** A true record of a spill read has no output exactly if it is cut off in a character. */
  lemma CutOffWhen(world: World, session: Session, exec: Exec)
    requires Genuine(world, session, exec) && exec.call.name == SPILL_READ
    ensures exec.output.None? <==> EndsInCharacter(world, exec)
  {
    SpillStopsWhen(SpillArgs(world, exec.call), exec.found);
  }

  /** The record of a spill read is true, and of something stored. */
  lemma SpillRecord(world: World, session: Session, m: Archive, exec: Exec)
    requires Intact(m) && m.hash == world.hash && exec.call.name == SPILL_READ && !exec.evidence
    requires Asked(world, exec.stamp, exec.index, exec.call)
    requires exec.found == Found(m.slots, SpillArgs(world, exec.call))
    requires exec.output == SpillOutput(SpillArgs(world, exec.call), exec.found)
    ensures Genuine(world, session, exec) && FoundStored(world, m.stored, exec)
  {
    if exec.found.Some? {
      SlotIsSourced(m, SpillArgs(world, exec.call).value.0);
    }
  }

  /** A read of a store that has exactly the named slots finds the named ones. */
  lemma FoundIsNamed(world: World, lines: seq<Line>, slots: map<Slot, Payload>, ran: seq<Exec>, exec: Exec)
    requires Shelves(slots, ran, lines) && exec.found == Found(slots, SpillArgs(world, exec.call))
    ensures FindsNamed(world, lines, ran + [exec], |ran|)
  {
    assert (ran + [exec])[..|ran|] == ran;
    if SpillArgs(world, exec.call).Some? {
      assert ShelvedAt(slots, ran, lines, SpillArgs(world, exec.call).value.0);
    }
  }

  lemma FindsOther(world: World, lines: seq<Line>, ran: seq<Exec>, exec: Exec)
    requires exec.call.name != SPILL_READ
    ensures FindsNamed(world, lines, ran + [exec], |ran|)
  {
  }

  /** The record of any other call is true if its output is what the call came back with. */
  lemma HostRecord(world: World, session: Session, stored: set<Payload>, exec: Exec)
    requires exec.call.name != SPILL_READ && exec.found.None? && Asked(world, exec.stamp, exec.index, exec.call)
    requires Suspends(session, ReplyOf(world, exec.stamp)) ==> exec.call.name != AWAIT_HUMAN
    requires exec.evidence <==> IsEvidence(world, session, exec.stamp, exec.index, exec.call)
    requires CameBack(world, Dispatch(world, exec.stamp, exec.index, exec.call), exec.output)
    ensures Genuine(world, session, exec) && FoundStored(world, stored, exec)
  {
  }

  /**
   A spill read of a ledger line's slot comes back with a window of the encoded
   pair that line stands for.
   */
  lemma ReadOfLedgerSlot(world: World, session: Session, m: Archive, ledger: seq<Line>, i: nat, exec: Exec)
    returns (a: Msg, u: Msg)
    requires Faithful(m.codec) && Intact(m) && NoCollision(m) && Backed(m, ledger) && i < |ledger|
    requires Genuine(world, session, exec) && exec.call.name == SPILL_READ
    requires exec.found == Found(m.slots, SpillArgs(world, exec.call))
    requires SpillArgs(world, exec.call).Some?
    requires SpillArgs(world, exec.call).value.0 == ledger[i].slot
    ensures |Recall(m, ledger)| == 2 * |ledger|
    ensures Recall(m, ledger)[2 * i] == a && Recall(m, ledger)[2 * i + 1] == u
    ensures exec.output == SpillOutput(SpillArgs(world, exec.call), Some(m.codec.encode(Pair(a, u))))
  {
    a, u := RecallAt(m, ledger, i);
  }

  // ----- results of a turn -----

  predicate IsRecord(exec: Exec, stamp: nat, index: nat, call: ToolCall, output: Output) {
    exec.stamp == stamp && exec.index == index && exec.call == call && exec.output == Some(output)
  }

  /** Call `index` of reply `stamp` was carried out and came back with `output`. */
  ghost predicate RanCall(ran: seq<Exec>, stamp: nat, index: nat, call: ToolCall, output: Output) {
    exists k :: 0 <= k < |ran| && IsRecord(ran[k], stamp, index, call, output)
  }

  lemma RanCallGrows(ran: seq<Exec>, more: seq<Exec>, stamp: nat, index: nat, call: ToolCall, output: Output)
    requires RanCall(ran, stamp, index, call, output)
    ensures RanCall(ran + more, stamp, index, call, output)
  {
    var k :| 0 <= k < |ran| && IsRecord(ran[k], stamp, index, call, output);
    assert (ran + more)[k] == ran[k];
  }

  lemma JustRan(ran: seq<Exec>, exec: Exec, stamp: nat, index: nat, call: ToolCall, output: Output)
    requires IsRecord(exec, stamp, index, call, output)
    ensures RanCall(ran + [exec], stamp, index, call, output)
  {
    assert (ran + [exec])[|ran|] == exec;
  }

  /** Item `i` is the result of call `i`. */
  ghost predicate RealizedAt(ran: seq<Exec>, stamp: nat, calls: seq<ToolCall>, items: seq<Item>, i: nat)
    requires i < |items| && i < |calls|
  {
    items[i].Result? && items[i].id == calls[i].id && RanCall(ran, stamp, i, calls[i], items[i].output)
  }

  /** Each item is the result of its own call. */
  ghost predicate Realized(ran: seq<Exec>, stamp: nat, calls: seq<ToolCall>, items: seq<Item>) {
    && |items| <= |calls|
    && forall i {:trigger RealizedAt(ran, stamp, calls, items, i)} | 0 <= i < |items| ::
         RealizedAt(ran, stamp, calls, items, i)
  }

  lemma RealizedStep(ran: seq<Exec>, exec: Exec, stamp: nat, calls: seq<ToolCall>, items: seq<Item>, output: Output)
    requires |items| < |calls| && Realized(ran, stamp, calls, items)
    requires IsRecord(exec, stamp, |items|, calls[|items|], output)
    ensures Realized(ran + [exec], stamp, calls, items + [Result(calls[|items|].id, output)])
  {
    var ran', more := ran + [exec], items + [Result(calls[|items|].id, output)];
    forall i | 0 <= i < |more| ensures RealizedAt(ran', stamp, calls, more, i) {
      if i < |items| {
        assert RealizedAt(ran, stamp, calls, items, i);
        RanCallGrows(ran, [exec], stamp, i, calls[i], items[i].output);
      } else {
        JustRan(ran, exec, stamp, i, calls[i], output);
      }
    }
  }

  lemma RealizedGrows(ran: seq<Exec>, more: seq<Exec>, stamp: nat, calls: seq<ToolCall>, items: seq<Item>)
    requires Realized(ran, stamp, calls, items)
    ensures Realized(ran + more, stamp, calls, items)
  {
    var all := ran + more;
    forall i | 0 <= i < |items| ensures RealizedAt(all, stamp, calls, items, i) {
      assert RealizedAt(ran, stamp, calls, items, i);
      RanCallGrows(ran, more, stamp, i, calls[i], items[i].output);
    }
  }

  lemma RealizedAnswers(ran: seq<Exec>, stamp: nat, calls: seq<ToolCall>, items: seq<Item>)
    requires Realized(ran, stamp, calls, items) && |items| == |calls|
    ensures ResultIds(items) == CallIds(calls)
  {
    forall i | 0 <= i < |items| ensures items[i].Result? && items[i].id == calls[i].id {
      assert RealizedAt(ran, stamp, calls, items, i);
    }
    AllResults(items, calls);
  }

  lemma {:induction false} AllResults(items: seq<Item>, calls: seq<ToolCall>)
    requires |items| == |calls| && forall i | 0 <= i < |items| :: items[i].Result? && items[i].id == calls[i].id
    ensures ResultIds(items) == CallIds(calls)
  {
    if items == [] {
    } else {
      var n := |items| - 1;
      AllResults(items[..n], calls[..n]);
      ResultIdsConcat(items[..n], [items[n]]);
      assert items == items[..n] + [items[n]];
    }
  }

  /** A message that opens with the reminder to write files. */
  predicate IsNudge(m: Msg) {
    m.User? && m.items != [] && m.items[0].Prose? && m.items[0].words.WriteEvidence?
  }

  lemma ResultsAreNoNudge(ran: seq<Exec>, stamp: nat, calls: seq<ToolCall>, items: seq<Item>)
    requires |items| == |calls| > 0 && Realized(ran, stamp, calls, items)
    ensures !IsNudge(User(items))
  {
    assert RealizedAt(ran, stamp, calls, items, 0);
  }

  // ----- results of a parked turn -----

  ghost predicate ParkedAt(ran: seq<Exec>, stamp: nat, calls: seq<ToolCall>, pending: seq<Pending>, i: nat)
    requires i < |pending| && i < |calls|
  {
    calls[i].name != AWAIT_HUMAN ==>
      pending[i].output.Some? && RanCall(ran, stamp, i, calls[i], pending[i].output.value)
  }

  /** Every entry of a parked turn but the awaits holds the result of its own call. */
  ghost predicate ParkedResults(ran: seq<Exec>, stamp: nat, calls: seq<ToolCall>, pending: seq<Pending>) {
    && |pending| <= |calls|
    && forall i {:trigger ParkedAt(ran, stamp, calls, pending, i)} | 0 <= i < |pending| ::
         ParkedAt(ran, stamp, calls, pending, i)
  }

  lemma ParkedResultsGrow(ran: seq<Exec>, more: seq<Exec>, stamp: nat, calls: seq<ToolCall>, pending: seq<Pending>)
    requires ParkedResults(ran, stamp, calls, pending)
    ensures ParkedResults(ran + more, stamp, calls, pending)
  {
    var all := ran + more;
    forall i | 0 <= i < |pending| ensures ParkedAt(all, stamp, calls, pending, i) {
      assert ParkedAt(ran, stamp, calls, pending, i);
      if calls[i].name != AWAIT_HUMAN {
        RanCallGrows(ran, more, stamp, i, calls[i], pending[i].output.value);
      }
    }
  }

  lemma ParkedSnoc(ran: seq<Exec>, stamp: nat, calls: seq<ToolCall>, pending: seq<Pending>, entry: Pending)
    requires |pending| < |calls| && ParkedResults(ran, stamp, calls, pending)
    requires calls[|pending|].name != AWAIT_HUMAN ==>
      entry.output.Some? && RanCall(ran, stamp, |pending|, calls[|pending|], entry.output.value)
    ensures ParkedResults(ran, stamp, calls, pending + [entry])
  {
    var more := pending + [entry];
    forall i | 0 <= i < |more| ensures ParkedAt(ran, stamp, calls, more, i) {
      assert i < |pending| ==> ParkedAt(ran, stamp, calls, pending, i);
    }
  }

  /** The first `n` calls of a turn that awaits a human, parked. */
  ghost predicate ParkedUpTo(ran: seq<Exec>, stamp: nat, calls: seq<ToolCall>, n: nat, pending: seq<Pending>) {
    |pending| == n <= |calls| && ParksFirstAwait(calls[..n], pending) && ParkedResults(ran, stamp, calls, pending)
  }

  lemma ParkNothing(ran: seq<Exec>, stamp: nat, calls: seq<ToolCall>)
    ensures ParkedUpTo(ran, stamp, calls, 0, [])
  {
    assert calls[..0] == [];
  }

  lemma ParkAwait(ran: seq<Exec>, stamp: nat, calls: seq<ToolCall>, n: nat, pending: seq<Pending>, output: Option<Output>)
    requires n < |calls| && ParkedUpTo(ran, stamp, calls, n, pending) && calls[n].name == AWAIT_HUMAN
    requires output == if Awaits(calls[..n]) == 0 then None else Some(AwaitedAlready)
    ensures ParkedUpTo(ran, stamp, calls, n + 1, pending + [Pending(calls[n].id, output)])
  {
    ParkOneMore(calls, n, pending, output);
    ParkedSnoc(ran, stamp, calls, pending, Pending(calls[n].id, output));
  }

  lemma ParkResult(ran: seq<Exec>, exec: Exec, stamp: nat, calls: seq<ToolCall>, n: nat,
                   pending: seq<Pending>, output: Output)
    requires n < |calls| && ParkedUpTo(ran, stamp, calls, n, pending) && calls[n].name != AWAIT_HUMAN
    requires IsRecord(exec, stamp, n, calls[n], output)
    ensures ParkedUpTo(ran + [exec], stamp, calls, n + 1, pending + [Pending(calls[n].id, Some(output))])
  {
    ParkOneMore(calls, n, pending, Some(output));
    ParkedResultsGrow(ran, [exec], stamp, calls, pending);
    JustRan(ran, exec, stamp, n, calls[n], output);
    ParkedSnoc(ran + [exec], stamp, calls, pending, Pending(calls[n].id, Some(output)));
  }
}
