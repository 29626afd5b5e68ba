/**
 The interaction bus: requesters park on a human interaction, consumers answer or
 abandon it, and a requester may be cancelled at any point. Every step below is
 one atomic action of the original; runs are arbitrary interleavings of them.
 */
module Bus {
  import opened Options

  type Id = nat

  datatype Kind = Approve | Answer | Form | Discuss

  /** Only the gate is a human decision. */
  predicate RequiresHuman(k: Kind) {
    k.Approve?
  }

  datatype Principal = Principal(subject: string, roles: seq<string>)

  const HUMAN_ROLE := "human"

  predicate IsHuman(p: Principal) {
    HUMAN_ROLE in p.roles
  }

  datatype Reply = Reply(approved: bool, text: string)

  /** What a requester sees when its reply channel is dropped: declined. */
  const DECLINED := Reply(false, "")

  datatype Given = Given(reply: Reply, from: Principal)

  /**
   How far a parked future has come: its id is drawn, its entry inserted, its
   event published; then either it returns, or it is dropped (receiver first,
   guard second).
   */
  datatype Phase = Allocated | Registered | Waiting | Dropped | Finished

  datatype Hub = Hub(
    nextId: Id,
    kinds: map<Id, Kind>,
    phase: map<Id, Phase>,
    pending: map<Id, Kind>,
    announced: seq<Id>,
    inFlight: map<Id, Given>,
    delivered: map<Id, Given>,
    abandoned: set<Id>,
    cancelled: set<Id>)

  const EMPTY := Hub(1, map[], map[], map[], [], map[], map[], {}, {})

  datatype Step =
    | Allocate(kind: Kind)
    | Register(id: Id)
    | Announce(id: Id)
    | Accept(id: Id, given: Given)      // the locked half of `answer`
    | Send(id: Id)                      // its second half, outside the lock
    | Abandon(id: Id)
    | CloseReceiver(id: Id)
    | DropGuard(id: Id)
    | Return(id: Id)

  datatype Refusal = UnknownRequest | NonHumanResolver

  /** Why `answer` would refuse; `None` when it takes the entry. */
  function RefusalOf(h: Hub, id: Id, answerer: Principal): Option<Refusal> {
    if id !in h.pending then Some(UnknownRequest)
    else if RequiresHuman(h.pending[id]) && !IsHuman(answerer) then Some(NonHumanResolver)
    else None
  }

  predicate InPhase(h: Hub, id: Id, p: Phase) {
    id in h.phase && h.phase[id] == p
  }

  /** The receiver is gone: dropped, or dropped with its guard already run. */
  predicate Closed(h: Hub, id: Id) {
    InPhase(h, id, Dropped) || InPhase(h, id, Finished)
  }

  /** The reply a waiting requester can now return with. */
  function ReplyFor(h: Hub, id: Id): Option<Reply> {
    if id in h.delivered then Some(h.delivered[id].reply)
    else if id in h.abandoned then Some(DECLINED)
    else None
  }

  function Apply(h: Hub, s: Step): Hub {
    match s
    case Allocate(kind) =>
      h.(nextId := h.nextId + 1, kinds := h.kinds[h.nextId := kind], phase := h.phase[h.nextId := Allocated])
    case Register(id) =>
      if InPhase(h, id, Allocated) && id in h.kinds then
        h.(phase := h.phase[id := Registered], pending := h.pending[id := h.kinds[id]])
      else h
    case Announce(id) =>
      if InPhase(h, id, Registered) then h.(phase := h.phase[id := Waiting], announced := h.announced + [id]) else h
    case Accept(id, given) =>
      if RefusalOf(h, id, given.from).None? then
        h.(pending := h.pending - {id}, inFlight := h.inFlight[id := given])
      else h
    case Send(id) =>
      if id !in h.inFlight then h
      else if Closed(h, id) then h.(inFlight := h.inFlight - {id}, cancelled := h.cancelled + {id})
      else h.(inFlight := h.inFlight - {id}, delivered := h.delivered[id := h.inFlight[id]])
    case Abandon(id) =>
      if id in h.pending then h.(pending := h.pending - {id}, abandoned := h.abandoned + {id}) else h
    case CloseReceiver(id) =>
      if InPhase(h, id, Waiting) then h.(phase := h.phase[id := Dropped]) else h
    case DropGuard(id) =>
      if !InPhase(h, id, Dropped) then h
      else
        var done := h.(phase := h.phase[id := Finished]);
        if id in h.pending then done.(pending := h.pending - {id}, cancelled := h.cancelled + {id}) else done
    case Return(id) =>
      if InPhase(h, id, Waiting) && ReplyFor(h, id).Some? then h.(phase := h.phase[id := Finished]) else h
  }

  // ----- what every interleaving keeps -----

  function Ind(b: bool): nat {
    if b then 1 else 0
  }

  /** In how many of its possible homes an issued id is; conservation says exactly one. */
  function Homes(h: Hub, id: Id): nat {
    Ind(InPhase(h, id, Allocated)) + Ind(id in h.pending) + Ind(id in h.inFlight)
    + Ind(id in h.delivered) + Ind(id in h.abandoned) + Ind(id in h.cancelled)
  }

  /** The account of one id: issued ids are `1 .. nextId`, each in exactly one home. */
  ghost predicate Accounted(h: Hub, id: Id) {
    && (id in h.phase <==> 1 <= id < h.nextId)
    && (id in h.kinds <==> id in h.phase)
    && Homes(h, id) == Ind(id in h.phase)
    && (id in h.pending ==> id in h.kinds && h.pending[id] == h.kinds[id])
  }

  /** A finished request has nothing left in the hub's map. */
  ghost predicate NoLeak(h: Hub, id: Id) {
    InPhase(h, id, Finished) ==> id !in h.pending
  }

  /** Whoever answers a gate is a proven human. */
  ghost predicate GateHuman(h: Hub, id: Id) {
    id in h.kinds && RequiresHuman(h.kinds[id]) ==>
      && (id in h.inFlight ==> IsHuman(h.inFlight[id].from))
      && (id in h.delivered ==> IsHuman(h.delivered[id].from))
  }

  ghost predicate Sound(h: Hub, id: Id) {
    Accounted(h, id) && NoLeak(h, id) && GateHuman(h, id)
  }

  /** Registered before announced. */
  ghost predicate Announceable(h: Hub, id: Id) {
    id in h.phase && !h.phase[id].Allocated? && !h.phase[id].Registered?
  }

  ghost predicate AnnouncedInOrder(h: Hub) {
    && (forall i | 0 <= i < |h.announced| :: Announceable(h, h.announced[i]))
    && (forall i, j | 0 <= i < j < |h.announced| :: h.announced[i] != h.announced[j])
  }

  ghost predicate Inv(h: Hub) {
    && h.nextId >= 1
    && (forall id: Id {:trigger Sound(h, id)} :: Sound(h, id))
    && AnnouncedInOrder(h)
  }

  predicate ByRequester(s: Step) {
    !s.Accept? && !s.Send? && !s.Abandon?
  }

  lemma RequesterAccounted(h: Hub, s: Step, id: Id)
    requires h.nextId >= 1 && Accounted(h, id) && ByRequester(s)
    ensures Accounted(Apply(h, s), id)
  {
  }

  lemma ConsumerAccounted(h: Hub, s: Step, id: Id)
    requires Accounted(h, id) && !ByRequester(s)
    ensures Accounted(Apply(h, s), id)
  {
  }

  lemma StepGuarded(h: Hub, s: Step, id: Id)
    requires Sound(h, id)
    ensures NoLeak(Apply(h, s), id) && GateHuman(Apply(h, s), id)
  {
  }

  lemma StepSound(h: Hub, s: Step, id: Id)
    requires h.nextId >= 1 && Sound(h, id)
    ensures Sound(Apply(h, s), id)
  {
    if ByRequester(s) {
      RequesterAccounted(h, s, id);
    } else {
      ConsumerAccounted(h, s, id);
    }
    StepGuarded(h, s, id);
  }

  lemma StaysAnnounceable(h: Hub, s: Step, id: Id)
    requires Sound(h, id) && Announceable(h, id)
    ensures Announceable(Apply(h, s), id)
  {
  }

  lemma StepKeepsOrder(h: Hub, s: Step)
    requires Inv(h)
    ensures AnnouncedInOrder(Apply(h, s))
  {
    forall i | 0 <= i < |h.announced| ensures Announceable(Apply(h, s), h.announced[i]) {
      assert Announceable(h, h.announced[i]) && Sound(h, h.announced[i]);
      StaysAnnounceable(h, s, h.announced[i]);
    }
    if s.Announce? && InPhase(h, s.id, Registered) {
      assert forall i | 0 <= i < |h.announced| :: Announceable(h, h.announced[i]);
    } else {
      assert Apply(h, s).announced == h.announced;
    }
  }

  lemma StepKeeps(h: Hub, s: Step)
    requires Inv(h)
    ensures Inv(Apply(h, s))
  {
    var h' := Apply(h, s);
    forall id: Id {:trigger Sound(h', id)} ensures Sound(h', id) {
      assert Sound(h, id);
      StepSound(h, s, id);
    }
    StepKeepsOrder(h, s);
  }

  function Run(h: Hub, steps: seq<Step>): Hub {
    if steps == [] then h else Apply(Run(h, steps[..|steps| - 1]), steps[|steps| - 1])
  }

  /**
   Over every interleaving: ids are distinct, each in exactly one home, announced
   only after registering, and gates answered only by humans.
   */
  lemma {:induction false} EveryInterleaving(steps: seq<Step>)
    ensures Inv(Run(EMPTY, steps))
  {
    if steps == [] {
    } else {
      EveryInterleaving(steps[..|steps| - 1]);
      StepKeeps(Run(EMPTY, steps[..|steps| - 1]), steps[|steps| - 1]);
    }
  }

  /** `b` keeps every decision of `a`: no delivered reply is lost, replaced or followed by another outcome. */
  ghost predicate Settles(a: Hub, b: Hub) {
    && (forall id | id in a.delivered :: id in b.delivered && b.delivered[id] == a.delivered[id])
    && a.abandoned <= b.abandoned && a.cancelled <= b.cancelled
  }

  lemma StepSettles(h: Hub, s: Step)
    requires Inv(h)
    ensures Settles(h, Apply(h, s))
  {
    if s.Send? {
      assert Sound(h, s.id);
    }
  }

  /** At most one reply ever reaches a request, and what was decided stays decided. */
  lemma {:induction false} DecisionsAreFinal(steps: seq<Step>, n: nat)
    requires n <= |steps|
    ensures Settles(Run(EMPTY, steps[..n]), Run(EMPTY, steps))
  {
    if n < |steps| {
      var last := |steps| - 1;
      assert steps[..last][..n] == steps[..n];
      DecisionsAreFinal(steps[..last], n);
      EveryInterleaving(steps[..last]);
      StepSettles(Run(EMPTY, steps[..last]), steps[last]);
    } else {
      assert steps[..n] == steps;
    }
  }

  /** An announced request is always found by its consumer, unless it was already settled or is being settled. */
  lemma AnnouncedIsFound(steps: seq<Step>, id: Id)
    requires id in Run(EMPTY, steps).announced
    ensures var h := Run(EMPTY, steps);
            id in h.pending || id in h.inFlight || id in h.delivered || id in h.abandoned || id in h.cancelled
  {
    EveryInterleaving(steps);
    var h := Run(EMPTY, steps);
    var i :| 0 <= i < |h.announced| && h.announced[i] == id;
    assert Announceable(h, h.announced[i]) && Sound(h, id);
  }

  /**
   What a waiting requester returns with: the reply it was sent, word for word; or
   declined if it was abandoned; nothing as long as neither happened.
   */
  lemma ReturnsWith(steps: seq<Step>, id: Id)
    ensures var h := Run(EMPTY, steps);
            && (id in h.delivered ==> ReplyFor(h, id) == Some(h.delivered[id].reply) && id !in h.abandoned)
            && (id in h.abandoned ==> ReplyFor(h, id) == Some(Reply(false, "")))
            && (id !in h.delivered && id !in h.abandoned ==> ReplyFor(h, id).None?)
  {
    EveryInterleaving(steps);
    assert Sound(Run(EMPTY, steps), id);
  }

  /** The reply on its way to a requester, or there. */
  function GivenTo(h: Hub, id: Id): Option<Given> {
    if id in h.delivered then Some(h.delivered[id]) else if id in h.inFlight then Some(h.inFlight[id]) else None
  }

  lemma GivenStep(h: Hub, s: Step, id: Id)
    requires Sound(h, id) && GivenTo(Apply(h, s), id).Some?
    ensures GivenTo(Apply(h, s), id) == GivenTo(h, id) || s == Accept(id, GivenTo(Apply(h, s), id).value)
  {
  }

  /** What reached a requester was handed in by someone, for that request. */
  lemma {:induction false} DeliveredWasGiven(steps: seq<Step>, id: Id) returns (i: nat)
    requires GivenTo(Run(EMPTY, steps), id).Some?
    ensures i < |steps| && steps[i] == Accept(id, GivenTo(Run(EMPTY, steps), id).value)
  {
    var n := |steps| - 1;
    var before := Run(EMPTY, steps[..n]);
    EveryInterleaving(steps[..n]);
    assert Sound(before, id);
    GivenStep(before, steps[n], id);
    if GivenTo(Run(EMPTY, steps), id) == GivenTo(before, id) {
      i := DeliveredWasGiven(steps[..n], id);
    } else {
      i := n;
    }
  }

  // ----- the bus object -----

  datatype AnswerResult = Ok | Refused(why: Refusal)

  /** The hub behind every handle: the parked entries, the id counter and the reply channels. */
  class InteractionBus {
    var hub: Hub

    ghost predicate Valid()
      reads this
    {
      Inv(hub)
    }

    constructor ()
      ensures Valid() && hub == EMPTY
    {
      hub := EMPTY;
      new;
      EveryInterleaving([]);
    }

    /** The synchronous part of a request: draw the id, register the reply channel, only then announce. */
    method Park(kind: Kind) returns (id: Id)
      requires Valid()
      modifies this
      ensures Valid() && id == old(hub.nextId) && id !in old(hub.phase)
      ensures hub == Run(old(hub), [Allocate(kind), Register(id), Announce(id)])
      ensures id in hub.pending && hub.pending[id] == kind && hub.announced == old(hub.announced) + [id]
      ensures hub.pending - {id} == old(hub.pending)
    {
      ghost var steps := [Allocate(kind), Register(hub.nextId), Announce(hub.nextId)];
      ghost var was := hub;
      assert Sound(hub, hub.nextId);
      id := hub.nextId;
      StepKeeps(hub, Allocate(kind));
      hub := Apply(hub, Allocate(kind));
      StepKeeps(hub, Register(id));
      hub := Apply(hub, Register(id));
      StepKeeps(hub, Announce(id));
      hub := Apply(hub, Announce(id));
      RunThree(was, steps[0], steps[1], steps[2]);
    }

    /** Deliver a reply: refused without effect, or taken from the hub and sent; a dropped receiver makes it expired. */
    method Answer(id: Id, reply: Reply, principal: Principal) returns (r: AnswerResult)
      requires Valid()
      modifies this
      ensures Valid()
      ensures hub == if RefusalOf(old(hub), id, principal).Some? then old(hub)
                     else Apply(Apply(old(hub), Accept(id, Given(reply, principal))), Send(id))
      ensures r.Ok? <==>
        && id in old(hub.pending) && (old(hub.pending)[id].Approve? ==> HUMAN_ROLE in principal.roles)
        && !Closed(old(hub), id)
      ensures r == Refused(NonHumanResolver) <==>
        id in old(hub.pending) && old(hub.pending)[id].Approve? && HUMAN_ROLE !in principal.roles
      ensures r.Ok? ==> old(id in hub.pending && (RequiresHuman(hub.pending[id]) ==> IsHuman(principal)))
      ensures r.Ok? ==> id !in old(hub.delivered)
      ensures hub.delivered == if r.Ok? then old(hub.delivered)[id := Given(reply, principal)] else old(hub.delivered)
      ensures RefusalOf(old(hub), id, principal).None? ==> hub.pending == old(hub.pending) - {id}
      ensures RefusalOf(old(hub), id, principal).None? && r.Refused? ==> id in hub.cancelled
      ensures hub.abandoned == old(hub.abandoned) && old(hub.cancelled) <= hub.cancelled
      ensures hub.phase == old(hub.phase)
    {
      var refusal := RefusalOf(hub, id, principal);
      if refusal.Some? {
        return Refused(refusal.value);
      }
      assert Sound(hub, id);
      StepKeeps(hub, Accept(id, Given(reply, principal)));
      hub := Apply(hub, Accept(id, Given(reply, principal)));
      var expired := Closed(hub, id);
      StepKeeps(hub, Send(id));
      hub := Apply(hub, Send(id));
      r := if expired then Refused(UnknownRequest) else Ok;
    }

    /** The parked future completes, if it can: with the reply it was sent, or declined if it was given up. */
    method Unpark(id: Id) returns (r: Option<Reply>)
      requires Valid() && InPhase(hub, id, Waiting)
      modifies this
      ensures Valid() && hub == Apply(old(hub), Return(id))
      ensures r == if id in old(hub.delivered) then Some(old(hub.delivered)[id].reply)
                   else if id in old(hub.abandoned) then Some(Reply(false, "")) else None
      ensures InPhase(hub, id, if r.Some? then Finished else Waiting)
    {
      r := ReplyFor(hub, id);
      assert Sound(hub, id);
      StepKeeps(hub, Return(id));
      hub := Apply(hub, Return(id));
    }

    /** Give up on a parked request: its requester unparks declined. */
    method GiveUp(id: Id) returns (removed: bool)
      requires Valid()
      modifies this
      ensures Valid() && hub == Apply(old(hub), Abandon(id))
      ensures removed <==> id in old(hub.pending)
      ensures id !in hub.pending
      ensures removed ==> ReplyFor(hub, id) == Some(DECLINED)
    {
      removed := id in hub.pending;
      assert Sound(hub, id);
      StepKeeps(hub, Abandon(id));
      hub := Apply(hub, Abandon(id));
    }

    /** The parked future is dropped: receiver first, then the guard takes the entry back. */
    method Cancel(id: Id)
      requires Valid() && InPhase(hub, id, Waiting)
      modifies this
      ensures Valid() && hub == Apply(Apply(old(hub), CloseReceiver(id)), DropGuard(id))
      ensures id !in hub.pending && InPhase(hub, id, Finished)
      ensures id in old(hub.pending) ==> id in hub.cancelled
      ensures hub.pending == old(hub.pending) - {id} && hub.delivered == old(hub.delivered)
    {
      StepKeeps(hub, CloseReceiver(id));
      hub := Apply(hub, CloseReceiver(id));
      StepKeeps(hub, DropGuard(id));
      hub := Apply(hub, DropGuard(id));
    }
  }

  lemma RunThree(h: Hub, a: Step, b: Step, c: Step)
    ensures Run(h, [a, b, c]) == Apply(Apply(Apply(h, a), b), c)
  {
    assert [a, b, c][..2] == [a, b] && [a, b][..1] == [a] && [a][..0] == [];
    assert Run(h, [a]) == Apply(h, a);
    assert Run(h, [a, b]) == Apply(Apply(h, a), b);
  }

  // ----- the headless consumer -----

  datatype BusEvent = Interaction(id: Id) | Other | Resolved

  /** The stand-in principal of a headless policy: no roles, so not a human. */
  const HEADLESS := Principal("headless-policy", [])

  /** A parked request is now abandoned if it is a gate, cancelled if its requester was gone, and otherwise answered. */
  ghost predicate HandledHeadless(before: Hub, after: Hub, id: Id) {
    id in before.pending ==>
      if RequiresHuman(before.pending[id]) then id in after.abandoned
      else if Closed(before, id) then id in after.cancelled
      else id in after.delivered
  }

  /**
   The consumer of a headless run: answer each announced request by policy,
   abandon the ones only a human may answer, stop at the resolution. Afterwards
   every gate it saw is abandoned and every other request answered (or its
   requester was gone), and no gate was approved.
   */
  method ConsumeHeadless(bus: InteractionBus, events: seq<BusEvent>, approve: bool) returns (n: nat)
    requires bus.Valid()
    modifies bus
    ensures bus.Valid() && n <= |events|
    ensures n < |events| ==> events[n].Resolved?
    ensures forall i | 0 <= i < n && events[i].Interaction? :: events[i].id !in bus.hub.pending
    ensures forall i | 0 <= i < n && events[i].Interaction? :: HandledHeadless(old(bus.hub), bus.hub, events[i].id)
    ensures bus.hub.pending.Keys <= old(bus.hub.pending.Keys)
    ensures forall id | id in bus.hub.delivered && id !in old(bus.hub.delivered) ::
              id in old(bus.hub.pending) && !RequiresHuman(old(bus.hub.pending)[id])
              && bus.hub.delivered[id] == Given(Reply(approve, ""), HEADLESS)
  {
    n := 0;
    while n < |events| && !events[n].Resolved?
      invariant bus.Valid() && 0 <= n <= |events| && HeadlessSoFar(old(bus.hub), bus.hub, approve)
      invariant forall i | 0 <= i < n && events[i].Interaction? ::
                  events[i].id !in bus.hub.pending && HandledHeadless(old(bus.hub), bus.hub, events[i].id)
    {
      if events[n].Interaction? {
        ghost var before := bus.hub;
        Handle(bus, events[n].id, approve, old(bus.hub));
        forall i | 0 <= i < n && events[i].Interaction?
          ensures events[i].id !in bus.hub.pending && HandledHeadless(old(bus.hub), bus.hub, events[i].id)
        {
          HandledStays(old(bus.hub), before, bus.hub, events[i].id);
        }
      }
      n := n + 1;
    }
  }

  /** Answer one announced request by policy, or abandon it if only a human may. */
  method Handle(bus: InteractionBus, id: Id, approve: bool, ghost start: Hub)
    requires bus.Valid() && HeadlessSoFar(start, bus.hub, approve)
    modifies bus
    ensures bus.Valid() && HeadlessSoFar(start, bus.hub, approve) && Onward(old(bus.hub), bus.hub)
    ensures id !in bus.hub.pending && HandledHeadless(start, bus.hub, id)
  {
    ghost var before := bus.hub;
    var r := bus.Answer(id, Reply(approve, ""), HEADLESS);
    if r == Refused(NonHumanResolver) {
      var _ := bus.GiveUp(id);
      AbandonedHeadless(start, before, id, approve);
    } else {
      if id in before.pending {
        AcceptReplies(before, id, Given(Reply(approve, ""), HEADLESS));
      }
      AnsweredHeadless(start, before, bus.hub, id, approve);
    }
  }

  lemma AbandonedHeadless(start: Hub, before: Hub, id: Id, approve: bool)
    requires HeadlessSoFar(start, before, approve) && RefusalOf(before, id, HEADLESS) == Some(NonHumanResolver)
    ensures var after := Apply(before, Abandon(id));
            HeadlessSoFar(start, after, approve) && Onward(before, after) && HandledHeadless(start, after, id)
  {
  }

  /** What accepting and sending a reply changes. */
  ghost predicate Replied(before: Hub, after: Hub, id: Id, given: Given) {
    && after.pending == before.pending - {id} && after.phase == before.phase && after.abandoned == before.abandoned
    && if Closed(before, id) then after.delivered == before.delivered && after.cancelled == before.cancelled + {id}
       else after.delivered == before.delivered[id := given] && after.cancelled == before.cancelled
  }

  lemma AcceptReplies(before: Hub, id: Id, given: Given)
    requires RefusalOf(before, id, given.from).None?
    ensures Replied(before, Apply(Apply(before, Accept(id, given)), Send(id)), id, given)
  {
  }

  lemma AnsweredHeadless(start: Hub, before: Hub, after: Hub, id: Id, approve: bool)
    requires HeadlessSoFar(start, before, approve) && RefusalOf(before, id, HEADLESS) != Some(NonHumanResolver)
    requires if id !in before.pending then after == before
             else Replied(before, after, id, Given(Reply(approve, ""), HEADLESS))
    ensures HeadlessSoFar(start, after, approve) && Onward(before, after) && HandledHeadless(start, after, id)
    ensures id !in after.pending
  {
    if id in before.pending {
      forall other | other in start.pending && other !in after.pending ensures HandledHeadless(start, after, other) {
        assert other != id ==> HandledHeadless(start, before, other);
      }
    }
  }

  /** Nothing parked is added and nothing settled is undone. */
  ghost predicate Onward(before: Hub, after: Hub) {
    && after.pending.Keys <= before.pending.Keys && before.abandoned <= after.abandoned
    && before.cancelled <= after.cancelled && before.delivered.Keys <= after.delivered.Keys
  }

  lemma HandledStays(start: Hub, before: Hub, after: Hub, id: Id)
    requires HandledHeadless(start, before, id) && Onward(before, after) && id !in before.pending
    ensures HandledHeadless(start, after, id) && id !in after.pending
  {
    assert id in before.delivered ==> id in before.delivered.Keys;
  }

  /** Only what was parked at the start is touched: some of it handled, new replies the policy's, and none to a gate. */
  ghost predicate HeadlessSoFar(start: Hub, now: Hub, approve: bool) {
    && now.pending.Keys <= start.pending.Keys && now.phase == start.phase
    && (forall id | id in start.pending ::
          if id in now.pending then now.pending[id] == start.pending[id] else HandledHeadless(start, now, id))
    && (forall id | id in now.delivered && id !in start.delivered ::
          id in start.pending && !RequiresHuman(start.pending[id])
          && now.delivered[id] == Given(Reply(approve, ""), HEADLESS))
  }
}
