/** The reconnecting client as an object: the pass that reopens the connection and delivers the keeper's
    payloads one by one, with user calls, losses and the server acting in between. Each method's new
    state is the one ScheduledPass gives it. */
module ReconnectingClient {
  import opened GroupedSubs
  import opened GroupedSubKeeper
  import opened ServerPeer
  import opened Resubscription
  import opened FullPass
  import opened ScheduledPass

  class Client {
    const keeper: Keeper
    var open: bool
    var busy: bool
    // the connection's messages and the server's answers to the first of them
    var wire: seq<Msg<Item>>
    var verdicts: seq<bool>
    // the place the pass has reached
    ghost var phase: Phase

    ghost function State(): World
      reads this, keeper, keeper.maps
    {
      World(keeper.State(), open, phase, wire, verdicts)
    }

    ghost predicate Valid()
      reads this, keeper, keeper.maps
    {
      keeper.Valid() && (busy <==> phase != NotStarted && phase != Idle)
    }

    constructor (keeper: Keeper)
      requires keeper.Valid()
      ensures Valid() && this.keeper == keeper && keeper.State() == old(keeper.State())
      ensures State() == World(keeper.State(), false, NotStarted, [], [])
    {
      this.keeper := keeper;
      open, busy := false, false;
      phase := NotStarted;
      wire, verdicts := [], [];
    }

    /** The first connection; a client whose first connection fails is not made. */
    method Start(opens: bool) returns (ok: bool)
      requires Valid() && phase == NotStarted
      modifies this
      ensures Valid() && ok == opens
      ensures State() == if opens then Next(old(State()), Action.Start) else old(State())
    {
      ok := opens;
      if opens {
        open, phase := true, Idle;
      }
    }

    /** One pass of the reconnect loop, and the batch it took. */
    method Process(schedule: Schedule) returns (ghost batch: seq<Payload>)
      requires Valid() && phase != NotStarted
      modifies this, keeper, keeper.maps
      ensures Valid() && IsTaken(old(State()), schedule, batch)
      ensures State() == Pass(old(State()), schedule, batch)
      ensures old(busy) ==> State() == old(State())
      ensures Inv(old(State())) && old(phase) == Idle && !old(open) && IsUninterrupted(schedule) ==>
        IsBatch(DoResetAll(old(keeper.State())), batch) && State() == AfterReconnect(old(State()), batch)
    {
      ghost var before := State();
      batch := [];
      if busy {
        return;
      }
      var ready := Open(schedule);
      if ready {
        batch := Resubscribe(schedule);
      }
      if Inv(before) && before.phase == Idle && !before.open && IsUninterrupted(schedule) {
        UninterruptedReconnect(before, schedule, batch);
      }
    }

    /** The pass from the payloads on. */
    method Resubscribe(schedule: Schedule) returns (ghost batch: seq<Payload>)
      requires Valid() && phase == Ready
      modifies this, keeper, keeper.maps
      ensures Valid()
      ensures IsBatch(Interfered(old(State()), schedule.taking).subs, batch)
      ensures State() == Turns(Interfered(old(State()), schedule.taking).(phase := Passing(batch, 0, false)), schedule)
    {
      Interfere(schedule.taking);
      var pp := TakePayloads();
      batch := PayloadValues(pp);
      DeliverAll(pp, schedule);
    }

    method TakePayloads() returns (pp: seq<GroupedPayload>)
      requires Valid() && phase == Ready
      modifies this`phase
      ensures Valid() && IsBatch(old(State()).subs, PayloadValues(pp))
      ensures State() == old(State()).(phase := Passing(PayloadValues(pp), 0, false))
      ensures forall p | p in pp :: keeper.Owns(p.topicData)
    {
      pp := keeper.Payloads();
      phase := Passing(PayloadValues(pp), 0, false);
    }

    /** Finds the connection open, or resets the keeper and reopens it. */
    method Open(schedule: Schedule) returns (ready: bool)
      requires Valid() && phase == Idle
      modifies this, keeper, keeper.maps
      ensures Valid() && keeper.Grows()
      ensures State() == Opened(old(State()), schedule)
      ensures ready == (old(open) || schedule.reopens)
    {
      if open {
        busy, phase := true, Ready;
        return true;
      }
      ResetKeeper();
      Interfere(schedule.opening);
      ready := Reopen(schedule.reopens);
    }

    method Reopen(opens: bool) returns (ready: bool)
      requires Valid() && phase == Opening
      modifies this
      ensures Valid() && State() == Reopened(old(State()), opens)
      ensures ready == opens
    {
      ready := opens;
      if opens {
        open, wire, verdicts, phase := true, [], [], Ready;
      } else {
        Stop();
      }
    }

    method ResetKeeper()
      requires Valid() && phase == Idle
      modifies this`phase, this`busy, keeper, keeper.maps
      ensures Valid() && keeper.Grows()
      ensures State() == old(State()).(subs := DoResetAll(old(keeper.State())), phase := Opening)
    {
      keeper.ResetAll();
      busy, phase := true, Opening;
    }

    method DeliverAll(pp: seq<GroupedPayload>, schedule: Schedule)
      requires Valid() && phase == Passing(PayloadValues(pp), 0, false)
      requires forall p | p in pp :: keeper.Owns(p.topicData)
      modifies this, keeper, keeper.maps
      ensures Valid() && State() == Turns(old(State()), schedule)
    {
      ghost var goal := Turns(State(), schedule);
      for i := 0 to |pp|
        invariant Valid() && keeper.Grows()
        invariant phase == Passing(PayloadValues(pp), i, false)
        invariant Turns(State(), schedule) == goal
        invariant forall p | p in pp :: keeper.Owns(p.topicData)
      {
        var ended := DeliverAt(pp, i, schedule.plans(i));
        if ended {
          return;
        }
      }
      Stop();
    }

    method DeliverAt(pp: seq<GroupedPayload>, i: nat, plan: Plan) returns (ended: bool)
      requires Valid() && i < |pp| && phase == Passing(PayloadValues(pp), i, false)
      requires forall p | p in pp :: keeper.Owns(p.topicData)
      modifies this, keeper, keeper.maps
      ensures Valid() && keeper.Grows()
      ensures State() == Turn(old(State()), plan)
      ensures phase == if ended then Idle else Passing(PayloadValues(pp), i + 1, false)
      ensures forall p | p in pp :: keeper.Owns(p.topicData)
    {
      ended := DeliverOne(pp[i], i == |pp| - 1, plan);
    }

    /** One turn of the loop over the payloads, and the pause before the next. */
    method DeliverOne(p: GroupedPayload, last: bool, plan: Plan) returns (ended: bool)
      requires Valid() && IsAtPayload(State(), false) && Current(State()) == PayloadValue(p)
      requires keeper.Owns(p.topicData) && (last <==> phase.at == |phase.batch| - 1)
      modifies this, keeper, keeper.maps
      ensures Valid() && keeper.Grows()
      ensures State() == Turn(old(State()), plan)
      ensures ended <==> phase == Idle
    {
      ended := Handle(p, plan);
      ended := Pause(ended, plan.reply.kind != NoMessage && !last && plan.reply.cancelled);
    }

    method Pause(closed: bool, cancelled: bool) returns (ended: bool)
      requires Valid() && (closed <==> phase == Idle)
      modifies this`busy, this`phase
      ensures Valid() && State() == Paused(old(State()), cancelled)
      ensures ended <==> phase == Idle
    {
      ended := closed || cancelled;
      if ended {
        Stop();
      }
    }

    /** Gives the rest of the pass up. */
    method Stop()
      requires keeper.Valid()
      modifies this`busy, this`phase
      ensures Valid() && State() == old(State()).(phase := Idle)
    {
      busy, phase := false, Idle;
    }

    /** The payload itself, after what others do before it. */
    method Handle(p: GroupedPayload, plan: Plan) returns (closed: bool)
      requires Valid() && IsAtPayload(State(), false) && Current(State()) == PayloadValue(p)
      requires keeper.Owns(p.topicData)
      modifies this, keeper, keeper.maps
      ensures Valid() && keeper.Grows()
      ensures State() == Handled(old(State()), plan)
      ensures closed <==> phase == Idle
    {
      Interfere(plan.before);
      closed := Deliver(p, plan.reply.kind, plan.during);
    }

    /** Sends one payload and confirms it through the topic map it captured. */
    method Deliver(p: GroupedPayload, kind: ReplyKind, events: seq<Event>) returns (closed: bool)
      requires Valid() && IsAtPayload(State(), false) && Current(State()) == PayloadValue(p)
      requires keeper.Owns(p.topicData)
      modifies this, keeper, keeper.maps
      ensures Valid() && keeper.Grows()
      ensures State() == Delivered(old(State()), kind, events)
      ensures closed == (kind != NoMessage && !old(open))
    {
      closed := false;
      if kind == NoMessage {
        phase := Passing(phase.batch, phase.at + 1, false);
      } else if !open {
        Stop();
        closed := true;
      } else if kind == FailsUnwritten {
        phase := Passing(phase.batch, phase.at + 1, false);
      } else {
        Request(p, kind, events);
      }
    }

    /** A request and the wait for its response, with others acting in between. */
    method Request(p: GroupedPayload, kind: ReplyKind, events: seq<Event>)
      requires Valid() && IsAtPayload(State(), false) && Current(State()) == PayloadValue(p)
      requires keeper.Owns(p.topicData)
      modifies this, keeper, keeper.maps
      ensures Valid() && keeper.Grows()
      ensures State() == Awaited(Interfered(Written(old(State())), events), kind)
    {
      Write(p);
      Interfere(events);
      Await(p, kind);
    }

    method Write(p: GroupedPayload)
      requires Valid() && IsAtPayload(State(), false) && Current(State()) == PayloadValue(p)
      modifies this`wire, this`phase
      ensures Valid() && State() == Written(old(State()))
    {
      wire := wire + [Msg(p.subbed, set k | k in p.keys :: (p.topic, k))];
      phase := phase.(waiting := true);
    }

    /** Waits for the response; it can only come once the server handled the message. */
    method Await(p: GroupedPayload, kind: ReplyKind)
      requires Valid() && IsAtPayload(State(), true) && Current(State()) == PayloadValue(p)
      requires keeper.Owns(p.topicData)
      modifies this`phase, keeper, p.topicData
      ensures Valid() && keeper.maps == old(keeper.maps)
      ensures State() == Awaited(old(State()), kind)
    {
      if kind == Answered(true) && |verdicts| == |wire| && |verdicts| > 0 && verdicts[|verdicts| - 1] {
        Confirm(p);
      } else {
        phase := Passing(phase.batch, phase.at + 1, false);
      }
    }

    method Confirm(p: GroupedPayload)
      requires Valid() && IsAtPayload(State(), true) && Current(State()) == PayloadValue(p)
      requires keeper.Owns(p.topicData)
      modifies this`phase, keeper, p.topicData
      ensures Valid() && keeper.maps == old(keeper.maps)
      ensures State()
           == Advance(old(State()).(subs := DoConfirm(old(keeper.State()), p.subbed, p.topic, p.topicData.id, p.keys)))
    {
      keeper.Acknowledge(p);
      phase := Passing(phase.batch, phase.at + 1, false);
    }

    /** What others do at one point of the pass. */
    method Interfere(events: seq<Event>)
      requires Valid()
      modifies this`open, this`verdicts, keeper, keeper.maps
      ensures Valid() && keeper.Grows()
      ensures State() == Interfered(old(State()), events)
    {
      for i := 0 to |events|
        invariant Valid() && keeper.Grows()
        invariant State() == Interfered(old(State()), events[..i])
      {
        assert events[..i + 1][..i] == events[..i];
        Happen(events[i]);
      }
      assert events[..|events|] == events;
    }

    method Happen(event: Event)
      requires Valid()
      modifies this`open, this`verdicts, keeper, keeper.maps
      ensures Valid() && keeper.Grows()
      ensures State() == Happened(old(State()), event)
    {
      match event {
        case CallSubscribe(topic, keys) => keeper.Subscribe(topic, keys);
        case CallUnsubscribe(topic, keys) => keeper.Unsubscribe(topic, keys);
        case CallUnsubscribeAll => keeper.UnsubscribeAll();
        case LoseConnection => open := false;
        case HandleMessage(verdict) =>
          if open && |verdicts| < |wire| {
            verdicts := verdicts + [verdict];
          }
      }
    }
  }
}
