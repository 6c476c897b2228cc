/** The client's queue and bookkeeping around the Coordinator's handler, as the client's part
    of the event chain. */
module ClientSession {
  import opened Wrappers
  import opened BridgeClient
  import opened EventChain
  import CoordinatorModel
  import opened Coordinator

  /** Deliveries of event files, as opposed to responses and snapshots. */
  predicate IsEvent(m: Inbound) {
    "event:" <= m.deliveryId
  }

  function EventId(m: Inbound): (id: string)
    requires IsEvent(m)
    ensures DeliveryId(id) == m.deliveryId
  {
    m.deliveryId[|"event:"|..]
  }

  /** An event is what was sent for its file. */
  predicate Carried(c: Chain, m: Inbound) {
    IsEvent(m) ==> EventId(m) in c.sent && EventId(m) in c.files && c.files[EventId(m)].body == m
  }

  /** Steps of the Helper and the Gateway. */
  predicate OfOthers(s: ChainStep) {
    !s.Handle? && !s.Reacknowledge? && !s.ForgetCompleted? && !s.ClientCrash? && !s.Operate?
  }

  /** The client's queue and caches fit the chain: every queued event is carried, deliveries
      are queued once, while they are pending and not completed, and completed events are
      known to be so. */
  ghost predicate Fits(queue: seq<Inbound>, pending: set<string>, completed: seq<string>, c: Chain) {
    && (forall i :: 0 <= i < |queue| ==> Carried(c, queue[i]))
    && (forall i :: 0 <= i < |queue| && queue[i].deliveryId != "" ==>
          queue[i].deliveryId in pending && queue[i].deliveryId !in completed)
    && (forall i, j :: 0 <= i < j < |queue| && queue[i].deliveryId == queue[j].deliveryId ==> queue[i].deliveryId == "")
    && (forall id :: DeliveryId(id) in completed ==> id in c.completed)
  }

  lemma OthersKeepClient(c: Chain, s: ChainStep)
    requires OfOthers(s) && EventChain.Next(c, s).Some?
    ensures var c' := EventChain.Next(c, s).value;
      c'.account == c.account && c'.completed == c.completed && c.sent <= c'.sent && FilesKept(c, c')
  {
  }

  lemma OthersKeepFit(queue: seq<Inbound>, pending: set<string>, completed: seq<string>, c: Chain, c': Chain)
    requires Fits(queue, pending, completed, c)
    requires c'.completed == c.completed && c.sent <= c'.sent && FilesKept(c, c')
    ensures Fits(queue, pending, completed, c')
  {
    forall i | 0 <= i < |queue| ensures Carried(c', queue[i]) {
      assert Carried(c, queue[i]);
    }
  }

  /** The chain after a completed delivery was acknowledged again. */
  function Reacknowledged(c: Chain, m: Inbound, completed: seq<string>): Chain {
    if IsEvent(m) && m.deliveryId in completed then
      c.(acks := c.acks + {EventId(m)})
    else c
  }

  lemma ReceivingKeepsFit(queue: seq<Inbound>, pending: set<string>, completed: seq<string>, c: Chain, m: Inbound,
                          queue': seq<Inbound>, pending': set<string>, completed': seq<string>)
    requires Fits(queue, pending, completed, c) && Carried(c, m) && pending <= pending'
    requires queue' == queue
             || (queue' == queue + [m]
                 && (m.deliveryId != "" ==> m.deliveryId in pending' && m.deliveryId !in pending && m.deliveryId !in completed))
    requires forall id :: id in completed' ==> id in completed || (id == m.deliveryId && !IsEvent(m) && id !in pending)
    requires queue' != queue ==> completed' == completed
    ensures Fits(queue', pending', completed', Reacknowledged(c, m, completed))
  {
    var c' := Reacknowledged(c, m, completed);
    forall i | 0 <= i < |queue'| ensures Carried(c', queue'[i]) {
      if i < |queue| {
        assert queue'[i] == queue[i];
      }
    }
    assert forall id :: "event:" <= DeliveryId(id);
  }

  /** The chain after the first queued message was handled. */
  predicate HandledAs(c: Chain, m: Inbound, done: bool, c': Chain) {
    && FilesKept(c, c') && c.completed <= c'.completed
    && c'.sent == c.sent
    && (IsEvent(m) && done ==> EventId(m) in c'.completed)
  }

  lemma WorkingKeepsFit(queue: seq<Inbound>, pending: set<string>, completed: seq<string>, c: Chain,
                        pending': set<string>, completed': seq<string>, c': Chain, done: bool)
    requires Fits(queue, pending, completed, c) && queue != [] && HandledAs(c, queue[0], done, c')
    requires pending' == if queue[0].deliveryId != "" then pending - {queue[0].deliveryId} else pending
    requires forall id :: id in completed' ==> id in completed || (done && id == queue[0].deliveryId != "")
    ensures Fits(queue[1..], pending', completed', c')
  {
    var m, rest := queue[0], queue[1..];
    forall i | 0 <= i < |rest|
      ensures Carried(c', rest[i])
      ensures rest[i].deliveryId != "" ==> rest[i].deliveryId in pending' && rest[i].deliveryId !in completed'
    {
      assert rest[i] == queue[i + 1] && Carried(c, queue[i + 1]);
    }
    forall id | DeliveryId(id) in completed' ensures id in c'.completed {
      if DeliveryId(id) !in completed {
        assert EventId(m) == id;
      }
    }
  }

  /** Handling a carried event is a step of the chain: the Coordinator commits it, and only
      then it counts as completed. */
  lemma HandlingIsAStep(c: Chain, m: Inbound, now: int) returns (c': Chain, done: bool)
    requires EventChain.Inv(c) && IsEvent(m) && Carried(c, m)
    ensures EventChain.Next(c, EventChain.Handle(EventId(m), now)) == Some(c') && EventChain.Inv(c')
    ensures done <==> m.kind in HANDLED_TYPES && CoordinatorModel.Deliver(c.account, m, now).Success?
    ensures HandledAs(c, m, done, c') && (done ==> InInbox(c', EventId(m)))
    ensures c'.account == if m.kind in HANDLED_TYPES then CoordinatorModel.Next(c.account, CoordinatorModel.Event(m, now)) else c.account
  {
    EventChain.StepKeepsInv(c, EventChain.Handle(EventId(m), now));
    c' := EventChain.Next(c, EventChain.Handle(EventId(m), now)).value;
    done := m.kind in HANDLED_TYPES && CoordinatorModel.Deliver(c.account, m, now).Success?;
  }

  lemma OperatingIsAStep(c: Chain, m: Inbound, now: int) returns (c': Chain)
    requires EventChain.Inv(c) && !IsEvent(m)
    ensures EventChain.Next(c, EventChain.Operate(CoordinatorModel.Event(m, now))) == Some(c') && EventChain.Inv(c')
    ensures HandledAs(c, m, true, c') && c'.account == CoordinatorModel.Next(c.account, CoordinatorModel.Event(m, now))
  {
    EventChain.StepKeepsInv(c, EventChain.Operate(CoordinatorModel.Event(m, now)));
    c' := EventChain.Next(c, EventChain.Operate(CoordinatorModel.Event(m, now))).value;
  }

  predicate Succeeds(t: CoordinatorModel.Account, m: Inbound, now: int) {
    m.kind in HANDLED_TYPES && CoordinatorModel.Deliver(t, m, now).Success?
  }

  function AfterHandler(t: CoordinatorModel.Account, m: Inbound, now: int): CoordinatorModel.Account {
    if m.kind in HANDLED_TYPES then CoordinatorModel.Next(t, CoordinatorModel.Event(m, now)) else t
  }

  /** What the step of the chain is when the first queued message is handled. */
  predicate IsWork(c: Chain, m: Inbound, now: int, c': Chain) {
    if IsEvent(m) then EventChain.Next(c, EventChain.Handle(EventId(m), now)) == Some(c')
    else if m.kind in HANDLED_TYPES then EventChain.Next(c, EventChain.Operate(CoordinatorModel.Event(m, now))) == Some(c')
    else c' == c
  }

  lemma WorkIsAStep(queue: seq<Inbound>, pending: set<string>, completed: seq<string>, c: Chain, now: int,
                    pending': set<string>, completed': seq<string>) returns (c': Chain)
    requires Fits(queue, pending, completed, c) && queue != [] && EventChain.Inv(c)
    requires pending' == if queue[0].deliveryId != "" then pending - {queue[0].deliveryId} else pending
    requires forall id :: id in completed' ==>
      id in completed || (id == queue[0].deliveryId != "" && Succeeds(c.account, queue[0], now))
    ensures IsWork(c, queue[0], now, c') && EventChain.Inv(c') && Fits(queue[1..], pending', completed', c')
    ensures c'.account == AfterHandler(c.account, queue[0], now)
    ensures IsEvent(queue[0]) && Succeeds(c.account, queue[0], now) ==> InInbox(c', EventId(queue[0]))
  {
    var m := queue[0];
    var done := Succeeds(c.account, m, now);
    c' := c;
    if IsEvent(m) {
      c', done := HandlingIsAStep(c, m, now);
    } else if m.kind in HANDLED_TYPES {
      c' := OperatingIsAStep(c, m, now);
    }
    WorkingKeepsFit(queue, pending, completed, c, pending', completed', c', done);
  }

  lemma ReceivingIsAStep(queue: seq<Inbound>, pending: set<string>, completed: seq<string>, c: Chain, m: Inbound,
                         queue': seq<Inbound>, pending': set<string>, completed': seq<string>) returns (c': Chain)
    requires Fits(queue, pending, completed, c) && EventChain.Inv(c) && Carried(c, m) && pending <= pending'
    requires queue' == queue || queue' == queue + [m]
    requires queue' != queue ==>
      completed' == completed
      && (m.deliveryId != "" ==> m.deliveryId in pending' && m.deliveryId !in pending && m.deliveryId !in completed)
    requires forall id :: id in completed' ==> id in completed || (id == m.deliveryId && !IsEvent(m) && id !in pending)
    ensures EventChain.Inv(c') && c'.account == c.account && Fits(queue', pending', completed', c')
    ensures if IsEvent(m) && m.deliveryId in completed
            then EventChain.Next(c, EventChain.Reacknowledge(EventId(m))) == Some(c') && InInbox(c', EventId(m))
            else c' == c
  {
    c' := Reacknowledged(c, m, completed);
    ReceivingKeepsFit(queue, pending, completed, c, m, queue', pending', completed');
    if IsEvent(m) && m.deliveryId in completed {
      assert EventId(m) in c.completed;
      EventChain.StepKeepsInv(c, EventChain.Reacknowledge(EventId(m)));
    }
  }

  /** One process of the Coordinator with its client. */
  class Session {
    const client: Client
    const coordinator: AccountCoordinator
    ghost var chain: Chain

    /** The Coordinator's handler, number 0, is registered for its types of message. */
    ghost predicate Registered()
      reads this, client, client.dispatcher
    {
      forall kind :: client.dispatcher.Of(kind) == if kind in HANDLED_TYPES then [0] else []
    }

    /** The objects are the client's part of the chain, whose invariant holds. */
    ghost predicate Valid()
      reads this, client, client.dispatcher, coordinator
    {
      && client.Valid() && coordinator.View() == chain.account && EventChain.Inv(chain)
      && Registered()
      && Fits(client.dispatcher.queue, client.pending, client.completed, chain)
    }

    constructor (client: Client, coordinator: AccountCoordinator, ghost c: Chain)
      requires client.Valid() && client.dispatcher.queue == [] && client.completed == []
      requires forall kind :: client.dispatcher.Of(kind) == if kind in HANDLED_TYPES then [0] else []
      requires EventChain.Inv(c) && coordinator.View() == c.account
      ensures Valid() && this.client == client && this.coordinator == coordinator && chain == c
    {
      this.client, this.coordinator, chain := client, coordinator, c;
    }

    /** The Helper or the Gateway act. */
    ghost method OthersAct(s: ChainStep)
      requires Valid() && OfOthers(s) && EventChain.Next(chain, s).Some?
      modifies this`chain
      ensures Valid() && EventChain.Next(old(chain), s) == Some(chain)
    {
      EventChain.StepKeepsInv(chain, s);
      OthersKeepClient(chain, s);
      OthersKeepFit(client.dispatcher.queue, client.pending, client.completed, chain, EventChain.Next(chain, s).value);
      chain := EventChain.Next(chain, s).value;
    }

    /** _handle_inbound: a delivery that was completed is acknowledged again, which is a step of
        the chain; anything else waits for the handler. */
    method Receive(m: Inbound, resolved: bool, sends: bool)
      requires Valid() && Carried(chain, m) && (IsEvent(m) ==> m.kind != "QUERY_RESPONSE")
      modifies this`chain, client, client.dispatcher
      ensures Valid()
      ensures if IsEvent(m) && m.deliveryId in old(client.completed)
              then EventChain.Next(old(chain), EventChain.Reacknowledge(EventId(m))) == Some(chain)
              else chain == old(chain)
      ensures IsEvent(m) && client.acks != old(client.acks) ==> InInbox(chain, EventId(m))
    {
      ghost var queue, pending, completed := client.dispatcher.queue, client.pending, client.completed;
      TakeIn(m, resolved, sends);
      ghost var c' := ReceivingIsAStep(queue, pending, completed, chain, m,
                                       client.dispatcher.queue, client.pending, client.completed);
      chain := c';
    }

    /** The reader's round: an event is queued, or acknowledged when it was completed. */
    method TakeIn(m: Inbound, resolved: bool, sends: bool)
      requires client.Valid() && Registered() && (IsEvent(m) ==> m.kind != "QUERY_RESPONSE")
      modifies client, client.dispatcher
      ensures client.Valid() && Registered() && old(client.pending) <= client.pending
      ensures client.dispatcher.queue == old(client.dispatcher.queue) || client.dispatcher.queue == old(client.dispatcher.queue) + [m]
      ensures client.dispatcher.queue != old(client.dispatcher.queue) ==>
        client.completed == old(client.completed)
        && (m.deliveryId != "" ==> m.deliveryId in client.pending && m.deliveryId !in old(client.pending) && m.deliveryId !in old(client.completed))
      ensures forall id :: id in client.completed ==>
        id in old(client.completed) || (id == m.deliveryId && !IsEvent(m) && id !in old(client.pending))
      ensures IsEvent(m) && client.acks != old(client.acks) ==> m.deliveryId in old(client.completed)
    {
      client.HandleInbound(m, resolved, sends);
    }

    /** The dispatcher's worker runs the Coordinator's handler on the first queued message and
        completes the delivery; for an event this is one step of the chain. */
    method Work(now: int, sends: bool)
      requires Valid() && client.dispatcher.queue != []
      modifies this`chain, client, client.dispatcher, coordinator
      ensures Valid()
      ensures IsWork(old(chain), old(client.dispatcher.queue)[0], now, chain)
      ensures var m := old(client.dispatcher.queue)[0];
        IsEvent(m) && client.acks != old(client.acks) ==> InInbox(chain, EventId(m))
    {
      var m := client.dispatcher.queue[0];
      ghost var queue, pending, completed := client.dispatcher.queue, client.pending, client.completed;
      var succeeded := RunHandler(m, now);
      Complete(m, succeeded, sends);
      ghost var c' := WorkIsAStep(queue, pending, completed, chain, now, client.pending, client.completed);
      chain := c';
    }

    /** The worker's round with the handler's result. */
    method Complete(m: Inbound, succeeded: bool, sends: bool)
      requires client.Valid() && client.dispatcher.queue != [] && client.dispatcher.queue[0] == m
      requires Registered()
      requires succeeded ==> m.kind in HANDLED_TYPES
      modifies client, client.dispatcher
      ensures client.Valid() && Registered() && client.dispatcher.queue == old(client.dispatcher.queue)[1..]
      ensures client.pending == if m.deliveryId != "" then old(client.pending) - {m.deliveryId} else old(client.pending)
      ensures forall id :: id in client.completed ==> id in old(client.completed) || (succeeded && id == m.deliveryId != "")
      ensures client.acks != old(client.acks) ==> succeeded
    {
      ghost var completed, all := client.completed, client.dispatcher.Of(m.kind);
      assert all != [] ==> all == [0] && 0 in all;
      client.RunOne(_ => succeeded, sends);
      TouchedIsOldOrNew(completed, m.deliveryId, client.cacheLimit);
    }

    /** The Coordinator's handler, registered for its types of message. */
    method RunHandler(m: Inbound, now: int) returns (succeeded: bool)
      requires Registered()
      modifies coordinator
      ensures succeeded <==> Succeeds(old(coordinator.View()), m, now)
      ensures coordinator.View() == AfterHandler(old(coordinator.View()), m, now)
    {
      succeeded := false;
      if client.dispatcher.Of(m.kind) != [] {
        var r := coordinator.OnGatewayEvent(m, now);
        succeeded := r.Success?;
      }
    }
  }
}
