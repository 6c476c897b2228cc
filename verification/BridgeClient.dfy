/** The client's dispatcher and its reliable-delivery bookkeeping. */
module BridgeClient {
  import CoordinatorModel

  /** A message of the bridge, with its type and, for a reliable delivery, its delivery id. */
  type Inbound = CoordinatorModel.Message

  datatype DispatchResult = DispatchResult(handled: bool, succeeded: bool, handlerCount: nat, failed: seq<nat>)

  predicate Acknowledgeable(r: DispatchResult) {
    r.handled && r.succeeded
  }

  /** The handlers of a list that fail, in order. */
  function Failing(handlers: seq<nat>, succeeds: nat -> bool): (r: seq<nat>)
    ensures forall h :: h in r <==> h in handlers && !succeeds(h)
  {
    if handlers == [] then []
    else
      var rest := Failing(handlers[..|handlers| - 1], succeeds);
      var last := handlers[|handlers| - 1];
      assert handlers == handlers[..|handlers| - 1] + [last];
      if succeeds(last) then rest else rest + [last]
  }

  /** Handlers are numbered; a message type maps to its handlers in registration order. */
  class Dispatcher {
    const maxQueue: nat
    var handlers: map<string, seq<nat>>
    var queue: seq<Inbound>

    ghost predicate Valid()
      reads this
    {
      && maxQueue > 0 && |queue| <= maxQueue
      && forall t :: t in handlers ==> forall i, j :: 0 <= i < j < |handlers[t]| ==> handlers[t][i] != handlers[t][j]
    }

    constructor (maxQueue: nat)
      requires maxQueue > 0
      ensures Valid() && handlers == map[] && queue == [] && this.maxQueue == maxQueue
    {
      this.maxQueue := maxQueue;
      handlers, queue := map[], [];
    }

    function Of(kind: string): seq<nat>
      reads this
    {
      if kind in handlers then handlers[kind] else []
    }

    method Register(kind: string, handler: nat)
      requires Valid() && kind != ""
      modifies this`handlers
      ensures Valid() && Of(kind) == if handler in old(Of(kind)) then old(Of(kind)) else old(Of(kind)) + [handler]
      ensures forall other :: other != kind ==> Of(other) == old(Of(other))
    {
      var registered := Of(kind);
      if handler !in registered {
        registered := registered + [handler];
      }
      handlers := handlers[kind := registered];
    }

    /** put_nowait: a full queue refuses. */
    method Submit(item: Inbound) returns (ok: bool)
      requires Valid()
      modifies this`queue
      ensures Valid() && (ok <==> |old(queue)| < maxQueue)
      ensures queue == if ok then old(queue) + [item] else old(queue)
    {
      if |queue| >= maxQueue {
        return false;
      }
      queue := queue + [item];
      return true;
    }

    /** Run every handler, also after one has failed. */
    method DispatchNow(kind: string, succeeds: nat -> bool) returns (r: DispatchResult)
      ensures r == DispatchResult(Of(kind) != [], Of(kind) != [] && Failing(Of(kind), succeeds) == [],
                                  |Of(kind)|, Failing(Of(kind), succeeds))
      ensures Acknowledgeable(r) <==> Of(kind) != [] && forall h :: h in Of(kind) ==> succeeds(h)
    {
      var called := Of(kind);
      if called == [] {
        return DispatchResult(false, false, 0, []);
      }
      var failures := [];
      for i := 0 to |called|
        invariant failures == Failing(called[..i], succeeds)
      {
        assert called[..i + 1][..i] == called[..i];
        if !succeeds(called[i]) {
          failures := failures + [called[i]];
        }
      }
      assert called[..|called|] == called;
      assert failures == [] <==> forall h :: h in called ==> succeeds(h) by {
        assert failures != [] ==> failures[0] in failures;
      }
      return DispatchResult(true, failures == [], |called|, failures);
    }
  }

  function Without(ids: seq<string>, id: string): (r: seq<string>)
    ensures |r| <= |ids|
    ensures forall x :: x in r <==> x in ids && x != id
  {
    if ids == [] then []
    else
      var rest := Without(ids[..|ids| - 1], id);
      assert ids == ids[..|ids| - 1] + [ids[|ids| - 1]];
      if ids[|ids| - 1] == id then rest else rest + [ids[|ids| - 1]]
  }

  function Recent(ids: seq<string>, limit: nat): seq<string> {
    if |ids| > limit then ids[|ids| - limit..] else ids
  }

  /** Insert or move to the end, then forget the oldest beyond the limit. */
  function Touched(ids: seq<string>, id: string, limit: nat): seq<string> {
    Recent(Without(ids, id) + [id], limit)
  }

  lemma TouchedIsOldOrNew(ids: seq<string>, id: string, limit: nat)
    ensures forall x :: x in Touched(ids, id, limit) ==> x in ids || x == id
  {
  }

  /** An insertion-ordered cache that forgets its oldest entries. */
  method Touch(ids: seq<string>, id: string, limit: nat) returns (r: seq<string>)
    requires limit > 0
    ensures r == Touched(ids, id, limit) && |r| <= limit
    ensures id in r && forall x :: x in r ==> x in ids || x == id
  {
    r := Without(ids, id) + [id];
    ghost var all := r;
    while |r| > limit
      invariant r == Recent(all, |r|)
      invariant |r| < |all| ==> |r| >= limit
    {
      r := r[1..];
    }
    assert r == all[|all| - |r|..] && r[|r| - 1] == id;
    assert forall x :: x in r ==> x in all;
  }

  /** `processed` are the deliveries whose handlers have all succeeded (or whose query waiter
      took them), `acks` the acknowledgements that went out. */
  class Client {
    const cacheLimit: nat
    const dispatcher: Dispatcher
    var pending: set<string>
    var completed: seq<string>
    var acknowledged: seq<string>
    var connected: bool
    ghost var processed: set<string>
    ghost var acks: seq<string>

    ghost predicate Valid()
      reads this, dispatcher
    {
      && dispatcher.Valid() && cacheLimit > 0
      && |completed| <= cacheLimit && |acknowledged| <= cacheLimit
      && (forall id :: id in completed ==> id in processed)
      && "" !in processed
      && (forall id :: id in acks ==> id in processed)
      && (forall id :: id in acknowledged ==> id in acks)
    }

    constructor (cacheLimit: nat, dispatcher: Dispatcher)
      requires cacheLimit > 0 && dispatcher.Valid()
      ensures Valid() && acks == [] && processed == {} && this.dispatcher == dispatcher
    {
      this.cacheLimit, this.dispatcher := cacheLimit, dispatcher;
      pending, completed, acknowledged, connected, processed, acks := {}, [], [], false, {}, [];
    }

    /** An inbound message: a completed delivery is acknowledged again, a pending one is left
        alone, anything else is queued for the handlers or resolves a query. */
    method HandleInbound(m: Inbound, resolved: bool, sends: bool)
      requires Valid()
      modifies this, dispatcher
      ensures Valid()
      ensures m.deliveryId in old(completed) ==>
        && dispatcher.queue == old(dispatcher.queue) && processed == old(processed)
        && acks == if sends then old(acks) + [m.deliveryId] else old(acks)
      ensures m.deliveryId != "" && m.deliveryId !in old(completed) && m.deliveryId !in old(pending) && m.kind != "QUERY_RESPONSE" ==>
        if |old(dispatcher.queue)| < dispatcher.maxQueue
        then dispatcher.queue == old(dispatcher.queue) + [m] && pending == old(pending) + {m.deliveryId}
        else dispatcher.queue == old(dispatcher.queue) && pending == old(pending) && !connected
      ensures m.deliveryId != "" && m.deliveryId !in old(completed) && m.deliveryId in old(pending) ==>
        dispatcher.queue == old(dispatcher.queue) && acks == old(acks)
      ensures m.deliveryId != "" && m.deliveryId !in old(completed) && m.kind != "QUERY_RESPONSE" ==>
        acks == old(acks) && processed == old(processed)
      ensures forall id :: id in processed <==>
        id in old(processed) || (id == m.deliveryId != "" && m.kind == "QUERY_RESPONSE" && resolved
                                 && id !in old(completed) && id !in old(pending))
      ensures dispatcher.handlers == old(dispatcher.handlers)
      ensures old(pending) <= pending
      ensures dispatcher.queue == old(dispatcher.queue) || dispatcher.queue == old(dispatcher.queue) + [m]
      ensures dispatcher.queue != old(dispatcher.queue) && m.deliveryId != "" ==>
        m.deliveryId in pending && m.deliveryId !in old(pending) && m.deliveryId !in old(completed)
      ensures dispatcher.queue != old(dispatcher.queue) ==> completed == old(completed) && acks == old(acks)
      ensures acks != old(acks) ==> m.deliveryId in old(completed) || m.kind == "QUERY_RESPONSE"
      ensures forall id :: id in completed ==>
        id in old(completed) || (id == m.deliveryId && m.kind == "QUERY_RESPONSE" && id !in old(pending))
    {
      var id := m.deliveryId;
      if id != "" {
        if id in completed {
          completed := Touch(completed, id, cacheLimit);
          SendDeliveryAck(id, sends);
          return;
        }
        if id in pending {
          return;
        }
      }
      if m.kind == "QUERY_RESPONSE" {
        if id != "" {
          if resolved {
            MarkCompletedAndAck(id, sends);
          } else {
            DeliveryFailed(id);
          }
        }
        return;
      }
      if id != "" {
        pending := pending + {id};
      }
      var queued := dispatcher.Submit(m);
      if !queued && id != "" {
        DeliveryFailed(id);
      }
    }

    /** The completion of a dispatched delivery: acknowledged only when every handler
        succeeded, otherwise the connection is dropped and the Gateway sends it again. */
    method FinishDelivery(id: string, result: DispatchResult, sends: bool)
      requires Valid() && id != ""
      modifies this
      ensures Valid() && pending == old(pending) - {id}
      ensures processed == if Acknowledgeable(result) then old(processed) + {id} else old(processed)
      ensures !Acknowledgeable(result) ==> completed == old(completed) && !connected
      ensures Acknowledgeable(result) ==> completed == Touched(old(completed), id, cacheLimit)
      ensures acks == if Acknowledgeable(result) && sends then old(acks) + [id] else old(acks)
    {
      if Acknowledgeable(result) {
        MarkCompletedAndAck(id, sends);
      } else {
        DeliveryFailed(id);
      }
    }

    method MarkCompletedAndAck(id: string, sends: bool)
      requires Valid() && id != ""
      modifies this
      ensures Valid() && pending == old(pending) - {id} && processed == old(processed) + {id}
      ensures completed == Touched(old(completed), id, cacheLimit)
      ensures acks == if sends then old(acks) + [id] else old(acks)
    {
      pending := pending - {id};
      processed := processed + {id};
      completed := Touch(completed, id, cacheLimit);
      SendDeliveryAck(id, sends);
      if !sends && connected {
        connected := false;
      }
    }

    method DeliveryFailed(id: string)
      requires Valid()
      modifies this`pending, this`connected
      ensures Valid() && pending == old(pending) - {id} && !connected
    {
      pending := pending - {id};
      connected := false;
    }

    /** Only what was processed may be acknowledged. */
    method SendDeliveryAck(id: string, sends: bool)
      requires Valid() && id in processed
      modifies this`acknowledged, this`acks
      ensures Valid() && acks == if sends then old(acks) + [id] else old(acks)
      ensures acknowledged == if sends then Touched(old(acknowledged), id, cacheLimit) else old(acknowledged)
    {
      if !sends {
        return;
      }
      acks := acks + [id];
      acknowledged := Touch(acknowledged, id, cacheLimit);
    }

    /** The dispatcher's worker takes the first queued message. */
    method RunOne(succeeds: nat -> bool, sends: bool)
      requires Valid() && dispatcher.queue != []
      modifies this, dispatcher
      ensures Valid()
      ensures dispatcher.queue == old(dispatcher.queue)[1..] && dispatcher.handlers == old(dispatcher.handlers)
      ensures var m := old(dispatcher.queue)[0];
        var all := old(dispatcher.Of(m.kind));
        var done := m.deliveryId != "" && all != [] && (forall h :: h in all ==> succeeds(h));
        && processed == (if done then old(processed) + {m.deliveryId} else old(processed))
        && completed == (if done then Touched(old(completed), m.deliveryId, cacheLimit) else old(completed))
        && acks == (if done && sends then old(acks) + [m.deliveryId] else old(acks))
        && pending == if m.deliveryId != "" then old(pending) - {m.deliveryId} else old(pending)
    {
      var m := dispatcher.queue[0];
      dispatcher.queue := dispatcher.queue[1..];
      var result := dispatcher.DispatchNow(m.kind, succeeds);
      if m.deliveryId != "" {
        FinishDelivery(m.deliveryId, result, sends);
      }
    }
  }
}
