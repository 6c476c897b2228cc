/** How a callback travels from an event file through the Gateway and the client into the
    Coordinator's inbox, with every process able to crash in between. */
module EventChain {
  import opened Wrappers
  import opened CoordinatorModel
  import CoordinatorRuns
  import Runs

  const MAX_RETRIES: nat := 3

  const HANDLED_TYPES := {
    "ASYNC_ORDER", "ASYNC_ORDER_RESPONSE", "ASYNC_CANCEL", "ASYNC_CANCEL_RESPONSE", "ORDER_UPDATE",
    "TRADE_NOTIFY", "ORDER_ERROR", "ASSET_UPDATE", "POSITIONS_SNAPSHOT", "QMT_STATUS", "RECONCILE_REQUIRED", "ERROR"}

  datatype Place = Live | Claimed | SetAside | Removed

  /** One event file; `body` is the message it is sent as, delivery id included. */
  datatype EventFile = EventFile(body: Message, place: Place, retries: nat)

  /** `seen` is the Gateway's hot cache and `dedupe` its table; `delivered` are the events of
      the current batch that count as delivered, `awaiting` the delivery the Gateway waits
      for.  `sent` are events that may reach the client, once or again, `acks` its
      acknowledgements on the wire, and `completed` are deliveries whose handlers succeeded. */
  datatype Chain = Chain(
    files: map<string, EventFile>,
    seen: set<string>,
    dedupe: set<string>,
    delivered: set<string>,
    awaiting: Option<string>,
    sent: set<string>,
    acks: set<string>,
    completed: set<string>,
    account: Account)

  datatype ChainStep =
    | Create(id: string, body: Message)
    | ClaimFile(id: string)
    | Unreadable(id: string)
    | Send(id: string)
    | SkipUntyped(id: string)
    | Handle(id: string, now: int)
    | Reacknowledge(id: string)
    | ForgetCompleted(id: string)
    | ReceiveAck(id: string, fromPrimary: bool)
    | TimeOut
    | Mark
    | RemoveFile(id: string)
    | Retry(id: string)
    | DropBatch
    | ClearSeen
    | ForgetDedupe(id: string)
    | GatewayCrash
    | ClientCrash
    | Operate(op: Op)

  function DeliveryId(id: string): string {
    "event:" + id
  }

  /** emit_event's outbound message. */
  function Outbound(id: string, body: Message): Message {
    body.(deliveryId := DeliveryId(id))
  }

  predicate Typed(f: EventFile) {
    f.body.kind != ""
  }

  predicate IsClaimed(c: Chain, id: string) {
    id in c.files && c.files[id].place.Claimed?
  }

  predicate Duplicate(c: Chain, id: string) {
    id in c.seen || id in c.dedupe
  }

  function Placed(c: Chain, id: string, place: Place): Chain
    requires id in c.files
  {
    c.(files := c.files[id := c.files[id].(place := place)])
  }

  /** Back to the live directory, or set aside after the third attempt. */
  function Retried(f: EventFile): EventFile {
    if f.retries + 1 >= MAX_RETRIES then f.(place := SetAside) else EventFile(f.body, Live, f.retries + 1)
  }

  function Next(c: Chain, s: ChainStep): Option<Chain> {
    match s
    // the Helper creates one file per event id
    case Create(id, body) =>
      if id != "" && id !in c.files then Some(c.(files := c.files[id := EventFile(Outbound(id, body), Live, 0)])) else None
    // read_events_sync
    case ClaimFile(id) => if id in c.files && c.files[id].place.Live? then Some(Placed(c, id, Claimed)) else None
    case Unreadable(id) => if IsClaimed(c, id) then Some(Placed(c, id, SetAside)) else None
    // emit_event
    case Send(id) =>
      if IsClaimed(c, id) && Typed(c.files[id]) && !Duplicate(c, id) && c.awaiting.None? then
        Some(c.(awaiting := Some(id), sent := c.sent + {id}))
      else None
    case SkipUntyped(id) =>
      if IsClaimed(c, id) && !Typed(c.files[id]) && !Duplicate(c, id) then Some(c.(delivered := c.delivered + {id})) else None
    // the client's handlers; only when all succeed the delivery is completed and acknowledged
    case Handle(id, now) =>
      if id in c.sent && id in c.files then
        var r := Deliver(c.account, c.files[id].body, now);
        if c.files[id].body.kind in HANDLED_TYPES && r.Success? then
          Some(c.(account := r.value, completed := c.completed + {id}, acks := c.acks + {id}))
        else Some(c)
      else None
    case Reacknowledge(id) =>
      if id in c.sent && id in c.completed then Some(c.(acks := c.acks + {id})) else None
    case ForgetCompleted(id) => Some(c.(completed := c.completed - {id}))
    // DELIVERY_ACK counts only from the session the event was sent to, while it is primary
    case ReceiveAck(id, fromPrimary) =>
      if id in c.acks then
        if fromPrimary && c.awaiting == Some(id) then
          Some(c.(acks := c.acks - {id}, awaiting := None, delivered := c.delivered + {id}))
        else Some(c.(acks := c.acks - {id}))
      else None
    case TimeOut => if c.awaiting.Some? then Some(c.(awaiting := None)) else None
    // _deliver_live_event_batch: mark the delivered ids in one transaction, then remove files
    case Mark => Some(c.(dedupe := c.dedupe + c.delivered, seen := c.seen + c.delivered, delivered := {}))
    case RemoveFile(id) => if IsClaimed(c, id) && Duplicate(c, id) then Some(Placed(c, id, Removed)) else None
    // retry_event_sync, taken as one step
    case Retry(id) =>
      if IsClaimed(c, id) then Some(c.(files := c.files[id := Retried(c.files[id])])) else None
    case DropBatch => Some(c.(delivered := {}, awaiting := None))
    case ClearSeen => Some(c.(seen := {}))
    case ForgetDedupe(id) => Some(c.(dedupe := c.dedupe - {id}))
    // what the client has received stays with it
    case GatewayCrash => Some(c.(seen := {}, delivered := {}, awaiting := None, acks := {}))
    case ClientCrash => Some(c.(completed := {}, sent := {}, acks := {}, account := Restarted(c.account)))
    // any other operation of the Coordinator
    case Operate(op) => Some(c.(account := CoordinatorModel.Next(c.account, op)))
  }

  function Run(c: Chain, steps: seq<ChainStep>): Option<Chain> {
    Runs.Run(Next, c, steps)
  }

  function Start(account: Account): Chain {
    Chain(map[], {}, {}, {}, None, {}, {}, {}, account)
  }

  predicate InInbox(c: Chain, id: string) {
    id in c.files && KeyOf(c.files[id].body) in c.account.inbox
  }

  /** An id the Gateway may drop: the Coordinator has it, or it has no type. */
  predicate Accounted(c: Chain, id: string) {
    id in c.files && (Typed(c.files[id]) ==> InInbox(c, id))
  }

  predicate IdsHold(c: Chain) {
    && (forall id :: id in c.dedupe ==> Accounted(c, id))
    && (forall id :: id in c.seen ==> Accounted(c, id))
    && (forall id :: id in c.delivered ==> Accounted(c, id))
  }

  predicate WireHolds(c: Chain) {
    && (forall id :: id in c.acks ==> InInbox(c, id))
    && (forall id :: id in c.completed ==> InInbox(c, id))
  }

  predicate FilesHold(c: Chain) {
    forall id :: id in c.files && c.files[id].place.Removed? ==> Accounted(c, id)
  }

  predicate Local(c: Chain) {
    IdsHold(c) && WireHolds(c) && FilesHold(c)
  }

  predicate Inv(c: Chain) {
    Local(c) && CoordinatorRuns.Inv(c.account)
  }

  /** Files keep their bodies. */
  predicate FilesKept(c: Chain, c': Chain) {
    forall id :: id in c.files ==> id in c'.files && c'.files[id].body == c.files[id].body
  }

  /** The inbox keeps its events. */
  predicate InboxKept(t: Account, t': Account) {
    forall k :: k in t.inbox ==> k in t'.inbox
  }

  /** The step moves one file. */
  predicate MovesFile(s: ChainStep) {
    s.Create? || s.ClaimFile? || s.Unreadable? || s.RemoveFile? || s.Retry?
  }

  /** The step involves the Coordinator. */
  predicate OfCoordinator(s: ChainStep) {
    s.Handle? || s.ClientCrash? || s.Operate?
  }

  lemma FileStepKeepsLocal(c: Chain, s: ChainStep)
    requires Local(c) && MovesFile(s) && Next(c, s).Some?
    ensures Local(Next(c, s).value) && FilesKept(c, Next(c, s).value) && Next(c, s).value.account == c.account
  {
    var c' := Next(c, s).value;
    AccountedStays(c, c');
  }

  lemma GatewayStepKeepsLocal(c: Chain, s: ChainStep)
    requires Local(c) && !MovesFile(s) && !OfCoordinator(s) && Next(c, s).Some?
    ensures Local(Next(c, s).value) && Next(c, s).value.files == c.files && Next(c, s).value.account == c.account
  {
    var c' := Next(c, s).value;
    AccountedStays(c, c');
  }

  lemma AccountedStays(c: Chain, c': Chain)
    requires FilesKept(c, c') && InboxKept(c.account, c'.account)
    ensures forall id :: Accounted(c, id) ==> Accounted(c', id)
    ensures forall id :: InInbox(c, id) ==> InInbox(c', id)
  {
  }

  lemma AccountStepKeepsLocal(c: Chain, c': Chain)
    requires Local(c) && InboxKept(c.account, c'.account)
    requires c'.files == c.files && c'.dedupe == c.dedupe && c'.seen == c.seen && c'.delivered == c.delivered
    requires forall id :: id in c'.acks ==> id in c.acks || InInbox(c', id)
    requires forall id :: id in c'.completed ==> id in c.completed || InInbox(c', id)
    ensures Local(c')
  {
    AccountedStays(c, c');
  }

  lemma DeliveryReaches(t: Account, m: Message, now: int) returns (t': Account)
    requires CoordinatorRuns.Inv(t) && Deliver(t, m, now).Success?
    ensures Deliver(t, m, now) == Success(t')
    ensures CoordinatorRuns.Inv(t') && InboxKept(t, t') && KeyOf(m) in t'.inbox
  {
    CoordinatorRuns.DeliverKeepsInv(t, m, now);
    t' := Deliver(t, m, now).value;
  }

  lemma OperationKeepsInbox(t: Account, op: Op)
    requires CoordinatorRuns.Inv(t)
    ensures CoordinatorRuns.Inv(CoordinatorModel.Next(t, op)) && InboxKept(t, CoordinatorModel.Next(t, op))
  {
    CoordinatorRuns.NextKeepsInv(t, op);
  }

  function Handled(c: Chain, id: string, t: Account): Chain {
    c.(account := t, completed := c.completed + {id}, acks := c.acks + {id})
  }

  lemma HandleStep(c: Chain, id: string, now: int) returns (t: Option<Account>)
    requires CoordinatorRuns.Inv(c.account) && Next(c, Handle(id, now)).Some?
    ensures Next(c, Handle(id, now)) == Some(if t.Some? then Handled(c, id, t.value) else c)
    ensures id in c.files
    ensures t.Some? ==>
      CoordinatorRuns.Inv(t.value) && InboxKept(c.account, t.value) && KeyOf(c.files[id].body) in t.value.inbox
  {
    var m := c.files[id].body;
    if m.kind in HANDLED_TYPES && Deliver(c.account, m, now).Success? {
      var account := DeliveryReaches(c.account, m, now);
      t := Some(account);
    } else {
      t := None;
    }
  }

  lemma HandleKeepsInv(c: Chain, id: string, now: int)
    requires Inv(c) && Next(c, Handle(id, now)).Some?
    ensures Inv(Next(c, Handle(id, now)).value)
  {
    var t := HandleStep(c, id, now);
    if t.Some? {
      AccountStepKeepsLocal(c, Handled(c, id, t.value));
    }
  }

  lemma StepKeepsInv(c: Chain, s: ChainStep)
    requires Inv(c) && Next(c, s).Some?
    ensures Inv(Next(c, s).value)
  {
    if MovesFile(s) {
      FileStepKeepsLocal(c, s);
    } else if s.Handle? {
      HandleKeepsInv(c, s.id, s.now);
    } else if s.ClientCrash? {
      OperationKeepsInbox(c.account, Op.Restart);
      AccountStepKeepsLocal(c, Next(c, s).value);
    } else if s.Operate? {
      OperationKeepsInbox(c.account, s.op);
      AccountStepKeepsLocal(c, Next(c, s).value);
    } else {
      GatewayStepKeepsLocal(c, s);
    }
  }

  lemma {:induction false} RunKeepsInv(c: Chain, steps: seq<ChainStep>)
    requires Inv(c) && Run(c, steps).Some?
    ensures Inv(Run(c, steps).value)
    decreases |steps|
  {
    if steps != [] {
      StepKeepsInv(c, steps[0]);
      RunKeepsInv(Next(c, steps[0]).value, steps[1..]);
    }
  }

  lemma StartHoldsInv(account: Account)
    requires CoordinatorRuns.Inv(account)
    ensures Inv(Start(account))
  {
  }

  /** Every file is sent under the delivery id of its event. */
  predicate BodiesHold(c: Chain) {
    forall id :: id in c.files ==> c.files[id].body.deliveryId == DeliveryId(id)
  }

  lemma {:induction false} RunKeepsBodies(c: Chain, steps: seq<ChainStep>)
    requires BodiesHold(c) && Run(c, steps).Some?
    ensures BodiesHold(Run(c, steps).value)
    decreases |steps|
  {
    if steps != [] {
      StepKeepsBodies(c, steps[0]);
      RunKeepsBodies(Next(c, steps[0]).value, steps[1..]);
    }
  }

  lemma StepKeepsBodies(c: Chain, s: ChainStep)
    requires BodiesHold(c) && Next(c, s).Some?
    ensures BodiesHold(Next(c, s).value)
  {
  }

  /** The Coordinator holds a delivery, and what it owes for it. */
  predicate Held(t: Account, key: EventKey) {
    && key in t.inbox
    && (t.inbox[key].command.Some? ==>
          t.inbox[key].command.value < |t.commands|
          && OutboxKey(key, t.commands[t.inbox[key].command.value].strategy) in t.outbox)
  }

  lemma InboxIsHeld(t: Account, key: EventKey)
    requires CoordinatorRuns.Inv(t) && key in t.inbox
    ensures Held(t, key)
  {
    assert CoordinatorRuns.BoxesHold(t);
  }

  /** A typed event is in the dedupe table, or its file removed, only if the Coordinator's
      inbox holds its delivery and the strategy that owns its command an outbox row. */
  lemma DeduplicatedEventsAreInTheInbox(account: Account, steps: seq<ChainStep>, id: string)
    requires CoordinatorRuns.Inv(account) && Run(Start(account), steps).Some?
    ensures var c := Run(Start(account), steps).value;
      id in c.files && Typed(c.files[id]) && (id in c.dedupe || c.files[id].place.Removed?) ==>
        Held(c.account, Delivery(DeliveryId(id)))
  {
    StartHoldsInv(account);
    RunKeepsInv(Start(account), steps);
    RunKeepsBodies(Start(account), steps);
    var c := Run(Start(account), steps).value;
    if id in c.files && Typed(c.files[id]) && (id in c.dedupe || c.files[id].place.Removed?) {
      assert Accounted(c, id);
      InboxIsHeld(c.account, Delivery(DeliveryId(id)));
    }
  }

  lemma StepKeepsFiles(c: Chain, s: ChainStep)
    requires Next(c, s).Some?
    ensures FilesKept(c, Next(c, s).value)
  {
  }

  lemma {:induction false} RunKeepsFiles(c: Chain, steps: seq<ChainStep>)
    requires Run(c, steps).Some?
    ensures FilesKept(c, Run(c, steps).value)
    decreases |steps|
  {
    if steps != [] {
      StepKeepsFiles(c, steps[0]);
      RunKeepsFiles(Next(c, steps[0]).value, steps[1..]);
    }
  }

  /** A file never vanishes: it is live or claimed, set aside as failed, or accounted for. */
  lemma FilesDoNotVanish(c: Chain, steps: seq<ChainStep>, id: string)
    requires Inv(c) && Run(c, steps).Some? && id in c.files
    ensures var c' := Run(c, steps).value;
      && id in c'.files && c'.files[id].body == c.files[id].body
      && (c'.files[id].place.Live? || c'.files[id].place.Claimed? || c'.files[id].place.SetAside? || Accounted(c', id))
  {
    RunKeepsInv(c, steps);
    RunKeepsFiles(c, steps);
  }

  // Failed attempts

  /** How often the steps gave an event back after a failed attempt. */
  function Failures(steps: seq<ChainStep>, id: string): nat
    decreases |steps|
  {
    if steps == [] then 0 else (if steps[0] == Retry(id) then 1 else 0) + Failures(steps[1..], id)
  }

  function FailuresBefore(c: Chain, id: string): nat {
    if id in c.files then c.files[id].retries else 0
  }

  predicate IsSetAside(c: Chain, id: string) {
    id in c.files && c.files[id].place.SetAside?
  }

  predicate CountsFailures(c: Chain, id: string) {
    IsSetAside(c, id) || FailuresBefore(c, id) <= 2
  }

  lemma {:induction false} SetAsideIsFinal(c: Chain, steps: seq<ChainStep>, id: string)
    requires IsSetAside(c, id) && Run(c, steps).Some?
    ensures IsSetAside(Run(c, steps).value, id) && Failures(steps, id) == 0
    decreases |steps|
  {
    if steps != [] {
      SetAsideIsFinal(Next(c, steps[0]).value, steps[1..], id);
    }
  }

  lemma {:induction false} RunCountsFailures(c: Chain, steps: seq<ChainStep>, id: string)
    requires Run(c, steps).Some? && !IsSetAside(c, id) && CountsFailures(c, id)
    ensures var c', n := Run(c, steps).value, FailuresBefore(c, id) + Failures(steps, id);
      && n <= 3
      && (IsSetAside(c', id) <==> n == 3 || Unreadable(id) in steps)
      && (!IsSetAside(c', id) ==> FailuresBefore(c', id) == n)
    decreases |steps|
  {
    if steps != [] {
      var next := Next(c, steps[0]).value;
      if IsSetAside(next, id) {
        SetAsideIsFinal(next, steps[1..], id);
        assert steps[0] == Unreadable(id) || (steps[0] == Retry(id) && FailuresBefore(c, id) == 2);
        assert steps[0] == Unreadable(id) ==> Unreadable(id) in steps;
        assert steps[0] == Retry(id) ==> Failures(steps, id) == 1;
        if steps[0] == Unreadable(id) {
          assert Failures(steps, id) == 0;
        }
      } else {
        RunCountsFailures(next, steps[1..], id);
      }
      assert Unreadable(id) in steps <==> steps[0] == Unreadable(id) || Unreadable(id) in steps[1..];
    }
  }

  /** An event file survives two failed attempts; it is set aside by the third one, or when it
      cannot be read, and by nothing else. */
  lemma SetAsideIffThirdFailure(account: Account, steps: seq<ChainStep>, id: string)
    requires Run(Start(account), steps).Some?
    ensures Failures(steps, id) <= 3
    ensures IsSetAside(Run(Start(account), steps).value, id) <==> Failures(steps, id) == 3 || Unreadable(id) in steps
  {
    RunCountsFailures(Start(account), steps, id);
  }

  /** The first two failures bring the file back to the live directory. */
  lemma FailedEventComesBackTwice(account: Account, steps: seq<ChainStep>, id: string)
    requires Run(Start(account), steps).Some? && Run(Start(account), steps + [Retry(id)]).Some?
    ensures var f := Run(Start(account), steps + [Retry(id)]).value.files;
      id in f && (Failures(steps, id) < 2 ==> f[id].place == Live) && (Failures(steps, id) == 2 ==> f[id].place == SetAside)
  {
    RunCountsFailures(Start(account), steps, id);
    Runs.RunSnoc(Next, Start(account), steps, Retry(id));
  }

  // The hypothesis on types is exact

  function DropSteps(id: string): seq<ChainStep> {
    [ClaimFile(id), SkipUntyped(id), Mark, RemoveFile(id)]
  }

  /** A live event the Gateway does not know yet and the Coordinator does not have. */
  predicate Fresh(c: Chain, id: string) {
    id in c.files && c.files[id].place.Live? && !Duplicate(c, id) && !InInbox(c, id)
  }

  /** Recorded as delivered and removed, although the Coordinator never saw it. */
  predicate Dropped(c: Chain, id: string) {
    id in c.dedupe && id in c.files && c.files[id].place.Removed? && !InInbox(c, id)
  }

  lemma UntypedEventIsDropped(c: Chain, id: string)
    requires Fresh(c, id) && !Typed(c.files[id])
    ensures Run(c, DropSteps(id)).Some? && Dropped(Run(c, DropSteps(id)).value, id)
  {
    var c1 := Placed(c, id, Claimed);
    var c2 := c1.(delivered := c.delivered + {id});
    var c3 := c1.(dedupe := c.dedupe + c2.delivered, seen := c.seen + c2.delivered, delivered := {});
    var c4 := Placed(c3, id, Removed);
    assert Next(c, ClaimFile(id)) == Some(c1) && Next(c1, SkipUntyped(id)) == Some(c2);
    assert Next(c2, Mark) == Some(c3) && Next(c3, RemoveFile(id)) == Some(c4);
    Runs.RunChain(Next, [c, c1, c2, c3, c4], DropSteps(id));
  }

  lemma TypedEventIsNeverDropped(c: Chain, steps: seq<ChainStep>, id: string)
    requires Inv(c) && id in c.files && Typed(c.files[id]) && Run(c, steps).Some?
    ensures !Dropped(Run(c, steps).value, id)
  {
    RunKeepsInv(c, steps);
    RunKeepsFiles(c, steps);
    assert Run(c, steps).value.files[id].body == c.files[id].body;
  }

  /** Some run drops a new live event exactly when the event has no type. */
  lemma UntypedEventsAreDropped(c: Chain, id: string)
    requires Inv(c) && Fresh(c, id)
    ensures (exists steps: seq<ChainStep> :: Run(c, steps).Some? && Dropped(Run(c, steps).value, id))
            <==> !Typed(c.files[id])
  {
    if Typed(c.files[id]) {
      forall steps: seq<ChainStep> | Run(c, steps).Some? ensures !Dropped(Run(c, steps).value, id) {
        TypedEventIsNeverDropped(c, steps, id);
      }
    } else {
      UntypedEventIsDropped(c, id);
    }
  }
}
