/** The durable single-account coordinator: its public methods, each against the step of the
    model it takes. */
module Coordinator {
  import opened Wrappers
  import opened Identifiers
  import opened CoordinatorModel

  const MAX_POLL: int := 1000

  class AccountCoordinator {
    const id: string
    const name: string
    const limits: RiskLimits
    var strategies: map<string, Strategy>
    var commands: seq<Command>
    var reservations: map<nat, Reservation>
    var inbox: map<EventKey, InboxRow>
    var outbox: map<OutboxKey, OutboxRow>
    var started: bool
    var halted: bool
    ghost var sends: seq<nat>

    ghost function View(): Account
      reads this
    {
      Account(id, name, limits, strategies, commands, reservations, inbox, outbox, started, halted, sends)
    }

    constructor (id: string, name: string, limits: RiskLimits)
      ensures View() == Empty(id, name, limits)
    {
      this.id, this.name, this.limits := id, name, limits;
      strategies, commands, reservations, inbox, outbox := map[], [], map[], map[], map[];
      started, halted, sends := false, true, [];
    }

    method RegisterStrategy(strategy: string, settings: Strategy) returns (r: Result<(), CoordinatorError>)
      modifies this`strategies
      ensures View() == Next(old(View()), Register(strategy, settings))
      ensures r.Success? <==> ValidStrategyId(strategy)
    {
      if !ValidStrategyId(strategy) {
        return Failure(InvalidArgument);
      }
      strategies := strategies[strategy := settings];
      return Success(());
    }

    /** SUM(notional) over the active reservations of one strategy, or of the account. */
    method PendingNotional(who: Option<string>) returns (sum: real)
      ensures sum == Pending(reservations, who, |commands|)
    {
      sum := 0.0;
      for i := 0 to |commands|
        invariant sum == Pending(reservations, who, i)
      {
        if i in reservations && reservations[i].active && (who.None? || reservations[i].strategy == who.value) {
          sum := sum + reservations[i].notional;
        }
      }
    }

    /** The four limit checks of an order, in order. */
    method WithinLimits(strategy: string, notional: real) returns (ok: bool)
      requires strategy in strategies
      ensures ok <==> RiskAllows(View(), strategy, notional)
    {
      var own := strategies[strategy].limits;
      if !Within(own.maxOrder, notional) || !Within(limits.maxOrder, notional) {
        return false;
      }
      var pendingOwn := PendingNotional(Some(strategy));
      if !Within(own.maxPending, pendingOwn + notional) {
        return false;
      }
      var pendingAll := PendingNotional(None);
      return Within(limits.maxPending, pendingAll + notional);
    }

    /** The transaction of submit_order: find the command of the key, or insert it together
        with its reservation. */
    method ReserveOrder(connected: bool, strategy: string, key: string, intent: Intent, day: string)
      returns (r: Result<nat, CoordinatorError>)
      modifies this`commands, this`reservations
      ensures AdmitOrder(old(View()), connected, strategy, key, intent, day)
              == if r.Success? then Success((View(), r.value)) else Failure(r.error)
      ensures r.Failure? ==> View() == old(View())
    {
      if !started || !connected || halted {
        return Failure(Unavailable);
      }
      if !ValidStrategyId(strategy) || key == "" || |key| > 128 || !ValidIntent(intent) {
        return Failure(InvalidArgument);
      }
      var slot := FindSlot(commands, strategy, key, NewOrder(intent));
      if slot.Some? {
        return if commands[slot.value].action == NewOrder(intent) then Success(slot.value) else Failure(Conflict);
      }
      if strategy !in strategies || !strategies[strategy].enabled {
        return Failure(RiskRejected);
      }
      var notional := Notional(intent);
      var ok := WithinLimits(strategy, notional);
      if !ok {
        return Failure(RiskRejected);
      }
      var n := InsertOrder(strategy, key, intent, day, notional);
      return Success(n);
    }

    method InsertOrder(strategy: string, key: string, intent: Intent, day: string, notional: real) returns (n: nat)
      modifies this`commands, this`reservations
      ensures View() == WithOrder(old(View()), strategy, key, intent, day, notional) && n == |old(commands)|
    {
      n := |commands|;
      var c := BuildCommand(strategy, key, NewOrder(intent), day, notional);
      commands := commands + [c];
      reservations := reservations[n := Reservation(strategy, notional, true)];
    }

    /** _next_identifiers_locked and the row of the command. */
    method BuildCommand(strategy: string, key: string, action: Action, day: string, notional: real) returns (c: Command)
      ensures c == NewCommand(View(), strategy, key, action, day, notional)
    {
      var suffix := if action.NewOrder? then "" else "-c";
      var clientOrderId := ClientOrderId(name, strategy, day, |commands| + 1, suffix);
      c := Command(strategy, key, action, day, clientOrderId, RequestId(clientOrderId), notional,
                   Submitting, "", "", "", "", None);
    }

    /** submit_order.  A repeated key returns its command; a send that fails leaves the
        command unknown; a crash leaves it for the next start. */
    method SubmitOrder(connected: bool, strategy: string, key: string, intent: Intent, day: string, fate: Fate)
      returns (r: Result<nat, CoordinatorError>)
      modifies this
      ensures View() == Next(old(View()), Op.SubmitOrder(connected, strategy, key, intent, day, fate))
      ensures r == Answer(old(View()), AdmitOrder(old(View()), connected, strategy, key, intent, day), fate)
      ensures |commands| > |old(commands)| ==> r == if fate.Returned? then Success(|old(commands)|) else Failure(Unavailable)
      ensures |commands| == |old(commands)| ==>
        && sends == old(sends)
        && (r.Success? ==> r.value < |commands| && Bound(commands[r.value], strategy, key, NewOrder(intent)))
    {
      var known := |commands|;
      r := ReserveOrder(connected, strategy, key, intent, day);
      if r.Failure? || |commands| == known {
        return;
      }
      Send(r.value, fate);
      r := if fate.Returned? then r else Failure(Unavailable);
    }

    /** The transaction of request_cancel. */
    method ReserveCancel(connected: bool, strategy: string, key: string, target: string, day: string)
      returns (r: Result<nat, CoordinatorError>)
      modifies this`commands
      ensures AdmitCancel(old(View()), connected, strategy, key, target, day)
              == if r.Success? then Success((View(), r.value)) else Failure(r.error)
      ensures r.Failure? ==> View() == old(View())
    {
      if !started || !connected || halted {
        return Failure(Unavailable);
      }
      if !ValidStrategyId(strategy) || key == "" || target == "" {
        return Failure(InvalidArgument);
      }
      var slot := FindSlot(commands, strategy, key, CancelOrder(target, ""));
      if slot.Some? {
        return if commands[slot.value].action.target == target then Success(slot.value) else Failure(Conflict);
      }
      var order := FindSlot(commands, strategy, target, NewOrder(Intent("", Buy, 0.0, 0.0, "")));
      if order.None? || Terminal(commands[order.value].stage) || commands[order.value].orderId == "" {
        return Failure(Conflict);
      }
      var n := |commands|;
      var c := BuildCommand(strategy, key, CancelOrder(target, commands[order.value].orderId), day, 0.0);
      commands := commands + [c];
      return Success(n);
    }

    /** request_cancel. */
    method RequestCancel(connected: bool, strategy: string, key: string, target: string, day: string, fate: Fate)
      returns (r: Result<nat, CoordinatorError>)
      modifies this
      ensures View() == Next(old(View()), Op.RequestCancel(connected, strategy, key, target, day, fate))
      ensures r == Answer(old(View()), AdmitCancel(old(View()), connected, strategy, key, target, day), fate)
      ensures |commands| > |old(commands)| ==> r == if fate.Returned? then Success(|old(commands)|) else Failure(Unavailable)
      ensures |commands| == |old(commands)| ==>
        && sends == old(sends)
        && (r.Success? ==> r.value < |commands| && BoundToCancel(commands[r.value], strategy, key, target))
    {
      var known := |commands|;
      r := ReserveCancel(connected, strategy, key, target, day);
      if r.Failure? || |commands| == known {
        return;
      }
      Send(r.value, fate);
      r := if fate.Returned? then r else Failure(Unavailable);
    }

    /** The one call into the Gateway client, after the command was committed. */
    method Send(n: nat, fate: Fate)
      requires n < |commands|
      modifies this
      ensures View() == Sent(old(View()), n, fate)
    {
      if fate.CrashedBeforeSend? {
        RestartProcess();
        return;
      }
      sends := sends + [n];
      match fate {
        case Returned(msgId) => commands := commands[n := commands[n].(gatewayMsgId := msgId)];
        case Raised => MarkSendUnknown(n);
        case CrashedAfterSend => RestartProcess();
      }
    }

    method MarkSendUnknown(n: nat)
      requires n < |commands|
      modifies this`commands, this`halted
      ensures View() == MarkUnknown(old(View()), n)
    {
      if !Terminal(commands[n].stage) {
        commands := commands[n := commands[n].(stage := Unknown)];
      }
      halted := true;
    }

    /** A new process on the same database. */
    method RestartProcess()
      modifies this`started, this`halted
      ensures View() == Next(old(View()), Restart)
    {
      started, halted := false, true;
    }

    /** _on_gateway_event: everything the delivery causes is committed before it returns. */
    method OnGatewayEvent(m: Message, now: int) returns (r: Result<(), CoordinatorError>)
      modifies this
      ensures View() == Next(old(View()), Event(m, now))
      ensures r.Success? <==> Deliver(old(View()), m, now).Success?
      ensures r.Success? ==> KeyOf(m) in inbox
    {
      if m.accountId != "" && m.accountId != id {
        return Failure(IdentityMismatch);
      }
      var key := KeyOf(m);
      if key in inbox {
        return Success(());
      }
      var command := FindCommand(commands, m, COLUMNS);
      var targets := TargetStrategies(m, command);
      ApplyToCommand(m, command, now);
      inbox := inbox[key := InboxRow(command, m)];
      outbox := FreshRows(key, targets, now) + outbox;
      return Success(());
    }

    /** The owner of the command, or every enabled strategy for an account-wide event. */
    method TargetStrategies(m: Message, command: Option<nat>) returns (targets: set<string>)
      requires command.Some? ==> command.value < |commands|
      ensures targets == Targets(View(), m, command)
    {
      if command.Some? {
        return {commands[command.value].strategy};
      }
      if Upper(m.kind) in {"QMT_STATUS", "RECONCILE_REQUIRED"} {
        return set s | s in strategies && strategies[s].enabled;
      }
      return {};
    }

    method ApplyToCommand(m: Message, command: Option<nat>, now: int)
      requires command.Some? ==> command.value < |commands|
      modifies this`commands, this`reservations, this`halted
      ensures View() == Moved(old(View()), m, command, now)
    {
      if command.Some? {
        UpdateCommand(command.value, m, now);
      }
      if m.kind == "RECONCILE_REQUIRED" || (m.kind == "QMT_STATUS" && m.notReady) {
        halted := true;
      }
    }

    method UpdateCommand(i: nat, m: Message, now: int)
      requires i < |commands|
      modifies this`commands, this`reservations, this`halted
      ensures commands == old(commands)[i := Updated(old(commands)[i], m, now)]
      ensures reservations ==
        if Terminal(commands[i].stage) && i in old(reservations) then old(reservations)[i := old(reservations)[i].(active := false)]
        else old(reservations)
      ensures halted == (old(halted) || commands[i].stage.Unknown?)
    {
      var c := Updated(commands[i], m, now);
      commands := commands[i := c];
      if Terminal(c.stage) && i in reservations && reservations[i].active {
        reservations := reservations[i := reservations[i].(active := false)];
      }
      if c.stage.Unknown? {
        halted := true;
      }
    }

    /** reconcile: trading resumes only on a healthy account without unknown effects. */
    method ReconcileGate(connected: bool, healthy: bool) returns (ready: bool)
      modifies this`halted
      ensures View() == Next(old(View()), Reconcile(connected, healthy))
      ensures ready <==> !halted
    {
      var unknown := 0;
      for i := 0 to |commands|
        invariant unknown > 0 <==> exists j :: 0 <= j < i && commands[j].stage.Unknown?
      {
        if commands[i].stage.Unknown? {
          unknown := unknown + 1;
        }
      }
      halted := !connected || !healthy || unknown > 0;
      return !halted;
    }

    method StartUp(connects: bool, healthy: bool) returns (ready: bool)
      modifies this`started, this`halted
      ensures View() == Next(old(View()), Start(connects, healthy))
      ensures ready ==> !halted
    {
      if !connects {
        halted := true;
        return false;
      }
      started := true;
      ready := ReconcileGate(true, healthy);
    }

    /** poll_events: the oldest rows the strategy has not acknowledged, at most `limit`. */
    method PollEvents(strategy: string, limit: int) returns (r: Result<seq<OutboxKey>, CoordinatorError>)
      modifies this`outbox
      ensures r.Failure? <==> strategy !in strategies || !strategies[strategy].enabled
      ensures r.Failure? ==> outbox == old(outbox)
      ensures r.Success? ==>
        && View() == Next(old(View()), Poll(strategy, set k | k in r.value))
        && OldestOwed(old(outbox), OwedRows(old(View()), strategy), r.value,
                      if limit > 1000 then 1000 else if limit < 1 then 1 else limit)
        && outbox.Keys == old(outbox).Keys
        && forall k :: k in outbox ==>
             outbox[k] == if k in r.value then OutboxRow(OutboxDelivered, old(outbox)[k].attempts + 1, old(outbox)[k].created) else old(outbox)[k]
    {
      if strategy !in strategies || !strategies[strategy].enabled {
        return Failure(RiskRejected);
      }
      var owed := set k | k in outbox && k.strategy == strategy && !outbox[k].state.OutboxAcknowledged?;
      assert owed == OwedRows(View(), strategy);
      var picked := SelectOldest(outbox, owed, PollLimit(limit));
      MarkDelivered(strategy, picked);
      return Success(picked);
    }

    method MarkDelivered(strategy: string, picked: seq<OutboxKey>)
      requires forall k :: k in picked ==> Owed(View(), k, strategy)
      modifies this`outbox
      ensures View() == Next(old(View()), Poll(strategy, set k | k in picked))
    {
      ghost var asked := set k | k in picked;
      assert forall k :: k in picked <==> k in asked && Owed(View(), k, strategy);
      outbox := map k | k in outbox ::
        if k in picked then OutboxRow(OutboxDelivered, outbox[k].attempts + 1, outbox[k].created) else outbox[k];
    }

    /** acknowledge_event: true exactly when the row was still owed to this strategy. */
    method AcknowledgeEvent(strategy: string, k: OutboxKey) returns (r: Result<bool, CoordinatorError>)
      modifies this`outbox
      ensures r.Failure? <==> strategy !in strategies || !strategies[strategy].enabled
      ensures r.Failure? ==> outbox == old(outbox)
      ensures r.Success? ==>
        && View() == Next(old(View()), Acknowledge(strategy, k))
        && r.value == Owed(old(View()), k, strategy)
        && !Owed(View(), k, strategy)
        && outbox == (if r.value then old(outbox)[k := old(outbox)[k].(state := OutboxAcknowledged)] else old(outbox))
        && (r.value <==> k in old(outbox) && k.strategy == strategy && old(outbox)[k].state != OutboxAcknowledged)
    {
      if strategy !in strategies || !strategies[strategy].enabled {
        return Failure(RiskRejected);
      }
      if k in outbox && k.strategy == strategy && !outbox[k].state.OutboxAcknowledged? {
        outbox := outbox[k := outbox[k].(state := OutboxAcknowledged)];
        return Success(true);
      }
      return Success(false);
    }
  }

  predicate Bound(c: Command, strategy: string, key: string, action: Action) {
    c.strategy == strategy && c.key == key && c.action == action
  }

  predicate BoundToCancel(c: Command, strategy: string, key: string, target: string) {
    c.strategy == strategy && c.key == key && c.action.CancelOrder? && c.action.target == target
  }

  /** What a submission answers: a repeated command, the new one, or that its send failed. */
  function Answer(t: Account, admitted: Result<(Account, nat), CoordinatorError>, fate: Fate): Result<nat, CoordinatorError> {
    if admitted.Failure? then Failure(admitted.error)
    else if admitted.value.1 < |t.commands| || fate.Returned? then Success(admitted.value.1)
    else Failure(Unavailable)
  }

  function OwedRows(t: Account, strategy: string): set<OutboxKey> {
    set k | k in t.outbox && Owed(t, k, strategy)
  }

  function PollLimit(limit: int): (n: nat)
    ensures 1 <= n <= MAX_POLL
  {
    if limit > MAX_POLL then MAX_POLL else if limit < 1 then 1 else limit
  }

  /** `picked` are the oldest of the owed rows, oldest first and each once: all of them, or as
      many as the limit allows. */
  ghost predicate OldestOwed(outbox: map<OutboxKey, OutboxRow>, owed: set<OutboxKey>, picked: seq<OutboxKey>, limit: nat)
    requires owed <= outbox.Keys
  {
    && (forall k :: k in picked ==> k in owed)
    && (forall i, j :: 0 <= i < j < |picked| ==>
          picked[i] != picked[j] && outbox[picked[i]].created <= outbox[picked[j]].created)
    && |picked| <= limit
    && (forall j, k :: j in picked && k in owed && k !in picked ==> outbox[j].created <= outbox[k].created)
    && (|picked| < limit ==> forall k :: k in owed ==> k in picked)
  }

  /** SELECT ... ORDER BY created_at LIMIT. */
  method SelectOldest(outbox: map<OutboxKey, OutboxRow>, owed: set<OutboxKey>, limit: nat) returns (picked: seq<OutboxKey>)
    requires owed <= outbox.Keys
    ensures OldestOwed(outbox, owed, picked, limit)
  {
    picked := [];
    var rest := owed;
    while rest != {} && |picked| < limit
      invariant rest <= owed && |picked| <= limit
      invariant forall k :: k in picked <==> k in owed - rest
      invariant forall j, k :: j in owed - rest && k in rest ==> outbox[j].created <= outbox[k].created
      invariant forall i :: 0 <= i < |picked| ==> picked[i] in owed - rest
      invariant forall i, j :: 0 <= i < j < |picked| ==>
        picked[i] != picked[j] && outbox[picked[i]].created <= outbox[picked[j]].created
      decreases |rest|
    {
      OldestExists(outbox, rest);
      var k :| k in rest && forall j :: j in rest ==> outbox[k].created <= outbox[j].created;
      picked, rest := picked + [k], rest - {k};
    }
  }

  lemma {:induction false} OldestExists(outbox: map<OutboxKey, OutboxRow>, keys: set<OutboxKey>)
    requires keys != {} && keys <= outbox.Keys
    ensures exists k :: k in keys && forall j :: j in keys ==> outbox[k].created <= outbox[j].created
    decreases |keys|
  {
    var k :| k in keys;
    if keys == {k} {
      assert forall j :: j in keys ==> outbox[k].created <= outbox[j].created;
    } else {
      OldestExists(outbox, keys - {k});
      var o :| o in keys - {k} && forall j :: j in keys - {k} ==> outbox[o].created <= outbox[j].created;
      var first := if outbox[k].created < outbox[o].created then k else o;
      assert forall j :: j in keys ==> outbox[first].created <= outbox[j].created;
    }
  }
}
