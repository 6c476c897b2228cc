/** What every run of the Coordinator keeps: one effect per strategy action, distinct
    identifiers, conserved risk, the unknown-state gate and durable deliveries. */
module CoordinatorRuns {
  import opened Wrappers
  import opened Identifiers
  import opened CoordinatorModel

  function SuffixOf(a: Action): string {
    if a.NewOrder? then "" else "-c"
  }

  predicate SlotsAreUnique(cs: seq<Command>) {
    forall i, j :: 0 <= i < j < |cs| ==> !SameSlot(cs[j], cs[i].strategy, cs[i].key, cs[i].action)
  }

  predicate Identified(name: string, c: Command, i: nat) {
    && c.clientOrderId == ClientOrderId(name, c.strategy, c.day, i + 1, SuffixOf(c.action))
    && c.requestId == RequestId(c.clientOrderId)
  }

  predicate IdsHold(t: Account) {
    forall i :: 0 <= i < |t.commands| ==> Identified(t.name, t.commands[i], i)
  }

  /** The reservation of a command: none for a cancellation, active until the order ends. */
  predicate Reserves(t: Account, i: nat)
    requires i < |t.commands|
  {
    var c := t.commands[i];
    if c.action.NewOrder? then
      i in t.reservations && t.reservations[i] == Reservation(c.strategy, c.notional, !Terminal(c.stage)) && c.notional >= 0.0
    else i !in t.reservations
  }

  predicate ReservationsHold(t: Account) {
    && (forall i :: 0 <= i < |t.commands| ==> Reserves(t, i))
    && (forall i :: i in t.reservations ==> i < |t.commands|)
  }

  predicate LimitHolds(t: Account) {
    Within(t.limits.maxPending, PendingOf(t, None))
  }

  predicate GateHolds(t: Account) {
    SomeUnknown(t) ==> t.halted
  }

  predicate SendsHold(t: Account) {
    && (forall a :: 0 <= a < |t.sends| ==> t.sends[a] < |t.commands|)
    && (forall a, b :: 0 <= a < b < |t.sends| ==> t.sends[a] != t.sends[b])
  }

  predicate BoxesHold(t: Account) {
    && (forall k :: k in t.outbox ==> k.event in t.inbox)
    && (forall k :: k in t.inbox && t.inbox[k].command.Some? ==>
          var i := t.inbox[k].command.value; i < |t.commands| && OutboxKey(k, t.commands[i].strategy) in t.outbox)
  }

  predicate Inv(t: Account) {
    SlotsAreUnique(t.commands) && IdsHold(t) && ReservationsHold(t) && LimitHolds(t) && GateHolds(t) && SendsHold(t) && BoxesHold(t)
  }

  lemma EmptyHoldsInv(id: string, name: string, limits: RiskLimits)
    ensures Inv(Empty(id, name, limits))
  {
  }

  /** What no operation undoes: bound commands, terminal stages, sends, delivered events. */
  predicate SameBinding(c: Command, d: Command) {
    && d.strategy == c.strategy && d.key == c.key && d.action == c.action && d.day == c.day
    && d.clientOrderId == c.clientOrderId && d.requestId == c.requestId && d.notional == c.notional
  }

  predicate Extends(t: Account, t': Account) {
    && t'.name == t.name && t'.limits == t.limits && t'.id == t.id
    && |t.commands| <= |t'.commands|
    && (forall i :: 0 <= i < |t.commands| ==> SameBinding(t.commands[i], t'.commands[i]))
    && (forall i :: 0 <= i < |t.commands| && Terminal(t.commands[i].stage) ==> t'.commands[i].stage == t.commands[i].stage)
    && t.sends <= t'.sends
    && (forall k :: k in t.inbox ==> k in t'.inbox && t'.inbox[k] == t.inbox[k])
    && t.outbox.Keys <= t'.outbox.Keys
  }

  // One command changes

  /** The command at `i` gets another stage or other ids; its binding stays. */
  lemma EditKeepsCommands(t: Account, i: nat, c: Command)
    requires SlotsAreUnique(t.commands) && IdsHold(t) && i < |t.commands| && SameBinding(t.commands[i], c)
    ensures var t' := t.(commands := t.commands[i := c]); SlotsAreUnique(t'.commands) && IdsHold(t')
  {
  }

  /** The pending sum depends on the reservations only. */
  lemma {:induction false} PendingFrame(rs: map<nat, Reservation>, rs': map<nat, Reservation>, who: Option<string>, n: nat)
    requires forall i :: 0 <= i < n ==> Counted(rs', who, i) <= Counted(rs, who, i)
    ensures Pending(rs', who, n) <= Pending(rs, who, n)
  {
    if n > 0 {
      PendingFrame(rs, rs', who, n - 1);
    }
  }

  lemma {:induction false} PendingUnchanged(rs: map<nat, Reservation>, rs': map<nat, Reservation>, who: Option<string>, n: nat)
    requires forall i :: 0 <= i < n ==> Counted(rs', who, i) == Counted(rs, who, i)
    ensures Pending(rs', who, n) == Pending(rs, who, n)
  {
    if n > 0 {
      PendingUnchanged(rs, rs', who, n - 1);
    }
  }

  // Admission

  /** An admission inserts one command at the end and, for an order, its reservation. */
  predicate Inserts(t: Account, t': Account, c: Command) {
    && t'.commands == t.commands + [c]
    && t' == t.(commands := t'.commands, reservations := WithReservation(t, c))
    && c == NewCommand(t, c.strategy, c.key, c.action, c.day, c.notional)
    && (forall i :: 0 <= i < |t.commands| ==> !SameSlot(t.commands[i], c.strategy, c.key, c.action))
    && c.notional >= 0.0
    && !t.halted
  }

  function WithReservation(t: Account, c: Command): map<nat, Reservation> {
    if c.action.NewOrder? then t.reservations[|t.commands| := Reservation(c.strategy, c.notional, true)] else t.reservations
  }

  lemma NotionalIsNotNegative(intent: Intent)
    requires ValidIntent(intent)
    ensures Notional(intent) >= 0.0
  {
  }

  lemma AdmitOrderInserts(t: Account, connected: bool, strategy: string, key: string, intent: Intent, day: string)
    ensures var r := AdmitOrder(t, connected, strategy, key, intent, day);
      r.Success? && r.value.0 != t ==>
        && r.value.1 == |t.commands|
        && Inserts(t, r.value.0, NewCommand(t, strategy, key, NewOrder(intent), day, Notional(intent)))
  {
    var r := AdmitOrder(t, connected, strategy, key, intent, day);
    if r.Success? && r.value.0 != t {
      NotionalIsNotNegative(intent);
      assert r.value.0 == WithOrder(t, strategy, key, intent, day, Notional(intent));
    }
  }

  lemma AdmitCancelInserts(t: Account, connected: bool, strategy: string, key: string, target: string, day: string) returns (action: Action)
    ensures action.CancelOrder?
    ensures var r := AdmitCancel(t, connected, strategy, key, target, day);
      r.Success? && r.value.0 != t ==>
        r.value.1 == |t.commands| && Inserts(t, r.value.0, NewCommand(t, strategy, key, action, day, 0.0))
  {
    var order := FindSlot(t.commands, strategy, target, NewOrder(Intent("", Buy, 0.0, 0.0, "")));
    action := CancelOrder(target, if order.Some? then t.commands[order.value].orderId else "");
  }

  /** Every admission leaves the strategy and the account within the limits then in force. */
  lemma AdmissionIsWithinLimits(t: Account, connected: bool, strategy: string, key: string, intent: Intent, day: string)
    requires ReservationsHold(t)
    ensures var r := AdmitOrder(t, connected, strategy, key, intent, day);
      r.Success? && r.value.0 != t ==>
        && strategy in t.strategies && t.strategies[strategy].enabled
        && Within(t.strategies[strategy].limits.maxOrder, Notional(intent))
        && Within(t.limits.maxOrder, Notional(intent))
        && Within(t.strategies[strategy].limits.maxPending, PendingOf(r.value.0, Some(strategy)))
        && Within(t.limits.maxPending, PendingOf(r.value.0, None))
        && PendingOf(r.value.0, None) == PendingOf(t, None) + Notional(intent)
  {
    var r := AdmitOrder(t, connected, strategy, key, intent, day);
    if r.Success? && r.value.0 != t {
      AdmitOrderInserts(t, connected, strategy, key, intent, day);
      PendingUnchanged(t.reservations, r.value.0.reservations, None, |t.commands|);
      PendingUnchanged(t.reservations, r.value.0.reservations, Some(strategy), |t.commands|);
    }
  }

  lemma InsertKeepsCommands(t: Account, t': Account, c: Command)
    requires SlotsAreUnique(t.commands) && IdsHold(t) && Inserts(t, t', c)
    ensures SlotsAreUnique(t'.commands) && IdsHold(t') && Extends(t, t')
  {
  }

  lemma InsertKeepsReservations(t: Account, t': Account, c: Command)
    requires ReservationsHold(t) && Inserts(t, t', c)
    ensures ReservationsHold(t')
  {
    forall i | 0 <= i < |t.commands| ensures Reserves(t', i) {
      assert Reserves(t, i);
    }
  }

  lemma InsertKeepsRest(t: Account, t': Account, c: Command)
    requires GateHolds(t) && SendsHold(t) && BoxesHold(t) && Inserts(t, t', c)
    ensures GateHolds(t') && SendsHold(t') && BoxesHold(t') && !SomeUnknown(t') && !SomeUnknown(t)
  {
  }

  lemma InsertKeepsInv(t: Account, t': Account, c: Command)
    requires Inv(t) && Inserts(t, t', c) && LimitHolds(t')
    ensures Inv(t') && Extends(t, t') && !SomeUnknown(t)
  {
    InsertKeepsCommands(t, t', c);
    InsertKeepsReservations(t, t', c);
    InsertKeepsRest(t, t', c);
  }

  lemma CancelKeepsLimit(t: Account, t': Account, c: Command)
    requires ReservationsHold(t) && LimitHolds(t) && Inserts(t, t', c) && c.action.CancelOrder?
    ensures LimitHolds(t')
  {
    assert Counted(t'.reservations, None, |t.commands|) == 0.0;
  }

  // Sending and updating

  /** The command at `i` moves: its binding stays, a terminal stage stays, an unknown stage
      halts trading, and its reservation is released with its end. */
  predicate Moves(t: Account, t': Account, i: nat, c: Command)
    requires i < |t.commands|
  {
    && SameBinding(t.commands[i], c)
    && (Terminal(t.commands[i].stage) ==> c.stage == t.commands[i].stage)
    && (c.stage.Unknown? ==> t'.halted)
    && (t.halted ==> t'.halted)
    && t' == t.(commands := t.commands[i := c], halted := t'.halted,
                reservations := if Terminal(c.stage) && i in t.reservations
                                then t.reservations[i := t.reservations[i].(active := false)] else t.reservations)
  }

  lemma MoveKeepsCommands(t: Account, t': Account, i: nat, c: Command)
    requires SlotsAreUnique(t.commands) && IdsHold(t) && i < |t.commands| && Moves(t, t', i, c)
    ensures SlotsAreUnique(t'.commands) && IdsHold(t') && Extends(t, t')
  {
    EditKeepsCommands(t, i, c);
  }

  lemma MoveKeepsReservations(t: Account, t': Account, i: nat, c: Command)
    requires ReservationsHold(t) && i < |t.commands| && Moves(t, t', i, c)
    ensures ReservationsHold(t')
  {
    forall j | 0 <= j < |t.commands| ensures Reserves(t', j) {
      assert Reserves(t, j);
    }
  }

  lemma MoveKeepsLimit(t: Account, t': Account, i: nat, c: Command)
    requires ReservationsHold(t) && LimitHolds(t) && i < |t.commands| && Moves(t, t', i, c)
    ensures LimitHolds(t')
  {
    assert Reserves(t, i);
    PendingFrame(t.reservations, t'.reservations, None, |t.commands|);
  }

  lemma MoveKeepsRest(t: Account, t': Account, i: nat, c: Command)
    requires GateHolds(t) && SendsHold(t) && BoxesHold(t) && i < |t.commands| && Moves(t, t', i, c)
    ensures GateHolds(t') && SendsHold(t') && BoxesHold(t')
  {
    if j :| 0 <= j < |t'.commands| && t'.commands[j].stage.Unknown? {
      assert j == i || t.commands[j].stage.Unknown?;
    }
  }

  lemma MoveKeepsInv(t: Account, t': Account, i: nat, c: Command)
    requires Inv(t) && i < |t.commands| && Moves(t, t', i, c)
    ensures Inv(t') && Extends(t, t')
  {
    MoveKeepsCommands(t, t', i, c);
    MoveKeepsReservations(t, t', i, c);
    MoveKeepsLimit(t, t', i, c);
    MoveKeepsRest(t, t', i, c);
  }

  lemma LogSendKeepsInv(t: Account, i: nat)
    requires Inv(t) && i < |t.commands| && i !in t.sends
    ensures Inv(t.(sends := t.sends + [i])) && Extends(t, t.(sends := t.sends + [i]))
  {
    var t' := t.(sends := t.sends + [i]);
    assert forall a :: 0 <= a < |t.sends| ==> t.sends[a] in t.sends;
    assert forall j :: 0 <= j < |t.commands| ==> Reserves(t', j) == Reserves(t, j);
  }

  /** An operation that leaves commands, reservations, inbox and sends alone. */
  predicate LeavesTables(t: Account, t': Account) {
    && t'.id == t.id && t'.name == t.name && t'.limits == t.limits
    && t'.commands == t.commands && t'.reservations == t.reservations && t'.sends == t.sends
    && t'.inbox == t.inbox && t'.outbox.Keys == t.outbox.Keys
    && (SomeUnknown(t) ==> t'.halted)
  }

  lemma ReservationsLeft(t: Account, t': Account)
    requires ReservationsHold(t) && t'.commands == t.commands && t'.reservations == t.reservations
    ensures ReservationsHold(t')
  {
    assert forall j :: 0 <= j < |t.commands| ==> Reserves(t', j) == Reserves(t, j);
  }

  lemma LeavingTablesKeepsInv(t: Account, t': Account)
    requires Inv(t) && LeavesTables(t, t')
    ensures Inv(t') && Extends(t, t')
  {
    ReservationsLeft(t, t');
    assert IdsHold(t') && SlotsAreUnique(t'.commands) && LimitHolds(t') && GateHolds(t') && SendsHold(t');
    assert forall k :: k in t'.outbox <==> k in t.outbox;
  }

  lemma SendKeepsInv(t: Account, i: nat, fate: Fate)
    requires Inv(t) && i < |t.commands| && i !in t.sends && t.commands[i].stage.Submitting?
    ensures Inv(Sent(t, i, fate)) && Extends(t, Sent(t, i, fate))
  {
    var logged := t.(sends := t.sends + [i]);
    LogSendKeepsInv(t, i);
    match fate
    case Returned(msgId) =>
      var c := t.commands[i].(gatewayMsgId := msgId);
      MoveKeepsInv(logged, Sent(t, i, fate), i, c);
      ExtendsTransitively(t, logged, Sent(t, i, fate));
    case Raised =>
      MoveKeepsInv(logged, Sent(t, i, fate), i, t.commands[i].(stage := Unknown));
      ExtendsTransitively(t, logged, Sent(t, i, fate));
    case CrashedBeforeSend => LeavingTablesKeepsInv(t, Restarted(t));
    case CrashedAfterSend =>
      LeavingTablesKeepsInv(logged, Restarted(logged));
      ExtendsTransitively(t, logged, Sent(t, i, fate));
  }

  lemma ExtendsTransitively(a: Account, b: Account, c: Account)
    requires Extends(a, b) && Extends(b, c)
    ensures Extends(a, c)
  {
  }

  lemma SubmitKeepsInv(t: Account, admitted: Result<(Account, nat), CoordinatorError>, c: Command, fate: Fate)
    requires Inv(t)
    requires admitted.Success? && admitted.value.0 != t ==>
      Inserts(t, admitted.value.0, c) && LimitHolds(admitted.value.0) && admitted.value.1 == |t.commands|
    ensures Inv(Submit(t, admitted, fate)) && Extends(t, Submit(t, admitted, fate))
    ensures |Submit(t, admitted, fate).commands| > |t.commands| ==> !SomeUnknown(t)
  {
    if admitted.Success? && admitted.value.0 != t {
      var t', n := admitted.value.0, |t.commands|;
      InsertKeepsInv(t, t', c);
      assert n !in t.sends;
      SendKeepsInv(t', n, fate);
      ExtendsTransitively(t, t', Sent(t', n, fate));
    }
  }

  // Deliveries

  lemma MovedKeepsInv(t: Account, m: Message, command: Option<nat>, now: int)
    requires Inv(t) && (command.Some? ==> command.value < |t.commands|)
    ensures Inv(Moved(t, m, command, now)) && Extends(t, Moved(t, m, command, now))
  {
    match command
    case Some(i) => MoveKeepsInv(t, Moved(t, m, command, now), i, Updated(t.commands[i], m, now));
    case None => LeavingTablesKeepsInv(t, Moved(t, m, command, now));
  }

  lemma DeliverKeepsInv(t: Account, m: Message, now: int)
    requires Inv(t) && Deliver(t, m, now).Success?
    ensures Inv(Deliver(t, m, now).value) && Extends(t, Deliver(t, m, now).value)
  {
    var key := KeyOf(m);
    if key !in t.inbox {
      var command := FindCommand(t.commands, m, COLUMNS);
      var moved := Moved(t, m, command, now);
      MovedKeepsInv(t, m, command, now);
      MovedKeepsOwner(t, m, command, now);
      RecordKeepsInv(moved, key, InboxRow(command, m), Targets(t, m, command), now);
      ExtendsTransitively(t, moved, Deliver(t, m, now).value);
    }
  }

  lemma MovedKeepsOwner(t: Account, m: Message, command: Option<nat>, now: int)
    requires command.Some? ==> command.value < |t.commands|
    ensures var t' := Moved(t, m, command, now);
      && t'.inbox == t.inbox && t'.outbox == t.outbox && |t'.commands| == |t.commands|
      && (command.Some? ==> t'.commands[command.value].strategy in Targets(t, m, command))
  {
  }

  /** Recording an event together with what its strategies are owed. */
  lemma RecordKeepsInv(t: Account, key: EventKey, row: InboxRow, targets: set<string>, now: int)
    requires Inv(t) && key !in t.inbox
    requires row.command.Some? ==> row.command.value < |t.commands| && t.commands[row.command.value].strategy in targets
    ensures var t' := t.(inbox := t.inbox[key := row], outbox := FreshRows(key, targets, now) + t.outbox);
      Inv(t') && Extends(t, t')
  {
    var t' := t.(inbox := t.inbox[key := row], outbox := FreshRows(key, targets, now) + t.outbox);
    assert forall j :: 0 <= j < |t.commands| ==> Reserves(t', j) == Reserves(t, j);
    assert BoxesHold(t');
  }

  // All operations

  lemma SubmitOrderKeepsInv(t: Account, op: Op)
    requires Inv(t) && op.SubmitOrder?
    ensures Inv(Next(t, op)) && Extends(t, Next(t, op))
    ensures |Next(t, op).commands| > |t.commands| ==> !SomeUnknown(t)
  {
    AdmitOrderInserts(t, op.connected, op.strategy, op.key, op.intent, op.day);
    AdmissionIsWithinLimits(t, op.connected, op.strategy, op.key, op.intent, op.day);
    SubmitKeepsInv(t, AdmitOrder(t, op.connected, op.strategy, op.key, op.intent, op.day),
                   NewCommand(t, op.strategy, op.key, NewOrder(op.intent), op.day, Notional(op.intent)), op.fate);
  }

  lemma RequestCancelKeepsInv(t: Account, op: Op)
    requires Inv(t) && op.RequestCancel?
    ensures Inv(Next(t, op)) && Extends(t, Next(t, op))
    ensures |Next(t, op).commands| > |t.commands| ==> !SomeUnknown(t)
  {
    var action := AdmitCancelInserts(t, op.connected, op.strategy, op.key, op.target, op.day);
    var r := AdmitCancel(t, op.connected, op.strategy, op.key, op.target, op.day);
    var c := NewCommand(t, op.strategy, op.key, action, op.day, 0.0);
    if r.Success? && r.value.0 != t {
      CancelKeepsLimit(t, r.value.0, c);
    }
    SubmitKeepsInv(t, r, c, op.fate);
  }

  lemma NextKeepsInv(t: Account, op: Op)
    requires Inv(t)
    ensures Inv(Next(t, op)) && Extends(t, Next(t, op))
    ensures |Next(t, op).commands| > |t.commands| ==> !SomeUnknown(t)
  {
    if op.SubmitOrder? {
      SubmitOrderKeepsInv(t, op);
    } else if op.RequestCancel? {
      RequestCancelKeepsInv(t, op);
    } else if op.Event? {
      EventKeepsInv(t, op.message, op.now);
    } else {
      OthersKeepInv(t, op);
    }
  }

  lemma EventKeepsInv(t: Account, m: Message, now: int)
    requires Inv(t)
    ensures Inv(Next(t, Event(m, now))) && Extends(t, Next(t, Event(m, now)))
    ensures |Next(t, Event(m, now)).commands| == |t.commands|
  {
    if Deliver(t, m, now).Success? {
      DeliverKeepsInv(t, m, now);
    }
  }

  lemma OthersKeepInv(t: Account, op: Op)
    requires Inv(t) && !op.SubmitOrder? && !op.RequestCancel? && !op.Event?
    ensures Inv(Next(t, op)) && Extends(t, Next(t, op)) && Next(t, op).commands == t.commands
  {
    OthersLeaveTables(t, op);
    LeavingTablesKeepsInv(t, Next(t, op));
  }

  lemma OthersLeaveTables(t: Account, op: Op)
    requires GateHolds(t) && !op.SubmitOrder? && !op.RequestCancel? && !op.Event?
    ensures LeavesTables(t, Next(t, op))
  {
    match op
    case Register(_, _) =>
    case Reconcile(connected, healthy) => assert Next(t, op) == Reconciled(t, connected, healthy);
    case Start(connects, healthy) => assert Next(t, op) == Started(t, connects, healthy);
    case Restart => assert Next(t, op) == Restarted(t);
    case _ => OutboxOpsLeaveTables(t, op);
  }

  lemma OutboxOpsLeaveTables(t: Account, op: Op)
    requires GateHolds(t) && (op.Poll? || op.Acknowledge?)
    ensures LeavesTables(t, Next(t, op))
  {
  }

  lemma {:induction false} RunKeepsInv(t: Account, ops: seq<Op>)
    requires Inv(t)
    ensures Inv(Run(t, ops)) && Extends(t, Run(t, ops))
    decreases |ops|
  {
    if ops != [] {
      NextKeepsInv(t, ops[0]);
      RunKeepsInv(Next(t, ops[0]), ops[1..]);
      ExtendsTransitively(t, Next(t, ops[0]), Run(t, ops));
    }
  }

  // Main results

  /** Over all runs and restarts each strategy action is sent at most once, under one request
      id of its own. */
  lemma SingleEffect(id: string, name: string, limits: RiskLimits, ops: seq<Op>, a: nat, b: nat)
    requires var t := Run(Empty(id, name, limits), ops); a < b < |t.sends|
    ensures var t := Run(Empty(id, name, limits), ops);
      && t.sends[a] < |t.commands| && t.sends[b] < |t.commands|
      && (var c, d := t.commands[t.sends[a]], t.commands[t.sends[b]];
          !SameSlot(d, c.strategy, c.key, c.action) && c.requestId != d.requestId && c.clientOrderId != d.clientOrderId)
  {
    var t := Run(Empty(id, name, limits), ops);
    EmptyHoldsInv(id, name, limits);
    RunKeepsInv(Empty(id, name, limits), ops);
    var i, j := t.sends[a], t.sends[b];
    assert SameSlot(t.commands[i], t.commands[i].strategy, t.commands[i].key, t.commands[i].action);
    GeneratedIdsDiffer(t, if i < j then i else j, if i < j then j else i);
  }

  /** All generated client order ids and request ids are pairwise distinct. */
  lemma GeneratedIdsDiffer(t: Account, i: nat, j: nat)
    requires IdsHold(t) && i < j < |t.commands|
    ensures t.commands[i].clientOrderId != t.commands[j].clientOrderId
    ensures t.commands[i].requestId != t.commands[j].requestId
  {
    var c, d := t.commands[i], t.commands[j];
    assert Identified(t.name, c, i) && Identified(t.name, d, j);
    IdsAreDistinct(t.name, c.strategy, c.day, i + 1, SuffixOf(c.action), t.name, d.strategy, d.day, j + 1, SuffixOf(d.action));
  }

  /** A key that is bound stays bound: the same action returns its command and sends nothing,
      another intent or another target order is refused. */
  lemma BoundKeyIsNotReused(t: Account, connected: bool, i: nat, intent: Intent, target: string, day: string, fate: Fate)
    requires Inv(t) && Ready(t, connected) && i < |t.commands| && ValidIntent(intent) && target != ""
    requires var c := t.commands[i]; ValidStrategyId(c.strategy) && c.key != "" && |c.key| <= 128
    ensures var c := t.commands[i];
      var order := AdmitOrder(t, connected, c.strategy, c.key, intent, day);
      c.action.NewOrder? ==>
        && order == (if c.action == NewOrder(intent) then Success((t, i)) else Failure(Conflict))
        && Submit(t, order, fate) == t
    ensures var c := t.commands[i];
      var cancel := AdmitCancel(t, connected, c.strategy, c.key, target, day);
      c.action.CancelOrder? ==>
        && cancel == (if c.action.target == target then Success((t, i)) else Failure(Conflict))
        && Submit(t, cancel, fate) == t
  {
    var c := t.commands[i];
    var action := if c.action.NewOrder? then NewOrder(intent) else CancelOrder(target, "");
    var slot := FindSlot(t.commands, c.strategy, c.key, action);
    assert SameSlot(c, c.strategy, c.key, action);
    assert slot == Some(i);
  }

  predicate RiskConserved(t: Account) {
    && (forall i :: 0 <= i < |t.commands| && t.commands[i].action.NewOrder? ==>
          i in t.reservations && (t.reservations[i].active <==> !Terminal(t.commands[i].stage))
          && t.reservations[i].notional == t.commands[i].notional && t.reservations[i].strategy == t.commands[i].strategy)
    && (forall i :: i in t.reservations ==> i < |t.commands| && t.commands[i].action.NewOrder?)
    && Within(t.limits.maxPending, PendingOf(t, None))
  }

  /** After every run an order's reservation is active exactly while its stage is not terminal,
      and the account's pending sum is within a positive limit. */
  lemma RiskIsConserved(id: string, name: string, limits: RiskLimits, ops: seq<Op>)
    ensures RiskConserved(Run(Empty(id, name, limits), ops))
  {
    EmptyHoldsInv(id, name, limits);
    RunKeepsInv(Empty(id, name, limits), ops);
    ReservationsConserveRisk(Run(Empty(id, name, limits), ops));
  }

  lemma ReservationsConserveRisk(t: Account)
    requires ReservationsHold(t) && LimitHolds(t)
    ensures RiskConserved(t)
  {
    forall i: nat | i < |t.commands| && t.commands[i].action.NewOrder?
      ensures i in t.reservations && t.reservations[i] == Reservation(t.commands[i].strategy, t.commands[i].notional, !Terminal(t.commands[i].stage))
    {
      assert Reserves(t, i);
    }
    forall i | i in t.reservations ensures i < |t.commands| && t.commands[i].action.NewOrder? {
      assert Reserves(t, i);
    }
  }

  function SumOver(rs: map<nat, Reservation>, strategies: seq<string>, n: nat): real {
    if strategies == [] then 0.0
    else SumOver(rs, strategies[..|strategies| - 1], n) + Pending(rs, Some(strategies[|strategies| - 1]), n)
  }

  /** The account's pending sum is the sum over its strategies. */
  lemma {:induction false} PendingIsSumOverStrategies(rs: map<nat, Reservation>, strategies: seq<string>, n: nat)
    requires forall a, b :: 0 <= a < b < |strategies| ==> strategies[a] != strategies[b]
    requires forall i :: i in rs && i < n ==> rs[i].strategy in strategies
    ensures SumOver(rs, strategies, n) == Pending(rs, None, n)
    decreases n
  {
    if n == 0 {
      SumOfNothing(rs, strategies);
    } else {
      PendingIsSumOverStrategies(rs, strategies, n - 1);
      if n - 1 in rs {
        SumGrowsOnce(rs, strategies, n - 1);
      } else {
        SumStays(rs, strategies, n - 1);
      }
    }
  }

  /** The strategies that own one of the first `n` commands. */
  function Owners(commands: seq<Command>, n: nat): (owners: seq<string>)
    requires n <= |commands|
    ensures forall i :: 0 <= i < n ==> commands[i].strategy in owners
    ensures forall a, b :: 0 <= a < b < |owners| ==> owners[a] != owners[b]
  {
    if n == 0 then []
    else
      var owners := Owners(commands, n - 1);
      var strategy := commands[n - 1].strategy;
      if strategy in owners then owners else owners + [strategy]
  }

  /** After every run the active reservations of the strategies add up to what the account has
      pending, and so they share a positive account limit. */
  lemma StrategiesShareTheLimit(id: string, name: string, limits: RiskLimits, ops: seq<Op>)
    ensures var t := Run(Empty(id, name, limits), ops);
      var shared := SumOver(t.reservations, Owners(t.commands, |t.commands|), |t.commands|);
      shared == PendingOf(t, None) && Within(t.limits.maxPending, shared)
  {
    RiskIsConserved(id, name, limits, ops);
    var t := Run(Empty(id, name, limits), ops);
    forall i | i in t.reservations ensures t.reservations[i].strategy in Owners(t.commands, |t.commands|) {
      assert t.commands[i].action.NewOrder?;
    }
    PendingIsSumOverStrategies(t.reservations, Owners(t.commands, |t.commands|), |t.commands|);
  }

  lemma {:induction false} SumOfNothing(rs: map<nat, Reservation>, strategies: seq<string>)
    ensures SumOver(rs, strategies, 0) == 0.0
  {
    if strategies != [] {
      SumOfNothing(rs, strategies[..|strategies| - 1]);
    }
  }

  lemma {:induction false} SumStays(rs: map<nat, Reservation>, strategies: seq<string>, i: nat)
    requires i in rs ==> rs[i].strategy !in strategies
    ensures SumOver(rs, strategies, i + 1) == SumOver(rs, strategies, i)
  {
    if strategies != [] {
      SumStays(rs, strategies[..|strategies| - 1], i);
      assert strategies[|strategies| - 1] in strategies;
    }
  }

  lemma {:induction false} SumGrowsOnce(rs: map<nat, Reservation>, strategies: seq<string>, i: nat)
    requires i in rs && rs[i].strategy in strategies
    requires forall a, b :: 0 <= a < b < |strategies| ==> strategies[a] != strategies[b]
    ensures SumOver(rs, strategies, i + 1) == SumOver(rs, strategies, i) + Counted(rs, None, i)
  {
    var init, last := strategies[..|strategies| - 1], strategies[|strategies| - 1];
    if rs[i].strategy == last {
      assert last !in init;
      SumStays(rs, init, i);
    } else {
      assert strategies == init + [last];
      SumGrowsOnce(rs, init, i);
    }
  }

  /** A command whose effect is unknown halts trading, and nothing is inserted meanwhile. */
  lemma UnknownStateHaltsTrading(id: string, name: string, limits: RiskLimits, ops: seq<Op>, next: Op)
    ensures var t := Run(Empty(id, name, limits), ops);
      SomeUnknown(t) ==> t.halted && |Next(t, next).commands| == |t.commands|
  {
    EmptyHoldsInv(id, name, limits);
    RunKeepsInv(Empty(id, name, limits), ops);
    NextKeepsInv(Run(Empty(id, name, limits), ops), next);
  }

  /** Terminal stages, bindings, sends and recorded deliveries survive every run. */
  lemma NothingIsUndone(t: Account, ops: seq<Op>)
    requires Inv(t)
    ensures Extends(t, Run(t, ops))
  {
    RunKeepsInv(t, ops);
  }

  /** Applying a delivery twice, now or after any run, equals applying it once. */
  lemma DeliveryIsIdempotent(t: Account, m: Message, again: Message, now: int, ops: seq<Op>, later: int)
    requires Inv(t) && Deliver(t, m, now).Success? && KeyOf(again) == KeyOf(m)
    requires again.accountId == "" || again.accountId == t.id
    ensures var t' := Run(Deliver(t, m, now).value, ops); Deliver(t', again, later) == Success(t')
  {
    DeliverKeepsInv(t, m, now);
    var t1 := Deliver(t, m, now).value;
    assert KeyOf(m) in t1.inbox;
    RunKeepsInv(t1, ops);
  }

  /** A delivery that was accepted is in the inbox for ever, and the strategy that owns its
      command has an outbox row for it. */
  lemma DeliveryIsDurable(t: Account, m: Message, now: int, ops: seq<Op>)
    requires Inv(t) && Deliver(t, m, now).Success?
    ensures var t' := Run(Deliver(t, m, now).value, ops);
      && KeyOf(m) in t'.inbox
      && (t'.inbox[KeyOf(m)].command.Some? ==>
            t'.inbox[KeyOf(m)].command.value < |t'.commands|
            && OutboxKey(KeyOf(m), t'.commands[t'.inbox[KeyOf(m)].command.value].strategy) in t'.outbox)
  {
    DeliverKeepsInv(t, m, now);
    RunKeepsInv(Deliver(t, m, now).value, ops);
  }

  predicate NeverAcknowledged(ops: seq<Op>, k: OutboxKey) {
    forall i :: 0 <= i < |ops| ==> ops[i] != Acknowledge(k.strategy, k)
  }

  /** An outbox row is owed to its strategy until that strategy acknowledges it. */
  lemma {:induction false} OwedUntilAcknowledged(t: Account, ops: seq<Op>, k: OutboxKey)
    requires Inv(t) && Owed(t, k, k.strategy)
    ensures Owed(Run(t, ops), k, k.strategy) || !NeverAcknowledged(ops, k)
    decreases |ops|
  {
    if ops != [] && NeverAcknowledged(ops, k) {
      NextKeepsInv(t, ops[0]);
      OneStepOwes(t, ops[0], k);
      OwedUntilAcknowledged(Next(t, ops[0]), ops[1..], k);
    }
  }

  lemma OneStepOwes(t: Account, op: Op, k: OutboxKey)
    requires BoxesHold(t) && Owed(t, k, k.strategy) && op != Acknowledge(k.strategy, k)
    ensures Owed(Next(t, op), k, k.strategy)
  {
    if op.SubmitOrder? || op.RequestCancel? {
      SubmitLeavesOutbox(t, op);
    }
  }

  lemma SubmitLeavesOutbox(t: Account, op: Op)
    requires op.SubmitOrder? || op.RequestCancel?
    ensures Next(t, op).outbox == t.outbox
  {
    if op.SubmitOrder? {
      AdmitOrderInserts(t, op.connected, op.strategy, op.key, op.intent, op.day);
      SendLeavesOutbox(t, AdmitOrder(t, op.connected, op.strategy, op.key, op.intent, op.day), op.fate);
    } else {
      var action := AdmitCancelInserts(t, op.connected, op.strategy, op.key, op.target, op.day);
      SendLeavesOutbox(t, AdmitCancel(t, op.connected, op.strategy, op.key, op.target, op.day), op.fate);
    }
  }

  lemma SendLeavesOutbox(t: Account, admitted: Result<(Account, nat), CoordinatorError>, fate: Fate)
    requires admitted.Success? ==> admitted.value.0.outbox == t.outbox
    ensures Submit(t, admitted, fate).outbox == t.outbox
  {
  }

  // A limit of matching by order id

  predicate BareOrderEvent(m: Message) {
    m.requestId == "" && m.clientOrderId == "" && m.qmtUserOrderId == "" && m.orderId != ""
  }

  /** An event that carries nothing but an order id moves the newest command with that id. */
  lemma BareOrderEventMovesNewest(cs: seq<Command>, m: Message, i: nat)
    requires BareOrderEvent(m) && i < |cs| && cs[i].orderId == m.orderId
    ensures FindCommand(cs, m, COLUMNS) == Some(i) <==> forall j :: i < j < |cs| ==> cs[j].orderId != m.orderId
    ensures FindCommand(cs, m, COLUMNS) == FindNewest(cs, ByOrder, m.orderId)
  {
    var c1, c2, c3 := COLUMNS[1..], COLUMNS[1..][1..], COLUMNS[1..][1..][1..];
    assert c1[0] == ByClientOrder && c2[0] == ByQmtUserOrder && c3[0] == ByOrder;
    assert FindCommand(cs, m, COLUMNS) == FindCommand(cs, m, c1) == FindCommand(cs, m, c2) == FindCommand(cs, m, c3);
    var r := FindNewest(cs, ByOrder, m.orderId);
    assert Cell(cs[i], ByOrder) == m.orderId;
    assert forall j :: i < j < |cs| && cs[j].orderId == m.orderId ==> Cell(cs[j], ByOrder) == m.orderId;
    assert r.Some? && (r.value > i ==> cs[r.value].orderId == m.orderId);
  }

  lemma NewestOfDistinct(cs: seq<Command>, j: nat)
    requires j < |cs| && forall i :: 0 <= i < |cs| && i != j ==> cs[i].requestId != cs[j].requestId
    ensures FindNewest(cs, ByRequest, cs[j].requestId) == Some(j)
  {
    var r := FindNewest(cs, ByRequest, cs[j].requestId);
    assert Cell(cs[j], ByRequest) == cs[j].requestId;
    assert r.Some? ==> cs[r.value].requestId == Cell(cs[r.value], ByRequest);
  }

  lemma RequestIdIsSet(name: string, c: Command, i: nat)
    requires Identified(name, c, i)
    ensures c.requestId != ""
  {
  }

  /** A request id identifies its command. */
  lemma RequestIdIsUnique(t: Account, j: nat)
    requires IdsHold(t) && j < |t.commands|
    ensures FindNewest(t.commands, ByRequest, t.commands[j].requestId) == Some(j) && t.commands[j].requestId != ""
  {
    forall i | 0 <= i < |t.commands| && i != j ensures t.commands[i].requestId != t.commands[j].requestId {
      GeneratedIdsDiffer(t, if i < j then i else j, if i < j then j else i);
    }
    NewestOfDistinct(t.commands, j);
    RequestIdIsSet(t.name, t.commands[j], j);
  }

  lemma RequestIdFindsCommand(t: Account, j: nat, m: Message)
    requires IdsHold(t) && j < |t.commands| && m.requestId == t.commands[j].requestId
    ensures FindCommand(t.commands, m, COLUMNS) == Some(j)
  {
    RequestIdIsUnique(t, j);
    assert COLUMNS[0] == ByRequest && Field(m, COLUMNS[0]) == m.requestId;
  }

  lemma DeliveryMovesOnlyItsCommand(t: Account, m: Message, now: int, k: nat, i: nat)
    requires FindCommand(t.commands, m, COLUMNS) == Some(k) && k != i && i < |t.commands| && i in t.reservations
    requires m.accountId == "" && KeyOf(m) !in t.inbox
    ensures Deliver(t, m, now).Success?
    ensures var t' := Deliver(t, m, now).value;
      && |t'.commands| == |t.commands| && t'.commands[i] == t.commands[i]
      && i in t'.reservations && t'.reservations[i] == t.reservations[i]
      && t'.commands[k] == Updated(t.commands[k], m, now) && t'.inbox.Keys == t.inbox.Keys + {KeyOf(m)}
  {
  }

  /** So once a cancellation has learned the order id from its response, a bare event of the
      order moves the cancellation: the order and its reservation stay as they were. */
  lemma CancelResponseHidesItsOrder(t: Account, i: nat, j: nat, response: Message, filled: Message, now: int)
    returns (t1: Account, t2: Account)
    requires Inv(t) && i < j < |t.commands| && t.commands[i].action.NewOrder? && t.commands[j].action.CancelOrder?
    requires response.requestId == t.commands[j].requestId && response.orderId == t.commands[i].orderId
    requires BareOrderEvent(filled) && filled.orderId == t.commands[i].orderId
    requires response.accountId == "" && filled.accountId == ""
    requires KeyOf(response) !in t.inbox && KeyOf(filled) !in t.inbox && KeyOf(filled) != KeyOf(response)
    ensures Deliver(t, response, now) == Success(t1) && Deliver(t1, filled, now) == Success(t2)
    ensures i < |t2.commands| && t2.commands[i] == t.commands[i]
    ensures i in t.reservations && i in t2.reservations && t2.reservations[i] == t.reservations[i]
  {
    assert Reserves(t, i);
    RequestIdFindsCommand(t, j, response);
    DeliveryMovesOnlyItsCommand(t, response, now, j, i);
    t1 := Deliver(t, response, now).value;
    var k := FindNewest(t1.commands, ByOrder, filled.orderId).value;
    BareOrderEventMovesNewest(t1.commands, filled, i);
    assert Cell(t1.commands[j], ByOrder) == filled.orderId;
    assert k >= j;
    DeliveryMovesOnlyItsCommand(t1, filled, now, k, i);
    t2 := Deliver(t1, filled, now).value;
  }
}
