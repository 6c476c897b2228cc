/** The Coordinator's tables, what each public operation makes of them, and what every run of
    operations keeps. */
module CoordinatorModel {
  import opened Wrappers
  import opened Identifiers

  datatype Stage =
    | Submitting | BridgeQueued | QmtSubmitted | OrderActive | CancelRequested | Unknown
    | Filled | Cancelled | Rejected | Failed

  predicate Terminal(s: Stage) {
    s.Filled? || s.Cancelled? || s.Rejected? || s.Failed?
  }

  /** Zero means no limit. */
  datatype RiskLimits = RiskLimits(maxOrder: real, maxPending: real)

  predicate Within(limit: real, value: real) {
    limit > 0.0 ==> value <= limit
  }

  datatype Strategy = Strategy(enabled: bool, priority: int, limits: RiskLimits)

  datatype Side = Buy | Sell

  /** The canonical intent; its hash stands for it.  `options` are the remaining fields. */
  datatype Intent = Intent(symbol: string, side: Side, quantity: real, price: real, options: string)

  datatype Action = NewOrder(intent: Intent) | CancelOrder(target: string, orderId: string)

  datatype Command = Command(
    strategy: string, key: string, action: Action, day: string, clientOrderId: string, requestId: string,
    notional: real, stage: Stage, gatewayMsgId: string,
    orderId: string, orderSysid: string, qmtUserOrderId: string, terminalAt: Option<int>)

  datatype Reservation = Reservation(strategy: string, notional: real, active: bool)

  datatype Message = Message(
    kind: string, deliveryId: string, accountId: string, status: string, notReady: bool,
    requestId: string, clientOrderId: string, qmtUserOrderId: string, orderId: string, orderSysid: string)

  /** The inbox key: the delivery id, or else the content. */
  datatype EventKey = Delivery(id: string) | BestEffort(message: Message)

  datatype InboxRow = InboxRow(command: Option<nat>, message: Message)

  datatype OutboxState = OutboxPending | OutboxDelivered | OutboxAcknowledged

  datatype OutboxKey = OutboxKey(event: EventKey, strategy: string)

  datatype OutboxRow = OutboxRow(state: OutboxState, attempts: nat, created: int)

  datatype CoordinatorError = InvalidArgument | Conflict | RiskRejected | Unavailable | IdentityMismatch

  /** What is durable, and the two volatile flags.  A command's id is its position plus one;
      `sends` logs the commands handed to the Gateway client. */
  datatype Account = Account(
    id: string, name: string, limits: RiskLimits,
    strategies: map<string, Strategy>,
    commands: seq<Command>,
    reservations: map<nat, Reservation>,
    inbox: map<EventKey, InboxRow>,
    outbox: map<OutboxKey, OutboxRow>,
    started: bool,
    halted: bool,
    sends: seq<nat>)

  /** How the call into the Gateway client ends, seen from the commit of the command. */
  datatype Fate = Returned(msgId: string) | Raised | CrashedBeforeSend | CrashedAfterSend

  // Lookups

  predicate SameSlot(c: Command, strategy: string, key: string, action: Action) {
    c.strategy == strategy && c.key == key && (c.action.NewOrder? <==> action.NewOrder?)
  }

  /** The command bound to a strategy's key for one kind of action. */
  function FindSlot(cs: seq<Command>, strategy: string, key: string, action: Action): (r: Option<nat>)
    ensures r.Some? ==> r.value < |cs| && SameSlot(cs[r.value], strategy, key, action)
    ensures r.None? ==> forall i :: 0 <= i < |cs| ==> !SameSlot(cs[i], strategy, key, action)
  {
    if cs == [] then None
    else if SameSlot(cs[|cs| - 1], strategy, key, action) then Some(|cs| - 1)
    else FindSlot(cs[..|cs| - 1], strategy, key, action)
  }

  datatype Column = ByRequest | ByClientOrder | ByQmtUserOrder | ByOrder | BySysid

  function Cell(c: Command, column: Column): string {
    match column
    case ByRequest => c.requestId
    case ByClientOrder => c.clientOrderId
    case ByQmtUserOrder => c.qmtUserOrderId
    case ByOrder => c.orderId
    case BySysid => c.orderSysid
  }

  function Field(m: Message, column: Column): string {
    match column
    case ByRequest => m.requestId
    case ByClientOrder => m.clientOrderId
    case ByQmtUserOrder => m.qmtUserOrderId
    case ByOrder => m.orderId
    case BySysid => m.orderSysid
  }

  const COLUMNS := [ByRequest, ByClientOrder, ByQmtUserOrder, ByOrder, BySysid]

  /** The newest command with a value in a column. */
  function FindNewest(cs: seq<Command>, column: Column, value: string): (r: Option<nat>)
    ensures r.Some? ==> r.value < |cs| && Cell(cs[r.value], column) == value
    ensures r.Some? ==> forall i :: r.value < i < |cs| ==> Cell(cs[i], column) != value
    ensures r.None? ==> forall i :: 0 <= i < |cs| ==> Cell(cs[i], column) != value
  {
    if cs == [] then None
    else if Cell(cs[|cs| - 1], column) == value then Some(|cs| - 1)
    else FindNewest(cs[..|cs| - 1], column, value)
  }

  /** The command an event belongs to: the first column that has one. */
  function FindCommand(cs: seq<Command>, m: Message, columns: seq<Column>): (r: Option<nat>)
    ensures r.Some? ==> r.value < |cs|
    decreases |columns|
  {
    if columns == [] then None
    else
      var hit := if Field(m, columns[0]) == "" then None else FindNewest(cs, columns[0], Field(m, columns[0]));
      if hit.Some? then hit else FindCommand(cs, m, columns[1..])
  }

  // Risk

  /** The active notional of one strategy, or of all, over the first `n` commands. */
  function Pending(rs: map<nat, Reservation>, who: Option<string>, n: nat): real {
    if n == 0 then 0.0 else Pending(rs, who, n - 1) + Counted(rs, who, n - 1)
  }

  function Counted(rs: map<nat, Reservation>, who: Option<string>, i: nat): real {
    if i in rs && rs[i].active && (who.None? || rs[i].strategy == who.value) then rs[i].notional else 0.0
  }

  function PendingOf(t: Account, who: Option<string>): real {
    Pending(t.reservations, who, |t.commands|)
  }

  // Operations

  function Ready(t: Account, connected: bool): bool {
    t.started && connected && !t.halted
  }

  predicate IsLetter(c: char) {
    'a' <= c <= 'z' || 'A' <= c <= 'Z'
  }

  /** ^[A-Za-z][A-Za-z0-9_-]{0,47}$ */
  predicate ValidStrategyId(s: string) {
    && 1 <= |s| <= 48 && IsLetter(s[0])
    && forall i :: 0 <= i < |s| ==> IsLetter(s[i]) || '0' <= s[i] <= '9' || s[i] == '_' || s[i] == '-'
  }

  predicate ValidIntent(i: Intent) {
    i.symbol != "" && i.quantity > 0.0 && i.price >= 0.0
  }

  function NewCommand(t: Account, strategy: string, key: string, action: Action, day: string, notional: real): Command {
    var suffix := if action.NewOrder? then "" else "-c";
    var client := ClientOrderId(t.name, strategy, day, |t.commands| + 1, suffix);
    Command(strategy, key, action, day, client, RequestId(client), notional, Submitting, "", "", "", "", None)
  }

  /** The four limits of an order: its own size and the pending sum, of strategy and account. */
  predicate RiskAllows(t: Account, strategy: string, notional: real)
    requires strategy in t.strategies
  {
    && Within(t.strategies[strategy].limits.maxOrder, notional)
    && Within(t.limits.maxOrder, notional)
    && Within(t.strategies[strategy].limits.maxPending, PendingOf(t, Some(strategy)) + notional)
    && Within(t.limits.maxPending, PendingOf(t, None) + notional)
  }

  function WithOrder(t: Account, strategy: string, key: string, intent: Intent, day: string, notional: real): Account {
    t.(commands := t.commands + [NewCommand(t, strategy, key, NewOrder(intent), day, notional)],
       reservations := t.reservations[|t.commands| := Reservation(strategy, notional, true)])
  }

  function Notional(intent: Intent): real {
    intent.quantity * intent.price
  }

  /** Insert an order and its reservation, or find the order the key is bound to. */
  function AdmitOrder(t: Account, connected: bool, strategy: string, key: string, intent: Intent, day: string)
    : Result<(Account, nat), CoordinatorError>
  {
    var notional := Notional(intent);
    var slot := FindSlot(t.commands, strategy, key, NewOrder(intent));
    if !Ready(t, connected) then Failure(Unavailable)
    else if !ValidStrategyId(strategy) || key == "" || |key| > 128 || !ValidIntent(intent) then Failure(InvalidArgument)
    else if slot.Some? then
      if t.commands[slot.value].action == NewOrder(intent) then Success((t, slot.value)) else Failure(Conflict)
    else if strategy !in t.strategies || !t.strategies[strategy].enabled then Failure(RiskRejected)
    else if !RiskAllows(t, strategy, notional) then Failure(RiskRejected)
    else Success((WithOrder(t, strategy, key, intent, day, notional), |t.commands|))
  }

  /** Insert a cancellation of an owned live order, or find the one the key is bound to. */
  function AdmitCancel(t: Account, connected: bool, strategy: string, key: string, target: string, day: string)
    : Result<(Account, nat), CoordinatorError>
  {
    var slot := FindSlot(t.commands, strategy, key, CancelOrder(target, ""));
    var order := FindSlot(t.commands, strategy, target, NewOrder(Intent("", Buy, 0.0, 0.0, "")));
    if !Ready(t, connected) then Failure(Unavailable)
    else if !ValidStrategyId(strategy) || key == "" || target == "" then Failure(InvalidArgument)
    else if slot.Some? then
      if t.commands[slot.value].action.target == target then Success((t, slot.value)) else Failure(Conflict)
    else if order.None? || Terminal(t.commands[order.value].stage) || t.commands[order.value].orderId == "" then Failure(Conflict)
    else
      var action := CancelOrder(target, t.commands[order.value].orderId);
      Success((t.(commands := t.commands + [NewCommand(t, strategy, key, action, day, 0.0)]), |t.commands|))
  }

  /** A send whose result is unknown: never retried, and trading stops. */
  function MarkUnknown(t: Account, i: nat): Account
    requires i < |t.commands|
  {
    var c := t.commands[i];
    t.(commands := if Terminal(c.stage) then t.commands else t.commands[i := c.(stage := Unknown)], halted := true)
  }

  function Restarted(t: Account): Account {
    t.(started := false, halted := true)
  }

  /** The Gateway call of a freshly inserted command. */
  function Sent(t: Account, i: nat, fate: Fate): Account
    requires i < |t.commands|
  {
    match fate
    case Returned(msgId) =>
      t.(commands := t.commands[i := t.commands[i].(gatewayMsgId := msgId)], sends := t.sends + [i])
    case Raised => MarkUnknown(t.(sends := t.sends + [i]), i)
    case CrashedBeforeSend => Restarted(t)
    case CrashedAfterSend => Restarted(t.(sends := t.sends + [i]))
  }

  /** Only a command inserted by this call is sent. */
  function Submit(t: Account, admitted: Result<(Account, nat), CoordinatorError>, fate: Fate): Account {
    if admitted.Success? && |admitted.value.0.commands| > |t.commands| && admitted.value.1 < |admitted.value.0.commands| then
      Sent(admitted.value.0, admitted.value.1, fate)
    else t
  }

  function UpperChar(c: char): char {
    if 'a' <= c <= 'z' then c - 'a' + 'A' else c
  }

  function Upper(s: string): string {
    seq(|s|, i requires 0 <= i < |s| => UpperChar(s[i]))
  }

  function StageFromEvent(m: Message): Option<Stage> {
    var kind, status := Upper(m.kind), Upper(m.status);
    if kind in {"ASYNC_ORDER", "ASYNC_CANCEL"} && status == "SENT" then Some(BridgeQueued)
    else if status in {"UNKNOWN", "SUBMIT_UNKNOWN", "EFFECT_STATE_UNKNOWN", "POST_ENQUEUE_STATE_UNCERTAIN"} then Some(Unknown)
    else if status == "FILLED" then Some(Filled)
    else if status in {"CANCELLED", "CANCELED"} then Some(Cancelled)
    else if status == "REJECTED" then Some(Rejected)
    else if status == "FAILED" then Some(Failed)
    else if status == "QMT_SUBMITTED" then Some(QmtSubmitted)
    else if status == "ORDER_ACTIVE" then Some(OrderActive)
    else if status == "BRIDGE_QUEUED" then Some(BridgeQueued)
    else if kind == "ASYNC_ORDER_RESPONSE" then Some(QmtSubmitted)
    else if kind == "ASYNC_CANCEL_RESPONSE" then Some(CancelRequested)
    else None
  }

  function Or(a: string, b: string): string {
    if a != "" then a else b
  }

  /** _update_command_from_event_locked: a terminal stage stays. */
  function Updated(c: Command, m: Message, now: int): Command {
    var stage := if Terminal(c.stage) then c.stage else StageFromEvent(m).GetOr(c.stage);
    c.(stage := stage, orderId := Or(m.orderId, c.orderId), orderSysid := Or(m.orderSysid, c.orderSysid),
       qmtUserOrderId := Or(m.qmtUserOrderId, c.qmtUserOrderId),
       terminalAt := if Terminal(stage) then Some(now) else c.terminalAt)
  }

  function KeyOf(m: Message): EventKey {
    if m.deliveryId != "" then Delivery(m.deliveryId) else BestEffort(m)
  }

  function Targets(t: Account, m: Message, command: Option<nat>): set<string>
    requires command.Some? ==> command.value < |t.commands|
  {
    if command.Some? then {t.commands[command.value].strategy}
    else if Upper(m.kind) in {"QMT_STATUS", "RECONCILE_REQUIRED"} then
      set s | s in t.strategies && t.strategies[s].enabled
    else {}
  }

  /** The command an event moves, its reservation and the halt flag. */
  function Moved(t: Account, m: Message, command: Option<nat>, now: int): Account
    requires command.Some? ==> command.value < |t.commands|
  {
    var stops := m.kind == "RECONCILE_REQUIRED" || (m.kind == "QMT_STATUS" && m.notReady);
    match command
    case None => t.(halted := t.halted || stops)
    case Some(i) =>
      var c := Updated(t.commands[i], m, now);
      t.(commands := t.commands[i := c],
         reservations := if Terminal(c.stage) && i in t.reservations then t.reservations[i := t.reservations[i].(active := false)]
                         else t.reservations,
         halted := t.halted || stops || c.stage.Unknown?)
  }

  function FreshRows(key: EventKey, strategies: set<string>, now: int): (rows: map<OutboxKey, OutboxRow>)
    ensures forall k :: k in rows <==> k.event == key && k.strategy in strategies
  {
    map s | s in strategies :: OutboxKey(key, s) := OutboxRow(OutboxPending, 0, now)
  }

  /** One delivery, in one transaction: command, reservation, inbox and outbox together. */
  function Deliver(t: Account, m: Message, now: int): Result<Account, CoordinatorError> {
    var key := KeyOf(m);
    if m.accountId != "" && m.accountId != t.id then Failure(IdentityMismatch)
    else if key in t.inbox then Success(t)
    else
      var command := FindCommand(t.commands, m, COLUMNS);
      var rows := FreshRows(key, Targets(t, m, command), now);
      Success(Moved(t, m, command, now).(inbox := t.inbox[key := InboxRow(command, m)], outbox := rows + t.outbox))
  }

  predicate SomeUnknown(t: Account) {
    exists i :: 0 <= i < |t.commands| && t.commands[i].stage.Unknown?
  }

  function Reconciled(t: Account, connected: bool, healthy: bool): Account {
    t.(halted := !connected || !healthy || SomeUnknown(t))
  }

  function Started(t: Account, connects: bool, healthy: bool): Account {
    if connects then Reconciled(t.(started := true), true, healthy) else t.(halted := true)
  }

  /** Rows of a strategy that it has not acknowledged. */
  predicate Owed(t: Account, k: OutboxKey, strategy: string) {
    k in t.outbox && k.strategy == strategy && !t.outbox[k].state.OutboxAcknowledged?
  }

  function Polled(t: Account, picked: set<OutboxKey>): Account {
    t.(outbox := map k | k in t.outbox ::
      if k in picked then OutboxRow(OutboxDelivered, t.outbox[k].attempts + 1, t.outbox[k].created) else t.outbox[k])
  }

  function Acknowledged(t: Account, k: OutboxKey, strategy: string): Account {
    if Owed(t, k, strategy) then t.(outbox := t.outbox[k := t.outbox[k].(state := OutboxAcknowledged)]) else t
  }

  // Runs

  datatype Op =
    | Register(strategy: string, settings: Strategy)
    | SubmitOrder(connected: bool, strategy: string, key: string, intent: Intent, day: string, fate: Fate)
    | RequestCancel(connected: bool, strategy: string, key: string, target: string, day: string, fate: Fate)
    | Event(message: Message, now: int)
    | Reconcile(connected: bool, healthy: bool)
    | Start(connects: bool, healthy: bool)
    | Restart
    | Poll(strategy: string, picked: set<OutboxKey>)
    | Acknowledge(strategy: string, row: OutboxKey)

  function Next(t: Account, op: Op): Account {
    match op
    case Register(strategy, settings) =>
      if ValidStrategyId(strategy) then t.(strategies := t.strategies[strategy := settings]) else t
    case SubmitOrder(connected, strategy, key, intent, day, fate) =>
      Submit(t, AdmitOrder(t, connected, strategy, key, intent, day), fate)
    case RequestCancel(connected, strategy, key, target, day, fate) =>
      Submit(t, AdmitCancel(t, connected, strategy, key, target, day), fate)
    case Event(m, now) => var r := Deliver(t, m, now); if r.Success? then r.value else t
    case Reconcile(connected, healthy) => Reconciled(t, connected, healthy)
    case Start(connects, healthy) => Started(t, connects, healthy)
    case Restart => Restarted(t)
    case Poll(strategy, picked) => Polled(t, set k | k in picked && Owed(t, k, strategy))
    case Acknowledge(strategy, row) => Acknowledged(t, row, strategy)
  }

  function Run(t: Account, ops: seq<Op>): Account
    decreases |ops|
  {
    if ops == [] then t else Run(Next(t, ops[0]), ops[1..])
  }

  function Empty(id: string, name: string, limits: RiskLimits): Account {
    Account(id, name, limits, map[], [], map[], map[], map[], false, true, [])
  }
}
