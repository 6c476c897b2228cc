/** What messages and intents do to the Coordinator, in terms of their own fields. */
module CoordinatorOutcomes {
  import opened Wrappers
  import opened Identifiers
  import opened CoordinatorModel
  import opened CoordinatorRuns

  // The command a message belongs to

  /** What a message carries, in the order in which it is looked at. */
  function Carried(m: Message): seq<string> {
    [m.requestId, m.clientOrderId, m.qmtUserOrderId, m.orderId, m.orderSysid]
  }

  function Known(c: Command): seq<string> {
    [c.requestId, c.clientOrderId, c.qmtUserOrderId, c.orderId, c.orderSysid]
  }

  /** A field that no command knows is passed over. */
  predicate Passes(cs: seq<Command>, m: Message, n: nat)
    requires n < 5
  {
    Carried(m)[n] == "" || forall j :: 0 <= j < |cs| ==> Known(cs[j])[n] != Carried(m)[n]
  }

  /** The newest command that knows the first field that is known at all, from the n-th on. */
  predicate Owns(cs: seq<Command>, m: Message, i: nat, n: nat)
    requires n <= 5
    decreases 5 - n
  {
    n < 5 && if Passes(cs, m, n) then Owns(cs, m, i, n + 1) else OwnsBy(cs, m, i, n)
  }

  predicate OwnsBy(cs: seq<Command>, m: Message, i: nat, n: nat)
    requires n < 5
  {
    && i < |cs| && Carried(m)[n] != "" && Known(cs[i])[n] == Carried(m)[n]
    && forall j :: i < j < |cs| ==> Known(cs[j])[n] != Carried(m)[n]
  }

  lemma ColumnsInOrder(m: Message, c: Command)
    ensures |COLUMNS| == 5
    ensures forall n :: 0 <= n < 5 ==> Field(m, COLUMNS[n]) == Carried(m)[n] && Cell(c, COLUMNS[n]) == Known(c)[n]
  {
  }

  lemma FindsInColumn(cs: seq<Command>, m: Message, n: nat)
    requires n < 5
    ensures var hit := if Field(m, COLUMNS[n]) == "" then None else FindNewest(cs, COLUMNS[n], Field(m, COLUMNS[n]));
      && (hit.None? <==> Passes(cs, m, n))
      && forall i: nat :: hit == Some(i) <==> OwnsBy(cs, m, i, n)
  {
    var hit := FindNewest(cs, COLUMNS[n], Field(m, COLUMNS[n]));
    forall j | 0 <= j < |cs| ensures Cell(cs[j], COLUMNS[n]) == Known(cs[j])[n] && Field(m, COLUMNS[n]) == Carried(m)[n] {
      ColumnsInOrder(m, cs[j]);
    }
    if cs == [] {
      assert Field(m, COLUMNS[n]) == Carried(m)[n];
    }
  }

  lemma {:induction false} FindsFrom(cs: seq<Command>, m: Message, n: nat, i: nat)
    requires n <= 5
    ensures FindCommand(cs, m, COLUMNS[n..]) == Some(i) <==> Owns(cs, m, i, n)
    decreases 5 - n
  {
    if n < 5 {
      assert COLUMNS[n..][0] == COLUMNS[n] && COLUMNS[n..][1..] == COLUMNS[n + 1..];
      FindsInColumn(cs, m, n);
      FindsFrom(cs, m, n + 1, i);
    }
  }

  /** A message moves exactly the command that owns it. */
  lemma MessageFindsItsOwner(cs: seq<Command>, m: Message, i: nat)
    ensures FindCommand(cs, m, COLUMNS) == Some(i) <==> Owns(cs, m, i, 0)
  {
    assert COLUMNS[0..] == COLUMNS;
    FindsFrom(cs, m, 0, i);
  }

  // Status names

  /** `d` is the capital of `c`, or `c` has none. */
  predicate SameLetter(c: char, d: char) {
    if 'a' <= c <= 'z' then c as int == d as int + 32 else c == d
  }

  /** `s` is the name, in whatever case; names are written in capitals. */
  predicate Spells(s: string, name: string) {
    |s| == |name| && forall i :: 0 <= i < |s| ==> SameLetter(s[i], name[i])
  }

  lemma UpperSpells(s: string, name: string)
    ensures Upper(s) == name <==> Spells(s, name)
  {
    assert |Upper(s)| == |s| && forall i :: 0 <= i < |s| ==> Upper(s)[i] == UpperChar(s[i]);
    if Spells(s, name) {
      forall i | 0 <= i < |s| ensures UpperChar(s[i]) == name[i] {
        assert SameLetter(s[i], name[i]);
      }
    }
    if Upper(s) == name {
      forall i | 0 <= i < |s| ensures SameLetter(s[i], name[i]) {
        assert UpperChar(s[i]) == name[i];
      }
    }
  }

  /** The names by which a message reports a stage. */
  function NamesOf(s: Stage): set<string> {
    match s
    case Unknown => {"UNKNOWN", "SUBMIT_UNKNOWN", "EFFECT_STATE_UNKNOWN", "POST_ENQUEUE_STATE_UNCERTAIN"}
    case Filled => {"FILLED"}
    case Cancelled => {"CANCELLED", "CANCELED"}
    case Rejected => {"REJECTED"}
    case Failed => {"FAILED"}
    case QmtSubmitted => {"QMT_SUBMITTED"}
    case OrderActive => {"ORDER_ACTIVE"}
    case BridgeQueued => {"BRIDGE_QUEUED"}
    case Submitting => {}
    case CancelRequested => {}
  }

  predicate Reports(m: Message, s: Stage) {
    exists name :: name in NamesOf(s) && Spells(m.status, name)
  }

  predicate ReportsSent(m: Message) {
    Spells(m.status, "SENT") && (Spells(m.kind, "ASYNC_ORDER") || Spells(m.kind, "ASYNC_CANCEL"))
  }

  predicate HasEnded(s: Stage) {
    s in {Filled, Cancelled, Rejected, Failed}
  }

  lemma StageOfName(m: Message, s: Stage)
    requires Reports(m, s)
    ensures StageFromEvent(m) == Some(s)
  {
    var name :| name in NamesOf(s) && Spells(m.status, name);
    UpperSpells(m.status, name);
  }

  lemma NotNamed(m: Message, s: Stage, name: string)
    requires name in NamesOf(s) && !Reports(m, s)
    ensures Upper(m.status) != name
  {
    UpperSpells(m.status, name);
  }

  /** A status that is no name leaves the decision to the kind of the message. */
  lemma NoNameFits(m: Message)
    requires forall s :: !Reports(m, s)
    ensures var status := Upper(m.status);
      && status != "UNKNOWN" && status != "SUBMIT_UNKNOWN" && status != "EFFECT_STATE_UNKNOWN"
      && status != "POST_ENQUEUE_STATE_UNCERTAIN" && status != "FILLED" && status != "CANCELLED" && status != "CANCELED"
      && status != "REJECTED" && status != "FAILED" && status != "QMT_SUBMITTED" && status != "ORDER_ACTIVE"
      && status != "BRIDGE_QUEUED"
  {
    NotNamed(m, Unknown, "UNKNOWN");
    NotNamed(m, Unknown, "SUBMIT_UNKNOWN");
    NotNamed(m, Unknown, "EFFECT_STATE_UNKNOWN");
    NotNamed(m, Unknown, "POST_ENQUEUE_STATE_UNCERTAIN");
    NotNamed(m, Filled, "FILLED");
    NotNamed(m, Cancelled, "CANCELLED");
    NotNamed(m, Cancelled, "CANCELED");
    NotNamed(m, Rejected, "REJECTED");
    NotNamed(m, Failed, "FAILED");
    NotNamed(m, QmtSubmitted, "QMT_SUBMITTED");
    NotNamed(m, OrderActive, "ORDER_ACTIVE");
    NotNamed(m, BridgeQueued, "BRIDGE_QUEUED");
  }

  lemma StageOfKind(m: Message)
    requires forall s :: !Reports(m, s)
    ensures StageFromEvent(m) ==
      if ReportsSent(m) then Some(BridgeQueued)
      else if Spells(m.kind, "ASYNC_ORDER_RESPONSE") then Some(QmtSubmitted)
      else if Spells(m.kind, "ASYNC_CANCEL_RESPONSE") then Some(CancelRequested)
      else None
  {
    NoNameFits(m);
    UpperSpells(m.status, "SENT");
    UpperSpells(m.kind, "ASYNC_ORDER");
    UpperSpells(m.kind, "ASYNC_CANCEL");
    UpperSpells(m.kind, "ASYNC_ORDER_RESPONSE");
    UpperSpells(m.kind, "ASYNC_CANCEL_RESPONSE");
  }

  // Deliveries

  /** A delivery the Coordinator accepts and has not seen. */
  predicate IsNew(t: Account, m: Message) {
    (m.accountId == "" || m.accountId == t.id) && KeyOf(m) !in t.inbox
  }

  /** Two messages are one event exactly when they carry the same delivery id, or none of them
      carries one and their content is the same. */
  lemma SameEventIff(m: Message, m': Message)
    ensures KeyOf(m) == KeyOf(m') <==> if m.deliveryId != "" || m'.deliveryId != "" then m.deliveryId == m'.deliveryId else m == m'
    ensures forall t: Account, now: int :: IsNew(t, m) ==>
      (IsNew(Deliver(t, m, now).value, m') <==> IsNew(t, m') && KeyOf(m) != KeyOf(m'))
  {
  }

  /** The stage after a message: an ended command stays, a status name decides, else the kind. */
  ghost predicate MovesTo(before: Stage, m: Message, after: Stage) {
    if HasEnded(before) then after == before
    else if exists s :: Reports(m, s) then Reports(m, after)
    else if ReportsSent(m) then after == BridgeQueued
    else if Spells(m.kind, "ASYNC_ORDER_RESPONSE") then after == QmtSubmitted
    else if Spells(m.kind, "ASYNC_CANCEL_RESPONSE") then after == CancelRequested
    else after == before
  }

  lemma UpdateMoves(c: Command, m: Message, now: int)
    ensures MovesTo(c.stage, m, Updated(c, m, now).stage)
    ensures Reports(m, Updated(c, m, now).stage) || HasEnded(c.stage) || forall s :: !Reports(m, s)
  {
    if s :| Reports(m, s) {
      StageOfName(m, s);
    } else {
      StageOfKind(m);
    }
  }

  /** Trading stops on these messages, whatever command they belong to. */
  predicate Stops(m: Message) {
    m.kind == "RECONCILE_REQUIRED" || (m.kind == "QMT_STATUS" && m.notReady)
  }

  predicate Learns(before: string, carried: string, after: string) {
    after == if carried != "" then carried else before
  }

  /** A new delivery moves exactly the command that owns it, which learns the ids it carries,
      and stops trading exactly when it says so or leaves the command unknown. */
  lemma DeliveryMovesOwner(t: Account, m: Message, now: int, i: nat)
    requires IsNew(t, m) && Owns(t.commands, m, i, 0)
    ensures Deliver(t, m, now).Success? && i < |t.commands|
    ensures var t' := Deliver(t, m, now).value;
      var c, c' := t.commands[i], t'.commands[i];
      && t'.commands == t.commands[i := c'] && SameBinding(c, c')
      && MovesTo(c.stage, m, c'.stage)
      && Learns(c.orderId, m.orderId, c'.orderId) && Learns(c.orderSysid, m.orderSysid, c'.orderSysid)
      && Learns(c.qmtUserOrderId, m.qmtUserOrderId, c'.qmtUserOrderId)
      && c'.terminalAt == (if HasEnded(c'.stage) then Some(now) else c.terminalAt)
      && (t'.halted <==> t.halted || Stops(m) || c'.stage.Unknown?)
      && t'.reservations == (if HasEnded(c'.stage) && i in t.reservations then t.reservations[i := t.reservations[i].(active := false)]
                             else t.reservations)
  {
    MessageFindsItsOwner(t.commands, m, i);
    UpdateMoves(t.commands[i], m, now);
  }

  predicate NobodyOwns(cs: seq<Command>, m: Message) {
    Passes(cs, m, 0) && Passes(cs, m, 1) && Passes(cs, m, 2) && Passes(cs, m, 3) && Passes(cs, m, 4)
  }

  lemma {:induction false} NobodyIsFound(cs: seq<Command>, m: Message, n: nat)
    requires n <= 5 && NobodyOwns(cs, m)
    ensures FindCommand(cs, m, COLUMNS[n..]) == None
    decreases 5 - n
  {
    if n < 5 {
      assert COLUMNS[n..][0] == COLUMNS[n] && COLUMNS[n..][1..] == COLUMNS[n + 1..];
      FindsInColumn(cs, m, n);
      NobodyIsFound(cs, m, n + 1);
    }
  }

  /** A delivery that belongs to no command changes none; a status or reconciliation message
      is owed to every enabled strategy, anything else to nobody. */
  lemma OwnerlessDelivery(t: Account, m: Message, now: int)
    requires IsNew(t, m) && NobodyOwns(t.commands, m)
    ensures Deliver(t, m, now).Success?
    ensures var t' := Deliver(t, m, now).value;
      && t'.commands == t.commands && t'.reservations == t.reservations && (t'.halted <==> t.halted || Stops(m))
      && forall k :: k in t'.outbox <==>
           k in t.outbox
           || (k.event == KeyOf(m) && (Spells(m.kind, "QMT_STATUS") || Spells(m.kind, "RECONCILE_REQUIRED"))
               && k.strategy in t.strategies && t.strategies[k.strategy].enabled)
  {
    assert COLUMNS[0..] == COLUMNS;
    NobodyIsFound(t.commands, m, 0);
    UpperSpells(m.kind, "QMT_STATUS");
    UpperSpells(m.kind, "RECONCILE_REQUIRED");
  }

  // Unknown effects

  /** The command is unknown from here to the end of the operations. */
  predicate StaysUnknown(t: Account, ops: seq<Op>, i: nat)
    decreases |ops|
  {
    && i < |t.commands| && t.commands[i].stage.Unknown?
    && (ops != [] ==> StaysUnknown(Next(t, ops[0]), ops[1..], i))
  }

  lemma {:induction false} NothingIsInserted(t: Account, ops: seq<Op>, i: nat)
    requires Inv(t) && StaysUnknown(t, ops, i)
    ensures |Run(t, ops).commands| == |t.commands| && Run(t, ops).halted
    decreases |ops|
  {
    assert SomeUnknown(t);
    if ops != [] {
      NextKeepsInv(t, ops[0]);
      NothingIsInserted(Next(t, ops[0]), ops[1..], i);
    }
  }

  predicate ReportsUnknown(m: Message) {
    || Spells(m.status, "UNKNOWN") || Spells(m.status, "SUBMIT_UNKNOWN")
    || Spells(m.status, "EFFECT_STATE_UNKNOWN") || Spells(m.status, "POST_ENQUEUE_STATE_UNCERTAIN")
  }

  lemma UnknownReportHalts(t: Account, m: Message, now: int, i: nat) returns (t': Account)
    requires IsNew(t, m) && Owns(t.commands, m, i, 0) && i < |t.commands| && !HasEnded(t.commands[i].stage) && ReportsUnknown(m)
    ensures Deliver(t, m, now) == Success(t')
    ensures t'.halted && |t'.commands| == |t.commands| && t'.commands[i].stage == Unknown
  {
    DeliveryMovesOwner(t, m, now, i);
    t' := Deliver(t, m, now).value;
    UnknownIsReported(t.commands[i].stage, m, t'.commands[i].stage);
  }

  lemma UnknownIsReported(before: Stage, m: Message, after: Stage)
    requires !HasEnded(before) && ReportsUnknown(m) && MovesTo(before, m, after)
    ensures after == Unknown
  {
    assert Reports(m, Unknown);
    StageOfName(m, after);
    StageOfName(m, Unknown);
  }

  /** A message that reports a live command as unknown, by any of the four names in any case,
      stops trading, and nothing is inserted until that command's stage is resolved. */
  lemma UnknownReportStopsTrading(t: Account, m: Message, now: int, i: nat, ops: seq<Op>) returns (t': Account)
    requires Inv(t) && IsNew(t, m) && Owns(t.commands, m, i, 0) && i < |t.commands| && !HasEnded(t.commands[i].stage)
    requires ReportsUnknown(m)
    ensures Deliver(t, m, now) == Success(t')
    ensures t'.halted && |t'.commands| == |t.commands| && t'.commands[i].stage == Unknown
    ensures StaysUnknown(t', ops, i) ==> |Run(t', ops).commands| == |t.commands| && Run(t', ops).halted
  {
    t' := UnknownReportHalts(t, m, now, i);
    DeliverKeepsInv(t, m, now);
    if StaysUnknown(t', ops, i) {
      NothingIsInserted(t', ops, i);
    }
  }

  // Prices and limits

  predicate Priced(c: Command) {
    c.action.NewOrder? ==> c.notional == c.action.intent.quantity * c.action.intent.price
  }

  predicate AllPriced(t: Account) {
    forall i :: 0 <= i < |t.commands| ==> Priced(t.commands[i])
  }

  lemma SubmitOrderPrices(t: Account, op: Op)
    requires op.SubmitOrder? && |Next(t, op).commands| > |t.commands|
    ensures |Next(t, op).commands| == |t.commands| + 1
    ensures var c := Next(t, op).commands[|t.commands|];
      && c.action == NewOrder(op.intent) && c.notional == op.intent.quantity * op.intent.price
      && c.strategy == op.strategy && c.key == op.key
  {
    AdmitOrderInserts(t, op.connected, op.strategy, op.key, op.intent, op.day);
  }

  lemma CancelIsNoOrder(t: Account, op: Op)
    requires op.RequestCancel?
    ensures forall i :: |t.commands| <= i < |Next(t, op).commands| ==> Next(t, op).commands[i].action.CancelOrder?
  {
    var action := AdmitCancelInserts(t, op.connected, op.strategy, op.key, op.target, op.day);
    var r := AdmitCancel(t, op.connected, op.strategy, op.key, op.target, op.day);
    if r.Success? && r.value.0 != t {
      SendingKeepsActions(r.value.0, r.value.1, op.fate);
    }
  }

  lemma SendingKeepsActions(t: Account, i: nat, fate: Fate)
    requires i < |t.commands|
    ensures |Sent(t, i, fate).commands| == |t.commands|
    ensures forall j :: 0 <= j < |t.commands| ==> SameBinding(t.commands[j], Sent(t, i, fate).commands[j])
  {
  }

  lemma OnlyOrdersArePriced(t: Account, op: Op)
    requires Inv(t) && !op.SubmitOrder?
    ensures forall i :: |t.commands| <= i < |Next(t, op).commands| ==> Next(t, op).commands[i].action.CancelOrder?
  {
    if op.RequestCancel? {
      CancelIsNoOrder(t, op);
    } else if op.Event? {
      EventKeepsInv(t, op.message, op.now);
    } else {
      OthersKeepInv(t, op);
    }
  }

  lemma PricesStay(t: Account, t': Account)
    requires AllPriced(t) && Extends(t, t') && forall i :: |t.commands| <= i < |t'.commands| ==> Priced(t'.commands[i])
    ensures AllPriced(t')
  {
    forall i | 0 <= i < |t.commands| ensures Priced(t'.commands[i]) {
      assert SameBinding(t.commands[i], t'.commands[i]) && Priced(t.commands[i]);
    }
  }

  lemma NewOnesArePriced(t: Account, op: Op, t': Account)
    requires Inv(t) && t' == Next(t, op)
    ensures forall i :: |t.commands| <= i < |t'.commands| ==> Priced(t'.commands[i])
  {
    if op.SubmitOrder? {
      NewOrderIsPriced(t, op, t');
    } else {
      OnlyOrdersArePriced(t, op);
    }
  }

  lemma NewOrderIsPriced(t: Account, op: Op, t': Account)
    requires op.SubmitOrder? && t' == Next(t, op)
    ensures forall i :: |t.commands| <= i < |t'.commands| ==> Priced(t'.commands[i])
  {
    if |t'.commands| > |t.commands| {
      SubmitOrderPrices(t, op);
    }
  }

  lemma NextKeepsPrices(t: Account, op: Op)
    requires Inv(t) && AllPriced(t)
    ensures AllPriced(Next(t, op))
  {
    NextKeepsInv(t, op);
    NewOnesArePriced(t, op, Next(t, op));
    PricesStay(t, Next(t, op));
  }

  lemma {:induction false} RunKeepsPrices(t: Account, ops: seq<Op>)
    requires Inv(t) && AllPriced(t)
    ensures AllPriced(Run(t, ops))
    decreases |ops|
  {
    if ops != [] {
      NextKeepsInv(t, ops[0]);
      NextKeepsPrices(t, ops[0]);
      RunKeepsPrices(Next(t, ops[0]), ops[1..]);
    }
  }

  /** After every run each order has reserved its quantity times its price, for its strategy,
      until it has ended, and a positive account limit bounds all of them together. */
  lemma OrdersReserveTheirValue(id: string, name: string, limits: RiskLimits, ops: seq<Op>, i: nat)
    ensures var t := Run(Empty(id, name, limits), ops);
      && (i < |t.commands| && t.commands[i].action.NewOrder? ==>
            && i in t.reservations && t.reservations[i].strategy == t.commands[i].strategy
            && t.reservations[i].notional == t.commands[i].action.intent.quantity * t.commands[i].action.intent.price
            && (t.reservations[i].active <==> !HasEnded(t.commands[i].stage)))
      && (i in t.reservations ==> i < |t.commands| && t.commands[i].action.NewOrder?)
      && (limits.maxPending > 0.0 ==> PendingOf(t, None) <= limits.maxPending)
  {
    RunIsPriced(id, name, limits, ops);
    RiskIsConserved(id, name, limits, ops);
    LiteralRisk(Run(Empty(id, name, limits), ops), limits, i);
  }

  lemma RunIsPriced(id: string, name: string, limits: RiskLimits, ops: seq<Op>)
    ensures var t := Run(Empty(id, name, limits), ops); AllPriced(t) && t.limits == limits
  {
    EmptyHoldsInv(id, name, limits);
    RunKeepsInv(Empty(id, name, limits), ops);
    RunKeepsPrices(Empty(id, name, limits), ops);
  }

  lemma LiteralRisk(t: Account, limits: RiskLimits, i: nat)
    requires RiskConserved(t) && AllPriced(t) && t.limits == limits
    ensures i < |t.commands| && t.commands[i].action.NewOrder? ==>
      && i in t.reservations && t.reservations[i].strategy == t.commands[i].strategy
      && t.reservations[i].notional == t.commands[i].action.intent.quantity * t.commands[i].action.intent.price
      && (t.reservations[i].active <==> !HasEnded(t.commands[i].stage))
    ensures i in t.reservations ==> i < |t.commands| && t.commands[i].action.NewOrder?
    ensures limits.maxPending > 0.0 ==> PendingOf(t, None) <= limits.maxPending
  {
    assert i < |t.commands| ==> Priced(t.commands[i]);
  }

  /** The sums differ by what the one changed reservation counts. */
  lemma {:induction false} PendingChange(rs: map<nat, Reservation>, rs': map<nat, Reservation>, who: Option<string>, i: nat, n: nat)
    requires forall j :: 0 <= j < n && j != i ==> Counted(rs', who, j) == Counted(rs, who, j)
    ensures Pending(rs', who, n) - Pending(rs, who, n) == if i < n then Counted(rs', who, i) - Counted(rs, who, i) else 0.0
  {
    if n > 0 {
      PendingChange(rs, rs', who, i, n - 1);
    }
  }

  /** A message that reports the end of a live order puts it into that very stage and lowers
      what account and strategy have pending by the value of the order. */
  lemma EndReportReleases(id: string, name: string, limits: RiskLimits, ops: seq<Op>, m: Message, now: int, i: nat, s: Stage, other: string)
    requires var t := Run(Empty(id, name, limits), ops);
      && IsNew(t, m) && Owns(t.commands, m, i, 0) && i < |t.commands| && t.commands[i].action.NewOrder?
      && !HasEnded(t.commands[i].stage) && HasEnded(s) && Reports(m, s) && other != t.commands[i].strategy
    ensures var t := Run(Empty(id, name, limits), ops);
      var value := t.commands[i].action.intent.quantity * t.commands[i].action.intent.price;
      && Deliver(t, m, now).Success?
      && (var t' := Deliver(t, m, now).value;
          && t'.commands[i].stage == s
          && PendingOf(t', None) == PendingOf(t, None) - value
          && PendingOf(t', Some(t.commands[i].strategy)) == PendingOf(t, Some(t.commands[i].strategy)) - value
          && PendingOf(t', Some(other)) == PendingOf(t, Some(other)))
  {
    var t := Run(Empty(id, name, limits), ops);
    OrdersReserveTheirValue(id, name, limits, ops, i);
    DeliveryMovesOwner(t, m, now, i);
    StageOfName(m, s);
    MessageFindsItsOwner(t.commands, m, i);
    var t' := Deliver(t, m, now).value;
    assert t'.commands[i].stage == s;
    ReleaseLowers(t, t', i, None);
    ReleaseLowers(t, t', i, Some(t.commands[i].strategy));
    ReleaseLowers(t, t', i, Some(other));
  }

  lemma ReleaseLowers(t: Account, t': Account, i: nat, who: Option<string>)
    requires |t'.commands| == |t.commands| && i < |t.commands| && i in t.reservations && t.reservations[i].active
    requires t'.reservations == t.reservations[i := t.reservations[i].(active := false)]
    ensures PendingOf(t', who) ==
      PendingOf(t, who) - if who.None? || who.value == t.reservations[i].strategy then t.reservations[i].notional else 0.0
  {
    PendingChange(t.reservations, t'.reservations, who, i, |t.commands|);
  }

  // Admission

  predicate BoundBy(limit: real, value: real) {
    limit <= 0.0 || value <= limit
  }

  predicate Unbound(t: Account, strategy: string, key: string, order: bool) {
    forall i :: 0 <= i < |t.commands| ==>
      t.commands[i].strategy != strategy || t.commands[i].key != key || t.commands[i].action.NewOrder? != order
  }

  predicate Trades(t: Account, connected: bool) {
    t.started && connected && !t.halted
  }

  /** The order may be inserted: trading is on, the order is well formed and its key free, the
      strategy is enabled, and the value of the order is within the two order limits and,
      added to what is pending, within the two pending limits. */
  predicate Admissible(t: Account, connected: bool, strategy: string, key: string, intent: Intent) {
    var value := intent.quantity * intent.price;
    && Trades(t, connected) && ValidStrategyId(strategy) && 1 <= |key| <= 128
    && intent.symbol != "" && intent.quantity > 0.0 && intent.price >= 0.0
    && Unbound(t, strategy, key, true)
    && strategy in t.strategies && t.strategies[strategy].enabled
    && BoundBy(t.strategies[strategy].limits.maxOrder, value) && BoundBy(t.limits.maxOrder, value)
    && BoundBy(t.strategies[strategy].limits.maxPending, PendingOf(t, Some(strategy)) + value)
    && BoundBy(t.limits.maxPending, PendingOf(t, None) + value)
  }

  lemma SlotIsFree(t: Account, strategy: string, key: string, action: Action)
    ensures FindSlot(t.commands, strategy, key, action).None? <==> Unbound(t, strategy, key, action.NewOrder?)
  {
    var slot := FindSlot(t.commands, strategy, key, action);
    if slot.Some? {
      assert SameSlot(t.commands[slot.value], strategy, key, action);
    } else {
      forall i | 0 <= i < |t.commands|
        ensures t.commands[i].strategy != strategy || t.commands[i].key != key || t.commands[i].action.NewOrder? != action.NewOrder?
      {
        assert !SameSlot(t.commands[i], strategy, key, action);
      }
    }
  }

  /** An order is inserted exactly when it may be; it raises what its strategy and the account
      have pending by quantity times price, and nothing else. */
  lemma AdmissionIsExact(t: Account, connected: bool, strategy: string, key: string, intent: Intent, day: string, other: string)
    requires ReservationsHold(t) && other != strategy
    ensures var r := AdmitOrder(t, connected, strategy, key, intent, day);
      (r.Success? && |r.value.0.commands| > |t.commands|) <==> Admissible(t, connected, strategy, key, intent)
    ensures var r := AdmitOrder(t, connected, strategy, key, intent, day);
      var value := intent.quantity * intent.price;
      Admissible(t, connected, strategy, key, intent) ==>
        && PendingOf(r.value.0, None) == PendingOf(t, None) + value
        && PendingOf(r.value.0, Some(strategy)) == PendingOf(t, Some(strategy)) + value
        && PendingOf(r.value.0, Some(other)) == PendingOf(t, Some(other))
  {
    SlotIsFree(t, strategy, key, NewOrder(intent));
    if Admissible(t, connected, strategy, key, intent) {
      var t' := WithOrder(t, strategy, key, intent, day, Notional(intent));
      assert AdmitOrder(t, connected, strategy, key, intent, day) == Success((t', |t.commands|));
      InsertionRaises(t, t', strategy, Notional(intent), None);
      InsertionRaises(t, t', strategy, Notional(intent), Some(strategy));
      InsertionRaises(t, t', strategy, Notional(intent), Some(other));
    }
  }

  lemma InsertionRaises(t: Account, t': Account, strategy: string, notional: real, who: Option<string>)
    requires ReservationsHold(t) && |t'.commands| == |t.commands| + 1
    requires t'.reservations == t.reservations[|t.commands| := Reservation(strategy, notional, true)]
    ensures PendingOf(t', who) == PendingOf(t, who) + if who.None? || who.value == strategy then notional else 0.0
  {
    PendingUnchanged(t.reservations, t'.reservations, who, |t.commands|);
  }

  /** An order of this strategy that is live and whose order id is known. */
  predicate Cancellable(t: Account, strategy: string, target: string, i: nat) {
    && i < |t.commands| && t.commands[i].strategy == strategy && t.commands[i].key == target
    && t.commands[i].action.NewOrder? && !HasEnded(t.commands[i].stage) && t.commands[i].orderId != ""
  }

  /** A cancellation is inserted exactly when trading is on, its key is free, and the target is
      a live order of the same strategy whose order id is known; it carries that id. */
  lemma CancellationIsExact(t: Account, connected: bool, strategy: string, key: string, target: string, day: string)
    requires SlotsAreUnique(t.commands)
    ensures var r := AdmitCancel(t, connected, strategy, key, target, day);
      (r.Success? && |r.value.0.commands| > |t.commands|) <==>
        && Trades(t, connected) && ValidStrategyId(strategy) && key != "" && target != ""
        && Unbound(t, strategy, key, false) && exists i :: Cancellable(t, strategy, target, i)
    ensures var r := AdmitCancel(t, connected, strategy, key, target, day);
      forall i: nat :: r.Success? && |r.value.0.commands| > |t.commands| && Cancellable(t, strategy, target, i) ==>
        r.value.0.commands[|t.commands|].action == CancelOrder(target, t.commands[i].orderId)
  {
    SlotIsFree(t, strategy, key, CancelOrder(target, ""));
    var wanted := NewOrder(Intent("", Buy, 0.0, 0.0, ""));
    var order := FindSlot(t.commands, strategy, target, wanted);
    forall i: nat | Cancellable(t, strategy, target, i) ensures order == Some(i) {
      assert SameSlot(t.commands[i], strategy, target, wanted);
      assert order.Some? && SameSlot(t.commands[order.value], strategy, target, wanted);
      assert SameSlot(t.commands[order.value], t.commands[i].strategy, t.commands[i].key, t.commands[i].action);
      assert SameSlot(t.commands[i], t.commands[order.value].strategy, t.commands[order.value].key, t.commands[order.value].action);
    }
    if order.Some? && !Terminal(t.commands[order.value].stage) && t.commands[order.value].orderId != "" {
      assert Cancellable(t, strategy, target, order.value);
    }
  }

  // Sends and the gate

  /** A fresh command is sent once: a returned call keeps it waiting, a failed one leaves it
      unknown and stops trading, and after a crash trading is off until the next start. */
  lemma SendOutcomes(t: Account, i: nat, fate: Fate)
    requires i < |t.commands| && t.commands[i].stage.Submitting?
    ensures var t' := Sent(t, i, fate);
      && |t'.commands| == |t.commands|
      && t'.sends == (if fate == CrashedBeforeSend then t.sends else t.sends + [i])
      && (fate.Returned? ==> t'.commands[i] == t.commands[i].(gatewayMsgId := fate.msgId) && t'.halted == t.halted && t'.started == t.started)
      && (fate.Raised? ==> t'.commands[i] == t.commands[i].(stage := Unknown) && t'.halted)
      && (fate.CrashedBeforeSend? || fate.CrashedAfterSend? ==> t'.commands == t.commands && t'.halted && !t'.started)
  {
  }

  /** Reconciliation opens the gate exactly when the Gateway is connected and healthy and no
      command is unknown; only a start or a reconciliation opens it. */
  lemma GateOpensIff(t: Account, op: Op)
    requires Inv(t)
    ensures op.Reconcile? ==>
      (Next(t, op).halted <==> !op.connected || !op.healthy || exists i :: 0 <= i < |t.commands| && t.commands[i].stage == Unknown)
    ensures op.Start? ==>
      (Next(t, op).halted <==> !op.connects || !op.healthy || exists i :: 0 <= i < |t.commands| && t.commands[i].stage == Unknown)
    ensures op.Restart? ==> Next(t, op).halted && !Next(t, op).started
    ensures t.halted && !op.Reconcile? && !op.Start? ==> Next(t, op).halted
  {
    if t.halted && (op.SubmitOrder? || op.RequestCancel?) {
      HaltedStaysHalted(t, op);
    }
  }

  lemma HaltedStaysHalted(t: Account, op: Op)
    requires t.halted && (op.SubmitOrder? || op.RequestCancel?)
    ensures Next(t, op) == t
  {
  }
}
