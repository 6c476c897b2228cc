/** The SQLite store of the Gateway: order correlations, effect registry, pending-response
    ledger and event dedupe.  Every method is one transaction. */
module OrderStore {
  import opened Wrappers
  import opened EffectRegistry
  import StageFold

  const EVENT_QUERY_CHUNK_SIZE: nat := 400
  const MAX_EVENT_BATCH_SIZE: nat := 4096

  datatype Key = Key(account: string, id: string)

  /** The fields of a correlation row that are written once, on insertion. */
  datatype Identity = Identity(
    traceId: string, msgId: string, requestId: string, qmtUserOrderId: string,
    traderName: string, side: string, orderType: int, intent: string)

  datatype Correlation = Correlation(
    identity: Identity, traderKey: string, progress: StageFold.Progress, createdAt: int, updatedAt: int, rowid: nat)

  /** A row of the pending-response ledger: the kind of the request beside its cell. */
  datatype LedgerRow = LedgerRow(kind: string, item: PendingRow)

  function LedgerCell(ledger: map<Key, LedgerRow>, k: Key): Option<PendingRow> {
    if k in ledger then Some(ledger[k].item) else None
  }

  datatype StoreError = InvalidArgument | IdempotencyConflict | UniqueViolation

  /** UNIQUE (account_id, msg_id) and UNIQUE (account_id, qmt_user_order_id). */
  predicate Clashes(orders: map<Key, Correlation>, account: string, item: Identity) {
    exists k :: k in orders && k.account == account
                && (orders[k].identity.msgId == item.msgId || orders[k].identity.qmtUserOrderId == item.qmtUserOrderId)
  }

  predicate ExactReservation(orders: map<Key, Correlation>, k: Key, intent: string) {
    k in orders && orders[k].identity.intent == intent && orders[k].progress.stage == StageFold.Reserved
  }

  /** Rows that two transactions leave related: a kept row keeps what it was inserted with. */
  predicate IdentitiesKept(before: map<Key, Correlation>, after: map<Key, Correlation>) {
    forall k :: k in before && k in after ==>
      after[k].identity == before[k].identity && after[k].createdAt == before[k].createdAt && after[k].rowid == before[k].rowid
  }

  /** An effect that was reserved or is being dispatched, whose ledger row, if there is one,
      is its own. */
  predicate Unstarted(effects: map<Key, EffectRow>, pendings: map<Key, LedgerRow>, q: Key, fingerprint: string) {
    && q in effects && effects[q].effect.fingerprint == fingerprint && (effects[q].state.Prepared? || effects[q].state.Dispatching?)
    && (q in pendings ==> pendings[q].item.fingerprint == fingerprint)
  }

  class OrderCorrelationStore {
    var orders: map<Key, Correlation>
    var effects: map<Key, EffectRow>
    var pendings: map<Key, LedgerRow>
    var events: set<Key>
    var nextRow: nat

    ghost predicate Valid()
      reads this
    {
      && (forall k :: k in orders ==>
            && k.account != "" && k.id != "" && orders[k].identity.intent != "" && orders[k].identity.qmtUserOrderId != ""
            && orders[k].rowid < nextRow)
      && (forall j, k :: j in orders && k in orders && j != k ==> orders[j].rowid != orders[k].rowid)
      && (forall j, k :: j in orders && k in orders && j != k && j.account == k.account ==>
            orders[j].identity.msgId != orders[k].identity.msgId
            && orders[j].identity.qmtUserOrderId != orders[k].identity.qmtUserOrderId)
    }

    constructor ()
      ensures Valid() && orders == map[] && effects == map[] && pendings == map[] && events == {}
    {
      orders, effects, pendings, events, nextRow := map[], map[], map[], {}, 0;
    }

    /** Bind a client order id to one intent and trader, or report how it is bound already. */
    method Reserve(account: string, clientOrderId: string, item: Identity, traderKey: string, stage: StageFold.Stage, now: int)
      returns (r: Result<(Correlation, bool), StoreError>)
      requires Valid()
      modifies this`orders, this`nextRow
      ensures Valid() && IdentitiesKept(old(orders), orders)
      ensures r.Failure? ==> orders == old(orders)
      ensures r.Success? ==>
        var k := Key(account, clientOrderId);
        && orders.Keys == old(orders).Keys + {k}
        && (forall j :: j in old(orders) && j != k ==> orders[j] == old(orders)[j])
        && r.value == (orders[k], k in old(orders))
        && orders[k].identity.intent == item.intent && (traderKey == "" || orders[k].traderKey == traderKey)
        && (k in old(orders) ==>
              orders[k] == if traderKey != "" && old(orders)[k].traderKey == ""
                           then old(orders)[k].(traderKey := traderKey, updatedAt := now) else old(orders)[k])
        && (k !in old(orders) ==>
              orders[k] == Correlation(item, traderKey, StageFold.Progress(stage, None, None, None), now, now, old(nextRow)))
      ensures r == Failure(InvalidArgument) <==>
        account == "" || clientOrderId == "" || item.intent == "" || item.qmtUserOrderId == ""
      ensures r == Failure(UniqueViolation) <==>
        r != Failure(InvalidArgument) && Key(account, clientOrderId) !in old(orders) && Clashes(old(orders), account, item)
      ensures r == Failure(IdempotencyConflict) <==>
        var k := Key(account, clientOrderId);
        && r != Failure(InvalidArgument) && k in old(orders)
        && (old(orders)[k].identity.intent != item.intent
            || (traderKey != "" && old(orders)[k].traderKey !in {"", traderKey}))
    {
      if account == "" || clientOrderId == "" || item.intent == "" || item.qmtUserOrderId == "" {
        return Failure(InvalidArgument);
      }
      var k := Key(account, clientOrderId);
      if k in orders {
        var bound := Rebind(k, item.intent, traderKey, now);
        return if bound then Success((orders[k], true)) else Failure(IdempotencyConflict);
      }
      if Clashes(orders, account, item) {
        return Failure(UniqueViolation);
      }
      Insert(k, item, traderKey, stage, now);
      return Success((orders[k], false));
    }

    /** A bound id answers its own intent and trader; a row without a trader takes the first. */
    method Rebind(k: Key, intent: string, traderKey: string, now: int) returns (ok: bool)
      requires Valid() && k in orders
      modifies this`orders
      ensures Valid() && IdentitiesKept(old(orders), orders)
      ensures ok <==> old(orders)[k].identity.intent == intent && (traderKey == "" || old(orders)[k].traderKey in {"", traderKey})
      ensures orders == old(orders)[k := if ok && traderKey != "" && old(orders)[k].traderKey == ""
                                         then old(orders)[k].(traderKey := traderKey, updatedAt := now) else old(orders)[k]]
    {
      var existing := orders[k];
      if existing.identity.intent != intent {
        return false;
      }
      if traderKey != "" && existing.traderKey != "" && traderKey != existing.traderKey {
        return false;
      }
      if traderKey != "" && existing.traderKey == "" {
        Rewrite(k, existing.(traderKey := traderKey, updatedAt := now));
      }
      return true;
    }

    method Insert(k: Key, item: Identity, traderKey: string, stage: StageFold.Stage, now: int)
      requires Valid() && k !in orders && !Clashes(orders, k.account, item)
      requires k.account != "" && k.id != "" && item.intent != "" && item.qmtUserOrderId != ""
      modifies this`orders, this`nextRow
      ensures Valid()
      ensures orders == old(orders)[k := Correlation(item, traderKey, StageFold.Progress(stage, None, None, None), now, now, old(nextRow))]
    {
      var row := Correlation(item, traderKey, StageFold.Progress(stage, None, None, None), now, now, nextRow);
      orders, nextRow := orders[k := row], nextRow + 1;
    }

    /** Writing the mutable columns of one row keeps the table valid. */
    method Rewrite(k: Key, row: Correlation)
      requires Valid() && k in orders
      requires row.identity == orders[k].identity && row.createdAt == orders[k].createdAt && row.rowid == orders[k].rowid
      modifies this`orders
      ensures Valid() && IdentitiesKept(old(orders), orders)
      ensures orders == old(orders)[k := row]
    {
      orders := orders[k := row];
    }

    /** Release only an exact reservation that has not entered execution. */
    method ReleaseReservation(account: string, clientOrderId: string, intent: string) returns (r: Result<bool, StoreError>)
      requires Valid()
      modifies this`orders
      ensures Valid()
      ensures r.Failure? <==> account == "" || clientOrderId == "" || intent == ""
      ensures var k := Key(account, clientOrderId);
        var released := r.Success? && k in old(orders)
          && old(orders)[k].identity.intent == intent && old(orders)[k].progress.stage == StageFold.Reserved;
        (r.Success? ==> r.value == released) && orders == if released then old(orders) - {k} else old(orders)
    {
      if account == "" || clientOrderId == "" || intent == "" {
        return Failure(InvalidArgument);
      }
      var k := Key(account, clientOrderId);
      if !ExactReservation(orders, k, intent) {
        return Success(false);
      }
      DeleteOrder(k);
      return Success(true);
    }

    /** Release an order together with its ledger row and registry state: all or nothing. */
    method ReleaseUnstartedOrder(account: string, clientOrderId: string, intent: string, request: string, fingerprint: string)
      returns (r: Result<(), StoreError>)
      requires Valid()
      modifies this`orders, this`effects, this`pendings
      ensures Valid()
      ensures r.Failure? ==> orders == old(orders) && effects == old(effects) && pendings == old(pendings)
      ensures r == Failure(InvalidArgument) <==>
        account == "" || clientOrderId == "" || intent == "" || (request == "") != (fingerprint == "")
      ensures r != Failure(InvalidArgument) ==>
        var k, q := Key(account, clientOrderId), Key(account, request);
        var released := ReleaseUnstarted(Lookup(old(effects), q), LedgerCell(old(pendings), q), fingerprint);
        && (r.Success? <==> ExactReservation(old(orders), k, intent) && (request == "" || released.Success?))
        && (r.Success? ==> orders == old(orders) - {k})
        && (r.Success? && request != "" ==>
              effects == Store(old(effects), q, released.value.0) && pendings == old(pendings) - {q})
        && (request == "" ==> effects == old(effects) && pendings == old(pendings))
      ensures r != Failure(InvalidArgument) ==>
        var k, q := Key(account, clientOrderId), Key(account, request);
        && (r.Success? <==>
              && k in old(orders) && old(orders)[k].identity.intent == intent && old(orders)[k].progress.stage == StageFold.Reserved
              && (request == "" || Unstarted(old(effects), old(pendings), q, fingerprint)))
        && (r.Success? && request != "" ==> effects == old(effects)[q := old(effects)[q].(state := Prepared)])
    {
      if account == "" || clientOrderId == "" || intent == "" || (request == "") != (fingerprint == "") {
        return Failure(InvalidArgument);
      }
      var k := Key(account, clientOrderId);
      if !ExactReservation(orders, k, intent) {
        return Failure(IdempotencyConflict);
      }
      var released := true;
      if request != "" {
        released := DeleteUnstarted(k, Key(account, request), fingerprint);
      } else {
        DeleteOrder(k);
      }
      return if released then Success(()) else Failure(IdempotencyConflict);
    }

    method DeleteOrder(k: Key)
      requires Valid()
      modifies this`orders
      ensures Valid() && orders == old(orders) - {k}
    {
      orders := orders - {k};
    }

    /** Delete the order, then withdraw its effect; a failed condition restores the order. */
    method DeleteUnstarted(k: Key, q: Key, fingerprint: string) returns (ok: bool)
      requires Valid()
      modifies this`orders, this`effects, this`pendings
      ensures Valid()
      ensures var released := ReleaseUnstarted(Lookup(old(effects), q), LedgerCell(old(pendings), q), fingerprint);
        && (ok <==> released.Success?)
        && orders == (if ok then old(orders) - {k} else old(orders))
        && (ok ==> effects == Store(old(effects), q, released.value.0) && pendings == old(pendings) - {q})
        && (!ok ==> effects == old(effects) && pendings == old(pendings))
    {
      var saved := orders;
      DeleteOrder(k);
      ok := Withdraw(q, fingerprint);
      if !ok {
        orders := saved;
      }
    }

    method ReleaseUnstartedCancel(account: string, request: string, fingerprint: string) returns (r: Result<(), StoreError>)
      modifies this`effects, this`pendings
      ensures r.Failure? ==> effects == old(effects) && pendings == old(pendings)
      ensures r == Failure(InvalidArgument) <==> account == "" || request == "" || fingerprint == ""
      ensures r != Failure(InvalidArgument) ==>
        var q := Key(account, request);
        var released := ReleaseUnstarted(Lookup(old(effects), q), LedgerCell(old(pendings), q), fingerprint);
        && (r.Success? <==> released.Success?)
        && (r.Success? ==>
              effects == Store(old(effects), q, released.value.0) && pendings == old(pendings) - {q})
        && (r.Success? <==> Unstarted(old(effects), old(pendings), q, fingerprint))
        && (r.Success? ==> effects == old(effects)[q := old(effects)[q].(state := Prepared)])
    {
      if account == "" || request == "" || fingerprint == "" {
        return Failure(InvalidArgument);
      }
      var withdrawn := Withdraw(Key(account, request), fingerprint);
      return if withdrawn then Success(()) else Failure(IdempotencyConflict);
    }

    /** Delete the ledger row of exactly this effect, then set its registry row back to
        Prepared; a failed condition rolls the deletion back. */
    method Withdraw(q: Key, fingerprint: string) returns (ok: bool)
      modifies this`effects, this`pendings
      ensures var released := ReleaseUnstarted(Lookup(old(effects), q), LedgerCell(old(pendings), q), fingerprint);
        && (ok <==> released.Success?)
        && (ok ==> effects == Store(old(effects), q, released.value.0) && pendings == old(pendings) - {q})
        && (!ok ==> effects == old(effects) && pendings == old(pendings))
    {
      var saved := pendings;
      if q in pendings && pendings[q].item.fingerprint == fingerprint {
        pendings := pendings - {q};
      } else if q in pendings {
        return false;
      }
      if q in effects && effects[q].effect.fingerprint == fingerprint && effects[q].state in {Prepared, Dispatching} {
        effects := effects[q := effects[q].(state := Prepared)];
        assert pendings == saved - {q};
        return true;
      }
      pendings := saved;
      return false;
    }

    /** Move a correlation forward; a row that is terminal or further along is left alone. */
    method UpdateStage(account: string, clientOrderId: string, u: StageFold.Update)
      requires Valid()
      modifies this`orders
      ensures Valid() && IdentitiesKept(old(orders), orders)
      ensures var k := Key(account, clientOrderId);
        orders == if k in old(orders) && StageFold.Advances(old(orders)[k].progress.stage, u.stage)
                  then old(orders)[k := old(orders)[k].(progress := StageFold.Fold(old(orders)[k].progress, [u]), updatedAt := u.time)]
                  else old(orders)
      ensures forall k :: k in old(orders) ==> k in orders
      ensures forall k :: k in old(orders) ==>
        orders[k].progress ==
          if k == Key(account, clientOrderId) then StageFold.Fold(old(orders)[k].progress, [u]) else old(orders)[k].progress
    {
      var k := Key(account, clientOrderId);
      if k in orders {
        var row := orders[k];
        assert [u][..0] == [];
        assert StageFold.Fold(row.progress, [u]) == StageFold.Apply(StageFold.Fold(row.progress, [u][..0]), u);
        if StageFold.Advances(row.progress.stage, u.stage) {
          Rewrite(k, row.(progress := StageFold.Apply(row.progress, u), updatedAt := u.time));
        }
      }
    }

    /** Insert or update a ledger row, unless the request id belongs to another kind or effect. */
    method SavePendingResponse(account: string, request: string, kind: string, item: PendingRow)
      returns (r: Result<(), StoreError>)
      modifies this`pendings
      ensures r == Failure(InvalidArgument) <==> account == "" || request == ""
      ensures r == Failure(IdempotencyConflict) <==>
        var q := Key(account, request);
        && account != "" && request != ""
        && (|| kind == "" || item.fingerprint == ""
            || (q in old(pendings) && old(pendings)[q].kind != kind)
            || (q in old(pendings) && old(pendings)[q].item.fingerprint != item.fingerprint))
      ensures r.Failure? ==> pendings == old(pendings)
      ensures r.Success? ==>
        var q := Key(account, request);
        && pendings == old(pendings)[q := LedgerRow(kind, item)]
        && Success(LedgerCell(pendings, q)) == SavePending(LedgerCell(old(pendings), q), item)
    {
      if account == "" || request == "" {
        return Failure(InvalidArgument);
      }
      if kind == "" || item.fingerprint == "" {
        return Failure(IdempotencyConflict);
      }
      var q := Key(account, request);
      if q in pendings && (pendings[q].kind != kind || pendings[q].item.fingerprint != item.fingerprint) {
        return Failure(IdempotencyConflict);
      }
      pendings := pendings[q := LedgerRow(kind, item)];
      return Success(());
    }

    method RemovePendingResponse(account: string, request: string)
      modifies this`pendings
      ensures pendings == old(pendings) - {Key(account, request)}
    {
      pendings := pendings - {Key(account, request)};
    }

    /** Bind a request id to one effect for ever, or return the row it is bound to. */
    method ReserveEffectRequest(account: string, request: string, effect: Effect)
      returns (r: Result<(EffectRow, bool), StoreError>)
      modifies this`effects
      ensures r == Failure(InvalidArgument) <==> account == "" || request == ""
      ensures effect.kind == "" || effect.fingerprint == "" ==> r.Failure?
      ensures r.Failure? ==> effects == old(effects)
      ensures account != "" && request != "" && effect.kind != "" && effect.fingerprint != "" ==>
        var q := Key(account, request);
        var (row, outcome) := ReserveEffect(Lookup(old(effects), q), effect);
        && effects == Store(old(effects), q, row)
        && (r.Failure? <==> outcome.Conflict?)
        && (r.Success? ==> row == Some(r.value.0) && r.value.0.effect == effect && (r.value.1 <==> outcome.Existing?))
      ensures account != "" && request != "" && effect.kind != "" && effect.fingerprint != "" ==>
        var q := Key(account, request);
        if q !in old(effects) then
          r == Success((EffectRow(effect, Prepared), false)) && effects == old(effects)[q := EffectRow(effect, Prepared)]
        else if old(effects)[q].effect.kind == effect.kind && old(effects)[q].effect.fingerprint == effect.fingerprint then
          r == Success((old(effects)[q], true)) && effects == old(effects)
        else r == Failure(IdempotencyConflict) && effects == old(effects)
    {
      if account == "" || request == "" {
        return Failure(InvalidArgument);
      }
      if effect.kind == "" || effect.fingerprint == "" {
        return Failure(IdempotencyConflict);
      }
      var q := Key(account, request);
      if q !in effects {
        effects := effects[q := EffectRow(effect, Prepared)];
        return Success((effects[q], false));
      }
      if effects[q].effect == effect {
        return Success((effects[q], true));
      }
      return Failure(IdempotencyConflict);
    }

    /** Compare and set the state of one effect. */
    method TransitionEffectRequest(account: string, request: string, fingerprint: string, target: EffectState, allowed: set<EffectState>)
      returns (r: Result<bool, StoreError>)
      modifies this`effects
      ensures r.Failure? <==> allowed == {}
      ensures var q := Key(account, request);
        var (row, changed) := Transition(Lookup(old(effects), q), fingerprint, target, allowed);
        effects == Store(old(effects), q, row) && (r.Success? ==> r.value == changed)
      ensures var q := Key(account, request);
        if q in old(effects) && old(effects)[q].effect.fingerprint == fingerprint && old(effects)[q].state in allowed then
          r == Success(true) && effects == old(effects)[q := EffectRow(old(effects)[q].effect, target)]
        else r != Success(true) && effects == old(effects)
    {
      if allowed == {} {
        return Failure(InvalidArgument);
      }
      var q := Key(account, request);
      if q in effects && effects[q].effect.fingerprint == fingerprint && effects[q].state in allowed {
        effects := effects[q := effects[q].(state := target)];
        return Success(true);
      }
      return Success(false);
    }

    /** The subset of the given ids that is already recorded, asked for in bounded chunks. */
    method EventsSeenMany(account: string, ids: seq<string>) returns (r: Result<set<string>, StoreError>)
      ensures r.Failure? <==> |set id | id in ids && id != ""| > 4096
      ensures r.Success? ==> forall id :: id in r.value <==> id in ids && id != "" && Key(account, id) in events
    {
      var normalized := NormalizeEventIds(ids);
      if normalized.Failure? {
        return Failure(normalized.error);
      }
      var values := normalized.value;
      var seen := {};
      var offset := 0;
      while offset < |values|
        invariant 0 <= offset
        invariant forall id :: id in seen <==> Key(account, id) in events && id in Prefix(values, offset)
      {
        var end := if offset + EVENT_QUERY_CHUNK_SIZE < |values| then offset + EVENT_QUERY_CHUNK_SIZE else |values|;
        var chunk := values[offset..end];
        var rows := set id | id in chunk && Key(account, id) in events;
        assert Prefix(values, offset + EVENT_QUERY_CHUNK_SIZE) == Prefix(values, offset) + chunk;
        seen := seen + rows;
        offset := offset + EVENT_QUERY_CHUNK_SIZE;
      }
      assert Prefix(values, offset) == values;
      assert forall id :: id in values <==> id in NonEmpty(ids);
      return Success(seen);
    }

    /** Record a batch of delivered events in one transaction; returns how many were new. */
    method MarkEvents(account: string, ids: seq<string>) returns (r: Result<nat, StoreError>)
      modifies this`events
      ensures r.Failure? <==> |set id | id in ids && id != ""| > 4096
      ensures r.Failure? ==> events == old(events)
      ensures r.Success? ==>
        && (forall k :: k in events <==> k in old(events) || (k.account == account && k.id in ids && k.id != ""))
        && r.value == |events| - |old(events)|
    {
      var normalized := NormalizeEventIds(ids);
      if normalized.Failure? {
        return Failure(normalized.error);
      }
      var values := normalized.value;
      var inserted := 0;
      for i := 0 to |values|
        invariant inserted == |events| - |old(events)|
        invariant forall k :: k in events <==> k in old(events) || (k.account == account && k.id in values[..i])
      {
        var k := Key(account, values[i]);
        assert values[..i + 1] == values[..i] + [values[i]];
        if k !in events {
          events := events + {k};
          inserted := inserted + 1;
        }
      }
      assert values[..|values|] == values;
      assert forall id :: id in values <==> id in NonEmpty(ids);
      return Success(inserted);
    }
  }

  function Prefix(values: seq<string>, n: nat): seq<string> {
    if n < |values| then values[..n] else values
  }

  function NonEmpty(ids: seq<string>): set<string> {
    set id | id in ids && id != ""
  }

  /** Distinct non-empty ids in order of first appearance; too many are refused. */
  method NormalizeEventIds(ids: seq<string>) returns (r: Result<seq<string>, StoreError>)
    ensures r.Failure? <==> |NonEmpty(ids)| > MAX_EVENT_BATCH_SIZE
    ensures r.Success? ==>
      (forall id :: id in r.value <==> id in NonEmpty(ids)) && |r.value| == |NonEmpty(ids)|
  {
    var values := [];
    var seen: set<string> := {};
    for i := 0 to |ids|
      invariant seen == NonEmpty(ids[..i]) && |values| == |seen| <= MAX_EVENT_BATCH_SIZE
      invariant forall id :: id in values <==> id in seen
    {
      assert ids[..i + 1] == ids[..i] + [ids[i]];
      if ids[i] != "" && ids[i] !in seen {
        assert NonEmpty(ids[..i + 1]) == seen + {ids[i]};
        seen := seen + {ids[i]};
        values := values + [ids[i]];
        if |values| > MAX_EVENT_BATCH_SIZE {
          assert seen <= NonEmpty(ids);
          SubsetSize(seen, NonEmpty(ids));
          return Failure(InvalidArgument);
        }
      } else {
        assert NonEmpty(ids[..i + 1]) == seen;
      }
    }
    assert ids[..|ids|] == ids;
    return Success(values);
  }
}
