/** The Gateway's handling of one request, written on its SQLite cells and files, with every
    transaction and file operation logged as a step of the machine. */
module GatewayRequest {
  import opened Wrappers
  import opened EffectRegistry
  import opened HelperMachine
  import opened EffectMachine
  import Runs

  /** How the reservation of the registry row goes. */
  datatype Admission = Admitted(recovered: bool) | AlreadyKnown(state: EffectState) | RequestConflict

  /** What the caller is told: `Retryable` invites the same request again. */
  datatype Reply = Busy | Refused | AlreadyBound(state: EffectState) | Retryable | Waits | Answered(state: EffectState) | Uncertain

  /** How the file job ends for the dispatch that waits for it. */
  datatype JobResult = JobConflict | JobWaits | JobDone(outcome: EffectState, refused: bool)

  function TaskAfter(effect: Effect, r: JobResult): Task {
    match r
    case JobConflict => RollingBack(effect)
    case JobWaits => Waiting(effect)
    case JobDone(outcome, refused) => Finished(effect, outcome, refused)
  }

  /** What SQLite, the lanes and the disk do during one dispatch. */
  datatype DispatchFate = DispatchFate(
    databaseBusy: bool, replayed: Option<EffectState>, prepares: bool, beginWorks: bool, beginCommits: bool, laneFull: bool,
    jobBreaks: bool, jobWrote: bool, orderReleased: bool, pendingRemoved: bool, resultStored: bool)

  /** Nothing fails on the way to the dispatch barrier, or behind it. */
  predicate SmoothBefore(fate: DispatchFate) {
    !fate.databaseBusy && fate.replayed.None? && fate.prepares && fate.beginWorks
  }

  predicate SmoothBehind(fate: DispatchFate) {
    !fate.laneFull && !fate.jobBreaks && fate.resultStored
  }

  /** What happens in one round for a pending request; `notified` is a mark of its ledger item. */
  datatype WatchFate = WatchFate(
    stores: bool, unlinks: bool, acknowledged: bool, deletes: bool, pastDeadline: bool, notified: bool)

  /** The reply a pending request has: the captured one, or the response file's. */
  function Known(item: PendingRow, response: Option<Response>): Option<Response> {
    if item.captured.Some? then item.captured
    else if response.Some? then Some(Identified(response.value, item.fingerprint))
    else None
  }

  /** Nothing fails, and the delivery is acknowledged. */
  predicate RoundWorks(fate: WatchFate) {
    fate.stores && fate.unlinks && fate.acknowledged && fate.deletes
  }

  /** A dispatched effect whose ledger row waits for its response. */
  predicate Unsettled(row: Option<EffectRow>, pending: Option<PendingRow>) {
    && row.Some? && pending.Some? && row.value.effect.fingerprint == pending.value.fingerprint
    && row.value.state in {Dispatching, Enqueued, Unknown}
    && (pending.value.captured.Some? ==> pending.value.captured.value.fingerprint == pending.value.fingerprint)
  }

  /** The effect ends as the delivered response says, and unknown when the response file is
      that of another effect. */
  predicate Settles(row: Option<EffectRow>, effect: Effect, item: PendingRow, response: Option<Response>) {
    && row.Some? && row.value.effect == effect
    && (item.captured.Some? ==> Shows(row.value.state, item.captured.value.verdict))
    && (item.captured.None? && response.Some? ==>
          if response.value.fingerprint == item.fingerprint then Shows(row.value.state, response.value.verdict)
          else row.value.state.Unknown?)
  }

  predicate Shows(state: EffectState, verdict: Verdict) {
    && (verdict.Rejected? ==> state.Terminal?)
    && (verdict.Submitted? ==> state.Enqueued?)
    && (verdict.SubmitUnknown? ==> state.Unknown?)
  }

  /** A reply that is already there: kept for an asynchronous request, consumed by a caller
      that waits for it. */
  predicate Replies(reply: Response, left: Option<Response>, asynchronous: bool, r: JobResult) {
    && r.JobDone?
    && (asynchronous ==> left == Some(reply) && Shows(r.outcome, reply.verdict) && (r.refused <==> reply.verdict.Rejected?))
    && (!asynchronous ==> left.None? && !r.refused && r.outcome == if reply.verdict.Submitted? then Enqueued else Unknown)
  }

  predicate Pends(asynchronous: bool, r: JobResult) {
    if asynchronous then r == JobDone(Enqueued, false) else r.JobWaits?
  }

  /** What a file job does: any trace of another effect is a conflict, any trace of this one
      is joined, and only without a trace a command is written. */
  predicate Joins(f: Files, f': Files, fp: string, asynchronous: bool, r: JobResult) {
    if f.response.Some? then
      if f.response.value.fingerprint != fp then r.JobConflict? && f' == f
      else Replies(f.response.value, f'.response, asynchronous, r) && f' == f.(response := f'.response)
    else if exists c :: c in f.inbox + f.claims && c != fp then r.JobConflict? && f' == f
    else if f.inbox != multiset{} || f.claims != multiset{} then Pends(asynchronous, r) && f' == f
    else if f.guard.Some? then
      if f.guard.value.fingerprint != fp then r.JobConflict? && f' == f
      else if f.guard.value.response.None? then Pends(asynchronous, r) && f' == f
      else Replies(f.guard.value.response.value, f'.response, asynchronous, r) && f'.inbox == f.inbox
    else Pends(asynchronous, r) && f' == f.(inbox := f.inbox + multiset{fp})
  }

  // What a dispatch leaves, by what happened to it

  /** The registry lets an attempt at this effect start. */
  predicate MayStart(row: Option<EffectRow>, effect: Effect) {
    row.None? || (row.value.effect == effect && row.value.state.Prepared?)
  }

  predicate OwnOrNone(pending: Option<PendingRow>, effect: Effect) {
    pending.None? || pending.value.fingerprint == effect.fingerprint
  }

  /** An asynchronous request finds a ledger row that it may not take over. */
  predicate Barred(pending: Option<PendingRow>, effect: Effect, asynchronous: bool, recovered: bool) {
    && asynchronous && pending.Some?
    && !(recovered && pending.value.captured.None? && pending.value.fingerprint == effect.fingerprint)
  }

  predicate Replayed(fate: DispatchFate) {
    fate.replayed.Some? && (fate.replayed.value.Enqueued? || fate.replayed.value.Unknown? || fate.replayed.value.Terminal?)
  }

  /** The durable barrier is crossed. */
  predicate Crosses(pending: Option<PendingRow>, effect: Effect, asynchronous: bool, recovered: bool, fate: DispatchFate) {
    !Barred(pending, effect, asynchronous, recovered) && !Replayed(fate) && fate.prepares && fate.beginWorks
  }

  /** The row of the effect is in this state if that could be stored. */
  predicate Records(row: Option<EffectRow>, effect: Effect, state: EffectState, before: EffectState, fate: DispatchFate) {
    row == Some(EffectRow(effect, if fate.resultStored then state else before))
  }

  /** An effect that was not published is PREPARED again, without a ledger row, and may be
      retried; if that fails its result counts as unknown. */
  predicate Undone(row: Option<EffectRow>, pending: Option<PendingRow>, reply: Reply, effect: Effect,
                   before: EffectState, pendingBefore: Option<PendingRow>, fate: DispatchFate)
  {
    if fate.orderReleased && OwnOrNone(pendingBefore, effect) then
      reply == Retryable && row == Some(EffectRow(effect, Prepared)) && pending.None?
    else reply == Uncertain && pending == pendingBefore && Records(row, effect, Unknown, before, fate)
  }

  /** An attempt that does not cross the barrier, from a PREPARED row. */
  predicate StopsEarly(row: Option<EffectRow>, pending: Option<PendingRow>, reply: Reply, effect: Effect, asynchronous: bool,
                       recovered: bool, pendingBefore: Option<PendingRow>, fate: DispatchFate)
  {
    if Barred(pendingBefore, effect, asynchronous, recovered) then
      && pending == pendingBefore
      && if pendingBefore.value.captured.Some? && pendingBefore.value.fingerprint == effect.fingerprint
         then reply == AlreadyBound(Unknown) && Records(row, effect, Unknown, Prepared, fate)
         else reply == Refused && row == Some(EffectRow(effect, Prepared))
    else if Replayed(fate) then
      reply == AlreadyBound(fate.replayed.value) && pending == pendingBefore
      && Records(row, effect, fate.replayed.value, Prepared, fate)
    else if !fate.prepares then Undone(row, pending, reply, effect, Prepared, pendingBefore, fate)
    else Undone(row, pending, reply, effect, if fate.beginCommits then Dispatching else Prepared,
                if asynchronous then Some(PendingRow(effect.fingerprint, None)) else pendingBefore, fate)
  }

  /** An attempt whose file job ended like this, from a DISPATCHING row. */
  predicate EndsLike(r: JobResult, row: Option<EffectRow>, pending: Option<PendingRow>, reply: Reply, effect: Effect,
                     pendingBefore: Option<PendingRow>, fate: DispatchFate)
  {
    match r
    case JobConflict => Undone(row, pending, reply, effect, Dispatching, pendingBefore, fate)
    case JobWaits => reply == Waits && row == Some(EffectRow(effect, Dispatching)) && pending == pendingBefore
    case JobDone(outcome, refused) =>
      if refused && !fate.pendingRemoved then
        reply == Uncertain && pending == pendingBefore && Records(row, effect, Unknown, Dispatching, fate)
      else
        reply == Answered(outcome) && pending == (if refused then None else pendingBefore)
        && Records(row, effect, outcome, Dispatching, fate)
  }

  /** An attempt behind the barrier. */
  ghost predicate Proceeds(f: Files, f': Files, row: Option<EffectRow>, pending: Option<PendingRow>, reply: Reply, effect: Effect,
                           asynchronous: bool, pendingBefore: Option<PendingRow>, fate: DispatchFate)
  {
    if fate.laneFull then f' == f && Undone(row, pending, reply, effect, Dispatching, pendingBefore, fate)
    else if fate.jobBreaks then
      reply == Answered(Unknown) && pending == pendingBefore && Records(row, effect, Unknown, Dispatching, fate)
      && (f' == f || (fate.jobWrote && NoTrace(f) && f' == f.(inbox := f.inbox + multiset{effect.fingerprint})))
    else exists r ::
      Joins(f, f', effect.fingerprint, asynchronous, r) && EndsLike(r, row, pending, reply, effect, pendingBefore, fate)
  }

  class Request {
    var row: Option<EffectRow>
    var pending: Option<PendingRow>
    var inbox: multiset<string>
    var claims: multiset<string>
    var guard: Option<Guard>
    var response: Option<Response>
    ghost var start: Req
    ghost var trace: seq<Step>
    ghost var model: Req

    ghost predicate Matches(m: Req)
      reads this
    {
      && m.gate.row == row && m.gate.pending == pending
      && m.files.inbox == inbox && m.files.claims == claims && m.files.guard == guard && m.files.response == response
    }

    ghost predicate Valid()
      reads this
    {
      Run(start, trace) == Some(model) && Matches(model)
    }

    constructor (r: Req)
      ensures Valid() && model == r && start == r && trace == []
    {
      row, pending := r.gate.row, r.gate.pending;
      inbox, claims, guard, response := r.files.inbox, r.files.claims, r.files.guard, r.files.response;
      start, trace, model := r, [], r;
    }

    ghost method Log(s: GateStep)
      requires Run(start, trace) == Some(model)
      requires Next(model, OfGateway(s)).Some? && Matches(Next(model, OfGateway(s)).value)
      modifies this`trace, this`model
      ensures Valid() && Next(old(model), OfGateway(s)) == Some(model)
    {
      Runs.RunSnoc(Next, start, trace, OfGateway(s));
      trace, model := trace + [OfGateway(s)], Next(model, OfGateway(s)).value;
    }

    /** At any suspension point the Helper may act on the same files. */
    method HelperActs(inbox': multiset<string>, claims': multiset<string>, guard': Option<Guard>, response': Option<Response>,
                      ghost s: HelperStep, ghost f: Files)
      requires Valid() && HelperNext(model.files, s) == Some(f)
      requires f.inbox == inbox' && f.claims == claims' && f.guard == guard' && f.response == response'
      modifies this`inbox, this`claims, this`guard, this`response, this`trace, this`model
      ensures Valid() && model.gate == old(model).gate && model.files == f
    {
      inbox, claims, guard, response := inbox', claims', guard', response';
      LogHelper(s, f);
    }

    ghost method LogHelper(s: HelperStep, f: Files)
      requires Run(start, trace) == Some(model) && HelperNext(model.files, s) == Some(f)
      modifies this`trace, this`model
      ensures Run(start, trace) == Some(model) && model.gate == old(model).gate && model.files == f
    {
      var next := Req(model.gate, f, model.requeued || RequeuesRefused(model, s));
      HelperStepOfRequest(model, s, f);
      Runs.RunSnoc(Next, start, trace, OfHelper(s));
      trace, model := trace + [OfHelper(s)], next;
    }

    // One method per transaction, file job or local decision

    ghost method Take(effect: Effect, asynchronous: bool)
      requires Valid() && model.gate.task.NoTask?
      modifies this`trace, this`model
      ensures Valid() && model == old(model).(gate := old(model).gate.(task := Reserving(effect, asynchronous)))
    {
      Log(Retry(effect, asynchronous));
    }

    ghost method Release()
      requires Valid() && !model.gate.task.NoTask?
      modifies this`trace, this`model
      ensures Valid() && model == old(model).(gate := old(model).gate.(task := NoTask))
    {
      Log(Abandon);
    }

    /** reserve_effect_request. */
    method ReserveEffectRow(effect: Effect, asynchronous: bool) returns (a: Admission)
      requires Valid() && model.gate.task == Reserving(effect, asynchronous)
      modifies this`row, this`trace, this`model
      ensures Valid()
      ensures row == (if old(row).None? then Some(EffectRow(effect, Prepared)) else old(row))
      ensures model == old(model).(gate := old(model).gate.(
        row := row, task := if a.Admitted? then Bound(effect, asynchronous, a.recovered) else NoTask))
      ensures a == if old(row).None? then Admitted(false)
                   else if old(row).value.effect != effect then RequestConflict
                   else if old(row).value.state.Prepared? then Admitted(true)
                   else AlreadyKnown(old(row).value.state)
    {
      if row.None? {
        row := Some(EffectRow(effect, Prepared));
        a := Admitted(false);
      } else if row.value.effect != effect {
        a := RequestConflict;
      } else if row.value.state.Prepared? {
        a := Admitted(true);
      } else {
        a := AlreadyKnown(row.value.state);
      }
      Log(ReserveRow);
    }

    ghost method RefuseToPrepare(effect: Effect)
      requires Valid() && model.gate.task.Bound? && model.gate.task.effect == effect
      modifies this`trace, this`model
      ensures Valid() && model == old(model).(gate := old(model).gate.(task := RollingBack(effect)))
    {
      Log(PrepareFails);
    }

    /** commit_pending_response, for an asynchronous request that may take the ledger row. */
    method CommitPending(effect: Effect)
      requires Valid() && model.gate.task.Bound? && model.gate.task.effect == effect && model.gate.task.asynchronous
      requires pending.Some? ==>
        model.gate.task.recovered && pending.value.captured.None? && pending.value.fingerprint == effect.fingerprint
      modifies this`pending, this`trace, this`model
      ensures Valid() && pending == Some(PendingRow(effect.fingerprint, None))
      ensures model == old(model).(gate := old(model).gate.(pending := pending, task := Ledgered(effect, true)))
    {
      pending := Some(PendingRow(effect.fingerprint, None));
      Log(SaveLedger);
    }

    ghost method SkipPending(effect: Effect)
      requires Valid() && model.gate.task.Bound? && model.gate.task.effect == effect && !model.gate.task.asynchronous
      modifies this`trace, this`model
      ensures Valid() && model == old(model).(gate := old(model).gate.(task := Ledgered(effect, false)))
    {
      Log(SaveLedger);
    }

    /** _begin_effect_dispatch: Prepared to Dispatching; an error may come after the commit. */
    method BeginEffectDispatch(effect: Effect, asynchronous: bool, works: bool, commits: bool) returns (ok: bool)
      requires Valid() && model.gate.task == Ledgered(effect, asynchronous) && row == Some(EffectRow(effect, Prepared))
      modifies this`row, this`trace, this`model
      ensures Valid() && ok == works
      ensures row == Some(EffectRow(effect, if works || commits then Dispatching else Prepared))
      ensures model == old(model).(gate := old(model).gate.(
        row := row, task := if ok then Started(effect, asynchronous) else RollingBack(effect)))
    {
      if works || commits {
        row := Some(EffectRow(effect, Dispatching));
      }
      if works {
        Log(BeginDispatch);
      } else {
        Log(BeginFails(commits));
      }
      return works;
    }

    /** The file lane refuses before submission, or takes the job. */
    ghost method EnterLane(effect: Effect, asynchronous: bool, full: bool)
      requires Valid() && model.gate.task == Started(effect, asynchronous)
      modifies this`trace, this`model
      ensures Valid()
      ensures model == old(model).(gate :=
        if full then old(model).gate.(task := RollingBack(effect))
        else old(model).gate.(job := Some(Job(effect.fingerprint, asynchronous)), task := Publishing(effect, asynchronous)))
    {
      if full {
        Log(LaneFull);
      } else {
        Log(SubmitJob);
      }
    }

    /** release_unstarted_order and release_unstarted_cancel: all or nothing. */
    method ReleaseUnstartedEffect(effect: Effect, orderReleased: bool) returns (ok: bool)
      requires Valid() && model.gate.task == RollingBack(effect)
      modifies this`row, this`pending, this`trace, this`model
      ensures Valid()
      ensures var released := ReleaseUnstarted(old(row), old(pending), effect.fingerprint);
        && ok == (orderReleased && released.Success?)
        && row == (if ok then released.value.0 else old(row)) && pending == (if ok then released.value.1 else old(pending))
      ensures model == old(model).(gate := old(model).gate.(
        row := row, pending := pending, task := if ok then NoTask else Finished(effect, Unknown, false)))
    {
      RollbackStep(model, effect, orderReleased);
      if !orderReleased {
        Log(Rollback(false));
        return false;
      }
      ok := (pending.Some? ==> pending.value.fingerprint == effect.fingerprint)
            && row.Some? && row.value.effect.fingerprint == effect.fingerprint && row.value.state in {Prepared, Dispatching};
      if ok {
        row := Some(row.value.(state := Prepared));
        pending := None;
      }
      Log(Rollback(true));
    }

    /** transition_effect_request of a finished dispatch; it may fail, then the barrier stays. */
    method StoreOutcome(effect: Effect, outcome: EffectState, stored: bool)
      requires Valid() && model.gate.task == Finished(effect, outcome, false)
      modifies this`row, this`trace, this`model
      ensures Valid()
      ensures row == if stored then Transition(old(row), effect.fingerprint, outcome, {Prepared, Dispatching}).0 else old(row)
      ensures model == old(model).(gate := old(model).gate.(row := row, task := NoTask))
    {
      if !stored {
        Log(Abandon);
        return;
      }
      if row.Some? && row.value.effect.fingerprint == effect.fingerprint && row.value.state in {Prepared, Dispatching} {
        row := Some(row.value.(state := outcome));
      }
      Log(Finish(false));
    }

    method RemovePending(effect: Effect, outcome: EffectState)
      requires Valid() && model.gate.task == Finished(effect, outcome, true)
      modifies this`pending, this`trace, this`model
      ensures Valid() && pending == None
      ensures model == old(model).(gate := old(model).gate.(pending := None, task := Finished(effect, outcome, false)))
    {
      pending := None;
      Log(DropPending);
    }

    /** The result is stored as unknown although a ledger row should have been dropped. */
    method StoreUnknown(effect: Effect, outcome: EffectState, stored: bool)
      requires Valid() && model.gate.task == Finished(effect, outcome, true)
      modifies this`row, this`trace, this`model
      ensures Valid()
      ensures row == if stored then Transition(old(row), effect.fingerprint, Unknown, {Prepared, Dispatching}).0 else old(row)
      ensures model == old(model).(gate := old(model).gate.(row := row, task := NoTask))
    {
      if !stored {
        Log(Abandon);
        return;
      }
      if row.Some? && row.value.effect.fingerprint == effect.fingerprint && row.value.state in {Prepared, Dispatching} {
        row := Some(row.value.(state := Unknown));
      }
      Log(Finish(true));
    }

    /** enqueue_action and _prepare_request_sync: join what exists, or write the command. */
    method RunFileJob(effect: Effect, asynchronous: bool) returns (r: JobResult)
      requires Valid() && model.gate.task == Publishing(effect, asynchronous) && model.gate.job == Some(Job(effect.fingerprint, asynchronous))
      modifies this`inbox, this`response, this`trace, this`model
      ensures Valid() && model == PublishOrJoin(old(model), Job(effect.fingerprint, asynchronous))
      ensures model.gate.task == TaskAfter(effect, r)
      ensures Joins(old(model).files, model.files, effect.fingerprint, asynchronous, r)
    {
      JobJoinsOrPublishes(model, effect, asynchronous);
      if response.Some? {
        r := JoinResponse(effect, asynchronous);
      } else if exists c :: c in inbox + claims && c != effect.fingerprint {
        r := JobConflict;
        Log(RunJob);
      } else if inbox != multiset{} || claims != multiset{} {
        r := if asynchronous then JobDone(Enqueued, false) else JobWaits;
        Log(RunJob);
      } else if guard.Some? {
        r := JoinGuard(effect, asynchronous);
      } else {
        r := WriteCommand(effect, asynchronous);
      }
    }

    /** A response file already answers the request; a synchronous caller consumes it. */
    method JoinResponse(effect: Effect, asynchronous: bool) returns (r: JobResult)
      requires Valid() && model.gate.task == Publishing(effect, asynchronous) && model.gate.job == Some(Job(effect.fingerprint, asynchronous))
      requires response.Some?
      modifies this`response, this`trace, this`model
      ensures Valid() && model == PublishOrJoin(old(model), Job(effect.fingerprint, asynchronous))
      ensures model.gate.task == TaskAfter(effect, r)
    {
      var reply := response.value;
      if reply.fingerprint != effect.fingerprint {
        r := JobConflict;
      } else if asynchronous {
        r := JobDone(SettledState(reply.verdict), reply.verdict.Rejected?);
      } else {
        response := None;
        r := JobDone(if reply.verdict.Submitted? then Enqueued else Unknown, false);
      }
      Log(RunJob);
    }

    /** Only a guard is left of an earlier publication; its response is restored if it has one. */
    method JoinGuard(effect: Effect, asynchronous: bool) returns (r: JobResult)
      requires Valid() && model.gate.task == Publishing(effect, asynchronous) && model.gate.job == Some(Job(effect.fingerprint, asynchronous))
      requires response.None? && guard.Some? && inbox == multiset{} && claims == multiset{}
      modifies this`response, this`trace, this`model
      ensures Valid() && model == PublishOrJoin(old(model), Job(effect.fingerprint, asynchronous))
      ensures model.gate.task == TaskAfter(effect, r)
    {
      assert !ForeignCommand(model.files, effect.fingerprint);
      var g := guard.value;
      if g.fingerprint != effect.fingerprint {
        r := JobConflict;
      } else if g.response.None? {
        r := if asynchronous then JobDone(Enqueued, false) else JobWaits;
      } else if asynchronous {
        response := g.response;
        r := JobDone(SettledState(g.response.value.verdict), g.response.value.verdict.Rejected?);
      } else {
        r := JobDone(if g.response.value.verdict.Submitted? then Enqueued else Unknown, false);
      }
      Log(RunJob);
    }

    /** Nothing of the request exists: atomic_write_json of the command file. */
    method WriteCommand(effect: Effect, asynchronous: bool) returns (r: JobResult)
      requires Valid() && model.gate.task == Publishing(effect, asynchronous) && model.gate.job == Some(Job(effect.fingerprint, asynchronous))
      requires NoTrace(model.files)
      modifies this`inbox, this`trace, this`model
      ensures Valid() && model == PublishOrJoin(old(model), Job(effect.fingerprint, asynchronous))
      ensures model.gate.task == TaskAfter(effect, r) && inbox == old(inbox) + multiset{effect.fingerprint}
    {
      assert !ForeignCommand(model.files, effect.fingerprint);
      inbox := inbox + multiset{effect.fingerprint};
      r := if asynchronous then JobDone(Enqueued, false) else JobWaits;
      Log(RunJob);
    }

    /** An I/O error in the job before the command was written. */
    ghost method BreakBeforeWriting(effect: Effect, asynchronous: bool)
      requires Valid() && model.gate.task == Publishing(effect, asynchronous) && model.gate.job.Some?
      modifies this`trace, this`model
      ensures Valid() && model == old(model).(gate := old(model).gate.(job := None, task := Finished(effect, Unknown, false)))
    {
      Log(JobBreaks(false));
    }

    /** An I/O error in the job after the command was written. */
    method BreakAfterWriting(effect: Effect, asynchronous: bool)
      requires Valid() && model.gate.task == Publishing(effect, asynchronous) && model.gate.job == Some(Job(effect.fingerprint, asynchronous))
      requires NoTrace(model.files)
      modifies this`inbox, this`trace, this`model
      ensures Valid() && inbox == old(inbox) + multiset{effect.fingerprint}
      ensures model == Publish(old(model), effect.fingerprint, Finished(effect, Unknown, false))
    {
      inbox := inbox + multiset{effect.fingerprint};
      Log(JobBreaks(true));
    }

    method BreakFileJob(effect: Effect, asynchronous: bool, wrote: bool)
      requires Valid() && model.gate.task == Publishing(effect, asynchronous) && model.gate.job == Some(Job(effect.fingerprint, asynchronous))
      modifies this`inbox, this`trace, this`model
      ensures Valid()
      ensures model == if wrote && NoTrace(old(model).files)
        then Publish(old(model), effect.fingerprint, Finished(effect, Unknown, false))
        else old(model).(gate := old(model).gate.(job := None, task := Finished(effect, Unknown, false)))
    {
      if wrote && response.None? && inbox == multiset{} && claims == multiset{} && guard.None? {
        BreakAfterWriting(effect, asynchronous);
      } else {
        BreakBeforeWriting(effect, asynchronous);
      }
    }

    // dispatch, handle_new and _handle_cancel_payload

    /** Undo an effect that was never published, or fail closed when that is impossible. */
    method UndoUnstarted(effect: Effect, fate: DispatchFate) returns (reply: Reply)
      requires Valid() && model.gate.task == RollingBack(effect)
      modifies this`row, this`pending, this`trace, this`model
      ensures Valid() && model.gate == old(model).gate.(row := row, pending := pending, task := NoTask) && model.files == old(model).files
      ensures reply.Retryable? || reply.Uncertain?
      ensures reply.Retryable? <==> fate.orderReleased && ReleaseUnstarted(old(row), old(pending), effect.fingerprint).Success?
      ensures reply.Retryable? ==> row == Some(old(row).value.(state := Prepared)) && pending.None?
      ensures forall state :: state in {Prepared, Dispatching} && old(row) == Some(EffectRow(effect, state)) ==>
        Undone(row, pending, reply, effect, state, old(pending), fate)
    {
      var ok := ReleaseUnstartedEffect(effect, fate.orderReleased);
      if ok {
        return Retryable;
      }
      StoreOutcome(effect, Unknown, fate.resultStored);
      return Uncertain;
    }

    /** Drop the ledger row of a refused request, then store the outcome. */
    method FinishDispatch(effect: Effect, outcome: EffectState, refused: bool, fate: DispatchFate) returns (reply: Reply)
      requires Valid() && model.gate.task == Finished(effect, outcome, refused)
      modifies this`row, this`pending, this`trace, this`model
      ensures Valid() && model.gate == old(model).gate.(row := row, pending := pending, task := NoTask) && model.files == old(model).files
      ensures reply == Answered(outcome) || reply.Uncertain?
      ensures fate.resultStored && !refused ==>
        && reply == Answered(outcome) && pending == old(pending)
        && row == Transition(old(row), effect.fingerprint, outcome, {Prepared, Dispatching}).0
      ensures old(row) == Some(EffectRow(effect, Dispatching)) ==>
        EndsLike(JobDone(outcome, refused), row, pending, reply, effect, old(pending), fate)
      ensures row == old(row) || row == Transition(old(row), effect.fingerprint, outcome, {Prepared, Dispatching}).0
              || row == Transition(old(row), effect.fingerprint, Unknown, {Prepared, Dispatching}).0
    {
      if refused {
        if !fate.pendingRemoved {
          StoreUnknown(effect, outcome, fate.resultStored);
          return Uncertain;
        }
        RemovePending(effect, outcome);
      }
      StoreOutcome(effect, outcome, fate.resultStored);
      return Answered(outcome);
    }

    /** The part behind the dispatch barrier. */
    method PublishEffect(effect: Effect, asynchronous: bool, fate: DispatchFate) returns (reply: Reply)
      requires Valid() && model.gate.task == Started(effect, asynchronous)
      modifies this`row, this`pending, this`inbox, this`response, this`trace, this`model
      ensures Valid() && (reply.Waits? <==> model.gate.task == Waiting(effect)) && (!reply.Waits? ==> model.gate.task.NoTask?)
      ensures model.gate.published <= old(model).gate.published + 1
      ensures SmoothBehind(fate) && NoTrace(old(model).files) ==> model.gate.published == old(model).gate.published + 1
      ensures old(row) == Some(EffectRow(effect, Dispatching)) ==>
        Proceeds(old(model).files, model.files, row, pending, reply, effect, asynchronous, old(pending), fate)
      ensures reply.Retryable? || reply.Waits? || reply.Answered? || reply.Uncertain?
      ensures reply.Retryable? ==>
        && model.files == old(model).files && model.gate.published == old(model).gate.published
        && row.Some? && row.value.state.Prepared? && pending.None?
    {
      EnterLane(effect, asynchronous, fate.laneFull);
      if fate.laneFull {
        reply := UndoUnstarted(effect, fate);
        return;
      }
      if fate.jobBreaks {
        BreakFileJob(effect, asynchronous, fate.jobWrote);
        reply := FinishDispatch(effect, Unknown, false, fate);
        return;
      }
      reply := FinishFileJob(effect, asynchronous, fate);
    }

    /** The file job, and what its result makes of the dispatch. */
    method FinishFileJob(effect: Effect, asynchronous: bool, fate: DispatchFate) returns (reply: Reply)
      requires Valid() && model.gate.task == Publishing(effect, asynchronous) && model.gate.job == Some(Job(effect.fingerprint, asynchronous))
      modifies this`row, this`pending, this`inbox, this`response, this`trace, this`model
      ensures Valid() && (reply.Waits? <==> model.gate.task == Waiting(effect)) && (!reply.Waits? ==> model.gate.task.NoTask?)
      ensures model.gate.published <= old(model).gate.published + 1
      ensures NoTrace(old(model).files) ==> model.gate.published == old(model).gate.published + 1
      ensures old(row) == Some(EffectRow(effect, Dispatching)) ==> exists r ::
        && Joins(old(model).files, model.files, effect.fingerprint, asynchronous, r)
        && EndsLike(r, row, pending, reply, effect, old(pending), fate)
      ensures reply.Retryable? || reply.Waits? || reply.Answered? || reply.Uncertain?
      ensures reply.Retryable? ==>
        && model.files == old(model).files && model.gate.published == old(model).gate.published
        && row.Some? && row.value.state.Prepared? && pending.None?
    {
      ghost var before := model;
      JobPublishesOnce(before, Job(effect.fingerprint, asynchronous));
      var r := RunFileJob(effect, asynchronous);
      reply := EndFileJob(effect, r, fate);
    }

    method EndFileJob(effect: Effect, r: JobResult, fate: DispatchFate) returns (reply: Reply)
      requires Valid() && model.gate.task == TaskAfter(effect, r)
      modifies this`row, this`pending, this`trace, this`model
      ensures Valid() && model.files == old(model).files && model.gate.published == old(model).gate.published
      ensures (reply.Waits? <==> model.gate.task == Waiting(effect)) && (!reply.Waits? ==> model.gate.task.NoTask?)
      ensures reply.Retryable? || reply.Waits? || reply.Answered? || reply.Uncertain?
      ensures reply.Retryable? ==> r.JobConflict? && row.Some? && row.value.state.Prepared? && pending.None?
      ensures old(row) == Some(EffectRow(effect, Dispatching)) ==> EndsLike(r, row, pending, reply, effect, old(pending), fate)
    {
      match r
      case JobConflict => reply := UndoUnstarted(effect, fate);
      case JobWaits => reply := Waits;
      case JobDone(outcome, refused) => reply := FinishDispatch(effect, outcome, refused, fate);
    }

    /** A replayed order correlation or a captured response settles the row at once. */
    method SettleReplayed(effect: Effect, target: EffectState, stored: bool)
      requires Valid() && model.gate.task.Bound? && model.gate.task.effect == effect && row == Some(EffectRow(effect, Prepared))
      requires target in {Enqueued, Unknown, Terminal}
      modifies this`row, this`trace, this`model
      ensures Valid() && row == Some(EffectRow(effect, if stored then target else Prepared))
      ensures model == old(model).(gate := old(model).gate.(row := row, task := NoTask))
    {
      if !stored {
        Log(Abandon);
        return;
      }
      row := Some(EffectRow(effect, target));
      Log(SettleBound(target));
    }

    /** From the bound request to the dispatch barrier. */
    method PrepareEffect(effect: Effect, asynchronous: bool, recovered: bool, fate: DispatchFate) returns (reply: Option<Reply>)
      requires Valid() && model.gate.task == Bound(effect, asynchronous, recovered) && row == Some(EffectRow(effect, Prepared))
      modifies this`row, this`pending, this`trace, this`model
      ensures Valid() && model.files == old(model).files
      ensures model.gate == old(model).gate.(row := row, pending := pending, task := model.gate.task)
      ensures reply.None? ==> model.gate.task == Started(effect, asynchronous)
      ensures reply.Some? ==> model.gate.task.NoTask? && !reply.value.Waits?
      ensures reply.None? <==> Crosses(old(pending), effect, asynchronous, recovered, fate)
      ensures reply.None? ==>
        row == Some(EffectRow(effect, Dispatching))
        && pending == if asynchronous then Some(PendingRow(effect.fingerprint, None)) else old(pending)
      ensures reply.Some? ==> StopsEarly(row, pending, reply.value, effect, asynchronous, recovered, old(pending), fate)
    {
      if Barred(pending, effect, asynchronous, recovered) || Replayed(fate) {
        var known := AnswerKnown(effect, asynchronous, recovered, fate);
        return Some(known);
      }
      reply := StartEffect(effect, asynchronous, recovered, fate);
    }

    /** A ledger row or an order correlation already stands for the request. */
    method AnswerKnown(effect: Effect, asynchronous: bool, recovered: bool, fate: DispatchFate) returns (reply: Reply)
      requires Valid() && model.gate.task == Bound(effect, asynchronous, recovered) && row == Some(EffectRow(effect, Prepared))
      requires Barred(pending, effect, asynchronous, recovered) || Replayed(fate)
      modifies this`row, this`trace, this`model
      ensures Valid() && model == old(model).(gate := old(model).gate.(row := row, task := NoTask))
      ensures StopsEarly(row, pending, reply, effect, asynchronous, recovered, pending, fate) && !reply.Waits?
    {
      if asynchronous && pending.Some? && !(recovered && pending.value.captured.None? && pending.value.fingerprint == effect.fingerprint) {
        reply := RefuseBarred(effect, recovered, fate);
      } else {
        reply := Replay(effect, asynchronous, recovered, fate);
      }
    }

    /** try_reserve_pending_response with a ledger row that is not to be taken over. */
    method RefuseBarred(effect: Effect, recovered: bool, fate: DispatchFate) returns (reply: Reply)
      requires Valid() && model.gate.task == Bound(effect, true, recovered) && row == Some(EffectRow(effect, Prepared))
      requires Barred(pending, effect, true, recovered)
      modifies this`row, this`trace, this`model
      ensures Valid() && model == old(model).(gate := old(model).gate.(row := row, task := NoTask))
      ensures StopsEarly(row, pending, reply, effect, true, recovered, pending, fate) && !reply.Waits?
    {
      if pending.value.captured.Some? && pending.value.fingerprint == effect.fingerprint {
        SettleReplayed(effect, Unknown, fate.resultStored);
        return AlreadyBound(Unknown);
      }
      Release();
      return Refused;
    }

    /** The order correlation already has a result for this intent. */
    method Replay(effect: Effect, asynchronous: bool, recovered: bool, fate: DispatchFate) returns (reply: Reply)
      requires Valid() && model.gate.task == Bound(effect, asynchronous, recovered) && row == Some(EffectRow(effect, Prepared))
      requires !Barred(pending, effect, asynchronous, recovered) && Replayed(fate)
      modifies this`row, this`trace, this`model
      ensures Valid() && model == old(model).(gate := old(model).gate.(row := row, task := NoTask))
      ensures StopsEarly(row, pending, reply, effect, asynchronous, recovered, pending, fate) && !reply.Waits?
    {
      SettleReplayed(effect, fate.replayed.value, fate.resultStored);
      return AlreadyBound(fate.replayed.value);
    }

    /** The request is prepared, enters the ledger and crosses the barrier. */
    method StartEffect(effect: Effect, asynchronous: bool, recovered: bool, fate: DispatchFate) returns (reply: Option<Reply>)
      requires Valid() && model.gate.task == Bound(effect, asynchronous, recovered) && row == Some(EffectRow(effect, Prepared))
      requires !Barred(pending, effect, asynchronous, recovered) && !Replayed(fate)
      modifies this`row, this`pending, this`trace, this`model
      ensures Valid() && model.files == old(model).files
      ensures model.gate == old(model).gate.(row := row, pending := pending, task := model.gate.task)
      ensures reply.None? ==> model.gate.task == Started(effect, asynchronous)
      ensures reply.Some? ==> model.gate.task.NoTask? && !reply.value.Waits?
      ensures reply.None? <==> fate.prepares && fate.beginWorks
      ensures reply.None? ==>
        row == Some(EffectRow(effect, Dispatching))
        && pending == if asynchronous then Some(PendingRow(effect.fingerprint, None)) else old(pending)
      ensures reply.Some? ==> StopsEarly(row, pending, reply.value, effect, asynchronous, recovered, old(pending), fate)
    {
      if !fate.prepares {
        RefuseToPrepare(effect);
        var undone := UndoUnstarted(effect, fate);
        return Some(undone);
      }
      reply := CrossBarrier(effect, asynchronous, recovered, fate);
    }

    /** commit_pending_response, then _begin_effect_dispatch. */
    method CrossBarrier(effect: Effect, asynchronous: bool, recovered: bool, fate: DispatchFate) returns (reply: Option<Reply>)
      requires Valid() && model.gate.task == Bound(effect, asynchronous, recovered) && row == Some(EffectRow(effect, Prepared))
      requires asynchronous && pending.Some? ==>
        recovered && pending.value.captured.None? && pending.value.fingerprint == effect.fingerprint
      modifies this`row, this`pending, this`trace, this`model
      ensures Valid() && model.files == old(model).files
      ensures model.gate == old(model).gate.(row := row, pending := pending, task := model.gate.task)
      ensures reply.None? ==> model.gate.task == Started(effect, asynchronous)
      ensures reply.Some? ==> model.gate.task.NoTask? && !reply.value.Waits?
      ensures reply.None? <==> fate.beginWorks
      ensures var left := if asynchronous then Some(PendingRow(effect.fingerprint, None)) else old(pending);
        if reply.None? then row == Some(EffectRow(effect, Dispatching)) && pending == left
        else Undone(row, pending, reply.value, effect, if fate.beginCommits then Dispatching else Prepared, left, fate)
    {
      if asynchronous {
        CommitPending(effect);
      } else {
        SkipPending(effect);
      }
      var begun := BeginEffectDispatch(effect, asynchronous, fate.beginWorks, fate.beginCommits);
      if !begun {
        var undone := UndoUnstarted(effect, fate);
        return Some(undone);
      }
      return None;
    }

    /** dispatch: one attempt at an effect.  It publishes at most one command, only when the
        request id is new or its row is Prepared for this very effect; and a reply that
        invites a retry, or reports what is bound already, has published nothing. */
    method Dispatch(effect: Effect, asynchronous: bool, fate: DispatchFate) returns (reply: Reply)
      requires Valid() && model.gate.task.NoTask? && model.gate.job.None?
      modifies this`row, this`pending, this`inbox, this`response, this`trace, this`model
      ensures Valid()
      ensures if reply.Waits? then model.gate.task == Waiting(effect) else model.gate.task.NoTask?
      ensures !fate.databaseBusy && old(row).Some? && old(row).value.effect != effect ==> reply == Refused && row == old(row)
      ensures !fate.databaseBusy && old(row).Some? && old(row).value.effect == effect && !old(row).value.state.Prepared? ==>
        reply == AlreadyBound(old(row).value.state) && row == old(row)
      ensures fate.databaseBusy ==> reply == Busy && row == old(row) && pending == old(pending)
      ensures !fate.databaseBusy && MayStart(old(row), effect) ==>
        if Crosses(old(pending), effect, asynchronous, old(row).Some?, fate) then
          Proceeds(old(model).files, model.files, row, pending, reply, effect, asynchronous,
                   if asynchronous then Some(PendingRow(effect.fingerprint, None)) else old(pending), fate)
        else StopsEarly(row, pending, reply, effect, asynchronous, old(row).Some?, old(pending), fate)
      ensures SmoothBefore(fate) && SmoothBehind(fate) && old(row).None? && old(pending).None? && NoTrace(old(model).files) ==>
        && inbox == old(inbox) + multiset{effect.fingerprint}
        && reply == (if asynchronous then Answered(Enqueued) else Waits)
        && row == Some(EffectRow(effect, if asynchronous then Enqueued else Dispatching))
        && pending == if asynchronous then Some(PendingRow(effect.fingerprint, None)) else None
      ensures model.gate.published <= old(model).gate.published + 1
      ensures model.gate.published > old(model).gate.published ==> old(row).None? || old(row) == Some(EffectRow(effect, Prepared))
      ensures reply.Busy? || reply.Refused? || reply.AlreadyBound? || reply.Retryable? ==>
        model.files == old(model).files && model.gate.published == old(model).gate.published
      ensures reply.Retryable? ==> row.Some? && row.value.state.Prepared? && pending.None?
    {
      var early := AdmitEffect(effect, asynchronous, fate);
      if early.Some? {
        return early.value;
      }
      reply := PublishEffect(effect, asynchronous, fate);
    }

    /** Everything before the command may be published; None means the barrier was crossed. */
    method AdmitEffect(effect: Effect, asynchronous: bool, fate: DispatchFate) returns (reply: Option<Reply>)
      requires Valid() && model.gate.task.NoTask? && model.gate.job.None?
      modifies this`row, this`pending, this`trace, this`model
      ensures Valid() && model.files == old(model).files && model.gate.published == old(model).gate.published
      ensures reply.None? ==>
        model.gate.task == Started(effect, asynchronous) && (old(row).None? || old(row) == Some(EffectRow(effect, Prepared)))
      ensures reply.Some? ==> model.gate.task.NoTask? && !reply.value.Waits?
      ensures !fate.databaseBusy && old(row).Some? && old(row).value.effect != effect ==>
        reply == Some(Refused) && row == old(row) && pending == old(pending)
      ensures !fate.databaseBusy && old(row).Some? && old(row).value.effect == effect && !old(row).value.state.Prepared? ==>
        reply == Some(AlreadyBound(old(row).value.state)) && row == old(row) && pending == old(pending)
      ensures fate.databaseBusy ==> reply == Some(Busy) && row == old(row) && pending == old(pending)
      ensures !fate.databaseBusy && MayStart(old(row), effect) ==>
        if Crosses(old(pending), effect, asynchronous, old(row).Some?, fate) then
          reply.None? && row == Some(EffectRow(effect, Dispatching))
          && pending == if asynchronous then Some(PendingRow(effect.fingerprint, None)) else old(pending)
        else reply.Some? && StopsEarly(row, pending, reply.value, effect, asynchronous, old(row).Some?, old(pending), fate)
    {
      Take(effect, asynchronous);
      if fate.databaseBusy {
        Release();
        return Some(Busy);
      }
      reply := AdmitRow(effect, asynchronous, fate);
    }

    /** From the registry row on. */
    method AdmitRow(effect: Effect, asynchronous: bool, fate: DispatchFate) returns (reply: Option<Reply>)
      requires Valid() && model.gate.task == Reserving(effect, asynchronous)
      modifies this`row, this`pending, this`trace, this`model
      ensures Valid() && model.files == old(model).files && model.gate.published == old(model).gate.published
      ensures reply.None? ==> model.gate.task == Started(effect, asynchronous) && MayStart(old(row), effect)
      ensures reply.Some? ==> model.gate.task.NoTask? && !reply.value.Waits?
      ensures old(row).Some? && old(row).value.effect != effect ==>
        reply == Some(Refused) && row == old(row) && pending == old(pending)
      ensures old(row).Some? && old(row).value.effect == effect && !old(row).value.state.Prepared? ==>
        reply == Some(AlreadyBound(old(row).value.state)) && row == old(row) && pending == old(pending)
      ensures MayStart(old(row), effect) ==>
        if Crosses(old(pending), effect, asynchronous, old(row).Some?, fate) then
          reply.None? && row == Some(EffectRow(effect, Dispatching))
          && pending == if asynchronous then Some(PendingRow(effect.fingerprint, None)) else old(pending)
        else reply.Some? && StopsEarly(row, pending, reply.value, effect, asynchronous, old(row).Some?, old(pending), fate)
    {
      var a := ReserveEffectRow(effect, asynchronous);
      match a
      case RequestConflict => return Some(Refused);
      case AlreadyKnown(state) => return Some(AlreadyBound(state));
      case Admitted(recovered) => reply := PrepareEffect(effect, asynchronous, recovered, fate);
    }

    /** The response of a synchronous request is consumed when it is there; otherwise the wait
        ends with an unknown outcome, never with a retry. */
    method AwaitResponse(effect: Effect, fate: DispatchFate) returns (reply: Reply)
      requires Valid() && model.gate.task == Waiting(effect)
      modifies this`row, this`pending, this`response, this`trace, this`model
      ensures Valid() && model.gate.task.NoTask? && model.gate.published == old(model).gate.published
      ensures reply.Answered? || reply.Uncertain?
      ensures response == if old(response).Some? && old(response).value.fingerprint == effect.fingerprint then None else old(response)
      ensures reply == Answered(Enqueued) ==>
        old(response) == Some(Response(effect.fingerprint, Submitted))
      ensures fate.resultStored && old(row) == Some(EffectRow(effect, Dispatching)) ==>
        var accepted := old(response) == Some(Response(effect.fingerprint, Submitted));
        && reply == Answered(if accepted then Enqueued else Unknown)
        && row == Some(EffectRow(effect, if accepted then Enqueued else Unknown))
    {
      var outcome := PollReply(effect);
      reply := FinishDispatch(effect, outcome, false, fate);
    }

    /** Polling ends with a response file, which is consumed if it is this effect's, or at the
        timeout. */
    method PollReply(effect: Effect) returns (outcome: EffectState)
      requires Valid() && model.gate.task == Waiting(effect)
      modifies this`response, this`trace, this`model
      ensures Valid() && model.gate.task == Finished(effect, outcome, false) && model.gate.published == old(model).gate.published
      ensures response == if old(response).Some? && old(response).value.fingerprint == effect.fingerprint then None else old(response)
      ensures outcome == if old(response) == Some(Response(effect.fingerprint, Submitted)) then Enqueued else Unknown
    {
      outcome := Unknown;
      if response.None? {
        Log(PollTimeout);
      } else if response.value.fingerprint != effect.fingerprint {
        Log(PollResponse);
      } else {
        outcome := if response.value.verdict.Submitted? then Enqueued else Unknown;
        response := None;
        Log(PollResponse);
      }
    }

    // _process_pending_response

    ghost method StopWatching()
      requires Valid()
      modifies this`trace, this`model
      ensures Valid() && model == old(model).(gate := old(model).gate.(watcher := Watching))
    {
      Log(WatchStops);
    }

    /** The response file is read and matched against the ledger row. */
    ghost method ReadResponse() returns (reply: Response)
      requires Valid() && model.gate.watcher.Watching? && pending.Some? && pending.value.captured.None? && response.Some?
      modifies this`trace, this`model
      ensures Valid() && reply == Identified(response.value, pending.value.fingerprint)
      ensures model == old(model).(gate := old(model).gate.(
        watcher := Read(pending.value.fingerprint, reply), told := old(model).gate.told + {reply.verdict}))
    {
      reply := Identified(response.value, pending.value.fingerprint);
      Log(WatchRead);
    }

    method StoreCaptured(fp: string, reply: Response)
      requires Valid() && model.gate.watcher == Read(fp, reply) && pending == Some(PendingRow(fp, None))
      modifies this`pending, this`trace, this`model
      ensures Valid() && pending == Some(PendingRow(fp, Some(reply)))
      ensures model == old(model).(gate := old(model).gate.(pending := pending, watcher := Stored(reply)))
    {
      pending := Some(PendingRow(fp, Some(reply)));
      Log(WatchStore);
    }

    method UnlinkCaptured(reply: Response)
      requires Valid() && model.gate.watcher == Stored(reply)
      modifies this`response, this`trace, this`model
      ensures Valid() && response.None?
      ensures model == old(model).(files := old(model).files.(response := None), gate := old(model).gate.(watcher := Ready(reply)))
    {
      response := None;
      Log(WatchUnlink);
    }

    /** Make SQLite the durable inbox of a response, before its file is unlinked. */
    method CaptureResponse(stores: bool, unlinks: bool) returns (captured: Option<Response>)
      requires Valid() && model.gate.watcher.Watching? && pending.Some? && pending.value.captured.None? && response.Some?
      modifies this`pending, this`response, this`trace, this`model
      ensures Valid()
      ensures var reply := Identified(old(response).value, old(pending).value.fingerprint);
        && pending == (if stores then Some(PendingRow(old(pending).value.fingerprint, Some(reply))) else old(pending))
        && response == (if stores && unlinks then None else old(response))
        && captured == if stores && unlinks then Some(reply) else None
      ensures captured.Some? ==> model.gate.watcher == Ready(captured.value)
    {
      var reply := Identified(response.value, pending.value.fingerprint);
      ghost var read := ReadResponse();
      if !stores {
        StopWatching();
        return None;
      }
      StoreCaptured(pending.value.fingerprint, reply);
      if !unlinks {
        StopWatching();
        return None;
      }
      UnlinkCaptured(reply);
      return Some(reply);
    }

    method SettleEffect(reply: Response) returns (changed: bool)
      requires Valid() && model.gate.watcher == Acked(reply)
      modifies this`row, this`trace, this`model
      ensures Valid()
      ensures (row, changed) == Transition(old(row), reply.fingerprint, SettledState(reply.verdict), {Dispatching, Enqueued, Unknown})
      ensures changed ==> model.gate.watcher == Settled(reply)
    {
      changed := row.Some? && row.value.effect.fingerprint == reply.fingerprint
                 && row.value.state in {Dispatching, Enqueued, Unknown};
      if changed {
        row := Some(row.value.(state := SettledState(reply.verdict)));
      }
      Log(WatchSettle);
    }

    /** After the primary session acknowledged the delivery: settle the effect, then drop the
        ledger row; an effect that cannot be settled keeps its row. */
    method SettleDelivered(reply: Response, deletes: bool)
      requires Valid() && model.gate.watcher == Acked(reply)
      modifies this`row, this`pending, this`trace, this`model
      ensures Valid()
      ensures var (settled, changed) := Transition(old(row), reply.fingerprint, SettledState(reply.verdict), {Dispatching, Enqueued, Unknown});
        row == settled && pending == if changed && deletes then None else old(pending)
    {
      var changed := SettleEffect(reply);
      if changed && deletes {
        pending := None;
        Log(WatchDelete);
      }
    }

    /** No response before the deadline: the effect is reported as unknown, once, and becomes
        Unknown when the report was acknowledged; at a second deadline the row is dropped. */
    method ExpirePending(fate: WatchFate) returns (notifies: bool)
      requires Valid() && model.gate.watcher.Watching? && pending.Some? && pending.value.captured.None?
      modifies this`row, this`pending, this`trace, this`model
      ensures Valid()
      ensures pending == if fate.pastDeadline && fate.notified then None else old(pending)
      ensures var (settled, changed) := Transition(old(row), old(pending).value.fingerprint, Unknown, {Dispatching, Enqueued, Unknown});
        && (notifies <==> fate.pastDeadline && !fate.notified && fate.acknowledged && changed)
        && row == if fate.pastDeadline && !fate.notified && fate.acknowledged then settled else old(row)
    {
      if !fate.pastDeadline {
        return false;
      }
      if fate.notified {
        pending := None;
        Log(WatchExpire);
        return false;
      }
      if !fate.acknowledged {
        return false;
      }
      notifies := row.Some? && row.value.effect.fingerprint == pending.value.fingerprint
                  && row.value.state in {Dispatching, Enqueued, Unknown};
      if notifies {
        row := Some(row.value.(state := Unknown));
      }
      Log(WatchTimeout);
    }

    /** A reply that is in the ledger is delivered; its acknowledgement settles the effect. */
    method DeliverCaptured(reply: Response, fate: WatchFate)
      requires Valid() && model.gate.watcher == Ready(reply)
      modifies this`row, this`pending, this`trace, this`model
      ensures Valid()
      ensures var (settled, changed) := Transition(old(row), reply.fingerprint, SettledState(reply.verdict), {Dispatching, Enqueued, Unknown});
        && row == (if fate.acknowledged then settled else old(row))
        && pending == if fate.acknowledged && changed && fate.deletes then None else old(pending)
    {
      if fate.acknowledged {
        Log(WatchDeliver);
        SettleDelivered(reply, fate.deletes);
      } else {
        StopWatching();
      }
    }

    /** One round for a pending request whose reply is known. */
    method ProcessKnown(fate: WatchFate)
      requires Valid() && model.gate.watcher.Watching? && pending.Some? && Known(pending.value, response).Some?
      modifies this`row, this`pending, this`response, this`trace, this`model
      ensures Valid()
      ensures var captured := old(pending).value.captured.Some?;
        var reply := Known(old(pending).value, old(response)).value;
        var (settled, changed) := Transition(old(row), reply.fingerprint, SettledState(reply.verdict), {Dispatching, Enqueued, Unknown});
        var delivers := (captured || (fate.stores && fate.unlinks)) && fate.acknowledged;
        && row == (if delivers then settled else old(row))
        && response == (if !captured && fate.stores && fate.unlinks then None else old(response))
        && pending == if delivers && changed && fate.deletes then None
                      else if captured || fate.stores then Some(PendingRow(old(pending).value.fingerprint, Some(reply)))
                      else old(pending)
    {
      if pending.value.captured.Some? {
        Log(WatchResume);
        DeliverCaptured(pending.value.captured.value, fate);
      } else {
        CaptureAndDeliver(fate);
      }
    }

    method CaptureAndDeliver(fate: WatchFate)
      requires Valid() && model.gate.watcher.Watching? && pending.Some? && pending.value.captured.None? && response.Some?
      modifies this`row, this`pending, this`response, this`trace, this`model
      ensures Valid()
      ensures var reply := Identified(old(response).value, old(pending).value.fingerprint);
        var (settled, changed) := Transition(old(row), reply.fingerprint, SettledState(reply.verdict), {Dispatching, Enqueued, Unknown});
        var delivers := fate.stores && fate.unlinks && fate.acknowledged;
        && row == (if delivers then settled else old(row))
        && response == (if fate.stores && fate.unlinks then None else old(response))
        && pending == if delivers && changed && fate.deletes then None
                      else if fate.stores then Some(PendingRow(old(pending).value.fingerprint, Some(reply)))
                      else old(pending)
    {
      var reply := CaptureResponse(fate.stores, fate.unlinks);
      if reply.Some? {
        DeliverCaptured(reply.value, fate);
      }
    }

    /** One round for a pending request; `notifies` says that its ledger item is marked as
        reported.  A response file goes only once exactly its content is in the ledger, and
        the ledger row only after the delivery of that content was acknowledged and settled,
        or, without any response, at the deadline that follows the report. */
    method ProcessPendingResponse(fate: WatchFate) returns (notifies: bool)
      requires Valid() && model.gate.watcher.Watching?
      modifies this`row, this`pending, this`response, this`trace, this`model
      ensures Valid()
      ensures RoundWorks(fate) && Unsettled(old(row), old(pending)) && Known(old(pending).value, old(response)).Some? ==>
        pending.None? && Settles(row, old(row).value.effect, old(pending).value, old(response))
      ensures old(pending).None? ==> pending.None? && row == old(row) && response == old(response)
      ensures response != old(response) ==>
        response.None? && old(pending).Some? && old(pending).value.captured.None?
        && (pending.None? || pending.value.captured == Known(old(pending).value, old(response)))
      ensures pending.Some? ==>
        && old(pending).Some? && pending.value.fingerprint == old(pending).value.fingerprint
        && (pending != old(pending) ==> fate.stores && old(pending).value.captured.None?
                                        && pending.value.captured == Known(old(pending).value, old(response)))
      ensures old(pending).Some? && Known(old(pending).value, old(response)).Some? ==>
        var reply := Known(old(pending).value, old(response)).value;
        var (settled, changed) := Transition(old(row), reply.fingerprint, SettledState(reply.verdict), {Dispatching, Enqueued, Unknown});
        && !notifies
        && (row != old(row) ==> fate.acknowledged && row == settled)
        && (pending.None? ==> fate.acknowledged && changed && row == settled)
        && (fate.acknowledged && fate.stores && fate.unlinks && changed && fate.deletes ==> pending.None? && row == settled)
      ensures old(pending).Some? && Known(old(pending).value, old(response)).None? ==>
        var (settled, changed) := Transition(old(row), old(pending).value.fingerprint, Unknown, {Dispatching, Enqueued, Unknown});
        && (pending.None? <==> fate.pastDeadline && fate.notified)
        && (notifies <==> fate.pastDeadline && !fate.notified && fate.acknowledged && changed)
        && row == if notifies then settled else old(row)
    {
      notifies := false;
      if pending.Some? {
        if pending.value.captured.Some? || response.Some? {
          ProcessKnown(fate);
        } else {
          notifies := ExpirePending(fate);
        }
      }
    }

    /** A new Gateway process: a Prepared effect was never started, so its stale ledger row is
        released; every other row waits for its response. */
    method Restart()
      requires Valid()
      modifies this`row, this`pending, this`trace, this`model
      ensures Valid() && model.gate.task.NoTask? && model.gate.job.None? && model.gate.watcher.Watching?
      ensures row == old(row)
      ensures pending == if old(pending).Some? && old(row).Some? && old(row).value.state.Prepared?
                            && old(row).value.effect.fingerprint == old(pending).value.fingerprint
                         then None else old(pending)
    {
      Log(GatewayCrash);
      if pending.Some? && row.Some? && row.value.state.Prepared? && row.value.effect.fingerprint == pending.value.fingerprint {
        pending := None;
        Log(StartupRelease);
      }
    }
  }

  lemma HelperStepOfRequest(r: Req, s: HelperStep, f: Files)
    requires HelperNext(r.files, s) == Some(f)
    ensures Next(r, OfHelper(s)) == Some(Req(r.gate, f, r.requeued || RequeuesRefused(r, s)))
  {
  }

  lemma RollbackStep(r: Req, effect: Effect, orderReleased: bool)
    requires r.gate.task == RollingBack(effect)
    ensures var released := ReleaseUnstarted(r.gate.row, r.gate.pending, effect.fingerprint);
      Next(r, OfGateway(Rollback(orderReleased))) == Some(r.(gate :=
        if orderReleased && released.Success? then r.gate.(row := released.value.0, pending := released.value.1, task := NoTask)
        else r.gate.(task := Finished(effect, Unknown, false))))
  {
  }

  lemma JobJoinsOrPublishes(r: Req, effect: Effect, asynchronous: bool)
    requires r.gate.task == Publishing(effect, asynchronous)
    ensures var r' := PublishOrJoin(r, Job(effect.fingerprint, asynchronous));
      forall result :: r'.gate.task == TaskAfter(effect, result) ==> Joins(r.files, r'.files, effect.fingerprint, asynchronous, result)
  {
    if r.files.response.Some? {
      JobRepliesFromFile(r, effect, asynchronous);
    } else {
      JobLooksFurther(r, effect, asynchronous);
    }
  }

  lemma JobRepliesFromFile(r: Req, effect: Effect, asynchronous: bool)
    requires r.gate.task == Publishing(effect, asynchronous) && r.files.response.Some?
    ensures var r' := PublishOrJoin(r, Job(effect.fingerprint, asynchronous));
      forall result :: r'.gate.task == TaskAfter(effect, result) ==> Joins(r.files, r'.files, effect.fingerprint, asynchronous, result)
  {
  }

  lemma JobLooksFurther(r: Req, effect: Effect, asynchronous: bool)
    requires r.gate.task == Publishing(effect, asynchronous) && r.files.response.None?
    ensures var r' := PublishOrJoin(r, Job(effect.fingerprint, asynchronous));
      forall result :: r'.gate.task == TaskAfter(effect, result) ==> Joins(r.files, r'.files, effect.fingerprint, asynchronous, result)
  {
  }

  /** The job publishes at most one command, and none when it ends in a conflict. */
  lemma JobPublishesOnce(r: Req, job: Job)
    requires r.gate.task.Publishing?
    ensures var r' := PublishOrJoin(r, job);
      && r'.gate.published <= r.gate.published + 1
      && (r'.gate.published > r.gate.published ==> NoTrace(r.files))
      && (r'.gate.task.RollingBack? ==> r'.files == r.files && r'.gate.published == r.gate.published)
      && (NoTrace(r.files) ==> r' == Publish(r, job.fp, TaskAfter(r.gate.task.effect, if job.asynchronous then JobDone(Enqueued, false) else JobWaits)))
  {
  }
}
