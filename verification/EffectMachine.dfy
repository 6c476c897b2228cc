/** The whole life of one trading request: the Gateway task, its file job and response
    watcher (volatile), the SQLite cells, and the Helper's files.  A step is one committed
    transaction, one file operation, one native call, one crash, or a local decision. */
module EffectMachine {
  import opened Wrappers
  import opened EffectRegistry
  import opened HelperMachine
  import Runs

  /** The one in-process task that holds the reservation of this request id. */
  datatype Task =
    | NoTask
    | Reserving(effect: Effect, asynchronous: bool)
    | Bound(effect: Effect, asynchronous: bool, recovered: bool)
    | Ledgered(effect: Effect, asynchronous: bool)
    | Started(effect: Effect, asynchronous: bool)
    | Publishing(effect: Effect, asynchronous: bool)
    | Waiting(effect: Effect)
    | RollingBack(effect: Effect)
    | Finished(effect: Effect, outcome: EffectState, dropPending: bool)

  /** A file job submitted to the file lane; it survives the cancellation of its task. */
  datatype Job = Job(fp: string, asynchronous: bool)

  datatype Watcher =
    | Watching
    | Read(fp: string, reply: Response)
    | Stored(reply: Response)
    | Ready(reply: Response)
    | Acked(reply: Response)
    | Settled(reply: Response)

  /** `told` collects the verdicts the Gateway has taken from response files, `handed` says
      that one went straight to a synchronous caller, `acked` that the primary session
      acknowledged the delivery of a captured response, and `published` counts the
      command files written. */
  datatype Gate = Gate(
    row: Option<EffectRow>,
    pending: Option<PendingRow>,
    task: Task,
    job: Option<Job>,
    watcher: Watcher,
    told: set<Verdict>,
    handed: bool,
    acked: bool,
    published: nat)

  /** `requeued` records that recovery put back a command whose refusal the Gateway had
      already taken while the command could still be executed. */
  datatype Req = Req(gate: Gate, files: Files, requeued: bool)

  const NO_GATE := Gate(None, None, NoTask, None, Watching, {}, false, false, 0)
  const NEW_REQUEST := Req(NO_GATE, NO_FILES, false)

  datatype GateStep =
    | Retry(effect: Effect, asynchronous: bool)
    | ReserveRow
    | Abandon
    | SettleBound(target: EffectState)
    | SaveLedger
    | PrepareFails
    | BeginDispatch
    | BeginFails(committed: bool)
    | LaneFull
    | SubmitJob
    | RunJob
    | JobBreaks(wrote: bool)
    | PollResponse
    | PollTimeout
    | DropPending
    | Finish(asUnknown: bool)
    | Rollback(orderReleased: bool)
    | WatchRead
    | WatchResume
    | WatchStore
    | WatchUnlink
    | WatchDeliver
    | WatchSettle
    | WatchDelete
    | WatchTimeout
    | WatchExpire
    | WatchStops
    | CleanResponse
    | GatewayCrash
    | StartupRelease

  datatype Step = OfGateway(gate: GateStep) | OfHelper(helper: HelperStep)

  /** The registry state a verdict settles in. */
  function SettledState(v: Verdict): EffectState {
    match v
    case Rejected => Terminal
    case Submitted => Enqueued
    case SubmitUnknown => Unknown
  }

  predicate ForeignCommand(f: Files, fp: string) {
    exists c :: c in f.inbox + f.claims && c != fp
  }

  predicate CommandLive(f: Files) {
    f.inbox != multiset{} || f.claims != multiset{}
  }

  /** How the publishing job ends for a task that is still waiting for it. */
  function AfterJob(t: Task, outcome: Task): Task {
    if t.Publishing? then outcome else t
  }

  /** enqueue_action and _prepare_request_sync: look for any trace of the request, and
      publish the command only when there is none. */
  function PublishOrJoin(r: Req, job: Job): (r': Req) {
    var g, f := r.gate.(job := None), r.files;
    var e := if r.gate.task.NoTask? then Effect("", job.fp) else r.gate.task.effect;
    var rollback := AfterJob(g.task, RollingBack(e));
    var queued := AfterJob(g.task, if job.asynchronous then Finished(e, Enqueued, false) else Waiting(e));
    if f.response.Some? then
      var reply := f.response.value;
      if reply.fingerprint != job.fp then r.(gate := g.(task := rollback))
      else if job.asynchronous then
        r.(gate := g.(task := AfterJob(g.task, Finished(e, SettledState(reply.verdict), reply.verdict.Rejected?))))
      else
        r.(files := f.(response := None),
           gate := g.(told := g.told + {reply.verdict}, handed := true,
                      task := AfterJob(g.task, Finished(e, if reply.verdict.Submitted? then Enqueued else Unknown, false))))
    else if ForeignCommand(f, job.fp) then r.(gate := g.(task := rollback))
    else if CommandLive(f) then r.(gate := g.(task := queued))
    else if f.guard.Some? then
      var guard := f.guard.value;
      if guard.fingerprint != job.fp then r.(gate := g.(task := rollback))
      else if guard.response.None? then r.(gate := g.(task := queued))
      else
        var reply := guard.response.value;
        if job.asynchronous then
          r.(files := f.(response := Some(reply), wrote := true),
             gate := g.(task := AfterJob(g.task, Finished(e, SettledState(reply.verdict), reply.verdict.Rejected?))))
        else
          r.(gate := g.(told := g.told + {reply.verdict}, handed := true,
                        task := AfterJob(g.task, Finished(e, if reply.verdict.Submitted? then Enqueued else Unknown, false))))
    else Publish(r, job.fp, queued)
  }

  function Publish(r: Req, fp: string, task: Task): Req {
    r.(files := r.files.(inbox := r.files.inbox + multiset{fp}),
       gate := r.gate.(job := None, published := r.gate.published + 1, task := task))
  }

  predicate NoTrace(f: Files) {
    f.response.None? && !CommandLive(f) && f.guard.None?
  }

  function TaskNext(r: Req, s: GateStep): Option<Req> {
    var g, f := r.gate, r.files;
    match s
    // try_reserve_effect_request: one in-process owner per request id
    case Retry(e, asynchronous) =>
      if g.task.NoTask? then Some(r.(gate := g.(task := Reserving(e, asynchronous)))) else None
    case ReserveRow =>
      if g.task.Reserving? then
        var (row, outcome) := ReserveEffect(g.row, g.task.effect);
        var next :=
          if outcome.Fresh? then Bound(g.task.effect, g.task.asynchronous, false)
          else if outcome == Existing(Prepared) then Bound(g.task.effect, g.task.asynchronous, true)
          else NoTask;
        Some(r.(gate := g.(row := row, task := next)))
      else None
    // a refusal, a cancellation or an unhandled exception: the reservation is released
    case Abandon => if g.task.NoTask? then None else Some(r.(gate := g.(task := NoTask)))
    // a replayed order correlation or an already captured response settles the row at once
    case SettleBound(target) =>
      if g.task.Bound? && target in {Enqueued, Unknown, Terminal} then
        var (row, _) := Transition(g.row, g.task.effect.fingerprint, target, {Prepared, Dispatching});
        Some(r.(gate := g.(row := row, task := NoTask)))
      else None
    case SaveLedger =>
      if !g.task.Bound? then None
      else
        var e := g.task.effect;
        var ledgered := Ledgered(e, g.task.asynchronous);
        if !g.task.asynchronous then Some(r.(gate := g.(task := ledgered)))
        else if g.pending.Some? && (!g.task.recovered || g.pending.value.captured.Some?
                                    || g.pending.value.fingerprint != e.fingerprint) then None
        else
          var saved := SavePending(g.pending, PendingRow(e.fingerprint, None));
          Some(r.(gate := if saved.Success? then g.(pending := saved.value, task := ledgered)
                          else g.(task := RollingBack(e))))
    case PrepareFails => if g.task.Bound? then Some(r.(gate := g.(task := RollingBack(g.task.effect)))) else None
    // _begin_effect_dispatch: the durable barrier
    case BeginDispatch =>
      if g.task.Ledgered? then
        var (row, changed) := Transition(g.row, g.task.effect.fingerprint, Dispatching, {Prepared});
        Some(r.(gate := g.(row := row, task :=
          if changed then Started(g.task.effect, g.task.asynchronous) else RollingBack(g.task.effect))))
      else None
    case BeginFails(committed) =>
      if g.task.Ledgered? then
        var (row, _) := Transition(g.row, g.task.effect.fingerprint, Dispatching, {Prepared});
        Some(r.(gate := g.(row := if committed then row else g.row, task := RollingBack(g.task.effect))))
      else None
    case LaneFull => if g.task.Started? then Some(r.(gate := g.(task := RollingBack(g.task.effect)))) else None
    case SubmitJob =>
      if g.task.Started? then
        Some(r.(gate := g.(job := Some(Job(g.task.effect.fingerprint, g.task.asynchronous)),
                           task := Publishing(g.task.effect, g.task.asynchronous))))
      else None
    case RunJob => if g.job.Some? then Some(PublishOrJoin(r, g.job.value)) else None
    // an I/O error inside the job: the command may or may not have been written
    case JobBreaks(wrote) =>
      if g.job.None? || (wrote && !NoTrace(f)) then None
      else
        var e := if g.task.NoTask? then Effect("", g.job.value.fp) else g.task.effect;
        var task := AfterJob(g.task, Finished(e, Unknown, false));
        Some(if wrote then Publish(r, g.job.value.fp, task) else r.(gate := g.(job := None, task := task)))
    // synchronous polling unlinks the response it decodes; failures are re-wrapped
    case PollResponse =>
      if g.task.Waiting? && f.response.Some? then
        var reply := f.response.value;
        if reply.fingerprint != g.task.effect.fingerprint then
          Some(r.(gate := g.(task := Finished(g.task.effect, Unknown, false))))
        else
          Some(r.(files := f.(response := None),
                  gate := g.(told := g.told + {reply.verdict}, handed := true,
                             task := Finished(g.task.effect, if reply.verdict.Submitted? then Enqueued else Unknown, false))))
      else None
    case PollTimeout =>
      if g.task.Waiting? then Some(r.(gate := g.(task := Finished(g.task.effect, Unknown, false)))) else None
    case DropPending =>
      if g.task.Finished? && g.task.dropPending then
        Some(r.(gate := g.(pending := None, task := g.task.(dropPending := false))))
      else None
    case Finish(asUnknown) =>
      if g.task.Finished? && (asUnknown || !g.task.dropPending) then
        var target := if asUnknown then Unknown else g.task.outcome;
        var (row, _) := Transition(g.row, g.task.effect.fingerprint, target, {Prepared, Dispatching});
        Some(r.(gate := g.(row := row, task := NoTask)))
      else None
    // release_unstarted_order / release_unstarted_cancel
    case Rollback(orderReleased) =>
      if g.task.RollingBack? then
        var failed := r.(gate := g.(task := Finished(g.task.effect, Unknown, false)));
        if !orderReleased then Some(failed)
        else
          var released := ReleaseUnstarted(g.row, g.pending, g.task.effect.fingerprint);
          Some(if released.Failure? then failed
               else r.(gate := g.(row := released.value.0, pending := released.value.1, task := NoTask)))
      else None
    case _ => None
  }

  /** The verdict the ledger records for a response of possibly foreign identity. */
  function Identified(reply: Response, fp: string): Response {
    if reply.fingerprint == fp then reply else Response(fp, SubmitUnknown)
  }

  function WatcherNext(r: Req, s: GateStep): Option<Req> {
    var g, f := r.gate, r.files;
    match s
    case WatchRead =>
      if g.watcher.Watching? && g.pending.Some? && g.pending.value.captured.None? && f.response.Some? then
        var reply := Identified(f.response.value, g.pending.value.fingerprint);
        Some(r.(gate := g.(watcher := Read(g.pending.value.fingerprint, reply), told := g.told + {reply.verdict})))
      else None
    case WatchResume =>
      if g.watcher.Watching? && g.pending.Some? && g.pending.value.captured.Some? then
        Some(r.(gate := g.(watcher := Ready(g.pending.value.captured.value))))
      else None
    // SQLite becomes the durable inbox before the response file is unlinked
    case WatchStore =>
      if g.watcher.Read? then
        var saved := SavePending(g.pending, PendingRow(g.watcher.fp, Some(g.watcher.reply)));
        Some(r.(gate := if saved.Success? then g.(pending := saved.value, watcher := Stored(g.watcher.reply))
                        else g.(watcher := Watching)))
      else None
    case WatchUnlink =>
      if g.watcher.Stored? then
        Some(r.(files := f.(response := None), gate := g.(watcher := Ready(g.watcher.reply))))
      else None
    case WatchDeliver =>
      if g.watcher.Ready? then Some(r.(gate := g.(acked := true, watcher := Acked(g.watcher.reply)))) else None
    case WatchSettle =>
      if g.watcher.Acked? then
        var (row, changed) := Transition(g.row, g.watcher.reply.fingerprint, SettledState(g.watcher.reply.verdict),
                                         {Dispatching, Enqueued, Unknown});
        Some(r.(gate := g.(row := row, watcher := if changed then Settled(g.watcher.reply) else Watching)))
      else None
    case WatchDelete =>
      if g.watcher.Settled? then Some(r.(gate := g.(pending := None, watcher := Watching))) else None
    case WatchTimeout =>
      if g.watcher.Watching? && g.pending.Some? && g.pending.value.captured.None? then
        var (row, _) := Transition(g.row, g.pending.value.fingerprint, Unknown, {Dispatching, Enqueued, Unknown});
        Some(r.(gate := g.(row := row)))
      else None
    case WatchExpire =>
      if g.watcher.Watching? && g.pending.Some? && g.pending.value.captured.None? then
        Some(r.(gate := g.(pending := None)))
      else None
    case WatchStops => Some(r.(gate := g.(watcher := Watching)))
    // _cleanup_runtime_files keeps the responses of pending requests
    case CleanResponse => if g.pending.None? then Some(r.(files := f.(response := None))) else None
    case GatewayCrash => Some(r.(gate := g.(task := NoTask, job := None, watcher := Watching)))
    case StartupRelease =>
      if g.task.NoTask? && g.job.None? && g.watcher.Watching? && g.pending.Some? && g.row.Some?
         && g.row.value.state.Prepared? && g.row.value.effect.fingerprint == g.pending.value.fingerprint
      then
        var released := ReleaseUnstarted(g.row, g.pending, g.pending.value.fingerprint);
        if released.Failure? then None
        else Some(r.(gate := g.(row := released.value.0, pending := released.value.1)))
      else None
    case _ => None
  }

  predicate OfWatcher(s: GateStep) {
    s.WatchRead? || s.WatchResume? || s.WatchStore? || s.WatchUnlink? || s.WatchDeliver? || s.WatchSettle?
    || s.WatchDelete? || s.WatchTimeout? || s.WatchExpire? || s.WatchStops? || s.CleanResponse?
    || s.GatewayCrash? || s.StartupRelease?
  }

  /** A command goes back to the queue although the Gateway has already taken a refusal. */
  predicate RequeuesRefused(r: Req, s: HelperStep) {
    s.RecoverReturn? && Rejected in r.gate.told && !r.files.expired
  }

  function Next(r: Req, s: Step): Option<Req> {
    match s
    case OfGateway(g) => if OfWatcher(g) then WatcherNext(r, g) else TaskNext(r, g)
    case OfHelper(h) =>
      match HelperNext(r.files, h)
      case None => None
      case Some(files) => Some(r.(files := files, requeued := r.requeued || RequeuesRefused(r, h)))
  }

  /** The request after a run of steps, or None when some step is not enabled. */
  function Run(r: Req, steps: seq<Step>): Option<Req> {
    Runs.Run(Next, r, steps)
  }
}
