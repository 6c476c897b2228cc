/** The inductive invariant of one request's life, and its preservation by every step. */
module EffectInvariant {
  import opened Wrappers
  import opened EffectRegistry
  import opened HelperMachine
  import opened EffectMachine

  /** Nothing has been published, hence nothing written, called, told or captured. */
  predicate Quiet(r: Req) {
    && r.files.(expired := false) == NO_FILES
    && r.gate.watcher.Watching? && r.gate.told == {} && !r.gate.handed && !r.gate.acked
    && r.gate.published == 0 && !r.requeued
    && (r.gate.pending.Some? ==> r.gate.pending.value.captured.None?)
  }

  /** What the durable dispatch barrier rests on: a Prepared row has never been published. */
  predicate Barrier(r: Req) {
    var g := r.gate;
    && g.published <= 1
    && (g.published == 0 ==> Quiet(r))
    && (g.row.None? ==> Quiet(r) && g.pending.None? && g.job.None? && (g.task.NoTask? || g.task.Reserving?))
    && (g.row.Some? && g.row.value.state.Prepared? ==>
          Quiet(r) && g.job.None?
          && (g.task.NoTask? || g.task.Reserving? || g.task.Bound? || g.task.Ledgered? || g.task.RollingBack? || g.task.Finished?))
    && (g.job.Some? ==>
          Quiet(r) && g.row.Some? && g.row.value.effect.fingerprint == g.job.value.fp)
    && TaskHolds(r)
  }

  predicate TaskHolds(r: Req) {
    var g := r.gate;
    match g.task
    case NoTask => true
    case Reserving(_, _) => true
    case Bound(e, _, _) => g.row == Some(EffectRow(e, Prepared))
    case Ledgered(e, _) => g.row == Some(EffectRow(e, Prepared))
    case Started(e, _) => g.row.Some? && g.row.value.effect == e && !g.row.value.state.Prepared? && Quiet(r) && g.job.None?
    case Publishing(e, a) => g.row.Some? && g.row.value.effect == e && g.job == Some(Job(e.fingerprint, a))
    case Waiting(e) => g.row.Some? && g.row.value.effect == e && !g.row.value.state.Prepared? && g.job.None?
    case RollingBack(e) => g.row.Some? && g.row.value.effect == e && Quiet(r) && g.job.None?
    case Finished(e, outcome, drop) =>
      g.row.Some? && g.row.value.effect == e && outcome in {Enqueued, Unknown, Terminal} && !drop && g.job.None?
  }

  function DrainFp(d: Drain, fp: string): string {
    if d.Idle? then fp else d.fp
  }

  function WatcherReply(w: Watcher): Option<Response> {
    if w.Watching? then None else Some(w.reply)
  }

  predicate Of(reply: Option<Response>, fp: string) {
    reply.Some? ==> reply.value.fingerprint == fp
  }

  /** At most one command file exists, and every Helper artifact carries `fp`. */
  predicate FilesAgree(f: Files, fp: string) {
    && (f.inbox == multiset{} || (f.inbox == multiset{fp} && f.claims == multiset{}))
    && (f.claims == multiset{} || f.claims == multiset{fp})
    && (f.native == [] || f.native == [fp])
    && Of(f.response, fp)
    && (f.guard.Some? ==> f.guard.value.fingerprint == fp && Of(f.guard.value.response, fp))
    && DrainFp(f.drain, fp) == fp
    && (f.drain.Responding? ==> f.drain.reply.fingerprint == fp)
  }

  predicate GateAgrees(g: Gate, fp: string) {
    && (g.pending.Some? ==> g.pending.value.fingerprint == fp && Of(g.pending.value.captured, fp))
    && Of(WatcherReply(g.watcher), fp)
    && (g.watcher.Read? ==> g.watcher.fp == fp)
  }

  /** Every artifact of the request carries the fingerprint first bound to its id. */
  predicate OneEffect(r: Req) {
    r.gate.row.Some? ==>
      FilesAgree(r.files, r.gate.row.value.effect.fingerprint) && GateAgrees(r.gate, r.gate.row.value.effect.fingerprint)
  }

  /** A verdict is true: a rejection was never executed, a submission was accepted. */
  predicate True(f: Files, v: Verdict) {
    && (v.Rejected? ==> f.native == [])
    && (v.Submitted? ==> f.result == Some(Submitted))
  }

  /** Guard discipline and truthfulness of the Helper's files. */
  predicate Guarding(f: Files) {
    && (f.native == [] ==> f.result.None?)
    && (f.result.Some? ==> !f.result.value.Rejected?)
    && (f.inbox != multiset{} ==> f.guard.None? && f.response.None? && f.native == [] && f.drain.Idle?)
    && (f.native != [] && (f.claims != multiset{} || !f.drain.Idle?) ==> f.guard.Some?)
    && (f.guard.Some? ==>
          && (f.guard.value.response.None? <==> f.guard.value.state.GuardProcessing?)
          && (f.guard.value.response.Some? ==>
                && f.guard.value.state == FinalState(f.guard.value.response.value.verdict)
                && True(f, f.guard.value.response.value.verdict)))
    && (f.response.Some? ==> f.wrote && True(f, f.response.value.verdict))
    && DrainHolds(f)
  }

  predicate DrainHolds(f: Files) {
    match f.drain
    case Idle => true
    case Claimed(fp) => f.claims == multiset{fp} && f.guard.None? && f.response.None? && f.native == []
    case Guarded(fp) =>
      f.claims == multiset{fp} && f.guard == Some(Guard(GuardProcessing, fp, None)) && f.response.None? && f.native == []
    case Returned(fp, v) =>
      && f.claims == multiset{fp} && f.guard == Some(Guard(GuardProcessing, fp, None)) && f.response.None?
      && (if v.Rejected? then f.native == [] else f.result == Some(v))
    case Responding(_, reply, dispatched) =>
      && f.response.None? && True(f, reply.verdict) && (if dispatched then f.guard.Some? else f.native == [])
    case Responded(_) => true
    case Raised(_, dispatched) => f.response.None? && (if dispatched then f.guard.Some? else f.native == [])
    case RaiseResponded(_, dispatched) => if dispatched then f.guard.Some? else f.native == []
    case Archiving(_) => true
    case RecoveryGuarded(fp) => f.claims == multiset{fp} && f.guard.Some? && f.response.None?
    case Recovered(fp) => f.claims == multiset{fp} && f.guard.Some?
  }

  /** A refusal the Gateway has taken stays true unless the command was requeued after it. */
  predicate Telling(r: Req) {
    Told(r.gate.told, r.files, r.requeued)
  }

  predicate Told(told: set<Verdict>, f: Files, requeued: bool) {
    && (Submitted in told ==> f.result == Some(Submitted))
    && (Rejected in told && !requeued ==>
          f.native == [] && !f.drain.Guarded? && (f.inbox != multiset{} || f.drain.Claimed? ==> f.expired))
  }

  /** The pending ledger: a written response is still on disk, captured, or was handed over. */
  predicate Ledger(r: Req) {
    var g, f := r.gate, r.files;
    && (g.pending.Some? && g.pending.value.captured.Some? ==> g.pending.value.captured.value.verdict in g.told)
    && (f.wrote && g.pending.Some? && g.pending.value.captured.None? && !g.handed ==> f.response.Some?)
    && (g.watcher.Read? ==> g.pending == Some(PendingRow(g.watcher.fp, None)) && g.watcher.reply.verdict in g.told)
    && (!g.watcher.Watching? && !g.watcher.Read? ==> g.pending.Some? && g.pending.value.captured == Some(g.watcher.reply))
    && (g.watcher.Acked? || g.watcher.Settled? ==> g.acked)
  }

  predicate Inv(r: Req) {
    Barrier(r) && OneEffect(r) && Guarding(r.files) && Telling(r) && Ledger(r)
  }

  lemma InitInv()
    ensures Inv(NEW_REQUEST)
  {
  }

  lemma MoveOne(fp: string)
    ensures multiset{fp} - multiset{fp} == multiset{}
    ensures multiset{} + multiset{fp} == multiset{fp}
  {
  }

  predicate FilesHold(f: Files, fp: string) {
    FilesAgree(f, fp) && Guarding(f)
  }

  /** The step claims a command file or refuses it. */
  predicate Claiming(s: HelperStep) {
    s.Expire? || s.Claim? || s.Refuse?
  }

  /** The step guards a claimed command or breaks before. */
  predicate Entering(s: HelperStep) {
    s.ClaimBreaks? || s.WriteGuard?
  }

  /** The step answers from what is there, or isolates it. */
  predicate Duplicating(s: HelperStep) {
    s.AnswerDuplicate? || s.SiblingConflict?
  }

  /** The step writes the response of a drain. */
  predicate Answering(s: HelperStep) {
    s.WriteResponse? || s.ResponseBreaks?
  }

  /** The step makes the native call. */
  predicate Executing(s: HelperStep) {
    s.NativeReturns? || s.NativeRaises? || s.NativeDisabled?
  }

  /** The step records the outcome of the native call. */
  predicate Finishing(s: HelperStep) {
    s.FinalGuard? || s.FinalGuardBreaks?
  }

  /** The step reports an exception to the Gateway. */
  predicate Reporting(s: HelperStep) {
    s.RaiseResponse? || s.RaiseResponseFails?
  }

  /** The step leaves the files as they are and ends the drain or recovery. */
  predicate Interrupting(s: HelperStep) {
    s.RemoveClaimFails? || s.ArchiveFails? || s.RecoverStops? || s.HelperCrash?
  }

  /** The step recovers a claim without looking at its guard. */
  predicate Requeuing(s: HelperStep) {
    s.RecoverAnswered? || s.RecoverReturn?
  }

  /** The step starts the recovery of a claim from its guard. */
  predicate Resolving(s: HelperStep) {
    s.RecoverFromGuard? || s.RecoverUnknownGuard?
  }

  lemma ClaimingKeepsFiles(f: Files, s: HelperStep, fp: string)
    requires FilesHold(f, fp) && Claiming(s) && HelperNext(f, s).Some?
    ensures FilesHold(HelperNext(f, s).value, fp)
  {
    MoveOne(fp);
  }

  lemma EnteringKeepsFiles(f: Files, s: HelperStep, fp: string)
    requires FilesHold(f, fp) && Entering(s) && HelperNext(f, s).Some?
    ensures FilesHold(HelperNext(f, s).value, fp)
  {
    MoveOne(fp);
  }

  lemma DuplicatingKeepsFiles(f: Files, s: HelperStep, fp: string)
    requires FilesHold(f, fp) && Duplicating(s) && HelperNext(f, s).Some?
    ensures FilesHold(HelperNext(f, s).value, fp)
  {
    MoveOne(fp);
  }

  lemma AnsweringKeepsFiles(f: Files, s: HelperStep, fp: string)
    requires FilesHold(f, fp) && Answering(s) && HelperNext(f, s).Some?
    ensures FilesHold(HelperNext(f, s).value, fp)
  {
    MoveOne(fp);
  }

  lemma ExecutingKeepsFiles(f: Files, s: HelperStep, fp: string)
    requires FilesHold(f, fp) && Executing(s) && HelperNext(f, s).Some?
    ensures FilesHold(HelperNext(f, s).value, fp)
  {
    MoveOne(fp);
  }

  lemma FinishingKeepsFiles(f: Files, s: HelperStep, fp: string)
    requires FilesHold(f, fp) && Finishing(s) && HelperNext(f, s).Some?
    ensures FilesHold(HelperNext(f, s).value, fp)
  {
    MoveOne(fp);
  }

  lemma ReportingKeepsFiles(f: Files, s: HelperStep, fp: string)
    requires FilesHold(f, fp) && Reporting(s) && HelperNext(f, s).Some?
    ensures FilesHold(HelperNext(f, s).value, fp)
  {
    MoveOne(fp);
  }

  lemma RaiseGuardKeepsFiles(f: Files, fp: string)
    requires FilesHold(f, fp) && HelperNext(f, RaiseGuard).Some?
    ensures FilesHold(HelperNext(f, RaiseGuard).value, fp)
  {
    MoveOne(fp);
  }

  lemma RemoveClaimKeepsFiles(f: Files, fp: string)
    requires FilesHold(f, fp) && HelperNext(f, RemoveClaim).Some?
    ensures FilesHold(HelperNext(f, RemoveClaim).value, fp)
  {
    MoveOne(fp);
  }

  lemma InterruptingKeepsFiles(f: Files, s: HelperStep, fp: string)
    requires FilesHold(f, fp) && Interrupting(s) && HelperNext(f, s).Some?
    ensures FilesHold(HelperNext(f, s).value, fp)
  {
    assert HelperNext(f, s) == Some(f.(drain := Idle));
    IdleKeepsFiles(f, fp);
  }

  lemma IdleKeepsFiles(f: Files, fp: string)
    requires FilesHold(f, fp)
    ensures FilesHold(f.(drain := Idle), fp)
  {
  }

  lemma GuardExpiresKeepsFiles(f: Files, fp: string)
    requires FilesHold(f, fp) && HelperNext(f, GuardExpires).Some?
    ensures FilesHold(HelperNext(f, GuardExpires).value, fp)
  {
    MoveOne(fp);
  }

  lemma RequeuingKeepsFiles(f: Files, s: HelperStep, fp: string)
    requires FilesHold(f, fp) && Requeuing(s) && HelperNext(f, s).Some?
    ensures FilesHold(HelperNext(f, s).value, fp)
  {
    MoveOne(fp);
  }

  lemma ResolvingKeepsFiles(f: Files, s: HelperStep, fp: string)
    requires FilesHold(f, fp) && Resolving(s) && HelperNext(f, s).Some?
    ensures FilesHold(HelperNext(f, s).value, fp)
  {
    MoveOne(fp);
  }

  lemma RecoverUnknownResponseKeepsFiles(f: Files, fp: string)
    requires FilesHold(f, fp) && HelperNext(f, RecoverUnknownResponse).Some?
    ensures FilesHold(HelperNext(f, RecoverUnknownResponse).value, fp)
  {
  }

  lemma RaiseGuardFailsKeepsFiles(f: Files, fp: string)
    requires FilesHold(f, fp) && HelperNext(f, RaiseGuardFails).Some?
    ensures FilesHold(HelperNext(f, RaiseGuardFails).value, fp)
  {
    MoveOne(fp);
  }

  lemma ArchiveClaimKeepsFiles(f: Files, fp: string)
    requires FilesHold(f, fp) && HelperNext(f, ArchiveClaim).Some?
    ensures FilesHold(HelperNext(f, ArchiveClaim).value, fp)
  {
    MoveOne(fp);
  }

  /** The step belongs to a drain that has no exception yet. */
  predicate Draining(s: HelperStep) {
    Claiming(s) || Entering(s) || Duplicating(s) || Answering(s) || Executing(s) || Finishing(s)
  }

  lemma DrainingKeepsFiles(f: Files, s: HelperStep, fp: string)
    requires FilesHold(f, fp) && Draining(s) && HelperNext(f, s).Some?
    ensures FilesHold(HelperNext(f, s).value, fp)
  {
    if Claiming(s) { ClaimingKeepsFiles(f, s, fp); }
    else if Entering(s) { EnteringKeepsFiles(f, s, fp); }
    else if Duplicating(s) { DuplicatingKeepsFiles(f, s, fp); }
    else if Answering(s) { AnsweringKeepsFiles(f, s, fp); }
    else if Executing(s) { ExecutingKeepsFiles(f, s, fp); }
    else { FinishingKeepsFiles(f, s, fp); }
  }

  /** No artifact of another effect exists. */
  lemma NoConflict(f: Files, s: HelperStep, fp: string)
    requires FilesHold(f, fp) && s.RecoverConflict?
    ensures HelperNext(f, s).None?
  {
  }

  lemma RecoverUnreadableKeepsFiles(f: Files, claim: string, fp: string)
    requires FilesHold(f, fp) && HelperNext(f, RecoverUnreadable(claim)).Some?
    ensures FilesHold(HelperNext(f, RecoverUnreadable(claim)).value, fp)
  {
    MoveOne(fp);
  }

  lemma RecoverRemoveKeepsFiles(f: Files, fp: string)
    requires FilesHold(f, fp) && HelperNext(f, RecoverRemove).Some?
    ensures FilesHold(HelperNext(f, RecoverRemove).value, fp)
  {
    MoveOne(fp);
  }

  lemma RecoveringKeepsFiles(f: Files, s: HelperStep, fp: string)
    requires FilesHold(f, fp) && !Draining(s) && HelperNext(f, s).Some?
    requires !Reporting(s) && !Interrupting(s) && !s.RaiseGuard? && !s.RaiseGuardFails? && !s.RemoveClaim? && !s.ArchiveClaim?
    ensures FilesHold(HelperNext(f, s).value, fp)
  {
    if s.GuardExpires? { GuardExpiresKeepsFiles(f, fp); }
    else if Requeuing(s) { RequeuingKeepsFiles(f, s, fp); }
    else if Resolving(s) { ResolvingKeepsFiles(f, s, fp); }
    else if s.RecoverUnknownResponse? { RecoverUnknownResponseKeepsFiles(f, fp); }
    else if s.RecoverConflict? { NoConflict(f, s, fp); }
    else if s.RecoverRemove? { RecoverRemoveKeepsFiles(f, fp); }
    else { RecoverUnreadableKeepsFiles(f, s.claim, fp); }
  }

  lemma HelperKeepsFiles(f: Files, s: HelperStep, fp: string)
    requires FilesHold(f, fp) && HelperNext(f, s).Some?
    ensures FilesHold(HelperNext(f, s).value, fp)
  {
    if Draining(s) { DrainingKeepsFiles(f, s, fp); }
    else if Reporting(s) { ReportingKeepsFiles(f, s, fp); }
    else if s.RaiseGuard? { RaiseGuardKeepsFiles(f, fp); }
    else if s.RaiseGuardFails? { RaiseGuardFailsKeepsFiles(f, fp); }
    else if s.RemoveClaim? { RemoveClaimKeepsFiles(f, fp); }
    else if s.ArchiveClaim? { ArchiveClaimKeepsFiles(f, fp); }
    else if Interrupting(s) { InterruptingKeepsFiles(f, s, fp); }
    else { RecoveringKeepsFiles(f, s, fp); }
  }

  lemma HelperKeepsQuiet(r: Req, s: HelperStep)
    requires Quiet(r) && Next(r, OfHelper(s)).Some?
    ensures Quiet(Next(r, OfHelper(s)).value)
  {
  }

  lemma DrainingKeepsTold(told: set<Verdict>, f: Files, requeued: bool, s: HelperStep, fp: string)
    requires FilesHold(f, fp) && Told(told, f, requeued) && Draining(s) && HelperNext(f, s).Some?
    ensures Told(told, HelperNext(f, s).value, requeued)
  {
    if Executing(s) || Finishing(s) {
      ExecutingKeepsTold(told, f, requeued, s, fp);
    } else {
      PreparingKeepsTold(told, f, requeued, s, fp);
    }
  }

  lemma ExecutingKeepsTold(told: set<Verdict>, f: Files, requeued: bool, s: HelperStep, fp: string)
    requires FilesHold(f, fp) && Told(told, f, requeued) && (Executing(s) || Finishing(s)) && HelperNext(f, s).Some?
    ensures Told(told, HelperNext(f, s).value, requeued)
  {
  }

  lemma PreparingKeepsTold(told: set<Verdict>, f: Files, requeued: bool, s: HelperStep, fp: string)
    requires FilesHold(f, fp) && Told(told, f, requeued) && HelperNext(f, s).Some?
    requires Claiming(s) || Entering(s) || Duplicating(s) || Answering(s)
    ensures Told(told, HelperNext(f, s).value, requeued)
  {
  }

  lemma OthersKeepTold(told: set<Verdict>, f: Files, requeued: bool, s: HelperStep, fp: string)
    requires FilesHold(f, fp) && Told(told, f, requeued) && !Draining(s) && HelperNext(f, s).Some?
    ensures Told(told, HelperNext(f, s).value, requeued || (s.RecoverReturn? && Rejected in told && !f.expired))
  {
  }

  lemma HelperKeepsTold(told: set<Verdict>, f: Files, requeued: bool, s: HelperStep, fp: string, f': Files)
    requires FilesHold(f, fp) && Told(told, f, requeued) && HelperNext(f, s) == Some(f')
    ensures Told(told, f', requeued || (s.RecoverReturn? && Rejected in told && !f.expired))
  {
    if Draining(s) {
      DrainingKeepsTold(told, f, requeued, s, fp);
    } else {
      OthersKeepTold(told, f, requeued, s, fp);
    }
  }

  lemma HelperKeepsTelling(r: Req, s: HelperStep, fp: string)
    requires FilesHold(r.files, fp) && Telling(r) && HelperNext(r.files, s).Some?
    ensures Telling(Next(r, OfHelper(s)).value)
  {
    var f' := HelperNext(r.files, s).value;
    HelperKeepsTold(r.gate.told, r.files, r.requeued, s, fp, f');
    assert Next(r, OfHelper(s)) == Some(Req(r.gate, f', r.requeued || RequeuesRefused(r, s)));
  }

  /** A response, once written, stays until the Gateway takes it. */
  lemma DrainingKeepsResponse(f: Files, s: HelperStep, fp: string)
    requires FilesHold(f, fp) && Draining(s) && HelperNext(f, s).Some?
    ensures f.response.Some? ==> HelperNext(f, s).value.response.Some?
    ensures HelperNext(f, s).value.wrote ==> f.wrote || HelperNext(f, s).value.response.Some?
  {
  }

  lemma OthersKeepResponse(f: Files, s: HelperStep, fp: string)
    requires FilesHold(f, fp) && !Draining(s) && HelperNext(f, s).Some?
    ensures f.response.Some? ==> HelperNext(f, s).value.response.Some?
    ensures HelperNext(f, s).value.wrote ==> f.wrote || HelperNext(f, s).value.response.Some?
  {
  }

  lemma HelperKeepsLedger(r: Req, s: HelperStep, fp: string)
    requires FilesHold(r.files, fp) && Ledger(r) && HelperNext(r.files, s).Some?
    ensures Ledger(Next(r, OfHelper(s)).value)
  {
    if Draining(s) {
      DrainingKeepsResponse(r.files, s, fp);
    } else {
      OthersKeepResponse(r.files, s, fp);
    }
  }

  lemma HelperKeepsInv(r: Req, s: HelperStep)
    requires Inv(r) && Next(r, OfHelper(s)).Some?
    ensures Inv(Next(r, OfHelper(s)).value)
  {
    if Quiet(r) {
      HelperKeepsQuiet(r, s);
    } else {
      var fp := r.gate.row.value.effect.fingerprint;
      HelperKeepsFiles(r.files, s, fp);
      HelperKeepsTelling(r, s, fp);
      HelperKeepsLedger(r, s, fp);
    }
  }

  lemma WatcherKeepsBarrier(r: Req, s: GateStep)
    requires Inv(r) && OfWatcher(s) && WatcherNext(r, s).Some?
    ensures Barrier(WatcherNext(r, s).value)
  {
  }

  lemma WatcherKeepsFiles(r: Req, s: GateStep)
    requires Inv(r) && OfWatcher(s) && WatcherNext(r, s).Some?
    ensures OneEffect(WatcherNext(r, s).value) && Guarding(WatcherNext(r, s).value.files)
  {
  }

  lemma WatcherKeepsLedger(r: Req, s: GateStep)
    requires Inv(r) && OfWatcher(s) && WatcherNext(r, s).Some?
    ensures Telling(WatcherNext(r, s).value) && Ledger(WatcherNext(r, s).value)
  {
  }

  /** The step admits a retry up to its ledger row. */
  predicate Admitting(s: GateStep) {
    s.Retry? || s.ReserveRow? || s.Abandon? || s.SettleBound? || s.SaveLedger? || s.PrepareFails?
  }

  /** The step decides whether the dispatch barrier is crossed. */
  predicate Crossing(s: GateStep) {
    s.BeginDispatch? || s.BeginFails? || s.LaneFull? || s.SubmitJob?
  }

  /** The step observes the response of a synchronous request. */
  predicate Observing(s: GateStep) {
    s.PollResponse? || s.PollTimeout?
  }

  /** The step settles the registry row of a finished task. */
  predicate Settling(s: GateStep) {
    s.DropPending? || s.Finish?
  }

  lemma AdmittingKeepsBarrier(r: Req, s: GateStep)
    requires Inv(r) && Admitting(s) && TaskNext(r, s).Some?
    ensures Barrier(TaskNext(r, s).value)
  {
  }

  /** Everything but row, pending row and task. */
  predicate OnlyAdmits(r: Req, r': Req) {
    && r'.files == r.files && r'.requeued == r.requeued
    && r'.gate == r.gate.(row := r'.gate.row, pending := r'.gate.pending, task := r'.gate.task)
  }

  lemma AdmittingFrame(r: Req, s: GateStep)
    requires TaskHolds(r) && Admitting(s) && TaskNext(r, s).Some?
    ensures var r' := TaskNext(r, s).value;
      && OnlyAdmits(r, r')
      && (r.gate.row.Some? ==> r'.gate.row.Some? && r'.gate.row.value.effect == r.gate.row.value.effect)
      && (r'.gate.pending != r.gate.pending ==>
            r'.gate.row.Some? && r'.gate.pending == Some(PendingRow(r'.gate.row.value.effect.fingerprint, None))
            && r.gate.row.Some? && r.gate.row.value.state.Prepared?)
  {
  }

  lemma AdmittingKeepsFiles(r: Req, s: GateStep)
    requires Inv(r) && Admitting(s) && TaskNext(r, s).Some?
    ensures OneEffect(TaskNext(r, s).value) && Guarding(TaskNext(r, s).value.files)
  {
    AdmittingFrame(r, s);
    AdmissionAgrees(r, TaskNext(r, s).value);
  }

  lemma AdmissionAgrees(r: Req, r': Req)
    requires OneEffect(r) && Guarding(r.files) && OnlyAdmits(r, r')
    requires r.gate.row.None? ==> Quiet(r) && r.gate.pending.None?
    requires r.gate.row.Some? ==> r'.gate.row.Some? && r'.gate.row.value.effect == r.gate.row.value.effect
    requires r'.gate.pending != r.gate.pending ==>
      r'.gate.row.Some? && r'.gate.pending == Some(PendingRow(r'.gate.row.value.effect.fingerprint, None))
    ensures OneEffect(r') && Guarding(r'.files)
  {
  }

  lemma AdmittingKeepsLedger(r: Req, s: GateStep)
    requires Inv(r) && Admitting(s) && TaskNext(r, s).Some?
    ensures Telling(TaskNext(r, s).value) && Ledger(TaskNext(r, s).value)
  {
    AdmittingFrame(r, s);
    AdmissionKeepsLedger(r, TaskNext(r, s).value);
  }

  lemma AdmissionKeepsLedger(r: Req, r': Req)
    requires Telling(r) && Ledger(r) && OnlyAdmits(r, r')
    requires r'.gate.pending == r.gate.pending || (Quiet(r) && r'.gate.pending.Some? && r'.gate.pending.value.captured.None?)
    ensures Telling(r') && Ledger(r')
  {
  }

  lemma CrossingKeepsBarrier(r: Req, s: GateStep)
    requires Inv(r) && Crossing(s) && TaskNext(r, s).Some?
    ensures Barrier(TaskNext(r, s).value)
  {
  }

  lemma CrossingKeepsFiles(r: Req, s: GateStep)
    requires Inv(r) && Crossing(s) && TaskNext(r, s).Some?
    ensures OneEffect(TaskNext(r, s).value) && Guarding(TaskNext(r, s).value.files)
  {
  }

  lemma CrossingKeepsLedger(r: Req, s: GateStep)
    requires Inv(r) && Crossing(s) && TaskNext(r, s).Some?
    ensures Telling(TaskNext(r, s).value) && Ledger(TaskNext(r, s).value)
  {
  }

  lemma ObservingKeepsBarrier(r: Req, s: GateStep)
    requires Inv(r) && Observing(s) && TaskNext(r, s).Some?
    ensures Barrier(TaskNext(r, s).value)
  {
    if s.PollTimeout? {
      TimeoutKeepsBarrier(r);
    } else {
      ResponseKeepsBarrier(r);
    }
  }

  lemma TimeoutKeepsBarrier(r: Req)
    requires Barrier(r) && TaskNext(r, PollTimeout).Some?
    ensures Barrier(TaskNext(r, PollTimeout).value)
  {
  }

  lemma ResponseKeepsBarrier(r: Req)
    requires Barrier(r) && TaskNext(r, PollResponse).Some?
    ensures Barrier(TaskNext(r, PollResponse).value)
  {
  }

  /** The response file is consumed by a synchronous caller, or nothing was observed. */
  predicate OnlyObserves(r: Req, r': Req) {
    && r'.requeued == r.requeued && r'.gate.row == r.gate.row && r'.gate.pending == r.gate.pending
    && r'.gate.watcher == r.gate.watcher && r'.gate.acked == r.gate.acked
    && (|| (r'.files == r.files && r'.gate.told == r.gate.told && r'.gate.handed == r.gate.handed)
        || (r.files.response.Some? && r'.files == r.files.(response := None) && r'.gate.handed
            && r'.gate.told == r.gate.told + {r.files.response.value.verdict}))
  }

  lemma ObservingFrame(r: Req, s: GateStep)
    requires Observing(s) && TaskNext(r, s).Some?
    ensures OnlyObserves(r, TaskNext(r, s).value)
  {
  }

  lemma ObservationKeepsFiles(r: Req, r': Req)
    requires OneEffect(r) && Guarding(r.files) && OnlyObserves(r, r')
    ensures OneEffect(r') && Guarding(r'.files)
  {
  }

  lemma ObservationKeepsLedger(r: Req, r': Req)
    requires Guarding(r.files) && Telling(r) && Ledger(r) && OnlyObserves(r, r')
    ensures Ledger(r') && (Submitted in r'.gate.told ==> r'.files.result == Some(Submitted))
  {
  }

  lemma ObservingKeepsFiles(r: Req, s: GateStep)
    requires Inv(r) && Observing(s) && TaskNext(r, s).Some?
    ensures OneEffect(TaskNext(r, s).value) && Guarding(TaskNext(r, s).value.files)
  {
    ObservingFrame(r, s);
    ObservationKeepsFiles(r, TaskNext(r, s).value);
  }

  lemma ObservingKeepsLedger(r: Req, s: GateStep)
    requires Inv(r) && Observing(s) && TaskNext(r, s).Some?
    ensures Telling(TaskNext(r, s).value) && Ledger(TaskNext(r, s).value)
  {
    ObservingFrame(r, s);
    ObservationKeepsLedger(r, TaskNext(r, s).value);
    if r.files.response.Some? {
      RefusalIsFinal(r.files);
    }
  }

  /** A response file that says rejected is about a command that is not executed any more. */
  lemma RefusalIsFinal(f: Files)
    requires Guarding(f) && f.response.Some?
    ensures f.response.value.verdict.Rejected? ==>
      f.native == [] && !f.drain.Guarded? && f.inbox == multiset{} && !f.drain.Claimed?
  {
  }

  lemma SettlingKeepsBarrier(r: Req, s: GateStep)
    requires Inv(r) && Settling(s) && TaskNext(r, s).Some?
    ensures Barrier(TaskNext(r, s).value)
  {
  }

  lemma SettlingKeepsFiles(r: Req, s: GateStep)
    requires Inv(r) && Settling(s) && TaskNext(r, s).Some?
    ensures OneEffect(TaskNext(r, s).value) && Guarding(TaskNext(r, s).value.files)
  {
  }

  lemma SettlingKeepsLedger(r: Req, s: GateStep)
    requires Inv(r) && Settling(s) && TaskNext(r, s).Some?
    ensures Telling(TaskNext(r, s).value) && Ledger(TaskNext(r, s).value)
  {
  }

  /** Whenever a file job runs, the request has left no trace yet: it publishes. */
  lemma JobPublishes(r: Req)
    requires Inv(r) && r.gate.job.Some?
    ensures NoTrace(r.files)
    ensures TaskNext(r, RunJob).value.gate.published == 1
    ensures TaskNext(r, RunJob).value.files == r.files.(inbox := multiset{r.gate.job.value.fp})
  {
    MoveOne(r.gate.job.value.fp);
  }

  lemma PublishingKeepsInv(r: Req, s: GateStep)
    requires Inv(r) && (s.RunJob? || s.JobBreaks?) && TaskNext(r, s).Some?
    ensures Inv(TaskNext(r, s).value)
  {
    JobPublishes(r);
  }

  lemma RollbackKeepsInv(r: Req, s: GateStep)
    requires Inv(r) && s.Rollback? && TaskNext(r, s).Some?
    ensures Inv(TaskNext(r, s).value)
  {
    var r' := TaskNext(r, s).value;
    assert Quiet(r) && r'.files == r.files && r'.gate.watcher == r.gate.watcher;
    assert r'.gate.pending == r.gate.pending || r'.gate.pending.None?;
    assert Quiet(r');
    assert Barrier(r');
    assert OneEffect(r');
  }

  lemma TaskKeepsInv(r: Req, s: GateStep)
    requires Inv(r) && TaskNext(r, s).Some?
    ensures Inv(TaskNext(r, s).value)
  {
    if Admitting(s) {
      AdmittingKeepsBarrier(r, s); AdmittingKeepsFiles(r, s); AdmittingKeepsLedger(r, s);
    } else if Crossing(s) {
      CrossingKeepsBarrier(r, s); CrossingKeepsFiles(r, s); CrossingKeepsLedger(r, s);
    } else if Observing(s) {
      ObservingKeepsBarrier(r, s); ObservingKeepsFiles(r, s); ObservingKeepsLedger(r, s);
    } else if Settling(s) {
      SettlingKeepsBarrier(r, s); SettlingKeepsFiles(r, s); SettlingKeepsLedger(r, s);
    } else if s.Rollback? {
      RollbackKeepsInv(r, s);
    } else if s.RunJob? || s.JobBreaks? {
      PublishingKeepsInv(r, s);
    }
  }

  lemma StepKeepsInv(r: Req, s: Step)
    requires Inv(r) && Next(r, s).Some?
    ensures Inv(Next(r, s).value)
  {
    match s
    case OfHelper(h) => HelperKeepsInv(r, h);
    case OfGateway(g) =>
      if OfWatcher(g) {
        WatcherKeepsBarrier(r, g); WatcherKeepsFiles(r, g); WatcherKeepsLedger(r, g);
      } else {
        TaskKeepsInv(r, g);
      }
  }

  lemma {:induction false} RunKeepsInv(r: Req, steps: seq<Step>)
    requires Inv(r) && Run(r, steps).Some?
    ensures Inv(Run(r, steps).value)
    decreases |steps|
  {
    if steps != [] {
      StepKeepsInv(r, steps[0]);
      RunKeepsInv(Next(r, steps[0]).value, steps[1..]);
    }
  }
}
