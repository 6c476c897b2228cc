/** What is reported about a request under hypotheses on its run: no final guard was written,
    or no synchronous caller used its id. */
module EffectReports {
  import opened Wrappers
  import opened EffectRegistry
  import opened HelperMachine
  import opened EffectMachine
  import opened EffectInvariant
  import opened EffectRuns

  // A call that raised, or whose Helper died before the final guard

  predicate SaysSubmitted(reply: Option<Response>) {
    reply.Some? && reply.value.verdict.Submitted?
  }

  predicate NoSubmissionFiled(f: Files) {
    && !SaysSubmitted(f.response)
    && (f.guard.Some? ==> !SaysSubmitted(f.guard.value.response))
    && (f.drain.Responding? ==> !SaysSubmitted(Some(f.drain.reply)))
  }

  /** Nothing says that the request was submitted. */
  predicate NoSubmission(r: Req) {
    NoSubmissionFiled(r.files) && Submitted !in r.gate.told
  }

  /** Only the final guard brings the result of a native call into the files. */
  lemma FinalGuardFilesTheResult(f: Files, s: HelperStep)
    requires NoSubmissionFiled(f) && HelperNext(f, s).Some? && !s.FinalGuard?
    ensures NoSubmissionFiled(HelperNext(f, s).value)
  {
    if Draining(s) {
      DrainFilesNoSubmission(f, s);
    } else {
      OthersFileNoSubmission(f, s);
    }
  }

  lemma DrainFilesNoSubmission(f: Files, s: HelperStep)
    requires NoSubmissionFiled(f) && HelperNext(f, s).Some? && Draining(s) && !s.FinalGuard?
    ensures NoSubmissionFiled(HelperNext(f, s).value)
  {
  }

  lemma OthersFileNoSubmission(f: Files, s: HelperStep)
    requires NoSubmissionFiled(f) && HelperNext(f, s).Some? && !Draining(s)
    ensures NoSubmissionFiled(HelperNext(f, s).value)
  {
  }

  lemma TaskInventsNoSubmission(r: Req, s: GateStep)
    requires NoSubmission(r) && TaskNext(r, s).Some? && !s.RunJob?
    ensures NoSubmission(TaskNext(r, s).value)
  {
    if Observing(s) {
      ObservingFrame(r, s);
    } else {
      OtherTasksTellNothing(r, s);
    }
  }

  lemma OtherTasksTellNothing(r: Req, s: GateStep)
    requires TaskNext(r, s).Some? && !s.RunJob? && !Observing(s)
    ensures var r' := TaskNext(r, s).value;
      && r'.gate.told == r.gate.told && r'.files.response == r.files.response && r'.files.guard == r.files.guard
      && r'.files.drain == r.files.drain
  {
  }

  lemma JobInventsNoSubmission(r: Req)
    requires NoSubmission(r) && TaskNext(r, RunJob).Some?
    ensures NoSubmission(TaskNext(r, RunJob).value)
  {
  }

  lemma WatcherInventsNoSubmission(r: Req, s: GateStep)
    requires NoSubmission(r) && WatcherNext(r, s).Some?
    ensures NoSubmission(WatcherNext(r, s).value)
  {
  }

  lemma StepInventsNoSubmission(r: Req, s: Step)
    requires NoSubmission(r) && Next(r, s).Some? && s != OfHelper(FinalGuard)
    ensures NoSubmission(Next(r, s).value)
  {
    match s
    case OfHelper(h) => FinalGuardFilesTheResult(r.files, h);
    case OfGateway(g) =>
      if OfWatcher(g) {
        WatcherInventsNoSubmission(r, g);
      } else if g.RunJob? {
        JobInventsNoSubmission(r);
      } else {
        TaskInventsNoSubmission(r, g);
      }
  }

  lemma {:induction false} RunInventsNoSubmission(b: Bridge, steps: seq<BridgeStep>, id: string)
    requires BridgeRun(b, steps).Some? && At(id, OfHelper(FinalGuard)) !in steps
    requires NoSubmission(RequestOf(b, id))
    ensures NoSubmission(RequestOf(BridgeRun(b, steps).value, id))
    decreases |steps|
  {
    if steps != [] {
      BridgeStepIsLocal(b, steps[0], id);
      if Projected(steps[0], id).Some? {
        assert steps[0] in steps;
        StepInventsNoSubmission(RequestOf(b, id), Projected(steps[0], id).value);
      }
      RunInventsNoSubmission(BridgeNext(b, steps[0]).value, steps[1..], id);
    }
  }

  /** What any reply of the request says: taken, on disk, guarded or captured. */
  function Reports(r: Req): set<Verdict> {
    r.gate.told
    + Said(r.files.response)
    + (if r.files.guard.Some? then Said(r.files.guard.value.response) else {})
    + (if r.gate.pending.Some? then Said(r.gate.pending.value.captured) else {})
  }

  function Said(reply: Option<Response>): set<Verdict> {
    if reply.Some? then {reply.value.verdict} else {}
  }

  /** A native call whose final guard was never written, because the call raised, because the
      guard could not be written, or because the Helper died first, is only ever reported as
      unknown: in the response file, in the guard, in the ledger and to any caller.  The one
      exception is a refusal the Gateway took before recovery requeued the command. */
  lemma CallWithoutFinalGuardIsUnknown(steps: seq<BridgeStep>, id: string)
    requires BridgeRun(map[], steps).Some? && At(id, OfHelper(FinalGuard)) !in steps
    ensures var r := RequestOf(BridgeRun(map[], steps).value, id);
      r.files.native != [] ==>
        && Said(r.files.response) <= {SubmitUnknown}
        && (r.files.guard.Some? ==> r.files.guard.value.state in {GuardProcessing, GuardUnknown}
                                    && Said(r.files.guard.value.response) <= {SubmitUnknown})
        && (forall v :: v in Reports(r) ==> v.SubmitUnknown? || (v.Rejected? && r.requeued))
  {
    RunInv(steps, id);
    RunInventsNoSubmission(map[], steps, id);
  }

  // A submission comes from an accepted call

  /** Nothing says, and nothing is about to say, that the request was submitted. */
  predicate NoAcceptance(r: Req) {
    && NoSubmission(r)
    && (r.files.drain.Returned? ==> !r.files.drain.outcome.Submitted?)
    && (r.files.guard.Some? ==> !r.files.guard.value.state.GuardSubmitted?)
  }

  lemma DrainInventsNoAcceptance(r: Req, s: HelperStep)
    requires NoAcceptance(r) && HelperNext(r.files, s).Some? && Draining(s) && s != NativeReturns(true)
    ensures NoAcceptance(r.(files := HelperNext(r.files, s).value))
  {
  }

  lemma RecoveryInventsNoAcceptance(r: Req, s: HelperStep)
    requires NoAcceptance(r) && HelperNext(r.files, s).Some? && !Draining(s)
    ensures NoAcceptance(r.(files := HelperNext(r.files, s).value))
  {
  }

  lemma TaskLeavesDrain(r: Req, s: GateStep)
    requires TaskNext(r, s).Some?
    ensures TaskNext(r, s).value.files.drain == r.files.drain && TaskNext(r, s).value.files.guard == r.files.guard
  {
  }

  lemma WatcherLeavesDrain(r: Req, s: GateStep)
    requires WatcherNext(r, s).Some?
    ensures WatcherNext(r, s).value.files.drain == r.files.drain && WatcherNext(r, s).value.files.guard == r.files.guard
  {
  }

  lemma StepInventsNoAcceptance(r: Req, s: Step)
    requires NoAcceptance(r) && Next(r, s).Some? && s != OfHelper(NativeReturns(true))
    ensures NoAcceptance(Next(r, s).value)
  {
    match s
    case OfHelper(h) =>
      if Draining(h) {
        DrainInventsNoAcceptance(r, h);
      } else {
        RecoveryInventsNoAcceptance(r, h);
      }
    case OfGateway(g) =>
      StepInventsNoSubmission(r, s);
      if OfWatcher(g) {
        WatcherLeavesDrain(r, g);
      } else {
        TaskLeavesDrain(r, g);
      }
  }

  lemma {:induction false} RunInventsNoAcceptance(b: Bridge, steps: seq<BridgeStep>, id: string)
    requires BridgeRun(b, steps).Some? && At(id, OfHelper(NativeReturns(true))) !in steps
    requires NoAcceptance(RequestOf(b, id))
    ensures NoAcceptance(RequestOf(BridgeRun(b, steps).value, id))
    decreases |steps|
  {
    if steps != [] {
      BridgeStepIsLocal(b, steps[0], id);
      if Projected(steps[0], id).Some? {
        assert steps[0] in steps;
        StepInventsNoAcceptance(RequestOf(b, id), Projected(steps[0], id).value);
      }
      RunInventsNoAcceptance(BridgeNext(b, steps[0]).value, steps[1..], id);
    }
  }

  /** Whatever happens, a request is reported as submitted, or guarded as such, only if its
      native call was made and accepted. */
  lemma SubmissionWasAccepted(steps: seq<BridgeStep>, id: string)
    requires BridgeRun(map[], steps).Some?
    ensures var r := RequestOf(BridgeRun(map[], steps).value, id);
      Submitted in Reports(r) || (r.files.guard.Some? && r.files.guard.value.state.GuardSubmitted?) ==>
        At(id, OfHelper(NativeReturns(true))) in steps
  {
    RunInv(steps, id);
    if At(id, OfHelper(NativeReturns(true))) !in steps {
      RunInventsNoAcceptance(map[], steps, id);
    }
  }

  // How a delivered response settles its effect

  /** The registry state says what the verdict says. */
  predicate SettledBy(row: Option<EffectRow>, v: Verdict) {
    && row.Some?
    && (v.Rejected? ==> row.value.state.Terminal?)
    && (v.Submitted? ==> row.value.state.Enqueued?)
    && (v.SubmitUnknown? ==> row.value.state.Unknown?)
  }

  /** A settled response has settled the row; Terminal means that a refusal was taken, and no
      task is about to write it. */
  predicate SettledAsDelivered(r: Req) {
    && (r.gate.watcher.Settled? ==> SettledBy(r.gate.row, r.gate.watcher.reply.verdict))
    && (r.gate.row.Some? && r.gate.row.value.state.Terminal? ==> Rejected in r.gate.told)
    && (r.gate.task.Finished? ==> !r.gate.task.outcome.Terminal?)
  }

  lemma WatcherSettlesAsDelivered(r: Req, s: GateStep)
    requires Ledger(r) && SettledAsDelivered(r) && WatcherNext(r, s).Some?
    requires s.StartupRelease? ==> r.gate.row.Some? && r.gate.row.value.state.Prepared?
    ensures SettledAsDelivered(WatcherNext(r, s).value)
  {
  }

  lemma TaskSettlesAsDelivered(r: Req, s: GateStep)
    requires Inv(r) && SettledAsDelivered(r) && TaskNext(r, s).Some? && s != SettleBound(Terminal)
    ensures SettledAsDelivered(TaskNext(r, s).value)
  {
    if s.RunJob? || s.JobBreaks? {
      JobLeavesCells(r, s);
      JobPublishes(r);
    } else {
      CellTaskSettlesAsDelivered(r, s);
    }
  }

  lemma CellTaskSettlesAsDelivered(r: Req, s: GateStep)
    requires Barrier(r) && SettledAsDelivered(r) && TaskNext(r, s).Some? && s != SettleBound(Terminal) && !s.RunJob? && !s.JobBreaks?
    ensures SettledAsDelivered(TaskNext(r, s).value)
  {
  }

  lemma StepSettlesAsDelivered(r: Req, s: Step)
    requires Inv(r) && SettledAsDelivered(r) && Next(r, s).Some? && s != OfGateway(SettleBound(Terminal))
    ensures SettledAsDelivered(Next(r, s).value)
  {
    match s
    case OfHelper(h) =>
    case OfGateway(g) =>
      if OfWatcher(g) {
        WatcherSettlesAsDelivered(r, g);
      } else {
        TaskSettlesAsDelivered(r, g);
      }
  }

  lemma {:induction false} RunSettlesAsDelivered(b: Bridge, steps: seq<BridgeStep>, id: string)
    requires BridgeRun(b, steps).Some? && At(id, OfGateway(SettleBound(Terminal))) !in steps
    requires BridgeInv(b) && SettledAsDelivered(RequestOf(b, id))
    ensures SettledAsDelivered(RequestOf(BridgeRun(b, steps).value, id))
    decreases |steps|
  {
    if steps != [] {
      BridgeStepIsLocal(b, steps[0], id);
      BridgeStepKeepsInv(b, steps[0]);
      if Projected(steps[0], id).Some? {
        assert steps[0] in steps;
        StepSettlesAsDelivered(RequestOf(b, id), Projected(steps[0], id).value);
      }
      RunSettlesAsDelivered(BridgeNext(b, steps[0]).value, steps[1..], id);
    }
  }

  /** In every run that does not settle the effect from a replayed order, an effect becomes
      Terminal only when a refusal was taken, and when the ledger row of a delivered response
      is dropped the effect is Terminal, Enqueued or Unknown as this response says. */
  lemma EffectsEndAsDelivered(steps: seq<BridgeStep>, last: BridgeStep, id: string)
    requires BridgeRun(map[], steps).Some? && BridgeNext(BridgeRun(map[], steps).value, last).Some?
    requires At(id, OfGateway(SettleBound(Terminal))) !in steps + [last]
    ensures var r := RequestOf(BridgeRun(map[], steps).value, id);
      var r' := RequestOf(BridgeNext(BridgeRun(map[], steps).value, last).value, id);
      && (r'.gate.row.Some? && r'.gate.row.value.state.Terminal? ==> Rejected in r'.gate.told)
      && (r.gate.pending.Some? && r.gate.pending.value.captured.Some? && r'.gate.pending != r.gate.pending ==>
            SettledBy(r'.gate.row, r.gate.pending.value.captured.value.verdict))
  {
    var b := BridgeRun(map[], steps).value;
    assert forall s :: s in steps ==> s in steps + [last];
    assert last in steps + [last];
    RunInv(steps, id);
    InitInv();
    RunSettlesAsDelivered(map[], steps, id);
    BridgeStepIsLocal(b, last, id);
    if Projected(last, id).Some? {
      LastStepSettles(RequestOf(b, id), Projected(last, id).value);
    }
  }

  lemma LastStepSettles(r: Req, s: Step)
    requires Inv(r) && SettledAsDelivered(r) && Next(r, s).Some? && s != OfGateway(SettleBound(Terminal))
    ensures var r' := Next(r, s).value;
      && (r'.gate.row.Some? && r'.gate.row.value.state.Terminal? ==> Rejected in r'.gate.told)
      && (r.gate.pending.Some? && r.gate.pending.value.captured.Some? && r'.gate.pending != r.gate.pending ==>
            SettledBy(r'.gate.row, r.gate.pending.value.captured.value.verdict))
  {
    StepSettlesAsDelivered(r, s);
    if r.gate.pending.Some? && r.gate.pending.value.captured.Some? {
      OnlySettledIsDropped(r, s);
    }
  }

  /** A captured response leaves the ledger only once its effect is settled. */
  lemma OnlySettledIsDropped(r: Req, s: Step)
    requires Inv(r) && Next(r, s).Some? && r.gate.pending.Some? && r.gate.pending.value.captured.Some?
    ensures Next(r, s).value.gate.pending != r.gate.pending ==>
      && r.gate.watcher == Settled(r.gate.pending.value.captured.value)
      && Next(r, s).value.gate.row == r.gate.row
  {
    match s
    case OfHelper(h) =>
    case OfGateway(g) =>
      if OfWatcher(g) {
        WatcherDropsSettled(r, g);
      } else {
        TaskCapturedStep(r, g);
        TaskKeepsCaptured(r, g);
      }
  }

  lemma WatcherDropsSettled(r: Req, s: GateStep)
    requires Ledger(r) && OfWatcher(s) && WatcherNext(r, s).Some? && r.gate.pending.Some? && r.gate.pending.value.captured.Some?
    requires s.StartupRelease? ==> Quiet(r)
    ensures WatcherNext(r, s).value.gate.pending != r.gate.pending ==>
      && r.gate.watcher == Settled(r.gate.pending.value.captured.value)
      && WatcherNext(r, s).value.gate.row == r.gate.row
  {
  }

  lemma TaskKeepsCaptured(r: Req, s: GateStep)
    requires TaskHolds(r) && TaskNext(r, s).Some? && r.gate.pending.Some? && r.gate.pending.value.captured.Some?
    ensures TaskNext(r, s).value.gate.pending == r.gate.pending
  {
    if s.SaveLedger? || s.Rollback? || s.DropPending? {
      LedgerTaskKeepsCaptured(r, s);
    } else if s.RunJob? || s.JobBreaks? {
      JobLeavesCells(r, s);
    } else {
      OtherTasksLeavePending(r, s);
    }
  }

  lemma LedgerTaskKeepsCaptured(r: Req, s: GateStep)
    requires TaskHolds(r) && TaskNext(r, s).Some? && r.gate.pending.Some? && r.gate.pending.value.captured.Some?
    requires s.SaveLedger? || s.Rollback? || s.DropPending?
    ensures TaskNext(r, s).value.gate.pending == r.gate.pending
  {
  }

  // Requests without a synchronous caller

  predicate AsynchronousTask(t: Task) {
    match t
    case NoTask => true
    case Waiting(_) => false
    case RollingBack(_) => true
    case Finished(_, _, _) => true
    case _ => t.asynchronous
  }

  predicate Asynchronous(r: Req) {
    && !r.gate.handed
    && AsynchronousTask(r.gate.task)
    && (r.gate.job.Some? ==> r.gate.job.value.asynchronous)
  }

  lemma TaskStaysAsynchronous(r: Req, s: GateStep)
    requires Asynchronous(r) && TaskNext(r, s).Some? && !s.RunJob?
    requires s.Retry? ==> s.asynchronous
    ensures Asynchronous(TaskNext(r, s).value)
  {
  }

  lemma JobStaysAsynchronous(r: Req)
    requires Asynchronous(r) && TaskNext(r, RunJob).Some?
    ensures Asynchronous(TaskNext(r, RunJob).value)
  {
  }

  lemma WatcherLeavesTask(r: Req, s: GateStep)
    requires WatcherNext(r, s).Some?
    ensures var g, g' := r.gate, WatcherNext(r, s).value.gate;
      g'.handed == g.handed && g'.task in {g.task, NoTask} && g'.job in {g.job, None}
  {
  }

  lemma StepStaysAsynchronous(r: Req, s: Step)
    requires Asynchronous(r) && Next(r, s).Some?
    requires s.OfGateway? && s.gate.Retry? ==> s.gate.asynchronous
    ensures Asynchronous(Next(r, s).value)
  {
    match s
    case OfHelper(h) =>
    case OfGateway(g) =>
      if OfWatcher(g) {
        WatcherLeavesTask(r, g);
      } else if g.RunJob? {
        JobStaysAsynchronous(r);
      } else {
        TaskStaysAsynchronous(r, g);
      }
  }

  /** No synchronous attempt for the id. */
  ghost predicate OnlyAsynchronous(steps: seq<BridgeStep>, id: string) {
    forall effect :: At(id, OfGateway(Retry(effect, false))) !in steps
  }

  lemma {:induction false} RunStaysAsynchronous(b: Bridge, steps: seq<BridgeStep>, id: string)
    requires BridgeRun(b, steps).Some? && OnlyAsynchronous(steps, id) && Asynchronous(RequestOf(b, id))
    ensures Asynchronous(RequestOf(BridgeRun(b, steps).value, id))
    decreases |steps|
  {
    if steps != [] {
      BridgeStepIsLocal(b, steps[0], id);
      assert steps[0] in steps;
      if Projected(steps[0], id).Some? {
        StepStaysAsynchronous(RequestOf(b, id), Projected(steps[0], id).value);
      }
      assert OnlyAsynchronous(steps[1..], id);
      RunStaysAsynchronous(BridgeNext(b, steps[0]).value, steps[1..], id);
    }
  }

  /** As long as an id is used for asynchronous requests only, a written response of a pending
      request is on disk or captured, whatever crashes. */
  lemma AsynchronousResponseIsNotLost(steps: seq<BridgeStep>, id: string)
    requires BridgeRun(map[], steps).Some? && OnlyAsynchronous(steps, id)
    ensures var r := RequestOf(BridgeRun(map[], steps).value, id);
      r.gate.pending.Some? && r.files.wrote ==> r.files.response.Some? || r.gate.pending.value.captured.Some?
  {
    RunStaysAsynchronous(map[], steps, id);
    WrittenResponseIsNotLost(steps, id);
  }
}
