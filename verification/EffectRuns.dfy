/** Whole runs of the bridge over any number of requests: client retries, Gateway and Helper
    crashes, rollbacks, recovery and guard expiry interleave freely. */
module EffectRuns {
  import opened Wrappers
  import opened EffectRegistry
  import opened HelperMachine
  import opened EffectMachine
  import opened EffectInvariant
  import Runs

  type Bridge = map<string, Req>

  /** One process crash loses the volatile part of every request at once. */
  datatype BridgeStep = At(id: string, step: Step) | GatewayDown | HelperDown

  function RequestOf(b: Bridge, id: string): Req {
    if id in b then b[id] else NEW_REQUEST
  }

  function AfterGatewayDown(r: Req): Req {
    Next(r, OfGateway(GatewayCrash)).value
  }

  function AfterHelperDown(r: Req): Req {
    Next(r, OfHelper(HelperCrash)).value
  }

  function BridgeNext(b: Bridge, s: BridgeStep): Option<Bridge> {
    match s
    case At(id, step) =>
      var r := Next(RequestOf(b, id), step);
      if r.Some? then Some(b[id := r.value]) else None
    case GatewayDown => Some(map id | id in b :: AfterGatewayDown(b[id]))
    case HelperDown => Some(map id | id in b :: AfterHelperDown(b[id]))
  }

  function BridgeRun(b: Bridge, steps: seq<BridgeStep>): Option<Bridge> {
    Runs.Run(BridgeNext, b, steps)
  }

  ghost predicate BridgeInv(b: Bridge) {
    forall id :: Inv(RequestOf(b, id))
  }

  /** What one step of the bridge does to one request. */
  function Projected(s: BridgeStep, id: string): Option<Step> {
    match s
    case At(other, step) => if other == id then Some(step) else None
    case GatewayDown => Some(OfGateway(GatewayCrash))
    case HelperDown => Some(OfHelper(HelperCrash))
  }

  lemma BridgeStepIsLocal(b: Bridge, s: BridgeStep, id: string)
    requires BridgeNext(b, s).Some?
    ensures var r, r' := RequestOf(b, id), RequestOf(BridgeNext(b, s).value, id);
      match Projected(s, id)
      case None => r' == r
      case Some(step) => Next(r, step) == Some(r')
  {
  }

  lemma BridgeStepKeepsInv(b: Bridge, s: BridgeStep)
    requires BridgeInv(b) && BridgeNext(b, s).Some?
    ensures BridgeInv(BridgeNext(b, s).value)
  {
    forall id ensures Inv(RequestOf(BridgeNext(b, s).value, id)) {
      BridgeStepIsLocal(b, s, id);
      if Projected(s, id).Some? {
        StepKeepsInv(RequestOf(b, id), Projected(s, id).value);
      }
    }
  }

  lemma {:induction false} BridgeRunKeepsInv(b: Bridge, steps: seq<BridgeStep>)
    requires BridgeInv(b) && BridgeRun(b, steps).Some?
    ensures BridgeInv(BridgeRun(b, steps).value)
    decreases |steps|
  {
    if steps != [] {
      BridgeStepKeepsInv(b, steps[0]);
      BridgeRunKeepsInv(BridgeNext(b, steps[0]).value, steps[1..]);
    }
  }

  lemma RunInv(steps: seq<BridgeStep>, id: string)
    requires BridgeRun(map[], steps).Some?
    ensures Inv(RequestOf(BridgeRun(map[], steps).value, id))
  {
    InitInv();
    BridgeRunKeepsInv(map[], steps);
  }

  /** End to end: in every run each request id causes at most one published command and at
      most one native call, and that call carries the effect bound to the id. */
  lemma NativeCallAtMostOnce(steps: seq<BridgeStep>, id: string)
    requires BridgeRun(map[], steps).Some?
    ensures var r := RequestOf(BridgeRun(map[], steps).value, id);
      && r.gate.published <= 1
      && |r.files.native| <= r.gate.published
      && (r.gate.row.None? ==> r.files.native == [])
      && (r.files.native != [] ==> r.files.native == [r.gate.row.value.effect.fingerprint])
  {
    RunInv(steps, id);
  }

  /** The dispatch barrier: a Prepared row means that nothing was ever published, although a
      rollback takes Dispatching rows back to Prepared. */
  lemma PreparedWasNeverPublished(steps: seq<BridgeStep>, id: string)
    requires BridgeRun(map[], steps).Some?
    ensures var r := RequestOf(BridgeRun(map[], steps).value, id);
      (r.gate.row.None? || r.gate.row.value.state.Prepared?) ==>
        r.gate.published == 0 && r.gate.job.None? && !CommandLive(r.files) && r.files.native == [] && r.files.response.None?
  {
    RunInv(steps, id);
  }

  /** A binding is never changed or removed, and Terminal is never left. */
  predicate BindingKept(r: Req, r': Req) {
    r.gate.row.Some? ==>
      && r'.gate.row.Some?
      && r'.gate.row.value.effect == r.gate.row.value.effect
      && (r.gate.row.value.state.Terminal? ==> r'.gate.row.value.state.Terminal?)
  }

  lemma {:induction false} BindingIsPermanent(b: Bridge, steps: seq<BridgeStep>, id: string)
    requires BridgeRun(b, steps).Some?
    ensures BindingKept(RequestOf(b, id), RequestOf(BridgeRun(b, steps).value, id))
    decreases |steps|
  {
    if steps != [] {
      var b' := BridgeNext(b, steps[0]).value;
      BindingStep(b, steps[0], id);
      BindingIsPermanent(b', steps[1..], id);
    }
  }

  lemma BindingStep(b: Bridge, s: BridgeStep, id: string)
    requires BridgeNext(b, s).Some?
    ensures BindingKept(RequestOf(b, id), RequestOf(BridgeNext(b, s).value, id))
  {
    BridgeStepIsLocal(b, s, id);
    if Projected(s, id).Some? {
      LocalBindingStep(RequestOf(b, id), Projected(s, id).value);
    }
  }

  lemma LocalBindingStep(r: Req, s: Step)
    requires Next(r, s).Some?
    ensures BindingKept(r, Next(r, s).value)
  {
    match s
    case OfHelper(h) =>
    case OfGateway(g) =>
      if OfWatcher(g) {
        WatcherBindingStep(r, g);
      } else {
        TaskBindingStep(r, g);
      }
  }

  lemma WatcherBindingStep(r: Req, s: GateStep)
    requires WatcherNext(r, s).Some?
    ensures BindingKept(r, WatcherNext(r, s).value)
  {
  }

  lemma TaskBindingStep(r: Req, s: GateStep)
    requires TaskNext(r, s).Some?
    ensures BindingKept(r, TaskNext(r, s).value)
  {
    if s.RunJob? || s.JobBreaks? {
      JobLeavesCells(r, s);
    } else {
      CellBindingStep(r, s);
    }
  }

  /** The file job touches no SQLite cell. */
  lemma JobLeavesCells(r: Req, s: GateStep)
    requires TaskNext(r, s).Some? && (s.RunJob? || s.JobBreaks?)
    ensures TaskNext(r, s).value.gate.row == r.gate.row && TaskNext(r, s).value.gate.pending == r.gate.pending
  {
  }

  lemma CellBindingStep(r: Req, s: GateStep)
    requires TaskNext(r, s).Some? && !s.RunJob? && !s.JobBreaks?
    ensures BindingKept(r, TaskNext(r, s).value)
  {
  }

  /** While a command file of an executed request is in the queue directories, a guard exists;
      recovery returns no executed or guarded command to the queue, and no guard that
      maintenance deletes has a live command file. */
  lemma GuardDiscipline(steps: seq<BridgeStep>, id: string)
    requires BridgeRun(map[], steps).Some?
    ensures Disciplined(RequestOf(BridgeRun(map[], steps).value, id).files)
  {
    RunInv(steps, id);
    var r := RequestOf(BridgeRun(map[], steps).value, id);
    if r.gate.row.Some? {
      HoldingFilesAreDisciplined(r.files, r.gate.row.value.effect.fingerprint);
    }
  }

  ghost predicate Disciplined(f: Files) {
    && (f.native != [] && CommandLive(f) ==> f.guard.Some?)
    && (forall c :: HelperNext(f, RecoverReturn(c)).Some? ==> f.native == [] && f.guard.None?)
    && (HelperNext(f, GuardExpires).Some? ==> !CommandLive(f))
  }

  lemma HoldingFilesAreDisciplined(f: Files, fp: string)
    requires FilesHold(f, fp)
    ensures Disciplined(f)
  {
  }

  /** What the Helper's files say is true: a rejection was never executed, a submission is
      one that the native call returned, so a call that raised is only reported as unknown. */
  lemma HelperFilesTellTheTruth(steps: seq<BridgeStep>, id: string)
    requires BridgeRun(map[], steps).Some?
    ensures var f := RequestOf(BridgeRun(map[], steps).value, id).files;
      && (f.response.Some? ==> True(f, f.response.value.verdict))
      && (f.guard.Some? && f.guard.value.response.Some? ==> True(f, f.guard.value.response.value.verdict))
      && (f.guard.Some? && f.guard.value.state.GuardRejected? ==> f.native == [])
      && (f.native != [] && f.result.None? && f.response.Some? ==> f.response.value.verdict.SubmitUnknown?)
      && (f.native != [] && f.result.None? && f.guard.Some? && f.guard.value.response.Some? ==>
            f.guard.value.response.value.verdict.SubmitUnknown?)
  {
    RunInv(steps, id);
  }

  /** A pending request never loses a written response: it is on disk, captured in SQLite,
      or was returned to a synchronous caller of the same id. */
  lemma WrittenResponseIsNotLost(steps: seq<BridgeStep>, id: string)
    requires BridgeRun(map[], steps).Some?
    ensures var r := RequestOf(BridgeRun(map[], steps).value, id);
      r.gate.pending.Some? && r.files.wrote ==>
        r.files.response.Some? || r.gate.pending.value.captured.Some? || r.gate.handed
  {
    RunInv(steps, id);
  }

  /** A captured response leaves the ledger only after its delivery was acknowledged, and its
      verdict never changes while it stays there. */
  lemma CapturedIsDeletedOnlyAfterAck(steps: seq<BridgeStep>, last: BridgeStep, id: string)
    requires BridgeRun(map[], steps).Some? && BridgeNext(BridgeRun(map[], steps).value, last).Some?
    ensures var r := RequestOf(BridgeRun(map[], steps).value, id);
      var r' := RequestOf(BridgeNext(BridgeRun(map[], steps).value, last).value, id);
      CapturedKept(r, r')
  {
    RunInv(steps, id);
    var b := BridgeRun(map[], steps).value;
    BridgeStepIsLocal(b, last, id);
    if Projected(last, id).Some? {
      LocalCapturedStep(RequestOf(b, id), Projected(last, id).value);
    }
  }

  /** No step of any run deletes a guard that says that the call is under way or its result
      unknown; any other guard goes only while no command of its request is claimed. */
  lemma UncertainGuardStays(b: Bridge, last: BridgeStep, id: string)
    requires BridgeNext(b, last).Some?
    ensures GuardKept(RequestOf(b, id).files, RequestOf(BridgeNext(b, last).value, id).files)
  {
    BridgeStepIsLocal(b, last, id);
    if Projected(last, id).Some? {
      LocalGuardStep(RequestOf(b, id), Projected(last, id).value);
    }
  }

  predicate GuardKept(f: Files, f': Files) {
    f.guard.Some? && f'.guard.None? ==>
      (f.guard.value.state == GuardSubmitted || f.guard.value.state == GuardRejected) && f.claims == multiset{}
  }

  lemma LocalGuardStep(r: Req, s: Step)
    requires Next(r, s).Some?
    ensures GuardKept(r.files, Next(r, s).value.files)
  {
    match s
    case OfHelper(h) => GuardStep(r.files, h);
    case OfGateway(g) => GateKeepsGuard(r, g);
  }

  lemma GuardStep(f: Files, s: HelperStep)
    requires HelperNext(f, s).Some?
    ensures GuardKept(f, HelperNext(f, s).value)
  {
  }

  lemma GateKeepsGuard(r: Req, s: GateStep)
    requires Next(r, OfGateway(s)).Some?
    ensures Next(r, OfGateway(s)).value.files.guard == r.files.guard
  {
  }

  /** The captured response of a pending row is kept, or dropped after its acknowledgement. */
  predicate CapturedKept(r: Req, r': Req) {
    r.gate.pending.Some? && r.gate.pending.value.captured.Some? && r'.gate.pending != r.gate.pending ==>
      r'.gate.pending.None? && r.gate.acked
  }

  lemma LocalCapturedStep(r: Req, s: Step)
    requires Inv(r) && Next(r, s).Some?
    ensures CapturedKept(r, Next(r, s).value)
  {
    match s
    case OfHelper(h) =>
    case OfGateway(g) =>
      if OfWatcher(g) {
        WatcherCapturedStep(r, g);
      } else {
        TaskCapturedStep(r, g);
      }
  }

  lemma WatcherCapturedStep(r: Req, s: GateStep)
    requires Ledger(r) && OfWatcher(s) && WatcherNext(r, s).Some?
    requires s.StartupRelease? ==> Quiet(r)
    ensures CapturedKept(r, WatcherNext(r, s).value)
  {
  }

  lemma TaskCapturedStep(r: Req, s: GateStep)
    requires TaskHolds(r) && TaskNext(r, s).Some?
    ensures CapturedKept(r, TaskNext(r, s).value)
  {
    if s.SaveLedger? || s.Rollback? || s.DropPending? {
      LedgerTaskStep(r, s);
    } else if s.RunJob? || s.JobBreaks? {
      JobLeavesCells(r, s);
    } else {
      OtherTasksLeavePending(r, s);
    }
  }

  lemma LedgerTaskStep(r: Req, s: GateStep)
    requires TaskHolds(r) && TaskNext(r, s).Some? && (s.SaveLedger? || s.Rollback? || s.DropPending?)
    ensures CapturedKept(r, TaskNext(r, s).value)
  {
  }

  lemma OtherTasksLeavePending(r: Req, s: GateStep)
    requires TaskNext(r, s).Some? && !s.SaveLedger? && !s.Rollback? && !s.DropPending? && !s.RunJob? && !s.JobBreaks?
    ensures TaskNext(r, s).value.gate.pending == r.gate.pending
  {
  }

  /** A refusal the Gateway has taken can only be contradicted by a requeued command. */
  lemma RefusalStandsUnlessRequeued(steps: seq<BridgeStep>, id: string)
    requires BridgeRun(map[], steps).Some?
    ensures var r := RequestOf(BridgeRun(map[], steps).value, id);
      && (Rejected in r.gate.told && r.files.native != [] ==> r.requeued)
      && (Submitted in r.gate.told ==> r.files.result == Some(Submitted))
  {
    RunInv(steps, id);
  }

  /** ... and whenever recovery can requeue a refused, still executable command, the run
      goes on to a native call that contradicts the refusal. */
  lemma RequeueContradictsRefusal(r: Req, fp: string)
    requires Inv(r) && Next(r, OfHelper(RecoverReturn(fp))).Some?
    requires RequeuesRefused(r, RecoverReturn(fp))
    ensures var r' := Run(r, [OfHelper(RecoverReturn(fp)), OfHelper(Claim(fp)), OfHelper(WriteGuard), OfHelper(NativeReturns(true))]);
      && r'.Some?
      && Rejected in r'.value.gate.told && r'.value.files.native == [fp]
  {
    var r1, r2, r3, r4 := RequeueSteps(r, fp);
    Runs.RunChain(Next, [r, r1, r2, r3, r4],
             [OfHelper(RecoverReturn(fp)), OfHelper(Claim(fp)), OfHelper(WriteGuard), OfHelper(NativeReturns(true))]);
  }

  lemma RequeueSteps(r: Req, fp: string) returns (r1: Req, r2: Req, r3: Req, r4: Req)
    requires Inv(r) && Next(r, OfHelper(RecoverReturn(fp))).Some? && RequeuesRefused(r, RecoverReturn(fp))
    ensures Next(r, OfHelper(RecoverReturn(fp))) == Some(r1)
    ensures Next(r1, OfHelper(Claim(fp))) == Some(r2)
    ensures Next(r2, OfHelper(WriteGuard)) == Some(r3)
    ensures Next(r3, OfHelper(NativeReturns(true))) == Some(r4)
    ensures Rejected in r4.gate.told && r4.files.native == [fp]
  {
    assert r.files.native == [] && r.files.guard.None? && r.files.response.None?;
    var f1 := HelperNext(r.files, RecoverReturn(fp)).value;
    var f2, f3, f4 := QueuedCommandRuns(f1, fp);
    r1 := Req(r.gate, f1, true);
    r2, r3, r4 := r1.(files := f2), r1.(files := f3), r1.(files := f4);
  }

  /** A queued command without guard or response that has not expired gets executed. */
  lemma QueuedCommandRuns(f: Files, fp: string) returns (f2: Files, f3: Files, f4: Files)
    requires fp in f.inbox && f.drain.Idle? && f.guard.None? && f.response.None? && f.native == [] && !f.expired
    ensures HelperNext(f, Claim(fp)) == Some(f2)
    ensures HelperNext(f2, WriteGuard) == Some(f3)
    ensures HelperNext(f3, NativeReturns(true)) == Some(f4)
    ensures f4.native == [fp]
  {
    f2 := f.(inbox := f.inbox - multiset{fp}, claims := f.claims + multiset{fp}, drain := Claimed(fp));
    f3 := f2.(guard := Some(Guard(GuardProcessing, fp, None)), drain := Guarded(fp));
    f4 := f3.(native := [] + [fp], result := Some(Submitted), drain := Returned(fp, Submitted));
  }

  // A concrete run in which a delivered refusal is followed by a native call.

  const ORDER := Effect("order", "x")
  const AWAITING_ROW := PendingRow("x", None)
  const REFUSAL := Response("x", Rejected)

  const BEGUN := NEW_REQUEST.(gate := NO_GATE.(
    row := Some(EffectRow(ORDER, Dispatching)), pending := Some(AWAITING_ROW), task := Started(ORDER, true)))

  const PUBLISHED_GATE := NO_GATE.(row := Some(EffectRow(ORDER, Enqueued)), pending := Some(AWAITING_ROW), published := 1)

  const PUBLISHED := Req(PUBLISHED_GATE, NO_FILES.(inbox := multiset{"x"}), false)

  /** The Helper broke on the claim before it wrote a guard; the response says rejected. */
  const REFUSED := PUBLISHED.(files := NO_FILES.(
    claims := multiset{"x"}, response := Some(REFUSAL), wrote := true, drain := RaiseResponded("x", false)))

  /** The refusal is in the durable ledger and its file is gone. */
  const CAPTURED := Req(
    PUBLISHED_GATE.(pending := Some(PendingRow("x", Some(REFUSAL))), told := {Rejected}, watcher := Ready(REFUSAL)),
    REFUSED.files.(response := None),
    false)

  /** The Gateway delivered and settled the refusal; then the Helper crashed. */
  const TOLD := Req(
    PUBLISHED_GATE.(row := Some(EffectRow(ORDER, Terminal)), pending := Some(PendingRow("x", Some(REFUSAL))),
                   told := {Rejected}, acked := true, watcher := Settled(REFUSAL)),
    NO_FILES.(claims := multiset{"x"}, wrote := true),
    false)

  const TO_BEGUN := [OfGateway(Retry(ORDER, true)), OfGateway(ReserveRow), OfGateway(SaveLedger), OfGateway(BeginDispatch)]
  const TO_PUBLISHED := [OfGateway(SubmitJob), OfGateway(RunJob), OfGateway(Finish(false))]
  const TO_REFUSED := [OfHelper(Claim("x")), OfHelper(ClaimBreaks), OfHelper(RaiseResponse)]
  const TO_CAPTURED := [OfGateway(WatchRead), OfGateway(WatchStore), OfGateway(WatchUnlink)]
  const TO_TOLD := [OfGateway(WatchDeliver), OfGateway(WatchSettle), OfHelper(HelperCrash)]
  const TO_EXECUTED := [OfHelper(RecoverReturn("x")), OfHelper(Claim("x")), OfHelper(WriteGuard), OfHelper(NativeReturns(true))]

  lemma ReachesBegun()
    ensures Run(NEW_REQUEST, TO_BEGUN) == Some(BEGUN)
  {
    var bound := NO_GATE.(row := Some(EffectRow(ORDER, Prepared)));
    Runs.RunChain(Next, [NEW_REQUEST,
              NEW_REQUEST.(gate := NO_GATE.(task := Reserving(ORDER, true))),
              NEW_REQUEST.(gate := bound.(task := Bound(ORDER, true, false))),
              NEW_REQUEST.(gate := bound.(pending := Some(AWAITING_ROW), task := Ledgered(ORDER, true))),
              BEGUN], TO_BEGUN);
  }

  lemma ReachesPublished()
    ensures Run(BEGUN, TO_PUBLISHED) == Some(PUBLISHED)
  {
    var publishing := BEGUN.(gate := BEGUN.gate.(job := Some(Job("x", true)), task := Publishing(ORDER, true)));
    MoveOne("x");
    Runs.RunChain(Next, [BEGUN, publishing,
              PUBLISHED.(gate := BEGUN.gate.(published := 1, task := Finished(ORDER, Enqueued, false))),
              PUBLISHED], TO_PUBLISHED);
  }

  lemma ReachesRefused()
    ensures Run(PUBLISHED, TO_REFUSED) == Some(REFUSED)
  {
    MoveOne("x");
    var claimed := NO_FILES.(claims := multiset{"x"});
    Runs.RunChain(Next, [PUBLISHED, PUBLISHED.(files := claimed.(drain := Claimed("x"))),
              PUBLISHED.(files := claimed.(drain := Raised("x", false))), REFUSED], TO_REFUSED);
  }

  const READ_REFUSAL := REFUSED.(gate := PUBLISHED_GATE.(told := {Rejected}, watcher := Read("x", REFUSAL)))
  const STORED_REFUSAL := REFUSED.(gate := PUBLISHED_GATE.(
    told := {Rejected}, pending := Some(PendingRow("x", Some(REFUSAL))), watcher := Stored(REFUSAL)))

  lemma RefusalIsRead()
    ensures Next(REFUSED, OfGateway(WatchRead)) == Some(READ_REFUSAL)
  {
    assert {} + {Rejected} == {Rejected};
  }

  lemma RefusalIsStored()
    ensures Next(READ_REFUSAL, OfGateway(WatchStore)) == Some(STORED_REFUSAL)
  {
  }

  lemma RefusalIsUnlinked()
    ensures Next(STORED_REFUSAL, OfGateway(WatchUnlink)) == Some(CAPTURED)
  {
  }

  lemma ReachesCaptured()
    ensures Run(REFUSED, TO_CAPTURED) == Some(CAPTURED)
  {
    RefusalIsRead(); RefusalIsStored(); RefusalIsUnlinked();
    Runs.RunChain(Next, [REFUSED, READ_REFUSAL, STORED_REFUSAL, CAPTURED], TO_CAPTURED);
  }

  lemma ReachesTold()
    ensures Run(CAPTURED, TO_TOLD) == Some(TOLD)
  {
    Runs.RunChain(Next, [CAPTURED, CAPTURED.(gate := CAPTURED.gate.(watcher := Acked(REFUSAL), acked := true)),
              TOLD.(files := CAPTURED.files), TOLD], TO_TOLD);
  }

  /** The refusal was acknowledged and the row is Terminal, yet the order is executed. */
  lemma DeliveredRefusalCanBeExecuted()
    ensures var r := Run(NEW_REQUEST, TO_BEGUN + (TO_PUBLISHED + (TO_REFUSED + (TO_CAPTURED + (TO_TOLD + TO_EXECUTED)))));
      && r.Some?
      && r.value.gate.acked && Rejected in r.value.gate.told && r.value.gate.row == Some(EffectRow(ORDER, Terminal))
      && r.value.files.native == ["x"]
  {
    ReachesBegun(); ReachesPublished(); ReachesRefused();
    ReachesCaptured(); ReachesTold(); ReachesExecuted();
    RunStages(NEW_REQUEST, TO_BEGUN, BEGUN, TO_PUBLISHED, PUBLISHED, TO_REFUSED, REFUSED,
              TO_CAPTURED, CAPTURED, TO_TOLD, TOLD, TO_EXECUTED);
  }

  lemma ReachesExecuted()
    ensures var r := Run(TOLD, TO_EXECUTED);
      && r.Some?
      && r.value.gate.acked && Rejected in r.value.gate.told && r.value.gate.row == Some(EffectRow(ORDER, Terminal))
      && r.value.files.native == ["x"]
  {
    MoveOne("x");
    assert [] + ["x"] == ["x"];
    var queued := NO_FILES.(inbox := multiset{"x"}, wrote := true);
    var claimed := NO_FILES.(claims := multiset{"x"}, wrote := true);
    var guarded := claimed.(guard := Some(Guard(GuardProcessing, "x", None)));
    Runs.RunChain(Next, [TOLD, Req(TOLD.gate, queued, true),
              Req(TOLD.gate, claimed.(drain := Claimed("x")), true),
              Req(TOLD.gate, guarded.(drain := Guarded("x")), true),
              Req(TOLD.gate, guarded.(native := ["x"], result := Some(Submitted), drain := Returned("x", Submitted)), true)],
             TO_EXECUTED);
  }

  lemma RunStages(r0: Req, a: seq<Step>, r1: Req, b: seq<Step>, r2: Req, c: seq<Step>, r3: Req,
                  d: seq<Step>, r4: Req, e: seq<Step>, r5: Req, f: seq<Step>)
    requires Run(r0, a) == Some(r1) && Run(r1, b) == Some(r2) && Run(r2, c) == Some(r3)
    requires Run(r3, d) == Some(r4) && Run(r4, e) == Some(r5)
    ensures Run(r0, a + (b + (c + (d + (e + f))))) == Run(r5, f)
  {
    Runs.RunConcat(Next, r0, a, b + (c + (d + (e + f))));
    Runs.RunConcat(Next, r1, b, c + (d + (e + f)));
    Runs.RunConcat(Next, r2, c, d + (e + f));
    Runs.RunConcat(Next, r3, d, e + f);
    Runs.RunConcat(Next, r4, e, f);
  }
}
