/** Admission control from a stale sample of the command-queue depth. */
module CommandBacklog {
  import opened Wrappers
  import Runs

  const HIGH_WATER: nat := 224
  const MAX_INFLIGHT: nat := 8
  /** The depth scan stops counting here. */
  const SCAN_LIMIT: nat := 257

  /** The counters of one account: slots held by requests in flight, enqueues of this run,
      and the latest health sample with the enqueue total it was started at. */
  datatype Counters = Counters(
    reserved: nat, inflight: nat, total: nat, watermark: nat, depth: nat, ready: bool)

  const ZERO := Counters(0, 0, 0, 0, 0, false)

  function Estimate(c: Counters): nat {
    c.depth + (if c.total > c.watermark then c.total - c.watermark else 0) + c.reserved
  }

  predicate Admissible(c: Counters) {
    Estimate(c) < HIGH_WATER && c.inflight < MAX_INFLIGHT
  }

  function Admitted(c: Counters): Counters {
    c.(reserved := c.reserved + 1, inflight := c.inflight + 1)
  }

  function Released(c: Counters, enqueued: bool): Counters {
    c.(reserved := if c.reserved > 0 then c.reserved - 1 else 0,
       inflight := if c.inflight > 0 then c.inflight - 1 else 0,
       total := if enqueued then c.total + 1 else c.total)
  }

  function Sampled(c: Counters, depth: int, captured: int, ready: bool): Counters {
    c.(depth := if depth > 0 then depth else 0, watermark := if captured > 0 then captured else 0, ready := ready)
  }

  class CommandCapacity {
    var reserved: nat
    var inflight: nat
    var total: nat
    var watermark: nat
    var depth: nat
    var ready: bool

    function State(): Counters
      reads this
    {
      Counters(reserved, inflight, total, watermark, depth, ready)
    }

    constructor ()
      ensures State() == ZERO
    {
      reserved, inflight, total, watermark, depth, ready := 0, 0, 0, 0, 0, false;
    }

    /** Reserve one effect slot using the latest depth sample. */
    method TryReserve() returns (ok: bool)
      modifies this`reserved
      ensures ok <==> Estimate(old(State())) < HIGH_WATER
      ensures reserved == if ok then old(reserved) + 1 else old(reserved)
      ensures Estimate(State()) <= HIGH_WATER || Estimate(State()) == Estimate(old(State()))
    {
      var recent := if total - watermark > 0 then total - watermark else 0;
      if depth + recent + reserved >= HIGH_WATER {
        return false;
      }
      reserved := reserved + 1;
      return true;
    }

    method TryAcquireEffect() returns (ok: bool)
      modifies this`inflight
      ensures ok <==> old(inflight) < MAX_INFLIGHT
      ensures inflight == if ok then old(inflight) + 1 else old(inflight)
    {
      if inflight >= MAX_INFLIGHT {
        return false;
      }
      inflight := inflight + 1;
      return true;
    }

    /** dispatch: a slot, then a place in flight; without the place the slot is given back. */
    method Admit() returns (ok: bool)
      modifies this`reserved, this`inflight, this`total
      ensures ok <==> Admissible(old(State()))
      ensures ok <==> old(depth) + (if old(total) > old(watermark) then old(total) - old(watermark) else 0) + old(reserved) < 224
                      && old(inflight) < 8
      ensures State() == if ok then Admitted(old(State())) else old(State())
    {
      ok := TryReserve();
      if ok {
        ok := TryAcquireEffect();
        if !ok {
          ReleaseSlot(false);
        }
      }
    }

    /** A finished request gives its slot back; one that may have enqueued keeps the estimate
        where it was, until a sample has seen the file. */
    method ReleaseSlot(enqueued: bool)
      modifies this`reserved, this`total
      ensures reserved == (if old(reserved) > 0 then old(reserved) - 1 else 0)
      ensures total == old(total) + if enqueued then 1 else 0
      ensures old(reserved) > 0 && watermark <= old(total) ==>
        Estimate(State()) == Estimate(old(State())) - if enqueued then 0 else 1
    {
      if reserved > 0 {
        reserved := reserved - 1;
      }
      if enqueued {
        total := total + 1;
      }
    }

    method ReleaseEffect()
      modifies this`inflight
      ensures inflight == if old(inflight) > 0 then old(inflight) - 1 else 0
    {
      if inflight > 0 {
        inflight := inflight - 1;
      }
    }

    /** A sample replaces the depth and takes back the enqueues it may have seen: the estimate
        moves by the change of depth less those enqueues. */
    method CacheHealth(sampledDepth: int, captured: int, sampledReady: bool)
      modifies this`depth, this`watermark, this`ready
      ensures State() == Sampled(old(State()), sampledDepth, captured, sampledReady)
      ensures 0 <= sampledDepth && old(watermark) <= captured <= total ==>
        Estimate(State()) - Estimate(old(State())) == (sampledDepth - old(depth)) - (captured - old(watermark))
    {
      depth := if sampledDepth > 0 then sampledDepth else 0;
      watermark := if captured > 0 then captured else 0;
      ready := sampledReady;
    }
  }

  // The run of one account: requests, the Helper and the health sampler interleave.

  datatype Sample = NoSample | Captured(total: nat) | Scanned(total: nat, depth: nat, readable: bool)

  /** `live` command files exist.  Of the requests in flight, `waiting` ones have yet to pass
      the readiness check, `cleared` ones have passed it but not written their file, and
      `holding` ones have.  Clients are served after a sample. */
  datatype Backlog = Backlog(
    live: nat, waiting: nat, cleared: nat, holding: nat, counters: Counters, sample: Sample, primed: bool, serving: bool)

  datatype BacklogStep =
    | Admit
    | Clear
    | Publish
    | FinishPublished
    | FailCleared
    | FailWaiting(attempted: bool)
    | Consume
    | Capture
    | Scan(readable: bool)
    | StoreSample(ready: bool)
    | FailSample
    | Serve
    | Crash

  function Next(b: Backlog, s: BacklogStep): Option<Backlog> {
    match s
    case Admit =>
      if b.serving && Admissible(b.counters) then Some(b.(counters := Admitted(b.counters), waiting := b.waiting + 1)) else None
    // _ensure_helper_ready
    case Clear =>
      if b.waiting > 0 && b.counters.ready then Some(b.(waiting := b.waiting - 1, cleared := b.cleared + 1)) else None
    case Publish =>
      if b.cleared > 0 then
        Some(b.(live := b.live + 1, cleared := b.cleared - 1, holding := b.holding + 1))
      else None
    // the end of a dispatch: it counts as an enqueue once its handler was entered
    case FinishPublished =>
      if b.holding > 0 then Some(b.(holding := b.holding - 1, counters := Released(b.counters, true))) else None
    case FailCleared =>
      if b.cleared > 0 then Some(b.(cleared := b.cleared - 1, counters := Released(b.counters, true))) else None
    case FailWaiting(attempted) =>
      if b.waiting > 0 then Some(b.(waiting := b.waiting - 1, counters := Released(b.counters, attempted))) else None
    case Consume => if b.live > 0 then Some(b.(live := b.live - 1)) else None
    // _sample_helper_health: the enqueue total is read before the directories are scanned
    case Capture => if b.sample.NoSample? then Some(b.(sample := Captured(b.counters.total))) else None
    case Scan(readable) =>
      if b.sample.Captured? then
        Some(b.(sample := Scanned(b.sample.total, if readable && b.live < SCAN_LIMIT then b.live else SCAN_LIMIT, readable)))
      else None
    case StoreSample(ready) =>
      if b.sample.Scanned? && (ready ==> b.sample.readable) then
        Some(b.(counters := Sampled(b.counters, b.sample.depth, b.sample.total, ready), sample := NoSample, primed := true))
      else None
    // the exception handler keeps the old depth, stores the new watermark and closes the gate
    case FailSample =>
      if b.sample.NoSample? then None
      else Some(b.(counters := Sampled(b.counters, b.counters.depth, b.sample.total, false), sample := NoSample, primed := true))
    case Serve => if b.primed then Some(b.(serving := true)) else None
    case Crash => Some(Fresh(b.live))
  }

  function Fresh(live: nat): Backlog {
    Backlog(live, 0, 0, 0, ZERO, NoSample, false, false)
  }

  function Run(b: Backlog, steps: seq<BacklogStep>): Option<Backlog> {
    Runs.Run(Next, b, steps)
  }

  /** Command files, present and still to come. */
  function Outstanding(b: Backlog): nat {
    b.live + b.cleared + b.waiting
  }

  /** The backlog grows past the mark. */
  predicate Grows(b: Backlog, b': Backlog) {
    Outstanding(b') > Outstanding(b) && Outstanding(b') > HIGH_WATER
  }

  /** The estimate without the requests that wait, as a sample with this depth and enqueue
      total makes it.  Until the next sample it does not decrease. */
  function Base(b: Backlog, depth: nat, watermark: nat): int {
    depth + (b.counters.total - watermark) + b.holding + b.cleared
  }

  /** The estimate accounts for every file that is there or cleared to come, or is high. */
  predicate Covers(b: Backlog, depth: nat, watermark: nat) {
    var base := Base(b, depth, watermark);
    watermark <= b.counters.total && (base >= HIGH_WATER || b.live + b.cleared <= base)
  }

  /** The gate is closed and all in flight together cannot reach the mark. */
  predicate Blocked(b: Backlog) {
    !b.counters.ready && b.live + b.cleared + MAX_INFLIGHT <= HIGH_WATER
  }

  predicate Consistent(b: Backlog) {
    && b.counters.reserved == b.counters.inflight == b.waiting + b.cleared + b.holding <= MAX_INFLIGHT
    && b.counters.watermark <= b.counters.total
    && (b.serving ==> b.primed)
    && (!b.primed ==> b.counters == ZERO)
    && (b.sample.Captured? ==> b.sample.total <= b.counters.total)
    && (b.sample.Scanned? ==> Covers(b, b.sample.depth, b.sample.total))
  }

  predicate Inv(b: Backlog) {
    Consistent(b) && (b.primed ==> Covers(b, b.counters.depth, b.counters.watermark) || Blocked(b))
  }

  lemma FreshHoldsInv(live: nat)
    ensures Inv(Fresh(live))
  {
  }

  /** A failed sample now would leave an estimate below the mark that misses files, with
      enough files there for the requests it lets in to pass the mark. */
  predicate Forgets(b: Backlog) {
    && !b.sample.NoSample?
    && var base := Base(b, b.counters.depth, b.sample.total);
      base < HIGH_WATER && base < b.live + b.cleared && HIGH_WATER < b.live + b.cleared + MAX_INFLIGHT
  }

  predicate Careful(b: Backlog, s: BacklogStep) {
    s.FailSample? ==> !Forgets(b)
  }

  predicate CarefulRun(b: Backlog, steps: seq<BacklogStep>)
    decreases |steps|
  {
    steps == [] || (Careful(b, steps[0]) && (Next(b, steps[0]).Some? ==> CarefulRun(Next(b, steps[0]).value, steps[1..])))
  }

  lemma SampleKeepsInv(b: Backlog, s: BacklogStep)
    requires Inv(b) && Next(b, s).Some? && Careful(b, s)
    requires s.Capture? || s.Scan? || s.StoreSample? || s.FailSample? || s.Serve? || s.Crash?
    ensures Inv(Next(b, s).value)
  {
  }

  lemma RequestKeepsInv(b: Backlog, s: BacklogStep)
    requires Inv(b) && Next(b, s).Some?
    requires s.Admit? || s.Clear? || s.Publish? || s.FinishPublished? || s.FailCleared? || s.FailWaiting? || s.Consume?
    ensures Inv(Next(b, s).value) && !Grows(b, Next(b, s).value)
  {
  }

  lemma StepKeepsInv(b: Backlog, s: BacklogStep)
    requires Inv(b) && Next(b, s).Some? && Careful(b, s)
    ensures Inv(Next(b, s).value) && !Grows(b, Next(b, s).value)
  {
    if s.Capture? || s.Scan? || s.StoreSample? || s.FailSample? || s.Serve? || s.Crash? {
      SampleKeepsInv(b, s);
    } else {
      RequestKeepsInv(b, s);
    }
  }

  /** However enqueues, consumption, crashes and samples interleave, the backlog never grows
      past the high-water mark, unless a failed sample forgets files. */
  lemma {:induction false} BacklogNeverGrowsPastHighWater(b: Backlog, steps: seq<BacklogStep>)
    requires Inv(b) && CarefulRun(b, steps) && Run(b, steps).Some?
    ensures var b' := Run(b, steps).value;
      Inv(b') && !Grows(b, b')
    decreases |steps|
  {
    if steps != [] {
      StepKeepsInv(b, steps[0]);
      BacklogNeverGrowsPastHighWater(Next(b, steps[0]).value, steps[1..]);
    }
  }

  /** So a Gateway that starts on an acceptable queue keeps it acceptable. */
  lemma FreshRunStaysBelowHighWater(live: nat, steps: seq<BacklogStep>)
    requires live <= HIGH_WATER && CarefulRun(Fresh(live), steps) && Run(Fresh(live), steps).Some?
    ensures Outstanding(Run(Fresh(live), steps).value) <= 224
  {
    FreshHoldsInv(live);
    BacklogNeverGrowsPastHighWater(Fresh(live), steps);
  }

  /** In the other direction the estimate is not needlessly strict: with a sample taken now
      and no request in flight, it is the depth of the queue. */
  lemma FreshSampleIsExact(b: Backlog)
    requires Inv(b) && b.sample.NoSample? && b.counters.inflight == 0 && b.live < SCAN_LIMIT
    ensures var b' := Run(b, GOOD_SAMPLE);
      b'.Some? && Estimate(b'.value.counters) == b.live
  {
    SampleRun(b);
  }

  // When a failed sample lets the backlog grow

  const GOOD_SAMPLE := [Capture, Scan(true), StoreSample(true)]

  lemma SampleRun(b: Backlog)
    requires b.sample.NoSample?
    ensures Run(b, GOOD_SAMPLE) == Some(b.(
      counters := Sampled(b.counters, if b.live < SCAN_LIMIT then b.live else SCAN_LIMIT, b.counters.total, true), primed := true))
  {
    var b1 := b.(sample := Captured(b.counters.total));
    var b2 := Next(b1, Scan(true)).value;
    var b3 := Next(b2, StoreSample(true)).value;
    Runs.RunChain(Next, [b, b1, b2, b3], GOOD_SAMPLE);
  }

  predicate NoFailures(steps: seq<BacklogStep>) {
    forall s :: s in steps ==> !s.FailSample?
  }

  lemma {:induction false} NoFailuresIsCareful(b: Backlog, steps: seq<BacklogStep>)
    requires NoFailures(steps)
    ensures CarefulRun(b, steps)
    decreases |steps|
  {
    if steps != [] {
      assert steps[0] in steps;
      if Next(b, steps[0]).Some? {
        NoFailuresIsCareful(Next(b, steps[0]).value, steps[1..]);
      }
    }
  }

  /** All requests in flight end: waiting ones fail, cleared ones publish. */
  lemma {:induction false} EndAll(b: Backlog) returns (steps: seq<BacklogStep>)
    requires b.counters.reserved == b.counters.inflight == b.waiting + b.cleared + b.holding
    ensures NoFailures(steps)
    ensures Run(b, steps) == Some(b.(
      live := b.live + b.cleared, waiting := 0, cleared := 0, holding := 0,
      counters := b.counters.(reserved := 0, inflight := 0, total := b.counters.total + b.cleared + b.holding)))
    decreases b.waiting + 2 * b.cleared + b.holding
  {
    steps := [];
    if b.waiting + b.cleared + b.holding > 0 {
      var s := if b.waiting > 0 then FailWaiting(false) else if b.cleared > 0 then Publish else FinishPublished;
      var rest := EndAll(Next(b, s).value);
      steps := [s] + rest;
      assert steps[1..] == rest;
    }
  }

  lemma {:induction false} AdmitMany(b: Backlog, k: nat) returns (steps: seq<BacklogStep>)
    requires b.serving && Estimate(b.counters) + k <= HIGH_WATER && b.counters.inflight + k <= MAX_INFLIGHT
    ensures NoFailures(steps)
    ensures Run(b, steps) == Some(b.(
      waiting := b.waiting + k,
      counters := b.counters.(reserved := b.counters.reserved + k, inflight := b.counters.inflight + k)))
    decreases k
  {
    steps := [];
    if k > 0 {
      var rest := AdmitMany(Next(b, Admit).value, k - 1);
      steps := [Admit] + rest;
      assert steps[1..] == rest;
    }
  }

  lemma {:induction false} PublishWaiting(b: Backlog) returns (steps: seq<BacklogStep>)
    requires b.counters.ready && b.cleared == 0
    ensures NoFailures(steps)
    ensures Run(b, steps) == Some(b.(live := b.live + b.waiting, waiting := 0, holding := b.holding + b.waiting))
    decreases b.waiting
  {
    steps := [];
    if b.waiting > 0 {
      var b1 := Next(b, Clear).value;
      var b2 := Next(b1, Publish).value;
      var rest := PublishWaiting(b2);
      steps := [Clear, Publish] + rest;
      Runs.RunChain(Next, [b, b1, b2], [Clear, Publish]);
      Runs.RunConcat(Next, b, [Clear, Publish], rest);
    }
  }

  /** After such a failure the backlog grows past the mark: all in flight end, new requests are
      admitted before the next sample, and published after it. */
  lemma ForgottenFilesOverfill(b: Backlog) returns (steps: seq<BacklogStep>, publishing: seq<BacklogStep>)
    requires Inv(b) && Forgets(b)
    ensures NoFailures(steps) && NoFailures(publishing)
    ensures var failed := Next(b, FailSample).value;
      && Run(failed, steps).Some? && Next(Run(failed, steps).value, Admit).Some?
      && var full := Next(Run(failed, steps).value, Admit).value;
        && Grows(Run(failed, steps).value, full)
        && Run(full, publishing).Some? && Run(full, publishing).value.live > HIGH_WATER
  {
    var failed := Next(b, FailSample).value;
    var served := failed.(serving := true);
    Runs.RunOne(Next, failed, Serve);
    var ending := EndAll(served);
    var idle := Run(served, ending).value;
    var room := HIGH_WATER - Estimate(idle.counters);
    assert room == HIGH_WATER - Base(b, b.counters.depth, b.sample.total);
    var k: nat := if room < MAX_INFLIGHT then room else MAX_INFLIGHT;
    var admitting := AdmitMany(idle, k - 1);
    var almost := Run(idle, admitting).value;
    steps := [Serve] + (ending + admitting);
    Runs.RunConcat(Next, served, ending, admitting);
    Runs.RunConcat(Next, failed, [Serve], ending + admitting);
    var full := Next(almost, Admit).value;
    var sampled := full.(counters := Sampled(full.counters, if full.live < SCAN_LIMIT then full.live else SCAN_LIMIT, full.counters.total, true));
    SampleRun(full);
    var rest := PublishWaiting(sampled);
    publishing := GOOD_SAMPLE + rest;
    Runs.RunConcat(Next, full, GOOD_SAMPLE, rest);
  }

  /** Some continuation without a further failure grows past the mark. */
  ghost predicate CanGrow(b: Backlog) {
    exists steps: seq<BacklogStep>, last: BacklogStep ::
      NoFailures(steps + [last]) && Run(b, steps).Some? && Next(Run(b, steps).value, last).Some?
      && Grows(Run(b, steps).value, Next(Run(b, steps).value, last).value)
  }

  /** A failed sample lets the backlog grow past the mark exactly when it forgets files. */
  lemma FailedSampleOverfillsIff(b: Backlog)
    requires Inv(b) && Next(b, FailSample).Some?
    ensures CanGrow(Next(b, FailSample).value) <==> Forgets(b)
  {
    var failed := Next(b, FailSample).value;
    if Forgets(b) {
      var steps, publishing := ForgottenFilesOverfill(b);
      assert NoFailures(steps + [Admit]);
    } else {
      StepKeepsInv(b, FailSample);
      forall steps: seq<BacklogStep>, last: BacklogStep
        | NoFailures(steps + [last]) && Run(failed, steps).Some? && Next(Run(failed, steps).value, last).Some?
        ensures !Grows(Run(failed, steps).value, Next(Run(failed, steps).value, last).value)
      {
        assert (steps + [last])[|steps|] == last && forall s :: s in steps ==> s in steps + [last];
        NoFailuresIsCareful(failed, steps);
        BacklogNeverGrowsPastHighWater(failed, steps);
        StepKeepsInv(Run(failed, steps).value, last);
      }
    }
  }

  /** The first sample of a run has no depth to keep: its failure overfills every queue that is
      within the in-flight limit of the mark, and no shorter one. */
  lemma FailedFirstSampleOverfillsIff(live: nat)
    ensures Run(Fresh(live), [Capture, FailSample]).Some?
    ensures CanGrow(Run(Fresh(live), [Capture, FailSample]).value) <==> live + 8 > 224
  {
    var b := Next(Fresh(live), Capture).value;
    FreshHoldsInv(live);
    Runs.RunChain(Next, [Fresh(live), b, Next(b, FailSample).value], [Capture, FailSample]);
    FailedSampleOverfillsIff(b);
  }

  // A run in which the mark is passed after a good first sample

  /** The state after `n` requests were admitted, published and ended since a sample. */
  function Busy(n: nat): Backlog {
    Backlog(n, 0, 0, 0, Counters(0, 0, n, 0, 0, true), NoSample, true, true)
  }

  const ONE_REQUEST := [Admit, Clear, Publish, FinishPublished]

  function Requests(n: nat): seq<BacklogStep> {
    if n == 0 then [] else Requests(n - 1) + ONE_REQUEST
  }

  lemma {:induction false} RequestsFillTheQueue(n: nat)
    requires n <= HIGH_WATER
    ensures Run(Busy(0), Requests(n)) == Some(Busy(n))
  {
    if n > 0 {
      RequestsFillTheQueue(n - 1);
      Runs.RunConcat(Next, Busy(0), Requests(n - 1), ONE_REQUEST);
      var b1 := Next(Busy(n - 1), Admit).value;
      var b2 := Next(b1, Clear).value;
      var b3 := Next(b2, Publish).value;
      Runs.RunChain(Next, [Busy(n - 1), b1, b2, b3, Busy(n)], ONE_REQUEST);
    }
  }

  lemma BusyIsReachable()
    ensures Run(Fresh(0), GOOD_SAMPLE + [Serve]) == Some(Busy(0))
  {
    SampleRun(Fresh(0));
    Runs.RunConcat(Next, Fresh(0), GOOD_SAMPLE, [Serve]);
    Runs.RunOne(Next, Run(Fresh(0), GOOD_SAMPLE).value, Serve);
  }

  /** The queue is filled up to the mark, then a sample is started. */
  lemma FullQueueIsReachable() returns (steps: seq<BacklogStep>)
    ensures NoFailures(steps)
    ensures Run(Fresh(0), steps) == Some(Busy(HIGH_WATER).(sample := Captured(HIGH_WATER)))
  {
    var starting, filling := GOOD_SAMPLE + [Serve], Requests(HIGH_WATER) + [Capture];
    BusyIsReachable();
    RequestsFillTheQueue(HIGH_WATER);
    RequestsDoNotFail(HIGH_WATER);
    Runs.RunSnoc(Next, Busy(0), Requests(HIGH_WATER), Capture);
    Runs.RunConcat(Next, Fresh(0), starting, filling);
    steps := starting + filling;
  }

  /** From an empty queue, with one failed sample among good ones: the queue fills up to the
      mark, the failure forgets every enqueue, and more than 224 command files are there. */
  lemma FailedSampleOverfillsTheQueue() returns (before: seq<BacklogStep>, after: seq<BacklogStep>)
    ensures NoFailures(before) && NoFailures(after)
    ensures var b := Run(Fresh(0), before + ([FailSample] + after));
      b.Some? && b.value.live > 224
  {
    before := FullQueueIsReachable();
    var b := Busy(HIGH_WATER).(sample := Captured(HIGH_WATER));
    var failed := Next(b, FailSample).value;
    var steps, publishing := ForgottenFilesOverfill(b);
    after := steps + ([Admit] + publishing);
    var almost := Run(failed, steps).value;
    Runs.RunOne(Next, almost, Admit);
    Runs.RunConcat(Next, almost, [Admit], publishing);
    Runs.RunConcat(Next, failed, steps, [Admit] + publishing);
    Runs.RunOne(Next, b, FailSample);
    Runs.RunConcat(Next, b, [FailSample], after);
    Runs.RunConcat(Next, Fresh(0), before, [FailSample] + after);
  }

  lemma {:induction false} RequestsDoNotFail(n: nat)
    ensures NoFailures(Requests(n))
  {
    if n > 0 {
      RequestsDoNotFail(n - 1);
    }
  }
}
