/** The order in which one Gateway run publishes commands and the Helper executes them. */
module ExecutionOrder {
  import opened Wrappers
  import Runs
  import opened Text

  const SEQUENCE_WIDTH: nat := 20
  const SEQUENCE_BOUND: nat := 100_000_000_000_000_000_000

  lemma BoundIsTwentyDigits()
    ensures Pow10(SEQUENCE_WIDTH) == SEQUENCE_BOUND
  {
    TenTimes(5, 5);
    TenTimes(10, 10);
    assert Pow10(5) == 100_000;
  }

  lemma {:induction false} TenTimes(j: nat, k: nat)
    ensures Pow10(j + k) == Pow10(j) * Pow10(k)
  {
    if k > 0 {
      TenTimes(j, k - 1);
      assert Pow10(j + k) == 10 * (Pow10(j) * Pow10(k - 1));
    }
  }

  datatype Status = Pending | Active | Done

  /** One effect message: its enqueue sequence and where it is in the chain of turns, each of
      which waits for the completion of the one received just before. */
  datatype Turn = Turn(sequence: nat, status: Status, published: bool)

  /** What the Helper does with the claimed command. */
  datatype Work = NoWork | Claimed(sequence: nat) | Guarded(sequence: nat) | Answered(sequence: nat)

  /** `commands` and `claims` are the files of the two directories, by sequence number; a
      claim maps to whether a guard was written for it.  `tails` is what follows the padded
      sequence in a file name. */
  datatype Order = Order(
    turns: seq<Turn>,
    log: seq<nat>,
    commands: set<nat>,
    tails: map<nat, string>,
    claims: map<nat, bool>,
    listing: seq<nat>,
    work: Work,
    native: seq<nat>)

  const START := Order([], [], {}, map[], map[], [], NoWork, [])

  datatype OrderStep =
    | Receive(sequence: nat)
    | StartTurn(i: nat)
    | Publish(i: nat, tail: string)
    | FinishTurn(i: nat)
    | GiveUp(i: nat)
    | Recover(sequence: nat, tail: string)
    | List(listing: seq<nat>)
    | Claim
    | ClaimFails
    | Guard
    | Call
    | Answer
    | Remove
    | StopDraining
    | Crash

  function LastSequence(o: Order): int {
    if o.turns == [] then 0 else o.turns[|o.turns| - 1].sequence
  }

  function FileName(o: Order, sequence: nat): string {
    Padded(sequence, SEQUENCE_WIDTH) + (if sequence in o.tails then o.tails[sequence] else "")
  }

  /** The first files of the directory in the order of their names. */
  predicate ListedByName(o: Order, listing: seq<nat>) {
    && (forall k :: 0 <= k < |listing| ==> listing[k] in o.commands)
    && (forall j, k :: 0 <= j < k < |listing| ==> Precedes(FileName(o, listing[j]), FileName(o, listing[k])))
    && (forall k, c :: 0 <= k < |listing| && c in o.commands && c !in listing ==> Precedes(FileName(o, listing[k]), FileName(o, c)))
  }

  function Next(o: Order, s: OrderStep): Option<Order> {
    match s
    // Gateway: next_gateway_enqueue_seq, attach_effect_enqueue_turn
    case Receive(n) =>
      if LastSequence(o) < n < SEQUENCE_BOUND then Some(o.(turns := o.turns + [Turn(n, Pending, false)])) else None
    case StartTurn(i) =>
      if i < |o.turns| && o.turns[i].status.Pending? && (i > 0 ==> o.turns[i - 1].status.Done?) then
        Some(o.(turns := o.turns[i := o.turns[i].(status := Active)]))
      else None
    case Publish(i, tail) =>
      if i < |o.turns| && o.turns[i].status.Active? && !o.turns[i].published then
        var n := o.turns[i].sequence;
        Some(o.(turns := o.turns[i := o.turns[i].(published := true)], log := o.log + [n],
                commands := o.commands + {n}, tails := o.tails[n := tail]))
      else None
    case FinishTurn(i) =>
      if i < |o.turns| && o.turns[i].status.Active? then Some(o.(turns := o.turns[i := o.turns[i].(status := Done)])) else None
    case GiveUp(i) =>
      if i < |o.turns| && o.turns[i].status.Pending? then Some(o.(turns := o.turns[i := o.turns[i].(status := Done)])) else None
    // Helper: drain_file_requests
    case Recover(n, tail) =>
      if o.work.NoWork? && o.listing == [] && n in o.claims then
        if o.claims[n] then Some(o.(claims := o.claims - {n}))
        else Some(o.(claims := o.claims - {n}, commands := o.commands + {n}, tails := o.tails[n := tail]))
      else None
    case List(listing) =>
      if o.work.NoWork? && o.listing == [] && ListedByName(o, listing) then Some(o.(listing := listing)) else None
    case Claim =>
      if o.work.NoWork? && o.listing != [] && o.listing[0] in o.commands then
        var n := o.listing[0];
        Some(o.(listing := o.listing[1..], commands := o.commands - {n}, claims := o.claims[n := false], work := Claimed(n)))
      else None
    case ClaimFails => if o.work.NoWork? && o.listing != [] then Some(o.(listing := o.listing[1..])) else None
    case Guard =>
      if o.work.Claimed? then
        Some(o.(claims := o.claims[o.work.sequence := true], work := Guarded(o.work.sequence)))
      else None
    case Call =>
      if o.work.Guarded? then Some(o.(native := o.native + [o.work.sequence], work := Answered(o.work.sequence))) else None
    case Answer =>
      if o.work.Claimed? || o.work.Guarded? then Some(o.(work := Answered(o.work.sequence))) else None
    case Remove =>
      if o.work.Answered? then Some(o.(claims := o.claims - {o.work.sequence}, work := NoWork)) else None
    case StopDraining => if o.work.NoWork? then Some(o.(listing := [])) else None
    case Crash => Some(o.(listing := [], work := NoWork))
  }

  /** Nothing more will be published under this turn. */
  predicate Passed(t: Turn) {
    t.status.Done? || t.published
  }

  /** All turns before the i-th are passed. */
  predicate PassedBefore(turns: seq<Turn>, i: nat)
    requires i <= |turns|
  {
    forall j :: 0 <= j < i ==> Passed(turns[j])
  }

  /** A claimed command that recovery would put back. */
  predicate Unguarded(o: Order, c: nat) {
    c in o.claims && !o.claims[c]
  }

  /** A turn is given up only when all earlier ones are passed, commands are listed only when
      no claim could come back, and only the last listed file may fail to be claimed. */
  predicate Orderly(o: Order, s: OrderStep) {
    match s
    case GiveUp(i) => i < |o.turns| ==> PassedBefore(o.turns, i)
    case List(listing) => listing == [] || forall c :: c in o.claims ==> !Unguarded(o, c)
    case ClaimFails => |o.listing| <= 1
    case _ => true
  }

  predicate OrderlyRun(o: Order, steps: seq<OrderStep>)
    decreases |steps|
  {
    steps == [] || (Orderly(o, steps[0]) && (Next(o, steps[0]).Some? ==> OrderlyRun(Next(o, steps[0]).value, steps[1..])))
  }

  function Run(o: Order, steps: seq<OrderStep>): Option<Order> {
    Runs.Run(Next, o, steps)
  }

  predicate Increasing(s: seq<nat>) {
    forall j, k :: 0 <= j < k < |s| ==> s[j] < s[k]
  }

  predicate Below(s: seq<nat>, n: nat) {
    forall m :: m in s ==> m < n
  }

  /** Turns begin one after the other. */
  predicate ChainHolds(turns: seq<Turn>) {
    && (forall i, j :: 0 <= i < j < |turns| ==> turns[i].sequence < turns[j].sequence)
    && (forall i, j :: 0 <= i < j < |turns| && !turns[j].status.Pending? ==> Passed(turns[i]))
    && (forall i :: 0 <= i < |turns| ==> turns[i].sequence < SEQUENCE_BOUND && (turns[i].published ==> !turns[i].status.Pending?))
  }

  predicate Published(turns: seq<Turn>, n: nat) {
    exists i :: 0 <= i < |turns| && turns[i].published && turns[i].sequence == n
  }

  predicate LogHolds(o: Order) {
    Increasing(o.log) && forall n :: n in o.log ==> Published(o.turns, n)
  }

  /** What can still be executed comes after all that was; an unguarded claim, which recovery
      puts back, comes before all queued commands. */
  predicate QueueHolds(o: Order) {
    && Increasing(o.native)
    && (forall n :: n in o.native ==> n in o.log)
    && (forall c :: c in o.commands ==> c in o.log && c < SEQUENCE_BOUND && Below(o.native, c))
    && (forall c :: c in o.claims ==> c in o.log && c < SEQUENCE_BOUND && (Unguarded(o, c) ==> Below(o.native, c)))
    && (forall c, d :: c in o.claims && Unguarded(o, c) && d in o.commands ==> c < d)
    && (forall c, d :: c in o.claims && d in o.claims && Unguarded(o, c) && Unguarded(o, d) ==> c == d)
    && WorkHolds(o)
    && ListingHolds(o)
  }

  predicate WorkHolds(o: Order) {
    && (!o.work.NoWork? ==> o.work.sequence in o.claims)
    && (o.work.Claimed? ==> Unguarded(o, o.work.sequence))
    && (o.work.Guarded? ==>
          o.claims[o.work.sequence] && Below(o.native, o.work.sequence) && forall d :: d in o.commands ==> o.work.sequence < d)
    && (!o.work.NoWork? ==> forall c :: c in o.claims && Unguarded(o, c) ==> c == o.work.sequence)
    && (o.work.NoWork? && o.listing != [] ==> forall c :: c in o.claims ==> !Unguarded(o, c))
  }

  predicate ListingHolds(o: Order) {
    && Increasing(o.listing)
    && (forall c :: c in o.listing ==> c in o.commands)
    && (forall n, c :: n in o.listing && c in o.commands && c !in o.listing ==> n < c)
  }

  predicate Inv(o: Order) {
    ChainHolds(o.turns) && LogHolds(o) && QueueHolds(o)
  }

  /** Listing by name is listing by sequence number. */
  lemma ListedByNumber(o: Order, listing: seq<nat>)
    requires QueueHolds(o) && ListedByName(o, listing)
    ensures ListingHolds(o.(listing := listing))
  {
    forall j, k | 0 <= j < k < |listing| ensures listing[j] < listing[k] {
      NamesSort(o, listing[j], listing[k]);
    }
    forall k, c | 0 <= k < |listing| && c in o.commands && c !in listing ensures listing[k] < c {
      NamesSort(o, listing[k], c);
    }
  }

  lemma NamesSort(o: Order, m: nat, n: nat)
    requires m < SEQUENCE_BOUND && n < SEQUENCE_BOUND
    requires Precedes(FileName(o, m), FileName(o, n))
    ensures m < n
  {
    BoundIsTwentyDigits();
    if m == n {
      PrecedesIsIrreflexive(FileName(o, m));
    } else {
      PaddedNamesSort(m, n, SEQUENCE_WIDTH, if m in o.tails then o.tails[m] else "", if n in o.tails then o.tails[n] else "");
    }
  }

  lemma {:induction false} PrecedesIsIrreflexive(s: string)
    ensures !Precedes(s, s)
  {
    if s != [] {
      PrecedesIsIrreflexive(s[1..]);
    }
  }

  lemma IncreasingSnoc(s: seq<nat>, n: nat)
    requires Increasing(s) && Below(s, n)
    ensures Increasing(s + [n])
  {
    assert forall k :: 0 <= k < |s| ==> s[k] in s;
  }

  // The Gateway's steps

  lemma ReceiveKeepsChain(turns: seq<Turn>, n: nat)
    requires ChainHolds(turns) && n < SEQUENCE_BOUND
    requires turns != [] ==> turns[|turns| - 1].sequence < n
    ensures ChainHolds(turns + [Turn(n, Pending, false)])
  {
    var turns', k := turns + [Turn(n, Pending, false)], |turns|;
    forall i | 0 <= i < k ensures turns'[i] == turns[i] && turns[i].sequence < n {
      if i < k - 1 {
        assert turns[i].sequence < turns[k - 1].sequence;
      }
    }
    forall i, j | 0 <= i < j < |turns'|
      ensures turns'[i].sequence < turns'[j].sequence && (!turns'[j].status.Pending? ==> Passed(turns'[i]))
    {
      if j < k {
        assert turns[i].sequence < turns[j].sequence;
      }
    }
  }

  lemma PublishedStays(turns: seq<Turn>, t: Turn, m: nat)
    requires Published(turns, m)
    ensures Published(turns + [t], m)
  {
    var k :| 0 <= k < |turns| && turns[k].published && turns[k].sequence == m;
    assert (turns + [t])[k] == turns[k];
  }

  lemma StatusKeepsChain(turns: seq<Turn>, i: nat, status: Status)
    requires ChainHolds(turns) && i < |turns| && !status.Pending? && PassedBefore(turns, i)
    requires turns[i].status.Done? ==> status.Done?
    requires status.Active? ==> turns[i].status.Pending?
    ensures ChainHolds(turns[i := turns[i].(status := status)])
    ensures forall m :: Published(turns, m) ==> Published(turns[i := turns[i].(status := status)], m)
  {
    var turns' := turns[i := turns[i].(status := status)];
    forall m | Published(turns, m) ensures Published(turns', m) {
      var k :| 0 <= k < |turns| && turns[k].published && turns[k].sequence == m;
      assert turns'[k].published && turns'[k].sequence == m;
    }
  }

  lemma BehindDoneAllPassed(turns: seq<Turn>, i: nat)
    requires ChainHolds(turns) && i < |turns| && (i > 0 ==> turns[i - 1].status.Done?)
    ensures PassedBefore(turns, i)
  {
    forall j | 0 <= j < i ensures Passed(turns[j]) {
      assert j == i - 1 || !turns[i - 1].status.Pending?;
    }
  }

  lemma PublishKeepsChain(turns: seq<Turn>, i: nat)
    requires ChainHolds(turns) && i < |turns| && turns[i].status.Active?
    ensures var turns' := turns[i := turns[i].(published := true)];
      && ChainHolds(turns') && Published(turns', turns[i].sequence)
      && forall m :: Published(turns, m) ==> Published(turns', m)
  {
    var turns' := turns[i := turns[i].(published := true)];
    assert turns'[i].published && turns'[i].sequence == turns[i].sequence;
    forall m | Published(turns, m) ensures Published(turns', m) {
      var k :| 0 <= k < |turns| && turns[k].published && turns[k].sequence == m;
      assert turns'[k].published && turns'[k].sequence == m;
    }
  }

  /** The active turn is later than every published one. */
  lemma PublishesLater(o: Order, i: nat)
    requires ChainHolds(o.turns) && LogHolds(o)
    requires i < |o.turns| && o.turns[i].status.Active? && !o.turns[i].published
    ensures Below(o.log, o.turns[i].sequence)
  {
    forall m | m in o.log ensures m < o.turns[i].sequence {
      var j :| 0 <= j < |o.turns| && o.turns[j].published && o.turns[j].sequence == m;
      assert j < i;
    }
  }

  lemma PublishKeepsQueue(o: Order, n: nat, o': Order)
    requires QueueHolds(o) && Below(o.log, n) && n < SEQUENCE_BOUND
    requires o'.log == o.log + [n] && o'.commands == o.commands + {n}
    requires o'.claims == o.claims && o'.listing == o.listing && o'.work == o.work && o'.native == o.native
    ensures QueueHolds(o')
  {
  }

  predicate OfGateway(s: OrderStep) {
    s.Receive? || s.StartTurn? || s.Publish? || s.FinishTurn? || s.GiveUp?
  }

  lemma GatewayKeepsTurns(o: Order, s: OrderStep)
    requires ChainHolds(o.turns) && LogHolds(o) && OfGateway(s) && Next(o, s).Some? && Orderly(o, s)
    ensures ChainHolds(Next(o, s).value.turns) && LogHolds(Next(o, s).value)
  {
    match s
    case Receive(n) =>
      ReceiveKeepsChain(o.turns, n);
      forall m | m in o.log ensures Published(o.turns + [Turn(n, Pending, false)], m) {
        PublishedStays(o.turns, Turn(n, Pending, false), m);
      }
    case StartTurn(i) =>
      BehindDoneAllPassed(o.turns, i);
      StatusKeepsChain(o.turns, i, Active);
    case GiveUp(i) => StatusKeepsChain(o.turns, i, Done);
    case FinishTurn(i) => StatusKeepsChain(o.turns, i, Done);
    case Publish(i, tail) =>
      PublishKeepsChain(o.turns, i);
      PublishesLater(o, i);
      IncreasingSnoc(o.log, o.turns[i].sequence);
  }

  lemma TurnsDoNotMatter(o: Order, turns: seq<Turn>)
    requires QueueHolds(o)
    ensures QueueHolds(o.(turns := turns))
  {
  }

  lemma GatewayKeepsInv(o: Order, s: OrderStep)
    requires Inv(o) && OfGateway(s) && Next(o, s).Some? && Orderly(o, s)
    ensures Inv(Next(o, s).value)
  {
    GatewayKeepsTurns(o, s);
    if s.Publish? {
      PublishesLater(o, s.i);
      PublishKeepsQueue(o, o.turns[s.i].sequence, Next(o, s).value);
    } else {
      TurnsDoNotMatter(o, Next(o, s).value.turns);
    }
  }

  /** The sequence counter and the chain of enqueue turns of one Gateway run. */
  class EnqueueTurns {
    var last: nat
    var turns: seq<Turn>

    ghost predicate Valid()
      reads this
    {
      ChainHolds(turns) && (turns != [] ==> turns[|turns| - 1].sequence <= last)
    }

    constructor (clock: nat)
      ensures Valid() && turns == [] && last == clock
    {
      last, turns := clock, [];
    }

    /** next_gateway_enqueue_seq and attach_effect_enqueue_turn of a received message. */
    method Receive(clock: nat) returns (sequence: nat)
      requires Valid() && clock < SEQUENCE_BOUND && last + 1 < SEQUENCE_BOUND
      modifies this
      ensures Valid() && sequence == last
      ensures sequence > old(last) && sequence >= clock && sequence in {old(last) + 1, clock}
      ensures turns == old(turns) + [Turn(sequence, Pending, false)]
    {
      sequence := if clock > last + 1 then clock else last + 1;
      ReceiveKeepsChain(turns, sequence);
      last, turns := sequence, turns + [Turn(sequence, Pending, false)];
    }

    /** The wait for the predecessor's completion is over. */
    method Begin(i: nat) returns (ok: bool)
      requires Valid() && i < |turns| && turns[i].status.Pending?
      modifies this`turns
      ensures Valid()
      ensures ok <==> i == 0 || old(turns)[i - 1].status.Done?
      ensures turns == if ok then old(turns)[i := old(turns)[i].(status := Active)] else old(turns)
    {
      if i > 0 && !turns[i - 1].status.Done? {
        return false;
      }
      BehindDoneAllPassed(turns, i);
      StatusKeepsChain(turns, i, Active);
      turns := turns[i := turns[i].(status := Active)];
      return true;
    }

    /** finish_effect_enqueue_turn: completing twice is harmless; completing a turn that has not
        begun keeps the order only behind passed ones. */
    method Finish(i: nat)
      requires Valid() && i < |turns| && (turns[i].status.Pending? ==> PassedBefore(turns, i))
      modifies this`turns
      ensures Valid() && turns == old(turns)[i := old(turns)[i].(status := Done)]
    {
      StatusKeepsChain(turns, i, Done);
      turns := turns[i := turns[i].(status := Done)];
    }
  }

  // The Helper's steps

  /** The first listed command is the first of the queue. */
  lemma ListingStartsTheQueue(o: Order)
    requires ListingHolds(o) && o.listing != []
    ensures forall d :: d in o.commands && d != o.listing[0] ==> o.listing[0] < d
    ensures o.listing[0] in o.commands && o.listing[0] !in o.listing[1..]
    ensures Increasing(o.listing[1..])
    ensures forall c :: c in o.listing[1..] <==> c in o.listing && c != o.listing[0]
  {
    var n, rest := o.listing[0], o.listing[1..];
    assert o.listing == [n] + rest && n in o.listing;
    forall d | d in o.commands && d != n ensures n < d {
      if d in o.listing {
        var k :| 0 <= k < |o.listing| && o.listing[k] == d;
      }
    }
  }

  lemma ClaimKeepsQueue(o: Order)
    requires QueueHolds(o) && Next(o, Claim).Some?
    ensures QueueHolds(Next(o, Claim).value)
  {
    ListingStartsTheQueue(o);
  }

  lemma RecoverKeepsQueue(o: Order, n: nat, tail: string)
    requires QueueHolds(o) && Next(o, Recover(n, tail)).Some?
    ensures QueueHolds(Next(o, Recover(n, tail)).value)
  {
  }

  lemma WorkKeepsQueue(o: Order, s: OrderStep)
    requires QueueHolds(o) && (s.Guard? || s.Answer? || s.Remove?) && Next(o, s).Some?
    ensures QueueHolds(Next(o, s).value)
  {
  }

  lemma CallKeepsQueue(o: Order)
    requires QueueHolds(o) && Next(o, Call).Some?
    ensures QueueHolds(Next(o, Call).value)
  {
    IncreasingSnoc(o.native, o.work.sequence);
  }

  lemma StopKeepsQueue(o: Order, s: OrderStep)
    requires QueueHolds(o) && (s.StopDraining? || s.Crash? || s.ClaimFails?) && Next(o, s).Some? && Orderly(o, s)
    ensures QueueHolds(Next(o, s).value)
  {
  }

  lemma HelperKeepsInv(o: Order, s: OrderStep)
    requires Inv(o) && !OfGateway(s) && Next(o, s).Some? && Orderly(o, s)
    ensures Inv(Next(o, s).value)
  {
    match s
    case Recover(n, tail) => RecoverKeepsQueue(o, n, tail);
    case List(listing) => ListedByNumber(o, listing);
    case Claim => ClaimKeepsQueue(o);
    case Call => CallKeepsQueue(o);
    case StopDraining => StopKeepsQueue(o, s);
    case Crash => StopKeepsQueue(o, s);
    case ClaimFails => StopKeepsQueue(o, s);
    case _ => WorkKeepsQueue(o, s);
  }

  lemma {:induction false} RunKeepsInv(o: Order, steps: seq<OrderStep>)
    requires Inv(o) && OrderlyRun(o, steps) && Run(o, steps).Some?
    ensures Inv(Run(o, steps).value)
    decreases |steps|
  {
    if steps != [] {
      if OfGateway(steps[0]) {
        GatewayKeepsInv(o, steps[0]);
      } else {
        HelperKeepsInv(o, steps[0]);
      }
      RunKeepsInv(Next(o, steps[0]).value, steps[1..]);
    }
  }

  /** Commands are published in receive order and executed in publish order, whatever the
      interleaving and however often the Helper crashes. */
  lemma ExecutedInReceiveOrder(steps: seq<OrderStep>)
    requires OrderlyRun(START, steps) && Run(START, steps).Some?
    ensures var o := Run(START, steps).value;
      && (forall i, j :: 0 <= i < j < |o.turns| ==> o.turns[i].sequence < o.turns[j].sequence)
      && Increasing(o.log) && (forall n :: n in o.log ==> Published(o.turns, n))
      && Increasing(o.native) && (forall n :: n in o.native ==> n in o.log)
  {
    RunKeepsInv(START, steps);
  }

  // Each hypothesis is exact: a disorderly step can be continued to a disorder

  ghost predicate CanPublishOutOfOrder(o: Order) {
    exists steps: seq<OrderStep> :: OrderlyRun(o, steps) && Run(o, steps).Some? && !Increasing(Run(o, steps).value.log)
  }

  ghost predicate CanExecuteOutOfOrder(o: Order) {
    exists steps: seq<OrderStep> :: OrderlyRun(o, steps) && Run(o, steps).Some? && !Increasing(Run(o, steps).value.native)
  }

  lemma InvMeansOrder(o: Order)
    requires Inv(o)
    ensures !CanPublishOutOfOrder(o) && !CanExecuteOutOfOrder(o)
  {
    forall steps: seq<OrderStep> | OrderlyRun(o, steps) && Run(o, steps).Some?
      ensures Increasing(Run(o, steps).value.log) && Increasing(Run(o, steps).value.native)
    {
      RunKeepsInv(o, steps);
    }
  }

  /** Orderly steps from each state to the next. */
  lemma {:induction false} OrderlyChain(chain: seq<Order>, steps: seq<OrderStep>)
    requires |chain| == |steps| + 1
    requires forall k :: 0 <= k < |steps| ==> Orderly(chain[k], steps[k]) && Next(chain[k], steps[k]) == Some(chain[k + 1])
    ensures OrderlyRun(chain[0], steps) && Run(chain[0], steps) == Some(chain[|steps|])
    decreases |steps|
  {
    if steps != [] {
      OrderlyChain(chain[1..], steps[1..]);
    }
  }

  lemma {:induction false} OrderlyConcat(o: Order, a: seq<OrderStep>, b: seq<OrderStep>)
    requires OrderlyRun(o, a) && Run(o, a).Some? && OrderlyRun(Run(o, a).value, b)
    ensures OrderlyRun(o, a + b) && Run(o, a + b) == Run(Run(o, a).value, b)
    decreases |a|
  {
    if a == [] {
      assert a + b == b;
    } else {
      assert (a + b)[1..] == a[1..] + b;
      OrderlyConcat(Next(o, a[0]).value, a[1..], b);
    }
  }

  // Turns given up early

  lemma {:induction false} FirstUnpassed(turns: seq<Turn>, i: nat) returns (j: nat)
    requires i <= |turns| && !PassedBefore(turns, i)
    ensures j < i && !Passed(turns[j]) && PassedBefore(turns, j)
    decreases i
  {
    if PassedBefore(turns, i - 1) {
      j := i - 1;
    } else {
      j := FirstUnpassed(turns, i - 1);
    }
  }

  /** The turn behind the i-th is taken, or made for a new message, and published. */
  lemma PublishNext(o: Order, i: nat) returns (steps: seq<OrderStep>, o': Order)
    requires i < |o.turns| && o.turns[i].status.Done?
    requires forall k :: 0 <= k < |o.turns| ==> o.turns[k].sequence < SEQUENCE_BOUND
    requires if i + 1 < |o.turns| then o.turns[i + 1].status.Pending? && !o.turns[i + 1].published
             else LastSequence(o) + 1 < SEQUENCE_BOUND
    ensures OrderlyRun(o, steps) && Run(o, steps) == Some(o')
    ensures i + 1 < |o'.turns| && o'.turns[..i + 1] == o.turns[..i + 1]
    ensures o'.log == o.log + [o'.turns[i + 1].sequence]
    ensures o'.turns[i + 1].sequence == if i + 1 < |o.turns| then o.turns[i + 1].sequence else o.turns[i].sequence + 1
  {
    var o1 := o;
    steps := [];
    if i + 1 == |o.turns| {
      steps := [Receive(LastSequence(o) + 1)];
      o1 := Next(o, steps[0]).value;
      OrderlyChain([o, o1], steps);
    }
    var o2 := Next(o1, StartTurn(i + 1)).value;
    o' := Next(o2, Publish(i + 1, "")).value;
    OrderlyChain([o1, o2, o'], [StartTurn(i + 1), Publish(i + 1, "")]);
    OrderlyConcat(o, steps, [StartTurn(i + 1), Publish(i + 1, "")]);
    steps := steps + [StartTurn(i + 1), Publish(i + 1, "")];
  }

  /** The first turn that is not passed is reached and published. */
  lemma PublishFirst(o: Order, j: nat) returns (steps: seq<OrderStep>, o': Order)
    requires j < |o.turns| && !Passed(o.turns[j]) && PassedBefore(o.turns, j)
    requires forall k :: 0 <= k <= j ==> o.turns[k].published ==> !o.turns[k].status.Pending?
    ensures OrderlyRun(o, steps) && Run(o, steps) == Some(o')
    ensures o'.log == o.log + [o.turns[j].sequence]
  {
    if o.turns[j].status.Active? {
      steps := [Publish(j, "")];
      o' := Next(o, Publish(j, "")).value;
      OrderlyChain([o, o'], steps);
    } else if j == 0 || o.turns[j - 1].status.Done? {
      steps := [StartTurn(j), Publish(j, "")];
      var o1 := Next(o, StartTurn(j)).value;
      o' := Next(o1, Publish(j, "")).value;
      OrderlyChain([o, o1, o'], steps);
    } else {
      steps := [FinishTurn(j - 1), StartTurn(j), Publish(j, "")];
      var o1 := Next(o, FinishTurn(j - 1)).value;
      var o2 := Next(o1, StartTurn(j)).value;
      o' := Next(o2, Publish(j, "")).value;
      OrderlyChain([o, o1, o2, o'], steps);
    }
  }

  /** A message that gives up its turn lets a later one be published before an earlier one
      exactly when some turn before it is neither done nor published. */
  lemma EarlyGiveUpReordersIff(o: Order, i: nat)
    requires Inv(o) && Next(o, GiveUp(i)).Some?
    requires i + 1 < |o.turns| || LastSequence(o) + 1 < SEQUENCE_BOUND
    ensures CanPublishOutOfOrder(Next(o, GiveUp(i)).value) <==> !PassedBefore(o.turns, i)
  {
    var o1 := Next(o, GiveUp(i)).value;
    if PassedBefore(o.turns, i) {
      GatewayKeepsInv(o, GiveUp(i));
      InvMeansOrder(o1);
    } else {
      var j := FirstUnpassed(o.turns, i);
      assert i + 1 < |o.turns| ==> o.turns[i + 1].status.Pending?;
      var ahead, o2 := PublishNext(o1, i);
      assert forall k :: 0 <= k <= i ==> o2.turns[k] == o2.turns[..i + 1][k] == o1.turns[k];
      assert o2.turns[j] == o.turns[j] && PassedBefore(o2.turns, j);
      var behind, o3 := PublishFirst(o2, j);
      OrderlyConcat(o1, ahead, behind);
      var later, earlier := o2.turns[i + 1].sequence, o.turns[j].sequence;
      assert earlier < o.turns[i].sequence < later;
      assert o3.log == o.log + [later, earlier];
      assert o3.log[|o.log|] == later && o3.log[|o.log| + 1] == earlier;
    }
  }

  // Claims that are left behind

  const EXECUTE := [Claim, Guard, Call, Remove, StopDraining]

  /** The Helper executes the first listed command and ends its cycle. */
  lemma ExecuteListed(o: Order) returns (o': Order)
    requires o.work.NoWork? && o.listing != [] && o.listing[0] in o.commands
    ensures OrderlyRun(o, EXECUTE) && Run(o, EXECUTE) == Some(o')
    ensures o' == o.(listing := [], commands := o.commands - {o.listing[0]}, claims := o.claims - {o.listing[0]},
                     native := o.native + [o.listing[0]])
  {
    var d := o.listing[0];
    var o1 := Next(o, Claim).value;
    var o2 := Next(o1, Guard).value;
    var o3 := Next(o2, Call).value;
    var o4 := Next(o3, Remove).value;
    o' := Next(o4, StopDraining).value;
    assert o.claims[d := false][d := true] - {d} == o.claims - {d};
    OrderlyChain([o, o1, o2, o3, o4, o'], EXECUTE);
  }

  /** The first queued command is listed and executed. */
  lemma ExecuteFirst(o: Order, n: nat) returns (o': Order)
    requires o.work.NoWork? && o.listing == [] && n in o.commands && forall c :: c in o.claims ==> !Unguarded(o, c)
    requires forall c :: c in o.commands ==> c < SEQUENCE_BOUND && (c == n || n < c)
    ensures OrderlyRun(o, [List([n])] + EXECUTE) && Run(o, [List([n])] + EXECUTE) == Some(o')
    ensures o'.native == o.native + [n]
  {
    BoundIsTwentyDigits();
    forall c | c in o.commands && c !in [n] ensures Precedes(FileName(o, n), FileName(o, c)) {
      PaddedNamesSort(n, c, SEQUENCE_WIDTH, if n in o.tails then o.tails[n] else "", if c in o.tails then o.tails[c] else "");
    }
    var o1 := o.(listing := [n]);
    OrderlyChain([o, o1], [List([n])]);
    o' := ExecuteListed(o1);
    OrderlyConcat(o, [List([n])], EXECUTE);
  }

  function RecoverAndExecute(c: nat): seq<OrderStep> {
    [Recover(c, "")] + ([List([c])] + EXECUTE)
  }

  /** The one unguarded claim goes back to the front of the queue and is executed. */
  lemma ExecuteRecovered(o: Order, c: nat) returns (o': Order)
    requires o.work.NoWork? && o.listing == [] && c < SEQUENCE_BOUND
    requires Unguarded(o, c) && forall k :: k in o.claims && Unguarded(o, k) ==> k == c
    requires forall k :: k in o.commands ==> c < k < SEQUENCE_BOUND
    ensures OrderlyRun(o, RecoverAndExecute(c)) && Run(o, RecoverAndExecute(c)) == Some(o')
    ensures o'.native == o.native + [c]
  {
    var o1 := Next(o, Recover(c, "")).value;
    OrderlyChain([o, o1], [Recover(c, "")]);
    o' := ExecuteFirst(o1, c);
    OrderlyConcat(o, [Recover(c, "")], [List([c])] + EXECUTE);
  }

  lemma ExecutedLate(native: seq<nat>, d: nat, n: nat)
    requires n < d
    ensures !Increasing(native + [d] + [n])
  {
    var s := native + [d] + [n];
    assert s[|native|] == d && s[|native| + 1] == n;
  }

  /** The first listed command is executed, and after it one with a smaller number. */
  lemma ExecutedBefore(o: Order, o1: Order, rest: seq<OrderStep>, n: nat)
    requires OrderlyRun(o, EXECUTE) && Run(o, EXECUTE) == Some(o1) && o.listing != [] && n < o.listing[0]
    requires o1.native == o.native + [o.listing[0]]
    requires OrderlyRun(o1, rest) && Run(o1, rest).Some? && Run(o1, rest).value.native == o1.native + [n]
    ensures CanExecuteOutOfOrder(o)
  {
    OrderlyConcat(o, EXECUTE, rest);
    ExecutedLate(o.native, o.listing[0], n);
  }

  lemma OvertakesClaim(o: Order, c: nat)
    requires o.work.NoWork? && o.listing != [] && o.listing[0] in o.commands && c < o.listing[0] && c < SEQUENCE_BOUND
    requires Unguarded(o, c) && forall k :: k in o.claims && Unguarded(o, k) ==> k == c
    requires forall k :: k in o.commands ==> c < k < SEQUENCE_BOUND
    ensures CanExecuteOutOfOrder(o)
  {
    var o1 := ExecuteListed(o);
    var o2 := ExecuteRecovered(o1, c);
    ExecutedBefore(o, o1, RecoverAndExecute(c), c);
  }

  lemma OvertakesQueued(o: Order, n: nat)
    requires o.work.NoWork? && o.listing != [] && o.listing[0] in o.commands && n < o.listing[0] && n in o.commands
    requires forall k :: k in o.claims ==> !Unguarded(o, k)
    requires forall k :: k in o.commands ==> k < SEQUENCE_BOUND && (k == n || n < k)
    ensures CanExecuteOutOfOrder(o)
  {
    var o1 := ExecuteListed(o);
    var o2 := ExecuteFirst(o1, n);
    ExecutedBefore(o, o1, [List([n])] + EXECUTE, n);
  }

  /** Listing while some claims are still there lets a later command be executed before an
      earlier one exactly when a command was listed and one of the claims is unguarded. */
  lemma ListingPastClaimsReordersIff(o: Order, listing: seq<nat>)
    requires Inv(o) && Next(o, List(listing)).Some?
    ensures CanExecuteOutOfOrder(Next(o, List(listing)).value) <==> listing != [] && exists c :: Unguarded(o, c)
  {
    if c :| listing != [] && Unguarded(o, c) {
      assert listing[0] in o.commands;
      OvertakesClaim(Next(o, List(listing)).value, c);
    } else {
      HelperKeepsInv(o, List(listing));
      InvMeansOrder(Next(o, List(listing)).value);
    }
  }

  /** A listed command that cannot be claimed is overtaken exactly when another was listed
      behind it. */
  lemma FailedClaimReordersIff(o: Order)
    requires Inv(o) && Next(o, ClaimFails).Some?
    ensures CanExecuteOutOfOrder(Next(o, ClaimFails).value) <==> |o.listing| > 1
  {
    if |o.listing| > 1 {
      ListingStartsTheQueue(o);
      assert o.listing[1] in o.listing;
      OvertakesQueued(Next(o, ClaimFails).value, o.listing[0]);
    } else {
      HelperKeepsInv(o, ClaimFails);
      InvMeansOrder(Next(o, ClaimFails).value);
    }
  }
}
