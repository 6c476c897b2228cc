/** The stored stage of an order as a fold over the updates that reach the store. */
module StageFold {
  import opened Wrappers

  datatype Stage =
    | Reserved | BridgeQueued | SubmitUnknown | QmtSubmitted | QmtOrderCreated | BrokerAccepted
    | Partial | Filled | Cancelled | Rejected
    | Other(name: string)

  /** STAGE_RANK, -1 for a name it does not hold. */
  function Rank(s: Stage): int {
    match s
    case Reserved => 0
    case BridgeQueued => 1
    case SubmitUnknown => 2
    case QmtSubmitted => 3
    case QmtOrderCreated => 4
    case BrokerAccepted => 5
    case Partial => 6
    case Filled => 7
    case Cancelled => 7
    case Rejected => 7
    case Other(_) => -1
  }

  predicate Terminal(s: Stage) {
    s.Filled? || s.Cancelled? || s.Rejected?
  }

  /** The columns of a correlation row that update_stage writes. */
  datatype Progress = Progress(
    stage: Stage, orderId: Option<string>, orderSysid: Option<string>, terminalAt: Option<int>)

  datatype Update = Update(stage: Stage, orderId: string, orderSysid: string, time: int)

  /** COALESCE(NULLIF(id, ''), column). */
  function Coalesce(id: string, column: Option<string>): Option<string> {
    if id == "" then column else Some(id)
  }

  /** The WHERE clause of the update. */
  predicate Advances(current: Stage, next: Stage) {
    !Terminal(current) && Rank(current) <= Rank(next)
  }

  function Apply(p: Progress, u: Update): Progress {
    if Advances(p.stage, u.stage) then
      Progress(u.stage, Coalesce(u.orderId, p.orderId), Coalesce(u.orderSysid, p.orderSysid),
               if Terminal(u.stage) then Some(u.time) else p.terminalAt)
    else p
  }

  function Fold(p: Progress, us: seq<Update>): Progress {
    if us == [] then p else Apply(Fold(p, us[..|us| - 1]), us[|us| - 1])
  }

  /** The initial stage and those of the updates, in order of arrival. */
  function Seen(p: Progress, us: seq<Update>): (ss: seq<Stage>)
    ensures |ss| == |us| + 1
    ensures ss[0] == p.stage && forall k :: 0 <= k < |us| ==> ss[k + 1] == us[k].stage
  {
    [p.stage] + seq(|us|, k requires 0 <= k < |us| => us[k].stage)
  }

  /** None of the first `n` stages is terminal. */
  predicate NoTerminal(ss: seq<Stage>, n: nat)
    requires n <= |ss|
  {
    forall j :: 0 <= j < n ==> !Terminal(ss[j])
  }

  /** `ss[i]` is the first terminal stage; without one, the last of the highest-ranked. */
  predicate Decisive(ss: seq<Stage>, i: int) {
    && 0 <= i < |ss|
    && NoTerminal(ss, i)
    && (Terminal(ss[i]) || (NoTerminal(ss, |ss|)
         && (forall j :: 0 <= j < |ss| ==> Rank(ss[j]) <= Rank(ss[i]))
         && (forall j :: i < j < |ss| ==> Rank(ss[j]) < Rank(ss[i]))))
  }

  /** The stored stage is the first terminal one seen, or else the highest-ranked one seen,
      the latest among unknown names when nothing else was seen. */
  lemma {:induction false} StoredStageIsDecisive(p: Progress, us: seq<Update>) returns (i: int)
    ensures Decisive(Seen(p, us), i)
    ensures Fold(p, us).stage == Seen(p, us)[i]
  {
    if us == [] {
      i := 0;
    } else {
      var n := |us| - 1;
      i := StoredStageIsDecisive(p, us[..n]);
      SeenExtends(p, us);
      DecisiveExtends(Seen(p, us[..n]), us[n].stage, i);
      if Advances(Fold(p, us[..n]).stage, us[n].stage) {
        i := n + 1;
      }
    }
  }

  /** And it is that of every such position, so the condition determines the stage. */
  lemma StoredStageIsDetermined(p: Progress, us: seq<Update>, i: int)
    requires Decisive(Seen(p, us), i)
    ensures Fold(p, us).stage == Seen(p, us)[i]
  {
    var j := StoredStageIsDecisive(p, us);
    DecisiveIsUnique(Seen(p, us), i, j);
  }

  // The same by name

  /** The named stages of an open order, in the order it goes through them. */
  const LADDER := [Reserved, BridgeQueued, SubmitUnknown, QmtSubmitted, QmtOrderCreated, BrokerAccepted, Partial]

  /** How far up the ladder the updates came: the highest rung among the stages seen. */
  predicate Furthest(ss: seq<Stage>, r: int) {
    && 0 <= r < |LADDER| && LADDER[r] in ss
    && forall q :: r < q < |LADDER| ==> LADDER[q] !in ss
  }

  /** An order that is not over stands on the highest rung seen, in whatever order the updates
      came; as long as no named stage was seen it has the last name. */
  lemma FurthestStageIsStored(p: Progress, us: seq<Update>)
    requires Filled !in Seen(p, us) && Cancelled !in Seen(p, us) && Rejected !in Seen(p, us)
    ensures forall r :: Furthest(Seen(p, us), r) ==> Fold(p, us).stage == LADDER[r]
    ensures (forall r :: 0 <= r < |LADDER| ==> LADDER[r] !in Seen(p, us)) ==> Fold(p, us).stage == Seen(p, us)[|us|]
  {
    var ss := Seen(p, us);
    var i := StoredStageIsDecisive(p, us);
    assert ss[i] in ss && !Terminal(ss[i]) && ss[|us|] in ss && !Terminal(ss[|us|]);
    RungOf(ss[i]);
    RungOf(ss[|us|]);
    forall r | Furthest(ss, r) ensures ss[i] == LADDER[r] {
      RungOf(LADDER[r]);
      var j :| 0 <= j < |ss| && ss[j] == LADDER[r];
      assert Rank(ss[j]) <= Rank(ss[i]);
    }
  }

  lemma RungOf(s: Stage)
    ensures if Rank(s) in {0, 1, 2, 3, 4, 5, 6} then LADDER[Rank(s)] == s else Terminal(s) || s.Other?
    ensures forall r :: 0 <= r < |LADDER| && LADDER[r] == s ==> r == Rank(s)
  {
  }

  /** An order that is over stays as the first FILLED, CANCELLED or REJECTED left it, with the
      time of that update. */
  lemma FirstEndIsStored(p: Progress, us: seq<Update>, k: nat)
    requires k < |us| && us[k].stage in {Filled, Cancelled, Rejected}
    requires forall j :: 0 <= j <= k ==> Seen(p, us)[j] !in {Filled, Cancelled, Rejected}
    ensures Fold(p, us).stage == us[k].stage && Fold(p, us).terminalAt == Some(us[k].time)
  {
    EffectiveAdvances(p, us, k);
    NextIsApplied(p, us, k);
    EndedStays(p, us, k + 1);
  }

  lemma NextIsApplied(p: Progress, us: seq<Update>, k: nat)
    requires k < |us|
    ensures Fold(p, us[..k + 1]) == Apply(Fold(p, us[..k]), us[k])
  {
    assert us[..k + 1][..k] == us[..k];
  }

  lemma {:induction false} EndedStays(p: Progress, us: seq<Update>, n: nat)
    requires n <= |us| && Terminal(Fold(p, us[..n]).stage)
    ensures Fold(p, us) == Fold(p, us[..n])
  {
    if n == |us| {
      assert us[..n] == us;
    } else {
      assert us[..|us| - 1][..n] == us[..n];
      EndedStays(p, us[..|us| - 1], n);
    }
  }

  lemma SeenExtends(p: Progress, us: seq<Update>)
    requires us != []
    ensures Seen(p, us) == Seen(p, us[..|us| - 1]) + [us[|us| - 1].stage]
  {
  }

  /** One more stage takes over exactly when it advances the decisive one. */
  lemma DecisiveExtends(ss: seq<Stage>, s: Stage, i: int)
    requires Decisive(ss, i)
    ensures Decisive(ss + [s], if Advances(ss[i], s) then |ss| else i)
  {
    var tt := ss + [s];
    assert tt[|ss|] == s && forall j :: 0 <= j < |ss| ==> tt[j] == ss[j];
  }

  lemma DecisiveIsUnique(ss: seq<Stage>, i: int, j: int)
    requires Decisive(ss, i) && Decisive(ss, j)
    ensures i == j
  {
  }

  function Stages(us: seq<Update>): (ss: multiset<Stage>) {
    if us == [] then multiset{} else Stages(us[..|us| - 1]) + multiset{us[|us| - 1].stage}
  }

  lemma {:induction false} StagesHold(us: seq<Update>, s: Stage)
    ensures s in Stages(us) <==> exists k :: 0 <= k < |us| && us[k].stage == s
  {
    if us != [] {
      var n := |us| - 1;
      StagesHold(us[..n], s);
      if s in Stages(us[..n]) {
        var k :| 0 <= k < n && us[..n][k].stage == s;
        assert us[k].stage == s;
      }
    }
  }

  predicate NoneTerminal(us: seq<Update>) {
    forall k :: 0 <= k < |us| ==> !Terminal(us[k].stage)
  }

  /** The highest rank seen, once no terminal stage arrived. */
  lemma StoredRankIsHighest(p: Progress, us: seq<Update>)
    requires !Terminal(p.stage) && NoneTerminal(us)
    ensures var s := Fold(p, us).stage;
      && (s == p.stage || s in Stages(us)) && !Terminal(s) && Rank(p.stage) <= Rank(s)
      && forall t :: t in Stages(us) ==> Rank(t) <= Rank(s)
  {
    var ss := Seen(p, us);
    var i := StoredStageIsDecisive(p, us);
    assert forall j :: 0 <= j < |ss| ==> !Terminal(ss[j]) by {
      assert forall j :: 1 <= j < |ss| ==> ss[j] == us[j - 1].stage;
    }
    StagesHold(us, ss[i]);
    if i > 0 {
      assert us[i - 1].stage == ss[i];
    }
    forall t | t in Stages(us) ensures Rank(t) <= Rank(ss[i]) {
      StagesHold(us, t);
      var k :| 0 <= k < |us| && us[k].stage == t;
      assert ss[k + 1] == t;
    }
  }

  /** Non-terminal updates may arrive in any order, as soon as one known name is among them. */
  lemma ArrivalOrderIsIrrelevant(p: Progress, us: seq<Update>, vs: seq<Update>)
    requires !Terminal(p.stage) && NoneTerminal(us) && NoneTerminal(vs)
    requires Stages(us) == Stages(vs)
    requires Rank(p.stage) >= 0 || exists s :: s in Stages(us) && Rank(s) >= 0
    ensures Fold(p, us).stage == Fold(p, vs).stage
  {
    StoredRankIsHighest(p, us);
    StoredRankIsHighest(p, vs);
    RanksAreDistinct(Fold(p, us).stage, Fold(p, vs).stage);
  }

  lemma RanksAreDistinct(s: Stage, t: Stage)
    requires !Terminal(s) && !Terminal(t) && Rank(s) == Rank(t) >= 0
    ensures s == t
  {
  }

  /** A stored known stage stays known, whatever names arrive later. */
  lemma {:induction false} KnownStaysKnown(p: Progress, us: seq<Update>)
    requires Rank(p.stage) >= 0
    ensures Rank(Fold(p, us).stage) >= Rank(p.stage)
    ensures Terminal(p.stage) ==> Fold(p, us) == p
  {
    if us != [] {
      KnownStaysKnown(p, us[..|us| - 1]);
    }
  }

  // Which updates write their order ids

  /** The k-th update is written: nothing terminal and nothing higher arrived before it. */
  predicate Effective(p: Progress, us: seq<Update>, k: int) {
    && 0 <= k < |us|
    && (forall j :: 0 <= j <= k ==> !Terminal(Seen(p, us)[j]) && Rank(Seen(p, us)[j]) <= Rank(us[k].stage))
  }

  lemma EffectiveAdvances(p: Progress, us: seq<Update>, k: int)
    requires 0 <= k < |us|
    ensures Effective(p, us, k) <==> Advances(Fold(p, us[..k]).stage, us[k].stage)
  {
    var before, ss := Seen(p, us[..k]), Seen(p, us);
    var i := StoredStageIsDecisive(p, us[..k]);
    assert ss[..k + 1] == before;
    assert forall j :: 0 <= j <= k ==> ss[j] == before[j];
  }

  predicate WritesOrderId(p: Progress, us: seq<Update>, k: int) {
    Effective(p, us, k) && us[k].orderId != ""
  }

  /** The stored order id is the one of the last effective update that carries one, and the
      initial one (k = -1) when there is none. */
  lemma {:induction false} StoredOrderId(p: Progress, us: seq<Update>) returns (k: int)
    ensures k == -1 || WritesOrderId(p, us, k)
    ensures forall j :: j > k ==> !WritesOrderId(p, us, j)
    ensures Fold(p, us).orderId == if k == -1 then p.orderId else Some(us[k].orderId)
  {
    if us == [] {
      k := -1;
    } else {
      var n := |us| - 1;
      k := StoredOrderId(p, us[..n]);
      PrefixWrites(p, us);
      LastWrites(p, us);
      if WritesOrderId(p, us, n) {
        k := n;
      }
    }
  }

  lemma PrefixWrites(p: Progress, us: seq<Update>)
    requires us != []
    ensures forall j :: j < |us| - 1 ==> WritesOrderId(p, us, j) == WritesOrderId(p, us[..|us| - 1], j)
  {
    forall j | j < |us| - 1 ensures WritesOrderId(p, us, j) == WritesOrderId(p, us[..|us| - 1], j) {
      WritesInPrefix(p, us, j);
    }
  }

  /** The last update writes its order id, or leaves the stored one. */
  lemma LastWrites(p: Progress, us: seq<Update>)
    requires us != []
    ensures var n := |us| - 1;
      Fold(p, us).orderId == if WritesOrderId(p, us, n) then Some(us[n].orderId) else Fold(p, us[..n]).orderId
  {
    EffectiveAdvances(p, us, |us| - 1);
  }

  lemma WritesInPrefix(p: Progress, us: seq<Update>, k: int)
    requires us != [] && k < |us| - 1
    ensures WritesOrderId(p, us, k) == WritesOrderId(p, us[..|us| - 1], k)
  {
    var prefix := us[..|us| - 1];
    assert forall j :: 0 <= j <= k ==> Seen(p, us)[j] == Seen(p, prefix)[j];
  }

  function Swapped(p: Progress): Progress {
    Progress(p.stage, p.orderSysid, p.orderId, p.terminalAt)
  }

  function SwappedAll(us: seq<Update>): (vs: seq<Update>)
    ensures |vs| == |us|
    ensures forall k :: 0 <= k < |us| ==> vs[k] == Update(us[k].stage, us[k].orderSysid, us[k].orderId, us[k].time)
  {
    seq(|us|, k requires 0 <= k < |us| => Update(us[k].stage, us[k].orderSysid, us[k].orderId, us[k].time))
  }

  lemma {:induction false} IdsAreSymmetric(p: Progress, us: seq<Update>)
    ensures Fold(Swapped(p), SwappedAll(us)) == Swapped(Fold(p, us))
  {
    if us != [] {
      IdsAreSymmetric(p, us[..|us| - 1]);
      assert SwappedAll(us)[..|us| - 1] == SwappedAll(us[..|us| - 1]);
    }
  }

  /** The system id is stored by the same rule. */
  lemma StoredOrderSysid(p: Progress, us: seq<Update>) returns (k: int)
    ensures k == -1 || (Effective(p, us, k) && us[k].orderSysid != "")
    ensures forall j :: j > k ==> !(Effective(p, us, j) && us[j].orderSysid != "")
    ensures Fold(p, us).orderSysid == if k == -1 then p.orderSysid else Some(us[k].orderSysid)
  {
    IdsAreSymmetric(p, us);
    var q, vs := Swapped(p), SwappedAll(us);
    assert Seen(q, vs) == Seen(p, us);
    k := StoredOrderId(q, vs);
    assert forall j :: WritesOrderId(q, vs, j) <==> Effective(p, us, j) && us[j].orderSysid != "";
  }

  /** Ids once set never clear, and the terminal time is that of the first terminal update. */
  lemma {:induction false} IdsNeverClear(p: Progress, us: seq<Update>)
    ensures p.orderId.Some? ==> Fold(p, us).orderId.Some?
    ensures p.orderSysid.Some? ==> Fold(p, us).orderSysid.Some?
    ensures p.terminalAt.Some? && Terminal(p.stage) ==> Fold(p, us).terminalAt == p.terminalAt
    ensures (p.terminalAt.Some? <==> Terminal(p.stage)) ==> (Fold(p, us).terminalAt.Some? <==> Terminal(Fold(p, us).stage))
  {
    if us != [] {
      IdsNeverClear(p, us[..|us| - 1]);
    }
  }

  /** Only the k-th update brings this order id. */
  predicate BringsNewOrderId(p: Progress, us: seq<Update>, k: int) {
    && 0 <= k < |us| && us[k].orderId != "" && p.orderId != Some(us[k].orderId)
    && forall j :: 0 <= j < |us| && us[j].orderId == us[k].orderId ==> j == k
  }

  lemma EffectiveInPrefix(p: Progress, us: seq<Update>, n: nat, k: int)
    requires 0 <= k < n <= |us|
    ensures Effective(p, us[..n], k) <==> Effective(p, us, k)
  {
    assert forall j :: 0 <= j <= k ==> Seen(p, us[..n])[j] == Seen(p, us)[j];
  }

  /** A new order id is ever stored, after its own update or after any later one, exactly when
      nothing terminal and nothing of a higher rank was seen before it: a late callback with
      a lower stage loses its id for good. */
  lemma OrderIdIsStoredIffTimely(p: Progress, us: seq<Update>, k: int)
    requires BringsNewOrderId(p, us, k)
    ensures (exists n :: 0 <= n <= |us| && Fold(p, us[..n]).orderId == Some(us[k].orderId))
            <==> forall j :: 0 <= j <= k ==> !Terminal(Seen(p, us)[j]) && Rank(Seen(p, us)[j]) <= Rank(us[k].stage)
  {
    if Effective(p, us, k) {
      EffectiveInPrefix(p, us, k + 1, k);
      LastWrites(p, us[..k + 1]);
      assert Fold(p, us[..k + 1]).orderId == Some(us[k].orderId);
    }
    forall n | 0 <= n <= |us| && Fold(p, us[..n]).orderId == Some(us[k].orderId) ensures Effective(p, us, k) {
      var m := StoredOrderId(p, us[..n]);
      assert us[..n][m] == us[m];
      EffectiveInPrefix(p, us, n, k);
    }
  }

  /** So the stage does not depend on the order of arrival, but the order id does. */
  lemma OrderIdDependsOnArrivalOrder()
    ensures var p := Progress(Reserved, None, None, None);
      var created, accepted := Update(QmtOrderCreated, "42", "", 0), Update(BrokerAccepted, "", "", 0);
      && Fold(p, [created, accepted]).stage == Fold(p, [accepted, created]).stage
      && Fold(p, [created, accepted]).orderId == Some("42")
      && Fold(p, [accepted, created]).orderId == None
  {
    var p := Progress(Reserved, None, None, None);
    var created, accepted := Update(QmtOrderCreated, "42", "", 0), Update(BrokerAccepted, "", "", 0);
    assert [created, accepted][..1] == [created] && [accepted, created][..1] == [accepted];
    assert [created][..0] == [] && [accepted][..0] == [];
    assert Fold(p, [created]) == Apply(p, created) && Fold(p, [accepted]) == Apply(p, accepted);
  }
}
