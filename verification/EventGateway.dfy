/** The Gateway's delivery of one batch of claimed event files. */
module EventGateway {
  import opened Wrappers
  import opened EventChain

  const SEEN_LIMIT: nat := 20000

  /** The events of a batch that are known, or those that are not, in order. */
  function Select(batch: seq<string>, known: set<string>, inside: bool): (r: seq<string>)
    ensures forall id :: id in r <==> id in batch && (id in known <==> inside)
  {
    if batch == [] then []
    else
      assert batch == batch[..|batch| - 1] + [batch[|batch| - 1]];
      Select(batch[..|batch| - 1], known, inside) +
      (if batch[|batch| - 1] in known <==> inside then [batch[|batch| - 1]] else [])
  }

  lemma {:induction false} SelectKeepsDistinct(batch: seq<string>, known: set<string>, inside: bool)
    requires AllDistinct(batch)
    ensures AllDistinct(Select(batch, known, inside))
  {
    if batch != [] {
      SelectKeepsDistinct(batch[..|batch| - 1], known, inside);
    }
  }

  /** The longest prefix of events that are delivered: the first failure ends the batch. */
  function Delivered(ids: seq<string>, emits: string -> bool): (n: nat)
    ensures n <= |ids|
    ensures forall i :: 0 <= i < n ==> emits(ids[i])
    ensures n < |ids| ==> !emits(ids[n])
    decreases |ids|
  {
    if ids == [] || !emits(ids[0]) then 0 else 1 + Delivered(ids[1..], emits)
  }

  /** A file whose event is done with: removed, or retried when the removal fails. */
  function Settled(f: EventFile, removed: bool): EventFile {
    if removed then f.(place := Removed) else Retried(f)
  }

  /** The file of an undelivered event when the first `n` were delivered: those are settled
      if they could be committed, the next one has failed, the rest stay claimed. */
  function AfterTodo(f: EventFile, id: string, todo: seq<string>, n: nat, marks: bool, removes: string -> bool): EventFile
    requires n <= |todo|
  {
    if id in todo[..n] then Settled(f, marks && removes(id))
    else if n < |todo| && todo[n] == id then Retried(f)
    else f
  }

  /** The file of an event after the whole batch; known events are settled without a send. */
  function After(f: EventFile, id: string, batch: seq<string>, known: set<string>,
                 emits: string -> bool, marks: bool, removes: string -> bool): EventFile
  {
    var todo := Select(batch, known, false);
    if id in batch && id in known then Settled(f, removes(id))
    else AfterTodo(f, id, todo, Delivered(todo, emits), marks, removes)
  }

  // The same by position in the batch

  /** Every new event before `batch[i]` was delivered. */
  predicate Reached(batch: seq<string>, known: set<string>, emits: string -> bool, i: nat)
    requires i <= |batch|
  {
    forall k :: 0 <= k < i && batch[k] !in known ==> emits(batch[k])
  }

  /** A file is removed, or goes back after a failure: live for two more attempts, then set aside. */
  predicate RemovedOrRetried(f: EventFile, f': EventFile, removed: bool) {
    && f'.body == f.body
    && (removed ==> f'.place == Removed)
    && (!removed && f.retries < 2 ==> f'.place == Live && f'.retries == f.retries + 1)
    && (!removed && f.retries >= 2 ==> f'.place == SetAside)
  }

  /** What becomes of the file of the i-th event. */
  predicate Fate(f: EventFile, f': EventFile, batch: seq<string>, known: set<string>, i: nat,
                 emits: string -> bool, marks: bool, removes: string -> bool)
    requires i < |batch|
  {
    if batch[i] in known then RemovedOrRetried(f, f', removes(batch[i]))
    else if Reached(batch, known, emits, i) then RemovedOrRetried(f, f', emits(batch[i]) && marks && removes(batch[i]))
    else f' == f
  }

  lemma {:induction false} SelectOfPrefix(batch: seq<string>, known: set<string>, i: nat)
    requires i <= |batch|
    ensures Select(batch[..i], known, false) <= Select(batch, known, false)
  {
    if i == |batch| {
      assert batch[..i] == batch;
    } else {
      var init := batch[..|batch| - 1];
      SelectOfPrefix(init, known, i);
      assert init[..i] == batch[..i] && Select(init, known, false) <= Select(batch, known, false);
    }
  }

  /** The events before `batch[i]` are selected before it. */
  lemma SelectIsInOrder(batch: seq<string>, known: set<string>, i: nat)
    requires i < |batch| && batch[i] !in known
    ensures var before, todo := Select(batch[..i], known, false), Select(batch, known, false);
      |before| < |todo| && todo[..|before|] == before && todo[|before|] == batch[i]
  {
    SelectOfPrefix(batch, known, i + 1);
    assert batch[..i + 1][..i] == batch[..i] && batch[..i + 1][i] == batch[i];
    assert Select(batch[..i + 1], known, false) == Select(batch[..i], known, false) + [batch[i]];
  }

  lemma DeliveredIffReached(batch: seq<string>, known: set<string>, emits: string -> bool, i: nat)
    requires i < |batch| && batch[i] !in known
    ensures var p, n := |Select(batch[..i], known, false)|, Delivered(Select(batch, known, false), emits);
      && (p < n <==> Reached(batch, known, emits, i + 1))
      && (p <= n <==> Reached(batch, known, emits, i))
  {
    var before, todo := Select(batch[..i], known, false), Select(batch, known, false);
    var p, n := |before|, Delivered(todo, emits);
    SelectIsInOrder(batch, known, i);
    if p <= n {
      forall k | 0 <= k < i && batch[k] !in known ensures emits(batch[k]) {
        assert batch[..i][k] in before;
      }
    } else {
      assert todo[n] == before[n] && before[n] in batch[..i] && !emits(before[n]);
      var k :| 0 <= k < i && batch[..i][k] == before[n];
      assert batch[k] !in known && !emits(batch[k]);
    }
    assert p < n ==> emits(todo[p]);
    assert p == n ==> !emits(todo[p]);
  }

  /** The file of each event after the batch. */
  lemma AfterIsFate(f: EventFile, batch: seq<string>, known: set<string>, i: nat,
                    emits: string -> bool, marks: bool, removes: string -> bool)
    requires AllDistinct(batch) && i < |batch|
    ensures Fate(f, After(f, batch[i], batch, known, emits, marks, removes), batch, known, i, emits, marks, removes)
  {
    if batch[i] !in known {
      var todo, p := Select(batch, known, false), |Select(batch[..i], known, false)|;
      SelectKeepsDistinct(batch, known, false);
      SelectIsInOrder(batch, known, i);
      DeliveredIffReached(batch, known, emits, i);
      PositionInPrefix(todo, p, Delivered(todo, emits));
    }
  }

  lemma PositionInPrefix(ids: seq<string>, p: nat, n: nat)
    requires AllDistinct(ids) && p < |ids| && n <= |ids|
    ensures ids[p] in ids[..n] <==> p < n
    ensures n < |ids| ==> (ids[n] == ids[p] <==> n == p)
  {
  }

  /** Recorded are the new events up to the first failure. */
  lemma DeliveredByPosition(batch: seq<string>, known: set<string>, emits: string -> bool, i: nat)
    requires AllDistinct(batch) && i < |batch| && batch[i] !in known
    ensures var todo := Select(batch, known, false);
      batch[i] in todo[..Delivered(todo, emits)] <==> Reached(batch, known, emits, i + 1)
  {
    var todo, p := Select(batch, known, false), |Select(batch[..i], known, false)|;
    SelectKeepsDistinct(batch, known, false);
    SelectIsInOrder(batch, known, i);
    DeliveredIffReached(batch, known, emits, i);
    PositionInPrefix(todo, p, Delivered(todo, emits));
  }

  predicate AllDistinct(ids: seq<string>) {
    forall i, j :: 0 <= i < j < |ids| ==> ids[i] != ids[j]
  }

  class LiveEvents {
    var files: map<string, EventFile>
    var seen: set<string>
    var dedupe: set<string>

    constructor (files: map<string, EventFile>, dedupe: set<string>)
      ensures this.files == files && this.dedupe == dedupe && seen == {}
    {
      this.files, this.dedupe, seen := files, dedupe, {};
    }

    /** _deliver_live_event_batch: deliver in order up to the first failure, commit the ids of
        what was delivered, and only then remove files. */
    method DeliverBatch(batch: seq<string>, emits: string -> bool, marks: bool, removes: string -> bool)
      requires AllDistinct(batch)
      requires forall id :: id in batch ==> id in files && files[id].place.Claimed?
      modifies this
      ensures files.Keys == old(files).Keys
      ensures forall id :: id in files ==>
        files[id] == After(old(files)[id], id, batch, old(seen) + old(dedupe), emits, marks, removes)
      ensures forall i :: 0 <= i < |batch| ==>
        Fate(old(files)[batch[i]], files[batch[i]], batch, old(seen) + old(dedupe), i, emits, marks, removes)
      ensures forall id :: id in files && id !in batch ==> files[id] == old(files)[id]
      ensures forall i :: 0 <= i < |batch| && batch[i] !in old(seen) + old(dedupe) ==>
        (batch[i] in dedupe <==> marks && Reached(batch, old(seen) + old(dedupe), emits, i + 1))
      ensures var todo := Select(batch, old(seen) + old(dedupe), false);
        var delivered := set id | id in todo[..Delivered(todo, emits)];
        dedupe == if marks then old(dedupe) + delivered else old(dedupe)
      ensures seen <= old(seen) + dedupe
    {
      var known := seen + dedupe;
      var todo, duplicates := Partition(batch, known);
      SettleAll(duplicates, removes);
      DeliverTodo(todo, emits, marks, removes);
      forall id | id in files
        ensures files[id] == After(old(files)[id], id, batch, known, emits, marks, removes)
      {
        assert id in duplicates <==> id in batch && id in known;
        assert id in todo <==> id in batch && id !in known;
      }
      forall i | 0 <= i < |batch|
        ensures Fate(old(files)[batch[i]], files[batch[i]], batch, known, i, emits, marks, removes)
      {
        AfterIsFate(old(files)[batch[i]], batch, known, i, emits, marks, removes);
      }
      forall i | 0 <= i < |batch| && batch[i] !in known
        ensures batch[i] in dedupe <==> marks && Reached(batch, known, emits, i + 1)
      {
        DeliveredByPosition(batch, known, emits, i);
      }
    }

    method DeliverTodo(todo: seq<string>, emits: string -> bool, marks: bool, removes: string -> bool)
      requires AllDistinct(todo) && forall id :: id in todo ==> id in files
      modifies this
      ensures files.Keys == old(files).Keys
      ensures forall id :: id in files ==>
        files[id] == AfterTodo(old(files)[id], id, todo, Delivered(todo, emits), marks, removes)
      ensures dedupe == if marks then old(dedupe) + (set id | id in todo[..Delivered(todo, emits)]) else old(dedupe)
      ensures seen <= old(seen) + dedupe
    {
      var n := EmitAll(todo, emits);
      DeliveredAreOld(todo, n);
      if n < |todo| {
        files := files[todo[n] := Retried(files[todo[n]])];
      }
      if n > 0 {
        Commit(todo[..n], marks, removes);
      }
    }

    /** Record what was delivered, then settle its files; an uncommitted batch is retried. */
    method Commit(delivered: seq<string>, marks: bool, removes: string -> bool)
      requires AllDistinct(delivered) && forall id :: id in delivered ==> id in files
      modifies this
      ensures files.Keys == old(files).Keys
      ensures forall id :: id in files ==>
        files[id] == if id in delivered then Settled(old(files)[id], marks && removes(id)) else old(files)[id]
      ensures dedupe == if marks then old(dedupe) + (set id | id in delivered) else old(dedupe)
      ensures seen <= old(seen) + dedupe
    {
      if marks {
        dedupe := dedupe + set id | id in delivered;
        seen := seen + set id | id in delivered;
        SettleAll(delivered, removes);
      } else {
        SettleAll(delivered, _ => false);
      }
      if |seen| > SEEN_LIMIT {
        seen := {};
      }
    }

    method SettleAll(ids: seq<string>, removes: string -> bool)
      requires AllDistinct(ids) && forall id :: id in ids ==> id in files
      modifies this`files
      ensures files.Keys == old(files).Keys
      ensures forall id :: id in files ==> files[id] == if id in ids then Settled(old(files)[id], removes(id)) else old(files)[id]
    {
      for i := 0 to |ids|
        invariant files.Keys == old(files).Keys
        invariant forall id :: id in files ==>
          files[id] == if id in ids[..i] then Settled(old(files)[id], removes(id)) else old(files)[id]
      {
        assert ids[..i + 1] == ids[..i] + [ids[i]] && ids[i] !in ids[..i];
        files := files[ids[i] := Settled(files[ids[i]], removes(ids[i]))];
      }
      assert ids[..|ids|] == ids;
    }
  }

  lemma DeliveredAreOld(todo: seq<string>, n: nat)
    requires AllDistinct(todo) && n <= |todo|
    ensures AllDistinct(todo[..n]) && (n < |todo| ==> todo[n] !in todo[..n])
  {
  }

  /** A batch removes only files of events that are in the dedupe table afterwards, or that
      were known before. */
  lemma RemovedIsRecorded(f: EventFile, id: string, batch: seq<string>, known: set<string>,
                          emits: string -> bool, marks: bool, removes: string -> bool)
    requires !f.place.Removed? && After(f, id, batch, known, emits, marks, removes).place.Removed?
    ensures var todo := Select(batch, known, false);
      id in known || (marks && id in todo[..Delivered(todo, emits)] && emits(id))
  {
  }

  /** Order is kept on the failure path: after the first failure nothing is delivered, and the
      events behind it stay claimed. */
  lemma FailureStopsTheBatch(f: EventFile, i: nat, j: nat, batch: seq<string>, known: set<string>,
                             emits: string -> bool, marks: bool, removes: string -> bool)
    requires AllDistinct(Select(batch, known, false))
    requires var todo := Select(batch, known, false); i < j < |todo| && !emits(todo[i])
    ensures var todo := Select(batch, known, false);
      Delivered(todo, emits) <= i && After(f, todo[j], batch, known, emits, marks, removes) == f
  {
    var todo := Select(batch, known, false);
    assert todo[j] in todo;
  }

  method Partition(batch: seq<string>, known: set<string>) returns (todo: seq<string>, duplicates: seq<string>)
    requires AllDistinct(batch)
    ensures todo == Select(batch, known, false) && duplicates == Select(batch, known, true)
    ensures AllDistinct(todo) && AllDistinct(duplicates)
  {
    todo, duplicates := [], [];
    for i := 0 to |batch|
      invariant todo == Select(batch[..i], known, false) && duplicates == Select(batch[..i], known, true)
    {
      assert batch[..i + 1][..i] == batch[..i];
      if batch[i] in known {
        duplicates := duplicates + [batch[i]];
      } else {
        todo := todo + [batch[i]];
      }
    }
    assert batch[..|batch|] == batch;
    SelectKeepsDistinct(batch, known, false);
    SelectKeepsDistinct(batch, known, true);
  }

  /** Emit in order and stop at the first failure. */
  method EmitAll(ids: seq<string>, emits: string -> bool) returns (n: nat)
    ensures n == Delivered(ids, emits)
  {
    n := 0;
    while n < |ids| && emits(ids[n])
      invariant n <= |ids| && Delivered(ids, emits) == n + Delivered(ids[n..], emits)
    {
      assert ids[n..][0] == ids[n] && ids[n..][1..] == ids[n + 1..];
      n := n + 1;
    }
    assert n < |ids| ==> ids[n..][0] == ids[n];
  }
}
