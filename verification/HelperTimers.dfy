/** The Helper's timer callbacks: each may fire while a native call of another is running. */
module HelperTimers {
  import opened Wrappers
  import opened EffectRegistry
  import opened HelperMachine
  import opened HelperQueue

  /** `requests` are the requests with files in the Helper's directories, in the order of their
      names; `calls` logs the positions of those that were executed. */
  class Helper {
    var requests: seq<RequestFiles>
    var commandRunning: bool
    var queryRunning: bool
    ghost var calls: seq<nat>

    /** Requests are separate objects; one that is half done, inside a running command cycle,
        has its claim on disk. */
    ghost predicate Valid()
      reads this, requests
    {
      && Distinct()
      && forall k :: 0 <= k < |requests| ==>
           requests[k].Valid() && (requests[k].model.drain.Idle? || (commandRunning && requests[k].claims != multiset{}))
    }

    ghost predicate Distinct()
      reads this`requests
    {
      forall i, j :: 0 <= i < j < |requests| ==> requests[i] != requests[j]
    }

    /** These are the files of the requests, and those they started with. */
    ghost predicate Tells(fs: seq<Files>, starts: seq<Files>)
      reads this`requests, requests
    {
      && |fs| == |starts| == |requests|
      && forall k :: 0 <= k < |requests| ==> requests[k].model == fs[k] && requests[k].start == starts[k]
    }

    /** No request is in the middle of a drain or recovery. */
    ghost predicate AllIdle()
      reads this`requests, requests
    {
      Distinct() && forall k :: 0 <= k < |requests| ==> requests[k].Valid() && requests[k].model.drain.Idle?
    }

    constructor ()
      ensures Valid() && requests == [] && !commandRunning && !queryRunning
    {
      requests, commandRunning, queryRunning, calls := [], false, false, [];
    }

    /** _directory_has_json over both command directories. */
    method HasCommands() returns (any: bool)
      ensures any <==> exists r :: r in requests && (r.inbox != multiset{} || r.claims != multiset{})
    {
      for i := 0 to |requests|
        invariant forall k :: 0 <= k < i ==> requests[k].inbox == multiset{} && requests[k].claims == multiset{}
      {
        if requests[i].inbox != multiset{} || requests[i].claims != multiset{} {
          return true;
        }
      }
      return false;
    }

    /** _run_maintenance_cycle: no guard goes while any command file is live, and then exactly
        the old ones that say submitted or rejected. */
    method RunMaintenance(stale: seq<bool>, ghost before: seq<Files>, ghost starts: seq<Files>) returns (ghost after: seq<Files>)
      requires Valid() && Tells(before, starts) && |stale| == |requests|
      modifies requests
      ensures Valid() && requests == old(requests) && Tells(after, starts) && |after| == |before|
      ensures if exists k :: 0 <= k < |before| && (before[k].inbox != multiset{} || before[k].claims != multiset{})
              then after == before
              else forall k :: 0 <= k < |before| ==> Expires(before[k], after[k], stale[k])
    {
      var live := HasCommands();
      if live {
        return before;
      }
      NoCommands(before, starts);
      after := ExpireGuards(stale, before, starts);
      IdleIsValid();
    }

    lemma NoCommands(fs: seq<Files>, starts: seq<Files>)
      requires Valid() && Tells(fs, starts)
      requires forall r :: r in requests ==> r.inbox == multiset{} && r.claims == multiset{}
      ensures AllIdle() && forall k :: 0 <= k < |fs| ==> fs[k].inbox == multiset{} && fs[k].claims == multiset{}
    {
    }

    method ExpireGuards(stale: seq<bool>, ghost before: seq<Files>, ghost starts: seq<Files>) returns (ghost after: seq<Files>)
      requires AllIdle() && Tells(before, starts) && |stale| == |requests|
      requires forall k :: 0 <= k < |before| ==> before[k].claims == multiset{}
      modifies requests
      ensures requests == old(requests) && AllIdle() && Tells(after, starts)
      ensures Expiring(before, after, stale, |requests|)
    {
      after := before;
      for i := 0 to |requests|
        invariant AllIdle() && Tells(after, starts) && Expiring(before, after, stale, i)
      {
        after := ExpireAt(i, stale[i], after, starts);
      }
    }

    method ExpireAt(i: nat, stale: bool, ghost before: seq<Files>, ghost starts: seq<Files>) returns (ghost after: seq<Files>)
      requires AllIdle() && Tells(before, starts) && i < |requests| && before[i].claims == multiset{}
      modifies requests[i]
      ensures AllIdle() && Tells(after, starts) && i < |before| && after == before[i := after[i]]
      ensures Expires(before[i], after[i], stale)
    {
      var r := requests[i];
      after := before;
      if stale && r.guard.Some? && r.guard.value.state !in {GuardProcessing, GuardUnknown} {
        r.UnlinkGuard();
        after := before[i := r.model];
      }
    }

    /** One file of a recovery pass. */
    method RecoverAt(i: nat, fate: RecoveryFate, full: bool, ghost before: seq<Files>, ghost starts: seq<Files>)
      returns (recovers: bool, ghost after: seq<Files>)
      requires AllIdle() && Tells(before, starts) && i < |requests|
      modifies requests[i]
      ensures AllIdle() && Tells(after, starts) && i < |before| && after == before[i := after[i]]
      ensures recovers <==> !full && before[i].claims != multiset{}
      ensures if recovers then RecoveredFrom(before[i], after[i], fate, false) else after == before
    {
      var r := requests[i];
      recovers, after := !full && r.claims != multiset{}, before;
      if recovers {
        var fp :| fp in r.claims;
        RecoverRequest(r, fp, fate);
        after := before[i := r.model];
      }
    }

    /** One round of a recovery pass that has come to the i-th request. */
    method RecoverNext(i: nat, fates: seq<RecoveryFate>, limit: nat, sofar: nat,
                       ghost before: seq<Files>, ghost now: seq<Files>, ghost starts: seq<Files>)
      returns (recovered: nat, ghost after: seq<Files>)
      requires AllIdle() && Tells(now, starts) && |fates| == |requests| && i < |requests|
      requires Recovering(before, now, fates, i, limit, sofar)
      modifies requests[i]
      ensures AllIdle() && Tells(after, starts)
      ensures Recovering(before, after, fates, i + 1, limit, recovered)
    {
      var recovers;
      recovers, after := RecoverAt(i, fates[i], sofar >= limit, now, starts);
      recovered := if recovers then sofar + 1 else sofar;
      RecoversOneMore(before, now, after, fates, i, limit, sofar, recovered);
    }

    /** _recover_processing_requests: the claims in the order of their names, up to a limit. */
    method RecoverAll(fates: seq<RecoveryFate>, limit: nat, ghost before: seq<Files>, ghost starts: seq<Files>)
      returns (recovered: nat, ghost after: seq<Files>)
      requires AllIdle() && Tells(before, starts) && |fates| == |requests|
      modifies requests
      ensures requests == old(requests) && AllIdle() && Tells(after, starts)
      ensures Recovering(before, after, fates, |requests|, limit, recovered)
    {
      recovered, after := 0, before;
      for i := 0 to |requests|
        invariant AllIdle() && Tells(after, starts) && Recovering(before, after, fates, i, limit, recovered)
      {
        recovered, after := RecoverNext(i, fates, limit, recovered, before, after, starts);
      }
    }

    /** Without claims a recovery pass does nothing. */
    method RecoverNothing(fates: seq<RecoveryFate>, limit: nat, ghost before: seq<Files>, ghost starts: seq<Files>)
      requires AllIdle() && Tells(before, starts) && |fates| == |requests|
      requires forall k :: 0 <= k < |before| ==> before[k].claims == multiset{}
      modifies requests
      ensures requests == old(requests) && AllIdle() && Tells(before, starts)
    {
      ghost var after;
      var recovered;
      recovered, after := RecoverAll(fates, limit, before, starts);
      NothingRecovered(before, after, fates, limit, recovered);
    }

    /** _run_query_cycle: defers to commands, so it changes no command file at all. */
    method RunQueryCycle(fates: seq<RecoveryFate>, limit: nat, ghost before: seq<Files>, ghost starts: seq<Files>)
      requires Valid() && Tells(before, starts) && |fates| == |requests|
      modifies requests, this`queryRunning
      ensures Valid() && Tells(before, starts) && requests == old(requests) && queryRunning == old(queryRunning)
    {
      if queryRunning {
        return;
      }
      var live := HasCommands();
      if live {
        return;
      }
      NoCommands(before, starts);
      queryRunning := true;
      RecoverNothing(fates, limit, before, starts);
      queryRunning := false;
    }

    /** One round of the drain loop. */
    method DrainAt(i: nat, fate: DrainFate, full: bool, ghost before: seq<Files>, ghost starts: seq<Files>)
      returns (claimed: bool, ghost after: seq<Files>)
      requires AllIdle() && Tells(before, starts) && i < |requests|
      modifies requests[i]
      ensures AllIdle() && Tells(after, starts) && i < |before| && after == before[i := after[i]]
      ensures claimed <==> !full && before[i].inbox != multiset{} && fate.claims
      ensures if full || before[i].inbox == multiset{} then after == before else DrainedFrom(before[i], after[i], fate)
    {
      var r := requests[i];
      claimed, after := false, before;
      if !full && r.inbox != multiset{} {
        var fp :| fp in r.inbox;
        claimed := DrainRequest(r, fp, fate);
        after := before[i := r.model];
      }
    }

    /** The drain loop comes to the i-th request. */
    method DrainNext(i: nat, fates: seq<DrainFate>, limit: nat, sofar: nat,
                     ghost before: seq<Files>, ghost now: seq<Files>, ghost starts: seq<Files>, ghost made: seq<nat>)
      returns (drained: nat, ghost after: seq<Files>, ghost made': seq<nat>)
      requires AllIdle() && Tells(now, starts) && |fates| == |requests| && i < |requests|
      requires Draining(before, now, fates, i, limit, sofar, made)
      modifies requests[i]
      ensures AllIdle() && Tells(after, starts)
      ensures Draining(before, after, fates, i + 1, limit, drained, made')
    {
      var claimed;
      claimed, after := DrainAt(i, fates[i], sofar >= limit, now, starts);
      drained := if claimed then sofar + 1 else sofar;
      made' := if after[i].native != now[i].native then made + [i] else made;
      DrainsOneMore(before, now, after, fates, i, limit, sofar, drained, made, made');
    }

    /** The drain loop over the listed commands, in the order of their names. */
    method DrainAll(fates: seq<DrainFate>, limit: nat, ghost before: seq<Files>, ghost starts: seq<Files>)
      returns (drained: nat, ghost after: seq<Files>)
      requires AllIdle() && Tells(before, starts) && |fates| == |requests|
      modifies requests, this`calls
      ensures requests == old(requests) && AllIdle() && Tells(after, starts)
      ensures old(calls) <= calls
      ensures Draining(before, after, fates, |requests|, limit, drained, calls[|old(calls)|..])
    {
      drained, after := 0, before;
      ghost var made: seq<nat> := [];
      for i := 0 to |requests|
        invariant calls == old(calls)
        invariant AllIdle() && Tells(after, starts) && Draining(before, after, fates, i, limit, drained, made)
      {
        drained, after, made := DrainNext(i, fates, limit, drained, before, after, starts, made);
      }
      calls := calls + made;
      assert calls[|old(calls)|..] == made;
    }

    lemma IdleIsValid()
      requires AllIdle()
      ensures Valid()
    {
    }

    /** drain_file_requests: claims are recovered before anything is listed, and when there
        were too many of them nothing is. */
    method DrainFileRequests(recovery: seq<RecoveryFate>, recoveryLimit: nat, fates: seq<DrainFate>, limit: nat,
                             ghost before: seq<Files>, ghost starts: seq<Files>)
      returns (drained: nat, ghost after: seq<Files>)
      requires AllIdle() && Tells(before, starts) && |recovery| == |fates| == |requests|
      modifies requests, this`calls
      ensures requests == old(requests) && AllIdle() && Tells(after, starts)
      ensures drained <= limit && old(calls) <= calls && OncePerCycle(before, after, calls[|old(calls)|..])
      ensures WithClaims(before) < recoveryLimit ==>
        DueInOrder(before, after, recovery, fates, calls[|old(calls)|..], drained == limit)
    {
      drained := 0;
      ghost var between;
      var recovered;
      recovered, between := RecoverAll(recovery, recoveryLimit, before, starts);
      after := between;
      RecoveryCallsNothing(before, between, recovery, recoveryLimit, recovered);
      if recovered < recoveryLimit {
        drained, after := DrainAll(fates, limit, between, starts);
        CycleIsInOrder(before, between, after, recovery, recoveryLimit, recovered, fates, limit, drained, calls[|old(calls)|..]);
      }
    }

    /** _run_command_cycle: re-entered while it is running it does nothing; otherwise every
        request that is due, queued or left in processing by a crash, is executed, before all
        later ones and, if the limit is not used up, in this cycle. */
    method RunCommandCycle(recovery: seq<RecoveryFate>, recoveryLimit: nat, fates: seq<DrainFate>, limit: nat,
                           ghost before: seq<Files>, ghost starts: seq<Files>)
      returns (drained: nat, ghost after: seq<Files>)
      requires Valid() && Tells(before, starts) && |recovery| == |fates| == |requests|
      modifies requests, this`commandRunning, this`calls
      ensures Valid() && Tells(after, starts) && requests == old(requests) && commandRunning == old(commandRunning)
      ensures old(commandRunning) ==> calls == old(calls) && after == before
      ensures drained <= limit && old(calls) <= calls && OncePerCycle(before, after, calls[|old(calls)|..])
      ensures !old(commandRunning) && WithClaims(before) < recoveryLimit ==>
        DueInOrder(before, after, recovery, fates, calls[|old(calls)|..], drained == limit)
    {
      if commandRunning {
        drained, after := 0, before;
        assert OncePerCycle(before, after, []);
        return;
      }
      assert AllIdle();
      commandRunning := true;
      drained, after := DrainFileRequests(recovery, recoveryLimit, fates, limit, before, starts);
      commandRunning := false;
      IdleIsValid();
    }
  }

  /** Of the old guards exactly those go that say submitted or rejected. */
  predicate Expires(f: Files, f': Files, stale: bool) {
    f' == f.(guard := if stale && f.guard.Some? && (f.guard.value.state == GuardSubmitted || f.guard.value.state == GuardRejected)
                      then None else f.guard)
  }

  /** The first `n` guards were looked at. */
  predicate Expiring(before: seq<Files>, now: seq<Files>, stale: seq<bool>, n: nat) {
    && |before| == |now| == |stale| && n <= |before|
    && (forall k :: 0 <= k < n ==> Expires(before[k], now[k], stale[k]))
    && (forall k :: n <= k < |before| ==> now[k] == before[k])
  }

  /** How many requests have a claimed command. */
  function WithClaims(fs: seq<Files>): nat {
    if fs == [] then 0
    else WithClaims(fs[..|fs| - 1]) + if fs[|fs| - 1].claims != multiset{} then 1 else 0
  }

  function Least(a: nat, b: nat): nat {
    if a < b then a else b
  }

  predicate Increasing(s: seq<nat>) {
    forall i, j :: 0 <= i < j < |s| ==> s[i] < s[j]
  }

  /** A claim without guard and response: the Helper died before it guarded the command. */
  predicate Returnable(f: Files, fp: string) {
    f.claims == multiset{fp} && f.guard.None? && f.response.None?
  }

  function Requeued(f: Files, fp: string): Files {
    f.(inbox := f.inbox + multiset{fp}, claims := multiset{})
  }

  /** The only command file is queued, was not executed, and has not expired. */
  predicate Executable(f: Files, fp: string) {
    f.inbox == multiset{fp} && f.claims == multiset{} && f.guard.None? && f.response.None? && !f.expired
  }

  /** Executable now, or after its claim was recovered. */
  predicate Due(f: Files, fp: string, fate: RecoveryFate) {
    || Executable(f, fp)
    || (Returnable(f, fp) && f.inbox == multiset{} && !f.expired && fate.readable && fate.moves)
  }

  /** Everything works up to the native call. */
  predicate Smooth(fate: DrainFate) {
    fate.claims && fate.readable && fate.checks && fate.guardWrites
    && (fate.native.Accepts? || fate.native.ReturnsUnknown? || fate.native.RaisesAfterCall?)
  }

  // What a recovery pass makes of the files

  ghost predicate RecoveredFrom(f: Files, f': Files, fate: RecoveryFate, stopped: bool) {
    && f'.native == f.native
    && (f.claims == multiset{} ==> f' == f)
    && (!stopped && fate.readable && fate.moves ==> forall fp :: Returnable(f, fp) ==> f' == Requeued(f, fp))
  }

  /** The first `n` requests were recovered, `recovered` of them had claims; none beyond `limit`. */
  ghost predicate Recovering(before: seq<Files>, now: seq<Files>, fates: seq<RecoveryFate>, n: nat, limit: nat, recovered: nat) {
    && |before| == |now| == |fates| && n <= |before|
    && recovered == Least(limit, WithClaims(before[..n]))
    && (forall k :: 0 <= k < n ==> RecoveredFrom(before[k], now[k], fates[k], recovered == limit))
    && (forall k :: n <= k < |before| ==> now[k] == before[k])
  }

  lemma RecoversOneMore(before: seq<Files>, now: seq<Files>, after: seq<Files>, fates: seq<RecoveryFate>, i: nat,
                        limit: nat, sofar: nat, recovered: nat)
    requires Recovering(before, now, fates, i, limit, sofar) && i < |before| && |after| == |before| && after == now[i := after[i]]
    requires recovered == if sofar < limit && now[i].claims != multiset{} then sofar + 1 else sofar
    requires if recovered > sofar then RecoveredFrom(now[i], after[i], fates[i], false) else after == now
    ensures Recovering(before, after, fates, i + 1, limit, recovered)
  {
    assert before[..i + 1][..i] == before[..i];
    forall k | 0 <= k <= i ensures RecoveredFrom(before[k], after[k], fates[k], recovered == limit) {
      if k < i {
        assert RecoveredFrom(before[k], now[k], fates[k], sofar == limit);
      }
    }
  }

  lemma NothingRecovered(before: seq<Files>, after: seq<Files>, fates: seq<RecoveryFate>, limit: nat, recovered: nat)
    requires Recovering(before, after, fates, |before|, limit, recovered)
    requires forall k :: 0 <= k < |before| ==> before[k].claims == multiset{}
    ensures after == before
  {
    forall k | 0 <= k < |before| ensures after[k] == before[k] {
      assert RecoveredFrom(before[k], after[k], fates[k], recovered == limit);
    }
  }

  // What a drain pass makes of the files

  ghost predicate DrainedFrom(f: Files, f': Files, fate: DrainFate) {
    && (f'.native == f.native || |f'.native| == |f.native| + 1)
    && (Smooth(fate) ==> forall fp :: Executable(f, fp) ==> f'.native == f.native + [fp])
  }

  predicate Once(f: Files, f': Files, called: bool) {
    |f'.native| == |f.native| + if called then 1 else 0
  }

  predicate OncePerCycle(before: seq<Files>, after: seq<Files>, made: seq<nat>) {
    && |before| == |after| && Increasing(made)
    && (forall k :: k in made ==> k < |before|)
    && (forall k :: 0 <= k < |before| ==> Once(before[k], after[k], k in made))
  }

  /** The k-th request is executed with this command, before any later one, and unless the
      limit stopped the cycle. */
  predicate InOrder(f: Files, f': Files, fp: string, k: nat, made: seq<nat>, stopped: bool) {
    && (!stopped ==> k in made)
    && (forall j :: j in made && k < j ==> k in made)
    && (k in made ==> f'.native == f.native + [fp])
  }

  /** The drain loop has come to the n-th request; `made` are the calls so far. */
  ghost predicate Draining(before: seq<Files>, now: seq<Files>, fates: seq<DrainFate>, n: nat, limit: nat, drained: nat, made: seq<nat>) {
    && |before| == |now| == |fates| && n <= |before| && drained <= limit
    && Increasing(made) && (forall k :: k in made ==> k < n)
    && (forall k :: 0 <= k < n ==> Once(before[k], now[k], k in made))
    && (forall k, fp :: 0 <= k < n && Executable(before[k], fp) && Smooth(fates[k]) ==>
          InOrder(before[k], now[k], fp, k, made, drained == limit))
    && (forall k :: n <= k < |before| ==> now[k] == before[k])
  }

  ghost predicate DueInOrder(before: seq<Files>, after: seq<Files>, recovery: seq<RecoveryFate>, fates: seq<DrainFate>,
                             made: seq<nat>, stopped: bool)
  {
    && |before| == |after| == |recovery| == |fates|
    && (forall k, fp :: 0 <= k < |before| && Due(before[k], fp, recovery[k]) && Smooth(fates[k]) ==>
          InOrder(before[k], after[k], fp, k, made, stopped))
  }

  lemma DrainsOneMore(before: seq<Files>, now: seq<Files>, after: seq<Files>, fates: seq<DrainFate>, i: nat,
                      limit: nat, sofar: nat, drained: nat, made: seq<nat>, made': seq<nat>)
    requires Draining(before, now, fates, i, limit, sofar, made) && i < |before| && |after| == |before| && after == now[i := after[i]]
    requires sofar <= drained <= limit
    requires if sofar == limit || now[i].inbox == multiset{} then after == now else DrainedFrom(now[i], after[i], fates[i])
    requires made' == if after[i].native != now[i].native then made + [i] else made
    ensures Draining(before, after, fates, i + 1, limit, drained, made')
  {
    OneMoreCall(made, made', i);
    forall k | 0 <= k <= i ensures Once(before[k], after[k], k in made') {
      if k < i {
        assert Once(before[k], now[k], k in made);
      }
    }
    forall k, fp | 0 <= k <= i && Executable(before[k], fp) && Smooth(fates[k])
      ensures InOrder(before[k], after[k], fp, k, made', drained == limit)
    {
      if k < i {
        assert InOrder(before[k], now[k], fp, k, made, sofar == limit);
      } else {
        assert fp in now[i].inbox;
      }
    }
  }

  lemma OneMoreCall(made: seq<nat>, made': seq<nat>, i: nat)
    requires Increasing(made) && (forall k :: k in made ==> k < i) && (made' == made || made' == made + [i])
    ensures Increasing(made') && forall k :: k in made' ==> k <= i
    ensures forall k :: k < i ==> (k in made' <==> k in made)
  {
    assert forall a :: 0 <= a < |made| ==> made[a] in made;
  }

  lemma RecoveryCallsNothing(before: seq<Files>, after: seq<Files>, fates: seq<RecoveryFate>, limit: nat, recovered: nat)
    requires Recovering(before, after, fates, |before|, limit, recovered)
    ensures OncePerCycle(before, after, [])
    ensures recovered == limit ==> WithClaims(before) >= limit
  {
    assert before[..|before|] == before;
    forall k | 0 <= k < |before| ensures after[k].native == before[k].native {
      assert RecoveredFrom(before[k], after[k], fates[k], recovered == limit);
    }
  }

  /** Recovery before the drain: a recovered command keeps its place in the order. */
  lemma CycleIsInOrder(before: seq<Files>, between: seq<Files>, after: seq<Files>,
                       recovery: seq<RecoveryFate>, recoveryLimit: nat, recovered: nat,
                       fates: seq<DrainFate>, limit: nat, drained: nat, made: seq<nat>)
    requires Recovering(before, between, recovery, |before|, recoveryLimit, recovered) && recovered < recoveryLimit
    requires Draining(between, after, fates, |between|, limit, drained, made)
    ensures OncePerCycle(before, after, made) && DueInOrder(before, after, recovery, fates, made, drained == limit)
  {
    forall k | 0 <= k < |before| ensures Once(before[k], after[k], k in made) {
      assert RecoveredFrom(before[k], between[k], recovery[k], false) && Once(between[k], after[k], k in made);
    }
    forall k, fp | 0 <= k < |before| && Due(before[k], fp, recovery[k]) && Smooth(fates[k])
      ensures InOrder(before[k], after[k], fp, k, made, drained == limit)
    {
      assert RecoveredFrom(before[k], between[k], recovery[k], false);
      assert Executable(between[k], fp);
    }
  }

  method RecoverRequest(r: RequestFiles, fp: string, fate: RecoveryFate)
    requires r.Valid() && r.model.drain.Idle? && fp in r.claims
    modifies r
    ensures r.Valid() && r.model.drain.Idle? && r.start == old(r.start)
    ensures RecoveredFrom(old(r.model), r.model, fate, false)
  {
    r.RecoverOne(fp, fate);
  }

  method DrainRequest(r: RequestFiles, fp: string, fate: DrainFate) returns (claimed: bool)
    requires r.Valid() && r.model.drain.Idle? && fp in r.inbox
    modifies r
    ensures r.Valid() && r.model.drain.Idle? && r.start == old(r.start) && claimed == fate.claims
    ensures DrainedFrom(old(r.model), r.model, fate)
  {
    r.DrainOne(fp, fate);
    claimed := fate.claims;
  }
}
