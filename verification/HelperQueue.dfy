/** The Helper's drain and recovery of one request, written on its files, with every file
    operation logged as a step of the machine. */
module HelperQueue {
  import opened Wrappers
  import opened EffectRegistry
  import opened HelperMachine
  import Runs

  /** How the native call goes. */
  datatype NativeFate = Accepts | ReturnsUnknown | Disabled | RaisesBeforeCall | RaisesAfterCall

  /** What the file system and QMT do during one drain of one command. */
  datatype DrainFate = DrainFate(
    claims: bool, readable: bool, checks: bool, identityError: bool, guardWrites: bool, native: NativeFate,
    finalGuardWrites: bool, responseWrites: bool, removes: bool,
    errorResponseWrites: bool, errorGuardWrites: bool, archives: bool)

  predicate Calls(n: NativeFate) {
    n.Accepts? || n.ReturnsUnknown? || n.RaisesAfterCall?
  }

  /** A queued or claimed command of the same request that carries another effect. */
  predicate Sibling(inbox: multiset<string>, claims: multiset<string>, fp: string) {
    exists c :: c in inbox + claims && c != fp
  }

  /** What happens to the files during the recovery of one claim. */
  datatype RecoveryFate = RecoveryFate(readable: bool, moves: bool, guardWrites: bool, responseWrites: bool, removes: bool)

  /** The answer a claimed command gets without a native call: refused, isolated, or that of
      an earlier attempt.  None means that every check passes. */
  function LocalAnswer(f: Files, fp: string, identityError: bool): Option<Response> {
    if identityError && f.expired then Some(Response(fp, Rejected))
    else if Sibling(f.inbox, f.claims, fp) || ArtifactConflict(f, fp) then Some(Response(fp, SubmitUnknown))
    else if DuplicateResponse(f, fp).Some? then DuplicateResponse(f, fp)
    else if f.expired then Some(Response(fp, Rejected))
    else None
  }

  /** The native call is reached. */
  predicate Reaches(f: Files, fp: string, fate: DrainFate) {
    fate.claims && fate.readable && fate.checks && fate.guardWrites && LocalAnswer(f, fp, fate.identityError).None?
  }

  function VerdictOf(n: NativeFate): Verdict {
    match n
    case Accepts => Submitted
    case Disabled => Rejected
    case _ => SubmitUnknown
  }

  /** Every write and removal that may be needed succeeds. */
  predicate WritesWork(fate: DrainFate) {
    fate.guardWrites && fate.finalGuardWrites && fate.responseWrites && fate.removes
    && fate.errorResponseWrites && fate.errorGuardWrites && fate.archives
  }

  /** An earlier response is repeated, from the file or from the guard; an unfinished guard
      means that the call may have been made. */
  predicate RepeatsEarlier(earlier: Option<Response>, guard: Option<Guard>, response: Option<Response>, fp: string) {
    if earlier.Some? then response == earlier
    else if guard.None? then false
    else if guard.value.response.Some? then response == guard.value.response
    else response == Some(Response(fp, if guard.value.state.GuardProcessing? then SubmitUnknown else Rejected))
  }

  /** Response and guard say this. */
  predicate Filed(response: Option<Response>, guard: Option<Guard>, verdict: Verdict, state: GuardState, fp: string) {
    response == Some(Response(fp, verdict)) && guard == Some(Guard(state, fp, response))
  }

  /** Nothing stands against the native call: no other command file, no trace of an earlier
      attempt, and the request has not expired. */
  predicate Untouched(f: Files, fp: string) {
    f.response.None? && f.guard.None? && !f.expired && forall c :: c in f.inbox + f.claims ==> c == fp
  }

  /** The answer of a command that expired or has been seen before, and the files it leaves.  An
      expired identity is refused first; another effect of the same request, queued, claimed or
      in an artifact, makes the result unknown; then an earlier answer is repeated, and only a
      command without any trace is refused for being late. */
  predicate AnsweredFirst(f: Files, response: Option<Response>, guard: Option<Guard>,
                          inbox: multiset<string>, claims: multiset<string>, fp: string, fate: DrainFate)
  {
    if !(fate.identityError && f.expired) && exists c :: c in f.inbox + f.claims && c != fp then
      Filed(response, guard, SubmitUnknown, GuardUnknown, fp) && inbox == multiset{} && claims == multiset{}
    else
      && inbox == f.inbox - multiset{fp} && claims == (if fate.removes then f.claims else f.claims + multiset{fp})
      && (if fate.identityError && f.expired then response == Some(Response(fp, Rejected)) && guard == f.guard
          else if CarriesOther(f, fp) then Filed(response, guard, SubmitUnknown, GuardUnknown, fp)
          else if f.response.Some? || f.guard.Some? then RepeatsEarlier(f.response, f.guard, response, fp) && guard == f.guard
          else response == Some(Response(fp, Rejected)) && guard == f.guard)
  }

  /** A response or guard of another effect. */
  predicate CarriesOther(f: Files, fp: string) {
    || (f.response.Some? && f.response.value.fingerprint != fp)
    || (f.guard.Some? && (f.guard.value.fingerprint != fp
                          || (f.guard.value.response.Some? && f.guard.value.response.value.fingerprint != fp)))
  }

  /** What a command that is answered without a native call leaves: a conflict isolates the
      other command files, or the artifacts, behind an unknown guard; anything else keeps them. */
  predicate Answered(f: Files, guard: Option<Guard>, inbox: multiset<string>, claims: multiset<string>,
                     fp: string, identityError: bool, removed: bool)
  {
    if !(identityError && f.expired) && Sibling(f.inbox, f.claims, fp) then
      guard == Some(UnknownGuard(fp)) && inbox == multiset{} && claims == multiset{}
    else
      && guard == (if !(identityError && f.expired) && ArtifactConflict(f, fp) then Some(UnknownGuard(fp)) else f.guard)
      && inbox == f.inbox && claims == if removed then f.claims - multiset{fp} else f.claims
  }

  class RequestFiles {
    var inbox: multiset<string>
    var claims: multiset<string>
    var guard: Option<Guard>
    var response: Option<Response>
    var expired: bool
    ghost var native: seq<string>
    ghost var start: Files
    ghost var trace: seq<HelperStep>
    ghost var model: Files

    /** The files are those of a machine that has run the logged steps. */
    ghost predicate Valid()
      reads this
    {
      && HelperRun(start, trace) == Some(model)
      && model.inbox == inbox && model.claims == claims && model.guard == guard && model.response == response
      && model.expired == expired && model.native == native
    }

    constructor (f: Files)
      ensures Valid() && model == f && trace == []
    {
      inbox, claims, guard, response, expired, native := f.inbox, f.claims, f.guard, f.response, f.expired, f.native;
      start, trace, model := f, [], f;
    }

    /** The file operation just made is this step of the machine. */
    ghost method Log(s: HelperStep)
      requires HelperRun(start, trace) == Some(model)
      requires var next := HelperNext(model, s);
        && next.Some?
        && next.value.inbox == inbox && next.value.claims == claims && next.value.guard == guard
        && next.value.response == response && next.value.expired == expired && next.value.native == native
      modifies this`trace, this`model
      ensures Valid() && trace == old(trace) + [s] && start == old(start)
      ensures HelperNext(old(model), s) == Some(model)
    {
      Runs.RunSnoc(HelperNext, start, trace, s);
      trace, model := trace + [s], HelperNext(model, s).value;
    }

    ghost method LogTo(s: HelperStep, next: Files)
      requires HelperRun(start, trace) == Some(model) && HelperNext(model, s) == Some(next)
      requires next.inbox == inbox && next.claims == claims && next.guard == guard
      requires next.response == response && next.expired == expired && next.native == native
      modifies this`trace, this`model
      ensures Valid() && model == next
    {
      Runs.RunSnoc(HelperNext, start, trace, s);
      trace, model := trace + [s], next;
    }

    // One method per file operation or native call

    method RenameToProcessing(fp: string)
      requires Valid() && model.drain.Idle? && fp in inbox
      modifies this`inbox, this`claims, this`trace, this`model
      ensures Valid()
      ensures model == Taken(old(model), fp)
    {
      inbox, claims := inbox - multiset{fp}, claims + multiset{fp};
      Log(Claim(fp));
    }

    /** An exception before the guard is written, or in writing it. */
    ghost method BreakBeforeGuard()
      requires Valid() && model.drain.Claimed?
      modifies this`trace, this`model
      ensures Valid() && model == old(model).(drain := Raised(old(model).drain.fp, false))
    {
      Log(ClaimBreaks);
    }

    ghost method RefuseClaim()
      requires Valid() && model.drain.Claimed? && expired
      modifies this`trace, this`model
      ensures Valid()
      ensures var fp := old(model).drain.fp; model == old(model).(drain := Responding(fp, Response(fp, Rejected), false))
    {
      Log(Refuse);
    }

    /** _fail_closed_queued_sibling_conflict, taken as one step. */
    method IsolateSiblings(fp: string)
      requires Valid() && model.drain == Claimed(fp)
      modifies this`inbox, this`claims, this`response, this`guard, this`trace, this`model
      ensures Valid()
      ensures var unknown := Response(fp, SubmitUnknown);
        model == old(model).(inbox := multiset{}, claims := multiset{}, response := None,
                             guard := Some(Guard(GuardUnknown, fp, Some(unknown))), drain := Responding(fp, unknown, false))
    {
      inbox, claims, response := multiset{}, multiset{}, None;
      guard := Some(Guard(GuardUnknown, fp, Some(Response(fp, SubmitUnknown))));
      Log(SiblingConflict);
    }

    /** _fail_closed_artifact_conflict, taken as one step. */
    method IsolateArtifacts(fp: string)
      requires Valid() && model.drain == Claimed(fp) && ArtifactConflict(model, fp)
      modifies this`response, this`guard, this`trace, this`model
      ensures Valid()
      ensures var unknown := Response(fp, SubmitUnknown);
        model == old(model).(response := None, guard := Some(Guard(GuardUnknown, fp, Some(unknown))),
                             drain := Responding(fp, unknown, false))
    {
      response, guard := None, Some(Guard(GuardUnknown, fp, Some(Response(fp, SubmitUnknown))));
      Log(AnswerDuplicate);
    }

    ghost method AnswerFromArtifacts(fp: string)
      requires Valid() && model.drain == Claimed(fp) && !ArtifactConflict(model, fp) && DuplicateResponse(model, fp).Some?
      modifies this`trace, this`model
      ensures Valid() && model == old(model).(drain := Responding(fp, DuplicateResponse(old(model), fp).value, false))
    {
      Log(AnswerDuplicate);
    }

    method WriteProcessingGuard(fp: string)
      requires Valid() && model.drain == Claimed(fp) && !expired && !ArtifactConflict(model, fp) && DuplicateResponse(model, fp).None?
      modifies this`guard, this`trace, this`model
      ensures Valid() && model == old(model).(guard := Some(Guard(GuardProcessing, fp, None)), drain := Guarded(fp))
    {
      guard := Some(Guard(GuardProcessing, fp, None));
      Log(WriteGuard);
    }

    /** dispatch_qmt_action. */
    method CallNative(fp: string, fate: NativeFate)
      requires Valid() && model.drain == Guarded(fp)
      modifies this`native, this`trace, this`model
      ensures Valid()
      ensures model == old(model).(
        native := if Calls(fate) then old(native) + [fp] else old(native),
        result := if fate.Accepts? || fate.ReturnsUnknown? then Some(VerdictOf(fate)) else old(model).result,
        drain := if fate.RaisesBeforeCall? || fate.RaisesAfterCall? then Raised(fp, true) else Returned(fp, VerdictOf(fate)))
    {
      if Calls(fate) {
        native := native + [fp];
      }
      match fate
      case Accepts => Log(NativeReturns(true));
      case ReturnsUnknown => Log(NativeReturns(false));
      case Disabled => Log(NativeDisabled);
      case RaisesBeforeCall => Log(NativeRaises(false));
      case RaisesAfterCall => Log(NativeRaises(true));
    }

    method WriteFinalGuard(fp: string, v: Verdict, writes: bool)
      requires Valid() && model.drain == Returned(fp, v)
      modifies this`guard, this`trace, this`model
      ensures Valid()
      ensures var reply := Response(fp, v);
        model == if writes then old(model).(guard := Some(Guard(FinalState(v), fp, Some(reply))), drain := Responding(fp, reply, true))
                 else old(model).(drain := Raised(fp, true))
    {
      if writes {
        guard := Some(Guard(FinalState(v), fp, Some(Response(fp, v))));
        Log(FinalGuard);
      } else {
        Log(FinalGuardBreaks);
      }
    }

    method ReplaceResponse(reply: Response, writes: bool)
      requires Valid() && model.drain.Responding? && model.drain.reply == reply
      modifies this`response, this`trace, this`model
      ensures Valid()
      ensures model == if writes then old(model).(response := Some(reply), wrote := true, drain := Responded(old(model).drain.fp))
                       else old(model).(drain := Raised(old(model).drain.fp, old(model).drain.dispatched))
    {
      if writes {
        response := Some(reply);
        Log(WriteResponse);
      } else {
        Log(ResponseBreaks);
      }
    }

    method UnlinkClaim(fp: string, removes: bool)
      requires Valid() && model.drain == Responded(fp)
      modifies this`claims, this`trace, this`model
      ensures Valid()
      ensures model == old(model).(claims := if removes then old(claims) - multiset{fp} else old(claims), drain := Idle)
    {
      if removes {
        claims := claims - multiset{fp};
        Log(RemoveClaim);
      } else {
        Log(RemoveClaimFails);
      }
    }

    method WriteErrorResponse(fp: string, dispatched: bool, writes: bool)
      requires Valid() && model.drain == Raised(fp, dispatched)
      modifies this`response, this`trace, this`model
      ensures Valid()
      ensures model ==
        if writes then old(model).(response := Some(ErrorReply(fp, dispatched)), wrote := true, drain := RaiseResponded(fp, dispatched))
        else old(model).(drain := Archiving(fp))
    {
      if writes {
        response := Some(ErrorReply(fp, dispatched));
        Log(RaiseResponse);
      } else {
        Log(RaiseResponseFails);
      }
    }

    method WriteErrorGuard(fp: string, dispatched: bool, writes: bool)
      requires Valid() && model.drain == RaiseResponded(fp, dispatched)
      modifies this`guard, this`trace, this`model
      ensures Valid()
      ensures model == old(model).(guard := if writes then Some(ErrorGuard(fp, dispatched)) else old(guard), drain := Archiving(fp))
    {
      if writes {
        guard := Some(ErrorGuard(fp, dispatched));
        Log(RaiseGuard);
      } else {
        Log(RaiseGuardFails);
      }
    }

    method MoveToFailed(fp: string, moves: bool)
      requires Valid() && model.drain == Archiving(fp)
      modifies this`claims, this`trace, this`model
      ensures Valid()
      ensures model == old(model).(claims := if moves then old(claims) - multiset{fp} else old(claims), drain := Idle)
    {
      if moves {
        claims := claims - multiset{fp};
        Log(ArchiveClaim);
      } else {
        Log(ArchiveFails);
      }
    }

    // drain_file_requests

    /** The exception handler: response first, then guard, then the claim goes to failed. */
    method ReportException(fp: string, dispatched: bool, fate: DrainFate)
      requires Valid() && model.drain == Raised(fp, dispatched)
      modifies this`response, this`guard, this`claims, this`trace, this`model
      ensures Valid() && model == Reported(old(model), fp, dispatched, fate)
    {
      WriteErrorResponse(fp, dispatched, fate.errorResponseWrites);
      if fate.errorResponseWrites {
        WriteErrorGuard(fp, dispatched, fate.errorGuardWrites);
      }
      MoveToFailed(fp, fate.archives);
    }

    /** _guard_duplicate_response, isolating artifacts of another effect. */
    method FindDuplicate(fp: string) returns (duplicate: Option<Response>)
      requires Valid() && model.drain == Claimed(fp)
      modifies this`response, this`guard, this`trace, this`model
      ensures Valid()
      ensures duplicate.None? <==> !ArtifactConflict(old(model), fp) && DuplicateResponse(old(model), fp).None?
      ensures duplicate.None? ==> model == old(model)
      ensures duplicate == if ArtifactConflict(old(model), fp) then Some(Response(fp, SubmitUnknown)) else DuplicateResponse(old(model), fp)
      ensures guard == if ArtifactConflict(old(model), fp) then Some(UnknownGuard(fp)) else old(guard)
      ensures duplicate.Some? ==>
        model == old(model).(response := response, guard := guard, drain := Responding(fp, duplicate.value, false))
    {
      if (response.Some? && response.value.fingerprint != fp)
         || (guard.Some? && guard.value.fingerprint != fp)
         || (guard.Some? && guard.value.response.Some? && guard.value.response.value.fingerprint != fp) {
        IsolateArtifacts(fp);
        return Some(Response(fp, SubmitUnknown));
      }
      if response.Some? {
        duplicate := response;
      } else if guard.None? {
        return None;
      } else if guard.value.response.Some? {
        duplicate := guard.value.response;
      } else {
        duplicate := Some(Response(fp, if guard.value.state.GuardProcessing? then SubmitUnknown else Rejected));
      }
      AnswerFromArtifacts(fp);
    }

    /** The guarded native call; on an exception the handler has run and there is no reply. */
    method Dispatch(fp: string, fate: DrainFate) returns (reply: Option<Response>)
      requires Valid() && model.drain == Claimed(fp) && !expired
      requires !ArtifactConflict(model, fp) && DuplicateResponse(model, fp).None?
      modifies this`guard, this`native, this`response, this`claims, this`trace, this`model
      ensures Valid()
      ensures native == if fate.guardWrites && Calls(fate.native) then old(native) + [fp] else old(native)
      ensures reply == if Returns(fate) then Some(Response(fp, VerdictOf(fate.native))) else None
      ensures reply.Some? ==> claims == old(claims) && guard == Some(FinalGuardOf(reply.value)) && model.drain == Responding(fp, reply.value, true)
      ensures reply.None? ==> model.drain.Idle?
      ensures reply.None? && fate.errorResponseWrites && fate.errorGuardWrites ==>
        response == Some(ErrorReply(fp, fate.guardWrites)) && guard == Some(ErrorGuard(fp, fate.guardWrites))
    {
      if !fate.guardWrites {
        BreakBeforeGuard();
        ReportException(fp, false, fate);
        return None;
      }
      WriteProcessingGuard(fp);
      CallNative(fp, fate.native);
      if fate.native.RaisesBeforeCall? || fate.native.RaisesAfterCall? {
        ReportException(fp, true, fate);
        return None;
      }
      WriteFinalGuard(fp, VerdictOf(fate.native), fate.finalGuardWrites);
      if !fate.finalGuardWrites {
        ReportException(fp, true, fate);
        return None;
      }
      return Some(Response(fp, VerdictOf(fate.native)));
    }

    /** The answer of a claimed command: refused, isolated, a duplicate's, or the native
        call's; None when the exception handler has run. */
    method AnswerClaim(fp: string, fate: DrainFate) returns (reply: Option<Response>, dispatched: bool)
      requires Valid() && model.drain == Claimed(fp)
      modifies this
      ensures Valid() && start == old(start) && expired == old(expired)
      ensures native == if LocalAnswer(old(model), fp, fate.identityError).None? && fate.guardWrites && Calls(fate.native) then old(native) + [fp] else old(native)
      ensures reply.Some? ==> model.drain == Responding(fp, reply.value, dispatched)
      ensures reply.None? ==> model.drain.Idle?
      ensures var local := LocalAnswer(old(model), fp, fate.identityError); local.Some? ==> reply == local && !dispatched
      ensures LocalAnswer(old(model), fp, fate.identityError).None? && Returns(fate) ==>
        reply == Some(Response(fp, VerdictOf(fate.native))) && claims == old(claims) && guard == Some(FinalGuardOf(reply.value))
      ensures LocalAnswer(old(model), fp, fate.identityError).None? && !Returns(fate) ==> reply.None?
      ensures reply.None? && fate.errorResponseWrites && fate.errorGuardWrites ==>
        response == Some(ErrorReply(fp, fate.guardWrites)) && guard == Some(ErrorGuard(fp, fate.guardWrites))
      ensures LocalAnswer(old(model), fp, fate.identityError).Some? ==>
        Answered(old(model), guard, inbox, claims, fp, fate.identityError, false)
    {
      dispatched := false;
      if fate.identityError && expired {
        RefuseClaim();
        return Some(Response(fp, Rejected)), false;
      }
      if Sibling(inbox, claims, fp) {
        IsolateSiblings(fp);
        return Some(Response(fp, SubmitUnknown)), false;
      }
      reply := FindDuplicate(fp);
      if reply.Some? {
        return;
      }
      if expired {
        RefuseClaim();
        return Some(Response(fp, Rejected)), false;
      }
      reply := Dispatch(fp, fate);
      dispatched := true;
    }

    /** An exception before the checks are over.  A command that cannot be read has no known
        id: the handler answers a fresh one, so this request gets neither response nor guard. */
    method BreakClaim(fp: string, fate: DrainFate)
      requires Valid() && model.drain == Claimed(fp)
      modifies this`response, this`guard, this`claims, this`trace, this`model
      ensures Valid()
      ensures model == if fate.readable then Reported(old(model), fp, false, fate) else Shelved(old(model), fp, fate.archives)
    {
      BreakBeforeGuard();
      if fate.readable {
        ReportException(fp, false, fate);
      } else {
        Log(RaiseResponseFails);
        MoveToFailed(fp, fate.archives);
      }
    }

    /** A readable command whose checks do not raise. */
    method DrainCommand(fp: string, fate: DrainFate)
      requires Valid() && model.drain.Idle? && fp in inbox
      modifies this
      ensures Valid() && start == old(start) && model.drain.Idle?
      ensures native == if LocalAnswer(old(model), fp, fate.identityError).None? && fate.guardWrites && Calls(fate.native) then old(native) + [fp] else old(native)
      ensures var local := LocalAnswer(old(model), fp, fate.identityError);
        local.Some? && fate.responseWrites ==> response == local
      ensures LocalAnswer(old(model), fp, fate.identityError).None? && !Returns(fate) && fate.errorResponseWrites && fate.errorGuardWrites ==>
        response == Some(ErrorReply(fp, fate.guardWrites)) && guard == Some(ErrorGuard(fp, fate.guardWrites))
      ensures !Untouched(old(model), fp) ==>
        && LocalAnswer(old(model), fp, fate.identityError).Some?
        && (fate.responseWrites ==> AnsweredFirst(old(model), response, guard, inbox, claims, fp, fate))
      ensures LocalAnswer(old(model), fp, fate.identityError).None? && Returns(fate) && fate.responseWrites ==>
        var reply := Response(fp, VerdictOf(fate.native));
        && response == Some(reply) && guard == Some(FinalGuardOf(reply))
        && claims == if fate.removes then old(claims) else old(claims) + multiset{fp}
    {
      RenameToProcessing(fp);
      ClaimingChangesNoAnswer(old(model), fp, fate.identityError);
      DrainClaimed(fp, fate);
      if !Untouched(old(model), fp) {
        AnswersFirst(old(model), response, guard, inbox, claims, fp, fate);
      }
    }

    /** One round of the drain loop over one queued command, and what its outcomes look like on
        disk when no write fails. */
    method DrainOne(fp: string, fate: DrainFate)
      requires Valid() && model.drain.Idle? && fp in inbox
      modifies this
      ensures Valid() && start == old(start) && model.drain.Idle?
      ensures fate.claims && fate.readable && WritesWork(fate) ==>
        && (Untouched(old(model), fp) && fate.checks ==>
              && (fate.native.Accepts? ==> Filed(response, guard, Submitted, GuardSubmitted, fp))
              && (fate.native.ReturnsUnknown? ==> Filed(response, guard, SubmitUnknown, GuardUnknown, fp))
              && (fate.native.Disabled? ==> Filed(response, guard, Rejected, GuardRejected, fp))
              && (fate.native.RaisesBeforeCall? || fate.native.RaisesAfterCall? ==>
                    Filed(response, guard, SubmitUnknown, GuardUnknown, fp)))
        && (!fate.checks ==> Filed(response, guard, Rejected, GuardRejected, fp) && native == old(native))
      ensures fate.claims && fate.readable && fate.checks && !Untouched(old(model), fp) ==>
        && native == old(native)
        && (fate.responseWrites ==> AnsweredFirst(old(model), response, guard, inbox, claims, fp, fate))
      ensures Untouched(old(model), fp) ==>
        native == if fate.claims && fate.readable && fate.checks && fate.guardWrites
                     && (fate.native.Accepts? || fate.native.ReturnsUnknown? || fate.native.RaisesAfterCall?)
                  then old(native) + [fp] else old(native)
      ensures !fate.claims ==> model == old(model)
      ensures native == if Reaches(old(model), fp, fate) && Calls(fate.native) then old(native) + [fp] else old(native)
      ensures var local := LocalAnswer(old(model), fp, fate.identityError);
        fate.claims && fate.readable && fate.checks && local.Some? && fate.responseWrites ==> response == local
      ensures fate.claims && fate.readable && !fate.checks ==> model == Reported(Taken(old(model), fp), fp, false, fate)
      ensures fate.claims && !fate.readable ==> model == Shelved(Taken(old(model), fp), fp, fate.archives)
      ensures Reaches(old(model), fp, fate) && Returns(fate) && fate.responseWrites ==>
        claims == if fate.removes then old(claims) else old(claims) + multiset{fp}
    {
      if Untouched(model, fp) {
        AnswerByArtifacts(model, fp, fate.identityError);
      }
      if !fate.claims {
        return;
      }
      if fate.readable && fate.checks {
        DrainCommand(fp, fate);
      } else {
        RenameToProcessing(fp);
        BreakClaim(fp, fate);
      }
    }

    method DrainClaimed(fp: string, fate: DrainFate)
      requires Valid() && model.drain == Claimed(fp)
      modifies this
      ensures Valid() && start == old(start) && model.drain.Idle?
      ensures native == if LocalAnswer(old(model), fp, fate.identityError).None? && fate.guardWrites && Calls(fate.native) then old(native) + [fp] else old(native)
      ensures var local := LocalAnswer(old(model), fp, fate.identityError);
        local.Some? && fate.responseWrites ==> response == local
      ensures LocalAnswer(old(model), fp, fate.identityError).None? && !Returns(fate) && fate.errorResponseWrites && fate.errorGuardWrites ==>
        response == Some(ErrorReply(fp, fate.guardWrites)) && guard == Some(ErrorGuard(fp, fate.guardWrites))
      ensures LocalAnswer(old(model), fp, fate.identityError).Some? && fate.responseWrites ==>
        Answered(old(model), guard, inbox, claims, fp, fate.identityError, fate.removes)
      ensures LocalAnswer(old(model), fp, fate.identityError).None? && Returns(fate) && fate.responseWrites ==>
        var reply := Response(fp, VerdictOf(fate.native));
        && response == Some(reply) && guard == Some(FinalGuardOf(reply))
        && claims == if fate.removes then old(claims) - multiset{fp} else old(claims)
    {
      var reply, dispatched := AnswerClaim(fp, fate);
      if reply.Some? {
        SendReply(fp, reply.value, dispatched, fate);
      }
    }

    /** Write the response, then remove the claim; a failed write goes to the handler. */
    method SendReply(fp: string, reply: Response, dispatched: bool, fate: DrainFate)
      requires Valid() && model.drain == Responding(fp, reply, dispatched)
      modifies this`response, this`guard, this`claims, this`trace, this`model
      ensures Valid() && model.drain.Idle?
      ensures fate.responseWrites ==>
        && response == Some(reply) && guard == old(guard)
        && claims == if fate.removes then old(claims) - multiset{fp} else old(claims)
    {
      ReplaceResponse(reply, fate.responseWrites);
      if fate.responseWrites {
        UnlinkClaim(fp, fate.removes);
      } else {
        ReportException(fp, dispatched, fate);
      }
    }

    /** _cleanup_old_files on the guard directory. */
    method UnlinkGuard()
      requires Valid() && model.drain.Idle? && claims == multiset{}
      requires guard.Some? && guard.value.state !in {GuardProcessing, GuardUnknown}
      modifies this`guard, this`trace, this`model
      ensures Valid() && model.drain.Idle? && guard.None? && claims == old(claims) && model == old(model).(guard := None) && start == old(start)
    {
      guard := None;
      Log(GuardExpires);
    }

    // _recover_processing_file

    method UnlinkRecovered(fp: string, removes: bool)
      requires Valid() && model.drain == Recovered(fp)
      modifies this`claims, this`trace, this`model
      ensures Valid()
      ensures model == old(model).(claims := if removes then old(claims) - multiset{fp} else old(claims), drain := Idle)
    {
      if removes {
        claims := claims - multiset{fp};
        Log(RecoverRemove);
      } else {
        Log(RecoverStops);
      }
    }

    /** The guard already holds the response: write it again and drop the claim. */
    method RecoverStoredResponse(fp: string, fate: RecoveryFate)
      requires Valid() && model.drain.Idle? && fp in claims && !ArtifactConflict(model, fp)
      requires response.None? && guard.Some? && guard.value.response.Some?
      modifies this`response, this`claims, this`trace, this`model
      ensures Valid() && model.drain.Idle?
      ensures response == if fate.responseWrites then guard.value.response else None
      ensures claims == if fate.responseWrites && fate.removes then old(claims) - multiset{fp} else old(claims)
    {
      if !fate.responseWrites {
        return;
      }
      response := guard.value.response;
      Log(RecoverFromGuard(fp));
      UnlinkRecovered(fp, fate.removes);
    }

    /** A guard without a response: the call may have been made, so it becomes unknown. */
    method GuardAsUnknown(fp: string)
      requires Valid() && model.drain.Idle? && fp in claims && !ArtifactConflict(model, fp)
      requires response.None? && guard.Some? && guard.value.response.None?
      modifies this`guard, this`trace, this`model
      ensures Valid()
      ensures model == old(model).(guard := Some(FinalGuardOf(Response(fp, SubmitUnknown))), drain := RecoveryGuarded(fp))
    {
      assert HelperNext(model, RecoverUnknownGuard(fp)) ==
        Some(model.(guard := Some(FinalGuardOf(Response(fp, SubmitUnknown))), drain := RecoveryGuarded(fp)));
      guard := Some(Guard(GuardUnknown, fp, Some(Response(fp, SubmitUnknown))));
      Log(RecoverUnknownGuard(fp));
    }

    method RespondAsUnknown(fp: string, writes: bool)
      requires Valid() && model.drain == RecoveryGuarded(fp)
      modifies this`response, this`trace, this`model
      ensures Valid()
      ensures model == if writes then old(model).(response := Some(Response(fp, SubmitUnknown)), wrote := true, drain := Recovered(fp))
                       else old(model).(drain := Idle)
    {
      if writes {
        response := Some(Response(fp, SubmitUnknown));
        Log(RecoverUnknownResponse);
      } else {
        Log(RecoverStops);
      }
    }

    /** The guard becomes unknown before the response says so, then the claim goes. */
    method RecoverAsUnknown(fp: string, fate: RecoveryFate)
      requires Valid() && model.drain.Idle? && fp in claims && !ArtifactConflict(model, fp)
      requires response.None? && guard.Some? && guard.value.response.None?
      modifies this`response, this`guard, this`claims, this`trace, this`model
      ensures Valid() && model.drain.Idle?
      ensures var unknown := Response(fp, SubmitUnknown);
        && guard == (if fate.guardWrites then Some(FinalGuardOf(unknown)) else old(guard))
        && response == (if fate.guardWrites && fate.responseWrites then Some(unknown) else None)
        && claims == if fate.guardWrites && fate.responseWrites && fate.removes then old(claims) - multiset{fp} else old(claims)
    {
      if fate.guardWrites {
        GuardAsUnknown(fp);
        RespondAsUnknown(fp, fate.responseWrites);
        if fate.responseWrites {
          UnlinkRecovered(fp, fate.removes);
        }
      }
    }

    /** A claim whose response exists is only removed. */
    method UnlinkAnswered(fp: string)
      requires Valid() && model.drain.Idle? && fp in claims && !ArtifactConflict(model, fp) && response.Some?
      modifies this`claims, this`trace, this`model
      ensures Valid() && model.drain.Idle? && claims == old(claims) - multiset{fp}
    {
      assert HelperNext(model, RecoverAnswered(fp)) == Some(model.(claims := model.claims - multiset{fp}));
      claims := claims - multiset{fp};
      Log(RecoverAnswered(fp));
    }

    method SetUnreadableAside(fp: string)
      requires Valid() && model.drain.Idle? && fp in claims
      modifies this`claims, this`trace, this`model
      ensures Valid() && model.drain.Idle? && claims == old(claims) - multiset{fp}
    {
      assert HelperNext(model, RecoverUnreadable(fp)) == Some(model.(claims := model.claims - multiset{fp}));
      claims := claims - multiset{fp};
      Log(RecoverUnreadable(fp));
    }

    /** Recovery of one claimed command: it never makes a native call, and returns a command to
        the queue only when it has neither guard nor response. */
    method RecoverOne(fp: string, fate: RecoveryFate)
      requires Valid() && model.drain.Idle? && fp in claims
      modifies this
      ensures Valid() && start == old(start) && model.drain.Idle? && native == old(native)
      ensures inbox != old(inbox) ==>
        && old(guard).None? && old(response).None?
        && inbox == old(inbox) + multiset{fp} && claims == old(claims) - multiset{fp}
      ensures fate.readable && ArtifactConflict(old(model), fp) ==>
        Filed(response, guard, SubmitUnknown, GuardUnknown, fp) && claims == old(claims) - multiset{fp}
      ensures fate.readable && !ArtifactConflict(old(model), fp) && old(response).Some? ==>
        response == old(response) && guard == old(guard) && claims == if fate.removes then old(claims) - multiset{fp} else old(claims)
      ensures fate.readable && old(guard).None? && old(response).None? && fate.moves ==>
        model == old(model).(inbox := old(inbox) + multiset{fp}, claims := old(claims) - multiset{fp})
      ensures fate.readable && old(guard).Some? && !ArtifactConflict(old(model), fp) && old(response).None? && fate.guardWrites && fate.responseWrites && fate.removes ==>
        && claims == old(claims) - multiset{fp}
        && (if old(guard).value.response.Some? then response == old(guard).value.response && guard == old(guard)
            else Filed(response, guard, SubmitUnknown, GuardUnknown, fp))
    {
      if fate.readable {
        RecoverReadable(fp, fate);
      } else if fate.moves {
        SetUnreadableAside(fp);
      }
    }

    method RecoverReadable(fp: string, fate: RecoveryFate)
      requires Valid() && model.drain.Idle? && fp in claims
      modifies this`inbox, this`claims, this`guard, this`response, this`trace, this`model
      ensures Valid() && model.drain.Idle?
      ensures ArtifactConflict(old(model), fp) ==>
        Filed(response, guard, SubmitUnknown, GuardUnknown, fp) && claims == old(claims) - multiset{fp}
      ensures !ArtifactConflict(old(model), fp) && old(response).Some? ==>
        response == old(response) && guard == old(guard) && claims == if fate.removes then old(claims) - multiset{fp} else old(claims)
      ensures var requeues := old(guard).None? && old(response).None? && fate.moves;
        && inbox == (if requeues then old(inbox) + multiset{fp} else old(inbox))
        && (requeues ==> model == old(model).(inbox := old(inbox) + multiset{fp}, claims := old(claims) - multiset{fp}))
      ensures old(guard).Some? && !ArtifactConflict(old(model), fp) && old(response).None? && fate.guardWrites && fate.responseWrites && fate.removes ==>
        && claims == old(claims) - multiset{fp}
        && (if old(guard).value.response.Some? then response == old(guard).value.response && guard == old(guard)
            else Filed(response, guard, SubmitUnknown, GuardUnknown, fp))
    {
      if (response.Some? && response.value.fingerprint != fp)
         || (guard.Some? && guard.value.fingerprint != fp)
         || (guard.Some? && guard.value.response.Some? && guard.value.response.value.fingerprint != fp) {
        RecoverFromConflict(fp);
      } else if response.Some? {
        if fate.removes {
          UnlinkAnswered(fp);
        }
      } else if guard.None? {
        if fate.moves {
          ReturnToQueue(fp);
        }
      } else if guard.value.response.Some? {
        RecoverStoredResponse(fp, fate);
      } else {
        RecoverAsUnknown(fp, fate);
      }
    }

    method ReturnToQueue(fp: string)
      requires Valid() && model.drain.Idle? && fp in claims && response.None? && guard.None?
      modifies this`inbox, this`claims, this`trace, this`model
      ensures Valid() && model.drain.Idle?
      ensures model == old(model).(inbox := old(inbox) + multiset{fp}, claims := old(claims) - multiset{fp})
    {
      assert HelperNext(model, RecoverReturn(fp)) ==
        Some(model.(claims := model.claims - multiset{fp}, inbox := model.inbox + multiset{fp}));
      inbox, claims := inbox + multiset{fp}, claims - multiset{fp};
      Log(RecoverReturn(fp));
    }

    method RecoverFromConflict(fp: string)
      requires Valid() && model.drain.Idle? && fp in claims && ArtifactConflict(model, fp)
      modifies this`response, this`guard, this`claims, this`trace, this`model
      ensures Valid() && model.drain.Idle?
      ensures Filed(response, guard, SubmitUnknown, GuardUnknown, fp) && claims == old(claims) - multiset{fp}
    {
      ghost var next := ConflictStep(model, fp);
      WriteUnknown(fp);
      claims := claims - multiset{fp};
      LogTo(RecoverConflict(fp), next);
    }

    /** Guard and response both say that the result is unknown. */
    method WriteUnknown(fp: string)
      modifies this`guard, this`response
      ensures guard == Some(UnknownGuard(fp)) && response == Some(Response(fp, SubmitUnknown))
    {
      response := Some(Response(fp, SubmitUnknown));
      guard := Some(Guard(GuardUnknown, fp, response));
    }
  }

  function UnknownGuard(fp: string): Guard {
    Guard(GuardUnknown, fp, Some(Response(fp, SubmitUnknown)))
  }

  lemma ConflictStep(f: Files, fp: string) returns (next: Files)
    requires f.drain.Idle? && fp in f.claims && ArtifactConflict(f, fp)
    ensures HelperNext(f, RecoverConflict(fp)) == Some(next) && next.drain.Idle?
    ensures next.inbox == f.inbox && next.claims == f.claims - multiset{fp}
    ensures next.guard == Some(UnknownGuard(fp)) && next.response == Some(Response(fp, SubmitUnknown))
    ensures next.expired == f.expired && next.native == f.native
  {
    next := HelperNext(f, RecoverConflict(fp)).value;
  }

  /** Claiming a command changes none of its checks. */
  lemma ClaimingChangesNoAnswer(f: Files, fp: string, identityError: bool)
    requires fp in f.inbox
    ensures LocalAnswer(Taken(f, fp), fp, identityError) == LocalAnswer(f, fp, identityError)
    ensures Sibling(Taken(f, fp).inbox, Taken(f, fp).claims, fp) == Sibling(f.inbox, f.claims, fp)
  {
    assert (f.inbox - multiset{fp}) + (f.claims + multiset{fp}) == f.inbox + f.claims;
  }

  /** Without another command file the checks decide by expiry and artifacts. */
  lemma AnswerByArtifacts(f: Files, fp: string, identityError: bool)
    requires (identityError && f.expired) || !Sibling(f.inbox, f.claims, fp)
    ensures var local := LocalAnswer(f, fp, identityError);
      if identityError && f.expired then local == Some(Response(fp, Rejected))
      else if CarriesOther(f, fp) then local == Some(Response(fp, SubmitUnknown))
      else if f.response.Some? || f.guard.Some? then local.Some? && RepeatsEarlier(f.response, f.guard, local, fp)
      else local == if f.expired then Some(Response(fp, Rejected)) else None
  {
    assert CarriesOther(f, fp) == ArtifactConflict(f, fp);
  }

  lemma TakenFiles(f: Files, fp: string)
    requires fp in f.inbox
    ensures var g := Taken(f, fp);
      && g.guard == f.guard && g.expired == f.expired
      && g.inbox == f.inbox - multiset{fp} && g.claims == f.claims + multiset{fp} && g.claims - multiset{fp} == f.claims
      && ArtifactConflict(g, fp) == CarriesOther(f, fp) && Sibling(g.inbox, g.claims, fp) == Sibling(f.inbox, f.claims, fp)
  {
    ClaimingChangesNoAnswer(f, fp, false);
  }

  lemma AnswersFirst(f: Files, response: Option<Response>, guard: Option<Guard>,
                     inbox: multiset<string>, claims: multiset<string>, fp: string, fate: DrainFate)
    requires fp in f.inbox && !Untouched(f, fp)
    ensures LocalAnswer(f, fp, fate.identityError).Some?
    ensures response == LocalAnswer(f, fp, fate.identityError)
            && Answered(Taken(f, fp), guard, inbox, claims, fp, fate.identityError, fate.removes) ==>
      AnsweredFirst(f, response, guard, inbox, claims, fp, fate)
  {
    TakenFiles(f, fp);
    if (fate.identityError && f.expired) || !Sibling(f.inbox, f.claims, fp) {
      AnswerByArtifacts(f, fp, fate.identityError);
    }
  }

  /** The files after a command was claimed. */
  function Taken(f: Files, fp: string): Files {
    f.(inbox := f.inbox - multiset{fp}, claims := f.claims + multiset{fp}, drain := Claimed(fp))
  }

  function ErrorReply(fp: string, dispatched: bool): Response {
    Response(fp, if dispatched then SubmitUnknown else Rejected)
  }

  function ErrorGuard(fp: string, dispatched: bool): Guard {
    Guard(if dispatched then GuardUnknown else GuardRejected, fp, Some(ErrorReply(fp, dispatched)))
  }

  function FinalGuardOf(reply: Response): Guard {
    Guard(FinalState(reply.verdict), reply.fingerprint, Some(reply))
  }

  /** The files after the exception handler. */
  function Reported(f: Files, fp: string, dispatched: bool, fate: DrainFate): Files {
    f.(response := if fate.errorResponseWrites then Some(ErrorReply(fp, dispatched)) else f.response,
       wrote := f.wrote || fate.errorResponseWrites,
       guard := if fate.errorResponseWrites && fate.errorGuardWrites then Some(ErrorGuard(fp, dispatched)) else f.guard,
       claims := if fate.archives then f.claims - multiset{fp} else f.claims,
       drain := Idle)
  }

  /** The files after a claim was moved aside unanswered. */
  function Shelved(f: Files, fp: string, archives: bool): Files {
    f.(claims := if archives then f.claims - multiset{fp} else f.claims, drain := Idle)
  }

  /** The native call returns and its outcome is guarded. */
  predicate Returns(fate: DrainFate) {
    fate.guardWrites && fate.finalGuardWrites && !fate.native.RaisesBeforeCall? && !fate.native.RaisesAfterCall?
  }
}
