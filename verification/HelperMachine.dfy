/** The Helper's side of one request: the files in its queue directories and the atomic
    operations (one rename, one replace, one unlink, one native call) that change them. */
module HelperMachine {
  import opened Wrappers
  import opened EffectRegistry
  import Runs

  /** Where the Helper is with a claimed command; volatile, lost in a crash. */
  datatype Drain =
    | Idle
    | Claimed(fp: string)
    | Guarded(fp: string)
    | Returned(fp: string, outcome: Verdict)
    | Responding(fp: string, reply: Response, dispatched: bool)
    | Responded(fp: string)
    | Raised(fp: string, dispatched: bool)
    | RaiseResponded(fp: string, dispatched: bool)
    | Archiving(fp: string)
    | RecoveryGuarded(fp: string)
    | Recovered(fp: string)

  /** `inbox` and `claims` hold the command files of the request, named by the fingerprint
      they carry; `native` logs the fingerprints of the native calls made for it, and
      `result` what the native call returned, when it returned.  `wrote` says that a
      response file was ever written and `expired` that the request is past its deadline
      or addressed to another account, which never stops being so. */
  datatype Files = Files(
    inbox: multiset<string>,
    claims: multiset<string>,
    guard: Option<Guard>,
    response: Option<Response>,
    drain: Drain,
    native: seq<string>,
    result: Option<Verdict>,
    wrote: bool,
    expired: bool)

  const NO_FILES := Files(multiset{}, multiset{}, None, None, Idle, [], None, false, false)

  datatype HelperStep =
    | Expire
    | Claim(claim: string)
    | Refuse
    | AnswerDuplicate
    | SiblingConflict
    | ClaimBreaks
    | WriteGuard
    | NativeReturns(accepted: bool)
    | NativeRaises(called: bool)
    | NativeDisabled
    | FinalGuard
    | FinalGuardBreaks
    | WriteResponse
    | ResponseBreaks
    | RemoveClaim
    | RemoveClaimFails
    | RaiseResponse
    | RaiseResponseFails
    | RaiseGuard
    | RaiseGuardFails
    | ArchiveClaim
    | ArchiveFails
    | RecoverAnswered(claim: string)
    | RecoverReturn(claim: string)
    | RecoverFromGuard(claim: string)
    | RecoverUnknownGuard(claim: string)
    | RecoverUnknownResponse
    | RecoverRemove
    | RecoverStops
    | RecoverConflict(claim: string)
    | RecoverUnreadable(claim: string)
    | HelperCrash
    | GuardExpires

  function FinalState(v: Verdict): GuardState {
    match v
    case Rejected => GuardRejected
    case Submitted => GuardSubmitted
    case SubmitUnknown => GuardUnknown
  }

  /** A persisted guard or response that carries another effect. */
  predicate ArtifactConflict(f: Files, fp: string) {
    || (f.response.Some? && f.response.value.fingerprint != fp)
    || (f.guard.Some? && f.guard.value.fingerprint != fp)
    || (f.guard.Some? && f.guard.value.response.Some? && f.guard.value.response.value.fingerprint != fp)
  }

  /** The answer a claimed duplicate gets without a native call, if it is a duplicate. */
  function DuplicateResponse(f: Files, fp: string): Option<Response> {
    if f.response.Some? then f.response
    else match f.guard
      case None => None
      case Some(g) =>
        if g.response.Some? then g.response
        else Some(Response(fp, if g.state.GuardProcessing? then SubmitUnknown else Rejected))
  }

  function HelperNext(f: Files, s: HelperStep): Option<Files> {
    match s
    case Expire => Some(f.(expired := true))
    // drain_file_requests: claim by rename, check, guard, call, guard, respond, remove
    case Claim(fp) =>
      if f.drain.Idle? && fp in f.inbox then
        Some(f.(inbox := f.inbox - multiset{fp}, claims := f.claims + multiset{fp}, drain := Claimed(fp)))
      else None
    case Refuse =>
      if f.drain.Claimed? && f.expired then
        Some(f.(drain := Responding(f.drain.fp, Response(f.drain.fp, Rejected), false)))
      else None
    case AnswerDuplicate =>
      if f.drain.Claimed? then
        var fp := f.drain.fp;
        if ArtifactConflict(f, fp) then
          var unknown := Response(fp, SubmitUnknown);
          Some(f.(response := None, guard := Some(Guard(GuardUnknown, fp, Some(unknown))),
                  drain := Responding(fp, unknown, false)))
        else
          var duplicate := DuplicateResponse(f, fp);
          if duplicate.Some? then Some(f.(drain := Responding(fp, duplicate.value, false))) else None
      else None
    case SiblingConflict =>
      if f.drain.Claimed? then
        var unknown := Response(f.drain.fp, SubmitUnknown);
        Some(f.(inbox := multiset{}, claims := multiset{}, response := None,
                guard := Some(Guard(GuardUnknown, f.drain.fp, Some(unknown))),
                drain := Responding(f.drain.fp, unknown, false)))
      else None
    case ClaimBreaks =>
      if f.drain.Claimed? then Some(f.(drain := Raised(f.drain.fp, false))) else None
    case WriteGuard =>
      if f.drain.Claimed? && !f.expired && !ArtifactConflict(f, f.drain.fp) && DuplicateResponse(f, f.drain.fp).None? then
        Some(f.(guard := Some(Guard(GuardProcessing, f.drain.fp, None)), drain := Guarded(f.drain.fp)))
      else None
    case NativeReturns(accepted) =>
      if f.drain.Guarded? then
        var v := if accepted then Submitted else SubmitUnknown;
        Some(f.(native := f.native + [f.drain.fp], result := Some(v), drain := Returned(f.drain.fp, v)))
      else None
    case NativeRaises(called) =>
      if f.drain.Guarded? then
        Some(f.(native := if called then f.native + [f.drain.fp] else f.native, drain := Raised(f.drain.fp, true)))
      else None
    case NativeDisabled =>
      if f.drain.Guarded? then Some(f.(drain := Returned(f.drain.fp, Rejected))) else None
    case FinalGuard =>
      if f.drain.Returned? then
        var reply := Response(f.drain.fp, f.drain.outcome);
        Some(f.(guard := Some(Guard(FinalState(f.drain.outcome), f.drain.fp, Some(reply))),
                drain := Responding(f.drain.fp, reply, true)))
      else None
    case FinalGuardBreaks =>
      if f.drain.Returned? then Some(f.(drain := Raised(f.drain.fp, true))) else None
    case WriteResponse =>
      if f.drain.Responding? then
        Some(f.(response := Some(f.drain.reply), wrote := true, drain := Responded(f.drain.fp)))
      else None
    case ResponseBreaks =>
      if f.drain.Responding? then Some(f.(drain := Raised(f.drain.fp, f.drain.dispatched))) else None
    case RemoveClaim =>
      if f.drain.Responded? then Some(f.(claims := f.claims - multiset{f.drain.fp}, drain := Idle)) else None
    case RemoveClaimFails =>
      if f.drain.Responded? then Some(f.(drain := Idle)) else None
    // the exception handler of one drained request
    case RaiseResponse =>
      if f.drain.Raised? then
        var v := if f.drain.dispatched then SubmitUnknown else Rejected;
        Some(f.(response := Some(Response(f.drain.fp, v)), wrote := true,
                drain := RaiseResponded(f.drain.fp, f.drain.dispatched)))
      else None
    case RaiseResponseFails =>
      if f.drain.Raised? then Some(f.(drain := Archiving(f.drain.fp))) else None
    case RaiseGuard =>
      if f.drain.RaiseResponded? then
        var fp, dispatched := f.drain.fp, f.drain.dispatched;
        var reply := Response(fp, if dispatched then SubmitUnknown else Rejected);
        Some(f.(guard := Some(Guard(if dispatched then GuardUnknown else GuardRejected, fp, Some(reply))),
                drain := Archiving(fp)))
      else None
    case RaiseGuardFails =>
      if f.drain.RaiseResponded? then Some(f.(drain := Archiving(f.drain.fp))) else None
    case ArchiveClaim =>
      if f.drain.Archiving? then Some(f.(claims := f.claims - multiset{f.drain.fp}, drain := Idle)) else None
    case ArchiveFails =>
      if f.drain.Archiving? then Some(f.(drain := Idle)) else None
    // _recover_processing_file
    case RecoverAnswered(fp) =>
      if f.drain.Idle? && fp in f.claims && !ArtifactConflict(f, fp) && f.response.Some? then
        Some(f.(claims := f.claims - multiset{fp}))
      else None
    case RecoverReturn(fp) =>
      if f.drain.Idle? && fp in f.claims && f.response.None? && f.guard.None? then
        Some(f.(claims := f.claims - multiset{fp}, inbox := f.inbox + multiset{fp}))
      else None
    case RecoverFromGuard(fp) =>
      if f.drain.Idle? && fp in f.claims && !ArtifactConflict(f, fp) && f.response.None? && f.guard.Some? && f.guard.value.response.Some? then
        Some(f.(response := f.guard.value.response, wrote := true, drain := Recovered(fp)))
      else None
    case RecoverUnknownGuard(fp) =>
      if f.drain.Idle? && fp in f.claims && !ArtifactConflict(f, fp) && f.response.None? && f.guard.Some? && f.guard.value.response.None? then
        Some(f.(guard := Some(Guard(GuardUnknown, fp, Some(Response(fp, SubmitUnknown)))), drain := RecoveryGuarded(fp)))
      else None
    case RecoverUnknownResponse =>
      if f.drain.RecoveryGuarded? then
        Some(f.(response := Some(Response(f.drain.fp, SubmitUnknown)), wrote := true, drain := Recovered(f.drain.fp)))
      else None
    case RecoverRemove =>
      if f.drain.Recovered? then Some(f.(claims := f.claims - multiset{f.drain.fp}, drain := Idle)) else None
    case RecoverStops =>
      if f.drain.RecoveryGuarded? || f.drain.Recovered? then Some(f.(drain := Idle)) else None
    case RecoverConflict(fp) =>
      if f.drain.Idle? && fp in f.claims && ArtifactConflict(f, fp) then
        var unknown := Response(fp, SubmitUnknown);
        Some(f.(guard := Some(Guard(GuardUnknown, fp, Some(unknown))), response := Some(unknown), wrote := true,
                claims := f.claims - multiset{fp}))
      else None
    case RecoverUnreadable(fp) =>
      if f.drain.Idle? && fp in f.claims then Some(f.(claims := f.claims - multiset{fp})) else None
    case HelperCrash => Some(f.(drain := Idle))
    // _run_maintenance_cycle: only submitted and rejected guards are ever deleted
    case GuardExpires =>
      if f.drain.Idle? && f.claims == multiset{} && f.guard.Some?
         && (f.guard.value.state.GuardSubmitted? || f.guard.value.state.GuardRejected?)
      then Some(f.(guard := None))
      else None
  }

  function HelperRun(f: Files, steps: seq<HelperStep>): Option<Files> {
    Runs.Run(HelperNext, f, steps)
  }
}
