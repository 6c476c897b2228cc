/** The durable cells one trading request owns: its registry row, its pending-response
    row, and the guard and response files the Helper writes.  Each function below is
    the effect of one committed transaction on those cells. */
module EffectRegistry {
  import opened Wrappers

  /** What a request asks for.  The fingerprint is the hash of the canonical effect, so it
      stands for the effect itself. */
  datatype Effect = Effect(kind: string, fingerprint: string)

  datatype EffectState = Prepared | Dispatching | Enqueued | Unknown | Terminal

  datatype EffectRow = EffectRow(effect: Effect, state: EffectState)

  /** How a submission ended, as far as the writer of the verdict knows. */
  datatype Verdict = Rejected | Submitted | SubmitUnknown

  datatype Response = Response(fingerprint: string, verdict: Verdict)

  datatype GuardState = GuardProcessing | GuardSubmitted | GuardRejected | GuardUnknown

  datatype Guard = Guard(state: GuardState, fingerprint: string, response: Option<Response>)

  datatype PendingRow = PendingRow(fingerprint: string, captured: Option<Response>)

  datatype Reservation = Fresh | Existing(state: EffectState) | Conflict

  /** INSERT OR IGNORE, then compare kind and fingerprint of the row found. */
  function ReserveEffect(row: Option<EffectRow>, effect: Effect): (Option<EffectRow>, Reservation) {
    match row
    case None => (Some(EffectRow(effect, Prepared)), Fresh)
    case Some(r) => (row, if r.effect == effect then Existing(r.state) else Conflict)
  }

  /** UPDATE ... WHERE fingerprint=? AND state IN allowed; true iff one row changed. */
  function Transition(row: Option<EffectRow>, fingerprint: string, target: EffectState, allowed: set<EffectState>)
    : (Option<EffectRow>, bool)
  {
    if row.Some? && row.value.effect.fingerprint == fingerprint && row.value.state in allowed then
      (Some(row.value.(state := target)), true)
    else
      (row, false)
  }

  /** Roll an unstarted effect back to Prepared and drop its pending row, or change nothing. */
  function ReleaseUnstarted(row: Option<EffectRow>, pending: Option<PendingRow>, fingerprint: string)
    : Result<(Option<EffectRow>, Option<PendingRow>), ()>
  {
    if pending.Some? && pending.value.fingerprint != fingerprint then Failure(())
    else
      var (row', changed) := Transition(row, fingerprint, Prepared, {Prepared, Dispatching});
      if changed then Success((row', None)) else Failure(())
  }

  /** Upsert a pending row unless the id belongs to another fingerprint. */
  function SavePending(pending: Option<PendingRow>, item: PendingRow): Result<Option<PendingRow>, ()> {
    if pending.Some? && pending.value.fingerprint != item.fingerprint then Failure(())
    else Success(Some(item))
  }
}
