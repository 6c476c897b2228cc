/** What the invariant of the machine says about the objects whose methods run it. */
module RequestInvariants {
  import opened Wrappers
  import opened EffectRegistry
  import opened HelperMachine
  import opened EffectMachine
  import opened EffectInvariant
  import HelperQueue
  import GatewayRequest

  lemma {:induction false} HelperRunKeepsFiles(f: Files, steps: seq<HelperStep>, fp: string)
    requires FilesHold(f, fp) && HelperRun(f, steps).Some?
    ensures FilesHold(HelperRun(f, steps).value, fp)
    decreases |steps|
  {
    if steps != [] {
      HelperKeepsFiles(f, steps[0], fp);
      HelperRunKeepsFiles(HelperNext(f, steps[0]).value, steps[1..], fp);
    }
  }

  /** Whatever drains and recoveries have done to the files of one request: they carry one
      effect, an executed command that is still there is guarded, and verdicts are true. */
  lemma DrainedFilesHold(r: HelperQueue.RequestFiles, fp: string)
    requires r.Valid() && FilesHold(r.start, fp)
    ensures FilesHold(r.model, fp)
    ensures |r.native| <= 1
    ensures r.native != [] && r.claims != multiset{} ==> r.guard.Some?
    ensures r.response.Some? && r.response.value.verdict.Rejected? ==> r.native == []
  {
    HelperRunKeepsFiles(r.start, r.trace, fp);
  }

  /** Whatever dispatches, responses and restarts have done to one request, with the Helper
      acting in between: at most one publication and one native call, and a Prepared row is
      proof that nothing was published. */
  lemma HandledRequestHolds(q: GatewayRequest.Request)
    requires q.Valid() && Inv(q.start)
    ensures Inv(q.model)
    ensures q.model.gate.published <= 1 && |q.model.files.native| <= q.model.gate.published
    ensures q.row.Some? && q.row.value.state.Prepared? ==>
      q.model.gate.published == 0 && q.inbox == multiset{} && q.claims == multiset{}
  {
    RunKeepsInv(q.start, q.trace);
  }
}
