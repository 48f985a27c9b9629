/** Properties of the push handler, stated against reference definitions that do not
    follow the handler's loop: the definitions that match, the first definition whose
    processing fails, and the jobs built for the matching definitions. */
module TriggerProperties {
  import opened Wrappers
  import opened Github
  import opened Prow
  import opened Trigger

  /** Definition `d` matches the event: its `ShouldRun` answers true without error. */
  predicate Fires(env: Env, pe: PushEvent, d: Postsubmit) {
    env.shouldRun(d, env.branch(pe), Touched(pe.commits)) == Success(true)
  }

  /** The error that processing `d` alone raises, if any: a `ShouldRun` error, or,
      for a match, the error of creating its job. */
  function Halt(env: Env, create: ProwJob -> Option<Error>, pe: PushEvent, d: Postsubmit): Option<Error> {
    match env.shouldRun(d, env.branch(pe), Touched(pe.commits))
    case Failure(e) => Some(e)
    case Success(run) => if run then create(JobFor(env, pe, d)) else None
  }

  /** The jobs for the matching definitions of `catalog`, in catalog order. */
  function MatchedJobs(env: Env, pe: PushEvent, catalog: seq<Postsubmit>): seq<ProwJob>
    decreases |catalog|
  {
    if catalog == [] then []
    else (if Fires(env, pe, catalog[0]) then [JobFor(env, pe, catalog[0])] else [])
         + MatchedJobs(env, pe, catalog[1..])
  }

  /** The index of the first definition whose processing fails, or `|catalog|`. */
  function FirstHalt(env: Env, create: ProwJob -> Option<Error>, pe: PushEvent, catalog: seq<Postsubmit>): (k: nat)
    ensures k <= |catalog|
    ensures forall i :: 0 <= i < k ==> Halt(env, create, pe, catalog[i]) == None
    ensures k < |catalog| ==> Halt(env, create, pe, catalog[k]).Some?
    decreases |catalog|
  {
    if catalog == [] then 0
    else if Halt(env, create, pe, catalog[0]).Some? then 0
    else 1 + FirstHalt(env, create, pe, catalog[1..])
  }

  /** Fail-fast loop: when `k` is the first definition whose processing fails (or the end
      of the catalog), the handler created exactly the jobs of the matching definitions
      before `k`, in catalog order, and returns the error of definition `k` (or nil). */
  lemma {:induction false} RunStopsAtFirstHalt(env: Env, create: ProwJob -> Option<Error>, pe: PushEvent,
                                               catalog: seq<Postsubmit>, k: nat)
    requires k <= |catalog|
    requires forall i :: 0 <= i < k ==> Halt(env, create, pe, catalog[i]) == None
    requires k < |catalog| ==> Halt(env, create, pe, catalog[k]).Some?
    ensures RunCatalog(env, create, pe, catalog)
         == Outcome(MatchedJobs(env, pe, catalog[..k]),
                    if k < |catalog| then Halt(env, create, pe, catalog[k]) else None)
    decreases |catalog|
  {
    if catalog != [] {
      if k == 0 {
        assert catalog[..0] == [];
      } else {
        var tail := catalog[1..];
        forall i | 0 <= i < k - 1 ensures Halt(env, create, pe, tail[i]) == None {
          assert tail[i] == catalog[i + 1];
        }
        if k < |catalog| {
          assert tail[k - 1] == catalog[k];
        }
        RunStopsAtFirstHalt(env, create, pe, tail, k - 1);
        assert catalog[..k][1..] == tail[..k - 1];
        assert Halt(env, create, pe, catalog[0]) == None;
      }
    }
  }

  /** The same statement with the first failing definition computed. */
  lemma RunCatalogOutcome(env: Env, create: ProwJob -> Option<Error>, pe: PushEvent, catalog: seq<Postsubmit>)
    ensures var k := FirstHalt(env, create, pe, catalog);
            RunCatalog(env, create, pe, catalog)
            == Outcome(MatchedJobs(env, pe, catalog[..k]),
                       if k < |catalog| then Halt(env, create, pe, catalog[k]) else None)
  {
    RunStopsAtFirstHalt(env, create, pe, catalog, FirstHalt(env, create, pe, catalog));
  }

  /** The handler returns nil exactly when no definition's processing fails, and then it
      created a job for every matching definition of the catalog. */
  lemma NoErrorIffNoHalt(env: Env, create: ProwJob -> Option<Error>, pe: PushEvent, catalog: seq<Postsubmit>)
    ensures RunCatalog(env, create, pe, catalog).err == None
        <==> forall i :: 0 <= i < |catalog| ==> Halt(env, create, pe, catalog[i]) == None
    ensures RunCatalog(env, create, pe, catalog).err == None
        ==> RunCatalog(env, create, pe, catalog).created == MatchedJobs(env, pe, catalog)
  {
    var k := FirstHalt(env, create, pe, catalog);
    RunCatalogOutcome(env, create, pe, catalog);
    assert k == |catalog| ==> catalog[..k] == catalog;
  }

  /** Later definitions are not evaluated: once definition `k` fails, whatever follows it
      in the catalog has no effect on the outcome. */
  lemma LaterDefinitionsIgnored(env: Env, create: ProwJob -> Option<Error>, pe: PushEvent,
                                catalog: seq<Postsubmit>, k: nat, later: seq<Postsubmit>)
    requires k < |catalog|
    requires forall i :: 0 <= i < k ==> Halt(env, create, pe, catalog[i]) == None
    requires Halt(env, create, pe, catalog[k]).Some?
    ensures RunCatalog(env, create, pe, catalog[..k + 1] + later) == RunCatalog(env, create, pe, catalog)
    ensures RunCatalog(env, create, pe, catalog).err == Halt(env, create, pe, catalog[k])
  {
    var other := catalog[..k + 1] + later;
    assert forall i :: 0 <= i <= k ==> other[i] == catalog[i];
    RunStopsAtFirstHalt(env, create, pe, catalog, k);
    RunStopsAtFirstHalt(env, create, pe, other, k);
    assert other[..k] == catalog[..k];
  }

  /** Every created job was built for a matching definition of the catalog. */
  lemma {:induction false} CreatedAreMatches(env: Env, create: ProwJob -> Option<Error>, pe: PushEvent,
                                             catalog: seq<Postsubmit>)
    ensures forall pj :: pj in RunCatalog(env, create, pe, catalog).created ==>
              pj.spec.job in catalog && Fires(env, pe, pj.spec.job) && pj == JobFor(env, pe, pj.spec.job)
    decreases |catalog|
  {
    if catalog != [] {
      CreatedAreMatches(env, create, pe, catalog[1..]);
      forall d | d in catalog[1..] ensures d in catalog { }
    }
  }

  /** The jobs created for an event, whatever the catalog and wherever the loop stopped:
      each is for a matching definition of the event's catalog, carries the event's refs
      (never the deletion SHA), that definition's labels with `EventGUID` overridden by the
      event's GUID, that definition's annotations and the configured scheduling flag. */
  lemma CreatedJobsShape(env: Env, create: ProwJob -> Option<Error>, pe: PushEvent, pj: ProwJob)
    requires pj in Handle(env, create, pe).created
    ensures !IsDeletion(pe)
    ensures pj.spec.job in env.postsubmits(CatalogKey(pe), pe.after) && Fires(env, pe, pj.spec.job)
    ensures pj.spec.refs == CreateRefs(pe, env.branch(pe)) && pj.spec.refs.baseSha != ZeroSHA
    ensures pj.labels == EventLabels(pj.spec.job.labels, pe.guid) && pj.labels[EventGUID] == pe.guid
    ensures pj.annotations == pj.spec.job.annotations
    ensures pj.requireScheduling == env.schedulingEnabled
  {
    CreatedAreMatches(env, create, pe, env.postsubmits(CatalogKey(pe), pe.after));
  }

  /** A deletion yields the same empty outcome whatever the catalog, the matcher and the store.
      A worked instance, for two arbitrary sets of collaborators, of the deletion clause of
      `Handle` and `HandlePE`. */
  lemma DeletionIgnoresCollaborators(env: Env, other: Env, create: ProwJob -> Option<Error>,
                                     otherCreate: ProwJob -> Option<Error>, pe: PushEvent)
    requires IsDeletion(pe)
    ensures Handle(env, create, pe) == Handle(other, otherCreate, pe) == Outcome([], None)
  {
  }

  /** Three matching definitions where creating the second job fails: only the first job
      exists and the creation error is returned; the third is never looked at.
      A worked instance of `RunStopsAtFirstHalt` with `k == 1`. */
  lemma SecondOfThreeFails(env: Env, create: ProwJob -> Option<Error>, pe: PushEvent,
                           d1: Postsubmit, d2: Postsubmit, d3: Postsubmit, e: Error)
    requires Fires(env, pe, d1) && Fires(env, pe, d2)
    requires create(JobFor(env, pe, d1)) == None && create(JobFor(env, pe, d2)) == Some(e)
    ensures RunCatalog(env, create, pe, [d1, d2, d3]) == Outcome([JobFor(env, pe, d1)], Some(e))
  {
  }

  /** The change set of two commits that touch `b` twice is exactly {a, b, c}.
      A worked instance of `TouchedIsInPush`. */
  lemma ChangeUnionExample()
    ensures Touched([Commit(["a"], [], ["b"]), Commit(["c"], ["b"], [])]) == {"a", "b", "c"}
  {
  }
}
