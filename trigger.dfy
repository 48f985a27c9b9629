/** The push handler of the trigger plugin: from a push event to post-submit ProwJobs
    (pkg/plugins/trigger/push.go). */
module Trigger {
  import opened Wrappers
  import opened Github
  import opened Prow

  /** The `After` SHA GitHub sends when a branch is deleted: forty zeros. */
  const ZeroSHA: string := "0000000000000000000000000000000000000000"

  /** An error from a collaborator; its contents are opaque to the handler. */
  datatype Error = Error(message: string)

  /** The collaborators the handler calls but does not define.
      - `branch`: `PushEvent.Branch()`;
      - `postsubmits`: `getPostsubmits`, given the "org/repo" key and the SHA its getter yields;
      - `shouldRun`: `Postsubmit.ShouldRun`, given the branch and the event's change set;
      - `schedulingEnabled`: `Config.Scheduler.Enabled`. */
  datatype Env = Env(
    branch: PushEvent -> string,
    postsubmits: (string, string) -> seq<Postsubmit>,
    shouldRun: (Postsubmit, string, set<string>) -> Result<bool, Error>,
    schedulingEnabled: bool)

  /** The ProwJob store behind `createWithRetry`. Whether a creation succeeds is decided
      by the oracle `outcome`; a successful creation is recorded in `jobs`. */
  class Store {
    var jobs: seq<ProwJob>
    const outcome: ProwJob -> Option<Error>

    constructor (existing: seq<ProwJob>, outcome: ProwJob -> Option<Error>)
      ensures jobs == existing && this.outcome == outcome
    {
      jobs := existing;
      this.outcome := outcome;
    }

    /** `createWithRetry`: one creation attempt whose result the oracle decides. */
    method Create(pj: ProwJob) returns (err: Option<Error>)
      modifies this
      ensures err == outcome(pj)
      ensures jobs == if err.None? then old(jobs) + [pj] else old(jobs)
    {
      err := outcome(pj);
      if err.None? {
        jobs := jobs + [pj];
      }
    }
  }

  // ---------------------------------------------------------------------------
  // Change set of a push

  /** Holds when commit `c` added, removed or modified `path`. */
  predicate TouchesPath(c: Commit, path: string) {
    path in c.added || path in c.removed || path in c.modified
  }

  /** Holds when some commit of `commits` touches `path`. */
  ghost predicate InPush(commits: seq<Commit>, path: string) {
    exists i :: 0 <= i < |commits| && TouchesPath(commits[i], path)
  }

  /** The paths one commit touches. */
  function PathsOf(c: Commit): set<string> {
    (set p | p in c.added) + (set p | p in c.removed) + (set p | p in c.modified)
  }

  /** The union of the paths the commits touch, accumulated in commit order. */
  function Touched(commits: seq<Commit>): (r: set<string>)
    ensures forall c :: c in commits ==> PathsOf(c) <= r
    decreases |commits|
  {
    if commits == [] then {}
    else
      var init, last := commits[..|commits| - 1], commits[|commits| - 1];
      assert commits == init + [last];
      Touched(init) + PathsOf(last)
  }

  /** A list without repeated entries. */
  predicate NoDuplicates(files: seq<string>) {
    forall i, j :: 0 <= i < j < |files| ==> files[i] != files[j]
  }

  /** Marks every path of `paths` in the `changed` map. */
  method MarkAll(changed: map<string, bool>, paths: seq<string>) returns (m: map<string, bool>)
    ensures m.Keys == changed.Keys + (set p | p in paths)
  {
    m := changed;
    for k := 0 to |paths|
      invariant m.Keys == changed.Keys + (set p | p in paths[..k])
    {
      assert paths[..k + 1] == paths[..k] + [paths[k]];
      m := m[paths[k] := true];
    }
    assert paths[..|paths|] == paths;
  }

  /** The keys of `changed` as a list, each key once, in an unspecified order
      (the `for file := range changed` loop). */
  method KeyList(changed: map<string, bool>) returns (files: seq<string>)
    ensures forall p :: p in files <==> p in changed
    ensures NoDuplicates(files)
  {
    files := [];
    var rest := changed.Keys;
    while rest != {}
      invariant rest <= changed.Keys
      invariant forall p :: p in files <==> p in changed && p !in rest
      invariant NoDuplicates(files)
      decreases |rest|
    {
      var file :| file in rest;
      files := files + [file];
      rest := rest - {file};
    }
  }

  /** `listPushEventChanges` applied: the changed files of a push, each path once, in
      an unspecified order, and never an error. */
  method ListPushEventChanges(pe: PushEvent) returns (files: seq<string>, err: Option<Error>)
    ensures err == None
    ensures forall p :: p in files <==> InPush(pe.commits, p)
    ensures NoDuplicates(files)
    ensures pe.commits == [] ==> files == []
  {
    var changed: map<string, bool> := map[];
    for i := 0 to |pe.commits|
      invariant changed.Keys == Touched(pe.commits[..i])
    {
      var commit := pe.commits[i];
      changed := MarkAll(changed, commit.added);
      changed := MarkAll(changed, commit.removed);
      changed := MarkAll(changed, commit.modified);
      assert pe.commits[..i + 1][..i] == pe.commits[..i];
    }
    assert pe.commits[..|pe.commits|] == pe.commits;

    files := KeyList(changed);
    err := None;

    forall p ensures p in files <==> InPush(pe.commits, p) {
      TouchedIsInPush(pe.commits, p);
    }
    if files != [] {
      assert files[0] in changed;
    }
  }

  /** `Touched` is exactly the set of paths some pushed commit touches. */
  lemma {:induction false} TouchedIsInPush(commits: seq<Commit>, path: string)
    ensures path in Touched(commits) <==> InPush(commits, path)
    decreases |commits|
  {
    if commits != [] {
      var n := |commits| - 1;
      var init := commits[..n];
      TouchedIsInPush(init, path);
      if path in Touched(commits) {
        if path in Touched(init) {
          var i :| 0 <= i < |init| && TouchesPath(init[i], path);
          assert commits[i] == init[i];
        } else {
          assert TouchesPath(commits[n], path);
        }
      } else {
        forall i | 0 <= i < |commits| ensures !TouchesPath(commits[i], path) {
          if i < n {
            assert commits[i] == init[i];
          }
        }
      }
    }
  }

  // ---------------------------------------------------------------------------
  // Refs, labels and jobs

  /** `createRefs`: the references of a job built for `pe`, whose branch is `branch`. */
  function CreateRefs(pe: PushEvent, branch: string): (r: Refs)
    ensures r.org == pe.repo.owner.name && r.repo == pe.repo.name && r.repoLink == pe.repo.htmlUrl
    ensures r.baseRef == branch && r.baseSha == pe.after && r.baseLink == pe.compare
  {
    Refs(pe.repo.owner.name, pe.repo.name, pe.repo.htmlUrl, branch, pe.after, pe.compare)
  }

  /** The labels of a job: the definition's labels, with `EventGUID` set to the event's GUID
      whether or not the definition already had that key. */
  function EventLabels(labels: map<string, string>, guid: string): (m: map<string, string>)
    ensures m.Keys == labels.Keys + {EventGUID}
    ensures m[EventGUID] == guid
    ensures forall k :: k in labels && k != EventGUID ==> m[k] == labels[k]
  {
    labels[EventGUID := guid]
  }

  /** Copies a label map key by key (the `for k, v := range j.Labels` loop). */
  method CopyLabels(src: map<string, string>) returns (dst: map<string, string>)
    ensures dst == src
  {
    dst := map[];
    var keys := src.Keys;
    while keys != {}
      invariant keys <= src.Keys
      invariant dst.Keys == src.Keys - keys
      invariant forall k :: k in dst ==> dst[k] == src[k]
      decreases |keys|
    {
      var k :| k in keys;
      dst := dst[k := src[k]];
      keys := keys - {k};
    }
  }

  /** The ProwJob built for definition `d` when it matches `pe`. */
  function JobFor(env: Env, pe: PushEvent, d: Postsubmit): (pj: ProwJob)
    ensures pj.spec.job == d && pj.spec.refs == CreateRefs(pe, env.branch(pe))
    ensures pj.labels.Keys == d.labels.Keys + {EventGUID} && pj.labels[EventGUID] == pe.guid
    ensures forall k :: k in d.labels && k != EventGUID ==> pj.labels[k] == d.labels[k]
    ensures pj.annotations == d.annotations && pj.requireScheduling == env.schedulingEnabled
  {
    NewProwJob(
      PostsubmitSpec(d, CreateRefs(pe, env.branch(pe))),
      EventLabels(d.labels, pe.guid),
      d.annotations,
      env.schedulingEnabled)
  }

  // ---------------------------------------------------------------------------
  // Handling a push event

  /** Holds for a SHA of forty `0` characters. */
  ghost predicate AllZeroSha(sha: string) {
    |sha| == 40 && forall i :: 0 <= i < |sha| ==> sha[i] == '0'
  }

  /** Holds for a branch deletion, which triggers nothing: the event says the branch was
      deleted, or its `After` SHA is forty zeros. */
  predicate IsDeletion(pe: PushEvent)
    ensures IsDeletion(pe) <==> pe.deleted || AllZeroSha(pe.after)
  {
    pe.deleted || pe.after == ZeroSHA
  }

  /** The catalog key: the owner's login (not its name), a slash, and the repository name. */
  function CatalogKey(pe: PushEvent): (key: string)
    ensures |key| == |pe.repo.owner.login| + 1 + |pe.repo.name|
    ensures key[..|pe.repo.owner.login|] == pe.repo.owner.login
    ensures key[|pe.repo.owner.login|] == '/'
    ensures key[|pe.repo.owner.login| + 1..] == pe.repo.name
  {
    pe.repo.owner.login + "/" + pe.repo.name
  }

  /** What handling an event did: the jobs created, in order, and the error returned. */
  datatype Outcome = Outcome(created: seq<ProwJob>, err: Option<Error>)

  /** The handler's loop over `catalog`, definition by definition. Every job it creates
      carries the same refs, those of the event. */
  function RunCatalog(env: Env, create: ProwJob -> Option<Error>, pe: PushEvent, catalog: seq<Postsubmit>): (o: Outcome)
    ensures forall pj :: pj in o.created ==> pj.spec.refs == CreateRefs(pe, env.branch(pe))
    decreases |catalog|
  {
    if catalog == [] then Outcome([], None)
    else
      match env.shouldRun(catalog[0], env.branch(pe), Touched(pe.commits))
      case Failure(e) => Outcome([], Some(e))
      case Success(run) =>
        if !run then RunCatalog(env, create, pe, catalog[1..])
        else
          var pj := JobFor(env, pe, catalog[0]);
          match create(pj)
          case Some(e) => Outcome([], Some(e))
          case None =>
            var rest := RunCatalog(env, create, pe, catalog[1..]);
            Outcome([pj] + rest.created, rest.err)
  }

  /** `handlePE` as a value: nothing for a deletion, otherwise the loop over the catalog
      resolved for the event's repository at its `After` SHA. */
  function Handle(env: Env, create: ProwJob -> Option<Error>, pe: PushEvent): (o: Outcome)
    ensures IsDeletion(pe) ==> o == Outcome([], None)
    ensures forall pj :: pj in o.created ==>
              pj.spec.refs == CreateRefs(pe, env.branch(pe)) && pj.spec.refs.baseSha != ZeroSHA
  {
    if IsDeletion(pe) then Outcome([], None)
    else RunCatalog(env, create, pe, env.postsubmits(CatalogKey(pe), pe.after))
  }

  /** `handlePE`: creates, in catalog order, a ProwJob for every matching post-submit
      definition, and stops at the first error, keeping the jobs already created. */
  method HandlePE(env: Env, store: Store, pe: PushEvent) returns (err: Option<Error>)
    modifies store
    ensures store.jobs == old(store.jobs) + Handle(env, store.outcome, pe).created
    ensures err == Handle(env, store.outcome, pe).err
    ensures IsDeletion(pe) ==> err == None && store.jobs == old(store.jobs)
  {
    if pe.deleted || pe.after == ZeroSHA {
      return None;
    }

    var org := pe.repo.owner.login;
    var repo := pe.repo.name;
    var postsubmits := env.postsubmits(org + "/" + repo, pe.after);

    ghost var done: seq<ProwJob> := [];
    for i := 0 to |postsubmits|
      invariant store.jobs == old(store.jobs) + done
      invariant Handle(env, store.outcome, pe).created
             == done + RunCatalog(env, store.outcome, pe, postsubmits[i..]).created
      invariant Handle(env, store.outcome, pe).err
             == RunCatalog(env, store.outcome, pe, postsubmits[i..]).err
    {
      assert postsubmits[i..][1..] == postsubmits[i + 1..];
      var j := postsubmits[i];
      var shouldRun := env.shouldRun(j, env.branch(pe), Touched(pe.commits));
      if shouldRun.Failure? {
        return Some(shouldRun.error);
      } else if !shouldRun.value {
        continue;
      }
      var refs := CreateRefs(pe, env.branch(pe));
      var labels := CopyLabels(j.labels);
      labels := labels[EventGUID := pe.guid];
      var pj := NewProwJob(PostsubmitSpec(j, refs), labels, j.annotations, env.schedulingEnabled);
      assert pj == JobFor(env, pe, j);
      var createErr := store.Create(pj);
      if createErr.Some? {
        return createErr;
      }
      done := done + [pj];
    }
    return None;
  }
}
