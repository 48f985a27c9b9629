# Push-event trigger: a verified Dafny model

This project models the push handler of Prow's `trigger` plugin
(`pkg/plugins/trigger/push.go`). The handler takes a GitHub push webhook and
creates a post-submit ProwJob for every matching job definition.

- **Change set** (`listPushEventChanges`): every path that a pushed commit added,
  removed or modified, each path once, in any order, and never an error.
- **Refs** (`createRefs`): the org, repository, link, branch, `After` SHA and
  compare link of the event, copied field by field.
- **Handler** (`handlePE`):
  - A branch deletion does nothing. That is a set `Deleted` flag or an
    all-zero `After` SHA.
  - Otherwise the handler resolves the post-submit catalog for
    `owner.login + "/" + repo.name` at the `After` SHA.
  - It asks each definition in catalog order whether it should run.
  - For each match it builds a ProwJob. The job's labels are a copy of the
    definition's labels with `EventGUID` set to the event's GUID.
  - It creates each job and returns the first error. Jobs already created stay
    in the store.

Modules:

- `Wrappers` (`wrappers.dfy`): `Option` and `Result`.
- `Github` (`github.dfy`): the push-event payload and the `EventGUID` label key.
- `Prow` (`prow.dfy`): `Refs`, the `Postsubmit` definition, and `ProwJob`.
  `NewProwJob` and `PostsubmitSpec` are kept as records of their arguments.
- `Trigger` (`trigger.dfy`): the three operations of `push.go`, plus the
  specification functions `Touched`, `EventLabels`, `JobFor`, `RunCatalog` and
  `Handle`. It also holds the `Store` class that receives the created jobs.
- `TriggerProperties` (`trigger_properties.dfy`): reference definitions and
  lemmas. The reference definitions are the matching definitions, the first
  definition whose processing fails, and the jobs built for the matches.

The collaborators that `push.go` calls but does not define are parameters,
bundled in the `Env` datatype:

- `PushEvent.Branch()`;
- `getPostsubmits`;
- `Postsubmit.ShouldRun`;
- `Config.Scheduler.Enabled`.

`createWithRetry` is `Store.Create`. It makes one call to an oracle function
that the store holds; a success appends the job to `Store.jobs`.

`ListPushEventChanges` keeps the source's form. Its loops insert each path into
a `map<string, bool>`, then pick the keys one by one in an unspecified order,
with `:|`. The result is specified by its elements, not by their order. `HandlePE`
keeps the handler's loop over the catalog. Its `ensures` ties the new store
contents and the returned error to `Handle`. The lemmas in `TriggerProperties`
then prove what `Handle` promises.

## Model

| member | source | states |
|---|---|---|
| `Trigger.ListPushEventChanges` | pkg/plugins/trigger/push.go:28-48 | a path is in the returned list iff some commit added, removed or modified it; no entry appears twice; the error is always nil; no commits gives an empty list |
| `Trigger.MarkAll` | pkg/plugins/trigger/push.go:32-40 | after one inner loop, the map's keys are the old keys plus every path of the commit's list |
| `Trigger.KeyList` | pkg/plugins/trigger/push.go:42-45 | the returned list holds exactly the keys of the map, each once |
| `Trigger.Touched` | pkg/plugins/trigger/push.go:30-41 | the accumulated change set contains every path of every pushed commit |
| `Trigger.TouchedIsInPush` | pkg/plugins/trigger/push.go:30-41 | the accumulated change set holds a path exactly when some pushed commit touches it (both directions) |
| `TriggerProperties.ChangeUnionExample` | pkg/plugins/trigger/push.go:30-41 | two commits `{added a, modified b}` and `{removed b, added c}` give exactly `{a, b, c}` |
| `Trigger.CreateRefs` | pkg/plugins/trigger/push.go:50-58 | the refs copy the owner's name, the repository name and HTML URL, the branch, the `After` SHA and the compare link, field by field |
| `Trigger.JobFor` | pkg/plugins/trigger/push.go:82-88 | the job built for a match has that definition, the event's refs, the definition's label keys plus `EventGUID` with `EventGUID` set to the event's GUID and every other label kept, the definition's annotations unchanged, and the configured scheduling flag |
| `Trigger.CopyLabels` | pkg/plugins/trigger/push.go:83-86 | the key-by-key copy loop yields a map equal to the definition's labels |
| `Trigger.EventLabels` | pkg/plugins/trigger/push.go:83-87 | the job's labels have the definition's keys plus `EventGUID`; `EventGUID` maps to the event's GUID even if the definition set it; every other key keeps the definition's value |
| `Trigger.Store.Create` | pkg/plugins/trigger/push.go:90-92 | one creation attempt; the oracle decides the error; on success the job is appended to the store, on failure the store is unchanged |
| `Trigger.RunCatalog` | pkg/plugins/trigger/push.go:76-94 | every job the loop creates carries the same refs, those `createRefs` builds from the event; the rest of what the loop does is stated by `RunStopsAtFirstHalt`, `NoErrorIffNoHalt`, `LaterDefinitionsIgnored` and `CreatedAreMatches` |
| `Trigger.IsDeletion` | pkg/plugins/trigger/push.go:62 | an event is a deletion exactly when its `Deleted` flag is set or its `After` SHA is forty `0` characters |
| `Trigger.CatalogKey` | pkg/plugins/trigger/push.go:67-74 | the catalog key is the owner's login, then `/`, then the repository name |
| `Trigger.Handle` | pkg/plugins/trigger/push.go:61-95 | a deletion creates nothing and returns nil; every job created for any other event carries the event's refs, whose base SHA is never the zero SHA |
| `Trigger.HandlePE` | pkg/plugins/trigger/push.go:61-95 | the store afterwards is the old store followed by the created jobs of `Handle`, even on error; the error is `Handle`'s. A deletion or zero `After` SHA returns nil and creates nothing |
| `TriggerProperties.FirstHalt` | pkg/plugins/trigger/push.go:77-92 | the index of the first definition whose `ShouldRun` fails or whose matched job fails to be created (or the catalog length); no earlier definition fails |
| `TriggerProperties.RunStopsAtFirstHalt` | pkg/plugins/trigger/push.go:76-94 | if `k` is the first failing definition, the created jobs are the jobs of the matching definitions before `k`, in catalog order, and the error is that of definition `k`, or nil if no definition fails |
| `TriggerProperties.RunCatalogOutcome` | pkg/plugins/trigger/push.go:76-94 | the same, with the first failing definition computed by `FirstHalt` |
| `TriggerProperties.NoErrorIffNoHalt` | pkg/plugins/trigger/push.go:76-94 | the loop returns nil iff no definition fails; then a job was created for every matching definition |
| `TriggerProperties.LaterDefinitionsIgnored` | pkg/plugins/trigger/push.go:76-92 | once definition `k` fails, replacing everything after it leaves the outcome unchanged, and the error returned is definition `k`'s |
| `TriggerProperties.CreatedAreMatches` | pkg/plugins/trigger/push.go:76-88 | every created job was built, by `JobFor`, from a catalog definition whose `ShouldRun` returned true |
| `TriggerProperties.CreatedJobsShape` | pkg/plugins/trigger/push.go:62-88 | every created job comes from a non-deletion event; its definition is in the catalog resolved for `login/name` at `After` and matched; its refs are the event's refs, never with the zero SHA; its labels are the definition's labels with `EventGUID` set to the GUID; its annotations are the definition's and its scheduling flag is the configured one |
| `TriggerProperties.DeletionIgnoresCollaborators` | pkg/plugins/trigger/push.go:62-65 | for a deletion, the outcome is empty and nil whatever the catalog, the matcher and the store |
| `TriggerProperties.SecondOfThreeFails` | pkg/plugins/trigger/push.go:76-94 | three matching definitions where the second creation fails: only the first job is created and the creation error is returned |

Label maps are Dafny values, so building a job's labels cannot change the
definition's own `Labels` map. The Go code gets the same guarantee from its
explicit copy loop (push.go:83-86).

## Left out

- `getPostsubmits` (push.go:74): it reads the config and the git client. It is the `Env.postsubmits` parameter, given the `org/repo` key and the `After` SHA that `shaGetter` returns.
- `Postsubmit.ShouldRun` internals: the branch regex, path globs, any exclude-wins rule, and skipping the change set on a branch mismatch all live in the config package, which is not part of this model. `Env.shouldRun` is an uninterpreted function of the definition, the branch and the change set.
- Memoization of the change set: the code gives each definition's `ShouldRun` a fresh `listPushEventChanges(pe)` provider (push.go:77) and memoizes nothing; the model passes every `ShouldRun` the event's full change set.
- Laziness of the change-set provider: `shouldRun` receives the change set as a value (`Touched(pe.commits)`). The model does not say whether or how often `ShouldRun` calls the provider, and that cannot change the result, since the provider has no side effects and never fails.
- `createWithRetry` (push.go:90): retries, backoff, idempotency by job identity and the `context.TODO()` context are in code that is not part of this model. Each creation is one oracle call that returns an error or nil. That oracle is a fixed function of the job and does not depend on what the store already holds.
- `pjutil.NewProwJob`, `PostsubmitSpec`, `RequireScheduling`: foreign constructors, modelled as records of their arguments. The job name, the identity and the other generated fields are not modelled.
- The log line `c.Logger...Info` (push.go:89): a side effect only.
- `PushEvent.Branch()`: defined in the github package. It is the `Env.branch` parameter.
- The value of `github.EventGUID` is taken as `"event-GUID"`. No property depends on it.
- Go's map iteration order (push.go:43, 84): the model picks keys with `:|`, so it promises nothing about the order of the returned file list.
- Concurrency across events and cancellation: not in push.go.
