/** The parts of a GitHub push webhook payload that the trigger plugin reads. */
module Github {

  /** The key of the label that ties a ProwJob to the webhook delivery that caused it.
      Its value is defined in the github package, which is not part of this model;
      no property below depends on which string it is. */
  const EventGUID: string := "event-GUID"

  /** The owner of a repository: its login (used to look up the job catalog)
      and its display name (copied into the job's refs). */
  datatype Owner = Owner(login: string, name: string)

  datatype Repo = Repo(owner: Owner, name: string, htmlUrl: string)

  /** One pushed commit: the paths it added, removed and modified. */
  datatype Commit = Commit(added: seq<string>, removed: seq<string>, modified: seq<string>)

  /** A push event. `ref` is the pushed reference; the branch name derived from it
      (`PushEvent.Branch()` in the github package) is a collaborator of the model. */
  datatype PushEvent = PushEvent(
    ref: string,
    deleted: bool,
    after: string,
    compare: string,
    repo: Repo,
    commits: seq<Commit>,
    guid: string)
}
