/** The job-side records the trigger plugin builds: refs, post-submit definitions and ProwJobs. */
module Prow {

  /** The source references a post-submit job runs against. */
  datatype Refs = Refs(
    org: string,
    repo: string,
    repoLink: string,
    baseRef: string,
    baseSha: string,
    baseLink: string)

  /** A post-submit job definition from the catalog. Its branch and path filters live in the
      config package and are decided by the `shouldRun` collaborator; the model keeps the
      fields the trigger plugin itself reads. */
  datatype Postsubmit = Postsubmit(
    name: string,
    labels: map<string, string>,
    annotations: map<string, string>)

  /** The job spec built by `pjutil.PostsubmitSpec`, kept as a record of its arguments. */
  datatype JobSpec = PostsubmitSpec(job: Postsubmit, refs: Refs)

  /** A ProwJob as built by `pjutil.NewProwJob`, kept as a record of its arguments;
      `requireScheduling` is the flag given through `pjutil.RequireScheduling`. */
  datatype ProwJob = NewProwJob(
    spec: JobSpec,
    labels: map<string, string>,
    annotations: map<string, string>,
    requireScheduling: bool)
}
