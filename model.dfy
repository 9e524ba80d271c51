/*
 * The build record kept in Redis (shared/model/build.go).
 *
 * Every service stores JSON with these field names, some with fewer
 * fields (a BuildJob, the dashboard's own BuildStatus); such a narrower
 * document is this record with the fields it lacks at their zero value.
 */
module Model {
  import opened Util
  import opened Message

  datatype BuildStatus = BuildStatus(
    id: string, repositoryUrl: string, branch: string, commitHash: string, userId: string,
    status: string, message: string, artifactUrl: string,
    createdAt: Time, updatedAt: Time,
    startedAt: Option<Time>, completedAt: Option<Time>,
    duration: Int64)

  const Blank: BuildStatus := BuildStatus("", "", "", "", "", "", "", "", 0, 0, None, None, 0)

  /** The request a record was created from. */
  function RequestOf(b: BuildStatus): BuildRequestMessage {
    BuildRequestMessage(b.id, b.repositoryUrl, b.branch, b.commitHash, b.userId, b.createdAt)
  }

  /**
   * The record as a BuildJob-shaped struct (id, repository_url, branch,
   * commit_hash, user_id, status, created_at, updated_at) decodes it.
   */
  function JobView(b: BuildStatus): (v: BuildStatus)
    ensures RequestOf(v) == RequestOf(b) && v.status == b.status && v.updatedAt == b.updatedAt
    ensures v.message == "" && v.artifactUrl == "" && v.startedAt.None? && v.completedAt.None? && v.duration == 0
  {
    Blank.(id := b.id, repositoryUrl := b.repositoryUrl, branch := b.branch, commitHash := b.commitHash,
           userId := b.userId, status := b.status, createdAt := b.createdAt, updatedAt := b.updatedAt)
  }

  /** Decoding a job-shaped document twice changes nothing more. */
  lemma JobViewIdempotent(b: BuildStatus)
    ensures JobView(JobView(b)) == JobView(b)
  {
  }
}
