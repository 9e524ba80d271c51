/*
 * The four JSON messages the services exchange over Kafka
 * (shared/message/message.go), and the decoded form of a payload.
 *
 * Every consumer decodes a payload into one of these structs by field
 * name, so the model keeps one record with every field any message has:
 * a field the JSON does not carry decodes to "" or to zero.
 */
module Message {
  import opened Util

  /** An instant, in nanoseconds since Go's zero time.Time (0001-01-01 UTC); 0 is the zero value. */
  type Time = int

  const ZeroTime: Time := 0

  /** Go's int64. */
  newtype Int64 = x: int | -0x8000_0000_0000_0000 <= x < 0x8000_0000_0000_0000

  /** Seconds between the zero instant and the Unix epoch. */
  const UnixEpochSeconds: int := 62135596800

  /** time.Time.Unix(): whole seconds since 1970, rounded towards minus infinity. */
  function UnixSeconds(t: Time): (s: int)
    ensures s * 1_000_000_000 <= t - UnixEpochSeconds * 1_000_000_000 < (s + 1) * 1_000_000_000
  {
    t / 1_000_000_000 - UnixEpochSeconds
  }

  datatype BuildRequestMessage = BuildRequestMessage(
    id: string, repositoryUrl: string, branch: string, commitHash: string,
    userId: string, createdAt: Time)

  datatype BuildStatusMessage = BuildStatusMessage(
    buildId: string, status: string, message: string, updatedAt: Time)

  datatype BuildLogMessage = BuildLogMessage(
    buildId: string, logEntry: string, timestamp: Time)

  datatype BuildCompletionMessage = BuildCompletionMessage(
    buildId: string, status: string, artifactUrl: string, duration: Int64, completedAt: Time)

  /** The values the status field is documented to take. */
  const StatusValues: set<string> := {"queued", "in-progress", "completed", "failed"}

  /** The values a completion's status is documented to take. */
  const CompletionOutcomes: set<string> := {"success", "failure"}

  /** One message as a producer writes it. */
  datatype Msg =
    | RequestMsg(request: BuildRequestMessage)
    | StatusMsg(status: BuildStatusMessage)
    | LogMsg(log: BuildLogMessage)
    | CompletionMsg(completion: BuildCompletionMessage)

  /** A JSON payload decoded field by field; absent fields hold their zero value. */
  datatype Payload = Payload(
    id: string, repositoryUrl: string, branch: string, commitHash: string, userId: string, createdAt: Time,
    buildId: string, status: string, message: string, updatedAt: Time,
    logEntry: string, timestamp: Time,
    artifactUrl: string, duration: Int64, completedAt: Time)

  const EmptyPayload: Payload := Payload("", "", "", "", "", 0, "", "", "", 0, "", 0, "", 0, 0)

  // Decoding a payload into each struct keeps exactly that struct's fields.

  function AsRequest(p: Payload): BuildRequestMessage {
    BuildRequestMessage(p.id, p.repositoryUrl, p.branch, p.commitHash, p.userId, p.createdAt)
  }

  function AsStatus(p: Payload): BuildStatusMessage {
    BuildStatusMessage(p.buildId, p.status, p.message, p.updatedAt)
  }

  function AsLog(p: Payload): BuildLogMessage {
    BuildLogMessage(p.buildId, p.logEntry, p.timestamp)
  }

  function AsCompletion(p: Payload): BuildCompletionMessage {
    BuildCompletionMessage(p.buildId, p.status, p.artifactUrl, p.duration, p.completedAt)
  }

  /** The keys the JSON encoding of a message writes (artifact_url is omitempty). */
  function JsonKeys(m: Msg): (keys: set<string>)
    ensures "id" in keys <==> m.RequestMsg?
    ensures "build_id" in keys <==> !m.RequestMsg?
    ensures m.CompletionMsg? ==> ("artifact_url" in keys <==> m.completion.artifactUrl != "")
  {
    match m
    case RequestMsg(_) => {"id", "repository_url", "branch", "commit_hash", "user_id", "created_at"}
    case StatusMsg(_) => {"build_id", "status", "message", "updated_at"}
    case LogMsg(_) => {"build_id", "log_entry", "timestamp"}
    case CompletionMsg(c) =>
      {"build_id", "status", "duration", "completed_at"} + (if c.artifactUrl != "" then {"artifact_url"} else {})
  }

  /** What a consumer decodes from the JSON a producer wrote for `m`. */
  function Encode(m: Msg): (p: Payload)
    ensures m.RequestMsg? ==>
      AsRequest(p) == m.request
      && AsStatus(p) == AsStatus(EmptyPayload) && AsLog(p) == AsLog(EmptyPayload) && AsCompletion(p) == AsCompletion(EmptyPayload)
    ensures m.StatusMsg? ==>
      AsStatus(p) == m.status && AsRequest(p) == AsRequest(EmptyPayload)
      && p.logEntry == "" && p.timestamp == ZeroTime
      && p.artifactUrl == "" && p.duration == 0 && p.completedAt == ZeroTime
    ensures m.LogMsg? ==>
      AsLog(p) == m.log && AsRequest(p) == AsRequest(EmptyPayload)
      && p.status == "" && p.message == "" && p.updatedAt == ZeroTime
      && p.artifactUrl == "" && p.duration == 0 && p.completedAt == ZeroTime
    ensures m.CompletionMsg? ==>
      AsCompletion(p) == m.completion && AsRequest(p) == AsRequest(EmptyPayload)
      && p.message == "" && p.updatedAt == ZeroTime
      && p.logEntry == "" && p.timestamp == ZeroTime
  {
    match m
    case RequestMsg(r) =>
      EmptyPayload.(id := r.id, repositoryUrl := r.repositoryUrl, branch := r.branch,
                    commitHash := r.commitHash, userId := r.userId, createdAt := r.createdAt)
    case StatusMsg(s) =>
      EmptyPayload.(buildId := s.buildId, status := s.status, message := s.message, updatedAt := s.updatedAt)
    case LogMsg(l) =>
      EmptyPayload.(buildId := l.buildId, logEntry := l.logEntry, timestamp := l.timestamp)
    case CompletionMsg(c) =>
      EmptyPayload.(buildId := c.buildId, status := c.status, artifactUrl := c.artifactUrl,
                    duration := c.duration, completedAt := c.completedAt)
  }

  /** Only fields named by the JSON keys are set in the decoded payload. */
  lemma EncodeSetsOnlyItsKeys(m: Msg)
    ensures Encode(m).id != "" ==> "id" in JsonKeys(m)
    ensures Encode(m).buildId != "" ==> "build_id" in JsonKeys(m)
    ensures Encode(m).artifactUrl != "" ==> "artifact_url" in JsonKeys(m)
    ensures Encode(m).logEntry != "" ==> "log_entry" in JsonKeys(m)
  {
  }
}
