/*
 * The build orchestrator (build-orchestrator/main.go): it records a
 * request as a queued build under build:<id>, ranks it in
 * builds:by_date, dispatches it to the builders on build-jobs, and
 * folds later status and completion messages into the stored record.
 */
module Orchestrator {
  import opened Util
  import opened Message
  import opened Model
  import opened Store
  import opened Bus

  datatype OrchestratorError = StoreFailed | NotFound(id: string) | DecodeFailed | SendFailed(topic: string)

  /** The topics the consumer subscribes to. */
  const Subscriptions: set<string> := {RequestsTopic, StatusTopic, CompletionsTopic}

  /** The event that hands an accepted request to the builders. */
  function Dispatch(req: BuildRequestMessage): (e: Event)
    ensures e.key == req.id
  {
    Event(JobsTopic, req.id, RequestMsg(req))
  }

  /**
   * The dispatched request reaches the builders intact and is not
   * consumed again by this service.
   */
  lemma DispatchReachesBuilder(req: BuildRequestMessage)
    ensures Dispatch(req).topic in BuilderSubscriptions && Dispatch(req).topic !in Subscriptions
    ensures AsRequest(Encode(Dispatch(req).msg)) == req
  {
  }

  // -----------------------------------------------------------------------
  // The record transformations
  // -----------------------------------------------------------------------

  const QueuedMessage: string := "Build queued for processing"

  /** The record a request starts as. */
  function Queued(req: BuildRequestMessage, now: Time): (b: BuildStatus)
    ensures RequestOf(b) == req
    ensures b.status == "queued" && b.status in StatusValues && b.message == QueuedMessage
    ensures b.updatedAt == now && b.startedAt.None? && b.completedAt.None?
  {
    Blank.(id := req.id, repositoryUrl := req.repositoryUrl, branch := req.branch, commitHash := req.commitHash,
           userId := req.userId, status := "queued", message := QueuedMessage, createdAt := req.createdAt,
           updatedAt := now)
  }

  /** A status message applied to a record: StartedAt is set on the first in-progress. */
  function WithStatus(b: BuildStatus, msg: BuildStatusMessage, now: Time): (r: BuildStatus)
    ensures RequestOf(r) == RequestOf(b)
    ensures r.status == msg.status && r.message == msg.message && r.updatedAt == msg.updatedAt
    ensures r.artifactUrl == b.artifactUrl && r.completedAt == b.completedAt && r.duration == b.duration
    ensures b.startedAt.Some? ==> r.startedAt == b.startedAt
  {
    var started := if msg.status == "in-progress" && b.startedAt.None? then Some(now) else b.startedAt;
    b.(status := msg.status, message := msg.message, updatedAt := msg.updatedAt, startedAt := started)
  }

  /** A completion applied to a record. */
  function WithCompletion(b: BuildStatus, msg: BuildCompletionMessage): (r: BuildStatus)
    ensures RequestOf(r) == RequestOf(b) && r.message == b.message && r.startedAt == b.startedAt
    ensures r.status == msg.status && r.artifactUrl == msg.artifactUrl && r.duration == msg.duration
    ensures r.updatedAt == msg.completedAt && r.completedAt == Some(msg.completedAt)
  {
    b.(status := msg.status, artifactUrl := msg.artifactUrl, updatedAt := msg.completedAt,
       completedAt := Some(msg.completedAt), duration := msg.duration)
  }

  /** One message the orchestrator folds into a stored record. */
  datatype Update = StatusUpdate(status: BuildStatusMessage, at: Time) | CompletionUpdate(completion: BuildCompletionMessage)

  function Apply(b: BuildStatus, u: Update): BuildStatus {
    match u
    case StatusUpdate(m, now) => WithStatus(b, m, now)
    case CompletionUpdate(c) => WithCompletion(b, c)
  }

  function ApplyAll(b: BuildStatus, us: seq<Update>): BuildStatus
    decreases |us|
  {
    if us == [] then b else ApplyAll(Apply(b, us[0]), us[1..])
  }

  predicate StartsBuild(u: Update) {
    u.StatusUpdate? && u.status.status == "in-progress"
  }

  /** No sequence of updates changes the fields copied from the request. */
  lemma {:induction false} RequestFieldsKept(b: BuildStatus, us: seq<Update>)
    ensures RequestOf(ApplyAll(b, us)) == RequestOf(b)
    decreases |us|
  {
    if us != [] {
      RequestFieldsKept(Apply(b, us[0]), us[1..]);
    }
  }

  /** Once StartedAt is set, no later update moves it. */
  lemma {:induction false} StartedAtSetOnce(b: BuildStatus, us: seq<Update>)
    requires b.startedAt.Some?
    ensures ApplyAll(b, us).startedAt == b.startedAt
    decreases |us|
  {
    if us != [] {
      StartedAtSetOnce(Apply(b, us[0]), us[1..]);
    }
  }

  /**
   * Starting from a record that never started, StartedAt ends up set
   * exactly when some update reports in-progress, and then holds the
   * time of the first one.
   */
  lemma {:induction false} StartedAtIsFirstStart(b: BuildStatus, us: seq<Update>)
    requires b.startedAt.None?
    ensures ApplyAll(b, us).startedAt.Some? <==> exists i :: 0 <= i < |us| && StartsBuild(us[i])
    ensures ApplyAll(b, us).startedAt.Some? ==>
      exists i :: 0 <= i < |us| && StartsBuild(us[i]) && ApplyAll(b, us).startedAt == Some(us[i].at)
                  && forall j :: 0 <= j < i ==> !StartsBuild(us[j])
    decreases |us|
  {
    if us != [] {
      var next := Apply(b, us[0]);
      if StartsBuild(us[0]) {
        StartedAtSetOnce(next, us[1..]);
      } else {
        StartedAtIsFirstStart(next, us[1..]);
        if ApplyAll(b, us).startedAt.Some? {
          var i :| 0 <= i < |us[1..]| && StartsBuild(us[1..][i]) && ApplyAll(next, us[1..]).startedAt == Some(us[1..][i].at)
                   && forall j :: 0 <= j < i ==> !StartsBuild(us[1..][j]);
          assert StartsBuild(us[i + 1]) && forall j :: 0 <= j < i + 1 ==> !StartsBuild(us[j]) by {
            forall j | 0 <= j < i + 1 ensures !StartsBuild(us[j]) {
              if j > 0 { assert us[j] == us[1..][j - 1]; }
            }
          }
        }
        if exists i :: 0 <= i < |us| && StartsBuild(us[i]) {
          var i :| 0 <= i < |us| && StartsBuild(us[i]);
          assert i > 0 && StartsBuild(us[1..][i - 1]);
        }
      }
    }
  }

  /** Status updates are not monotone: a finished record can be reopened. */
  lemma TerminalRecordsAreOverwritten(b: BuildStatus, now: Time)
    requires b.status == "completed"
    ensures Apply(b, StatusUpdate(BuildStatusMessage(b.id, "in-progress", "", now), now)).status == "in-progress"
  {
  }

  // -----------------------------------------------------------------------
  // Routing a consumed payload
  // -----------------------------------------------------------------------

  datatype Route =
    | ToRequest(request: BuildRequestMessage)
    | ToCompletion(completion: BuildCompletionMessage)
    | ToStatus(status: BuildStatusMessage)
    | Unrecognised

  /** The consumer's choice of handler for one payload. */
  function RouteOf(p: Payload): (r: Route)
    ensures r.ToRequest? <==> p.id != ""
    ensures r.ToCompletion? <==> p.id == "" && p.buildId != "" && p.artifactUrl != ""
    ensures r.ToStatus? <==> p.id == "" && p.buildId != "" && p.artifactUrl == ""
    ensures r.ToRequest? ==> r.request == AsRequest(p)
    ensures r.ToCompletion? ==> r.completion == AsCompletion(p)
    ensures r.ToStatus? ==> r.status == AsStatus(p)
  {
    if p.id != "" then ToRequest(AsRequest(p))
    else if p.buildId != "" && p.artifactUrl != "" then ToCompletion(AsCompletion(p))
    else if p.buildId != "" then ToStatus(AsStatus(p))
    else Unrecognised
  }

  /** Each message reaches its own handler, except a completion without an artifact URL. */
  lemma RoutesOfMessages(m: Msg)
    ensures m.RequestMsg? && m.request.id != "" ==> RouteOf(Encode(m)) == ToRequest(m.request)
    ensures m.StatusMsg? && m.status.buildId != "" ==> RouteOf(Encode(m)) == ToStatus(m.status)
    ensures m.CompletionMsg? && m.completion.buildId != "" && m.completion.artifactUrl != "" ==>
      RouteOf(Encode(m)) == ToCompletion(m.completion)
  {
  }

  /**
   * A failed build's completion carries no artifact URL, so it is
   * handled as a status update: the record takes the completion's
   * status, an empty message and the zero time, and CompletedAt stays unset.
   */
  lemma FailureCompletionHandledAsStatus(c: BuildCompletionMessage, b: BuildStatus, now: Time)
    requires c.buildId != "" && c.status == "failure" && c.artifactUrl == ""
    ensures RouteOf(Encode(CompletionMsg(c))) == ToStatus(BuildStatusMessage(c.buildId, "failure", "", ZeroTime))
    ensures var r := WithStatus(b, RouteOf(Encode(CompletionMsg(c))).status, now);
      r.status == "failure" && r.message == "" && r.updatedAt == ZeroTime && r.completedAt == b.completedAt
  {
  }

  /** A successful completion stores a status outside the documented record values. */
  lemma SuccessStoresUndocumentedStatus(b: BuildStatus, c: BuildCompletionMessage)
    requires c.status == "success"
    ensures WithCompletion(b, c).status !in StatusValues
  {
  }

  // -----------------------------------------------------------------------
  // The service
  // -----------------------------------------------------------------------

  function StatusEvent(b: BuildStatus): Event {
    Event(StatusTopic, b.id, StatusMsg(BuildStatusMessage(b.id, b.status, b.message, b.updatedAt)))
  }

  class BuildOrchestrator {
    const redis: Redis
    const producer: Producer

    constructor (redis: Redis, producer: Producer)
      ensures this.redis == redis && this.producer == producer
    {
      this.redis := redis;
      this.producer := producer;
    }

    /** Writes build:<id> and ranks the id by its creation second, atomically. */
    method StoreBuildStatus(b: BuildStatus) returns (err: Option<OrchestratorError>)
      modifies redis
      ensures err.None? <==> redis.up
      ensures err.Some? ==> err.value == StoreFailed
      ensures redis.strings == if redis.up then old(redis.strings)[BuildKey(b.id) := Parsed(b)] else old(redis.strings)
      ensures redis.byDate == if redis.up then old(redis.byDate)[b.id := UnixSeconds(b.createdAt)] else old(redis.byDate)
      ensures redis.lists == old(redis.lists)
    {
      var ok := redis.SetAndRank(BuildKey(b.id), Parsed(b), b.id, UnixSeconds(b.createdAt));
      err := if ok then None else Some(StoreFailed);
    }

    /** Reads build:<id>: missing or undecodable records are errors. */
    method GetBuildStatus(id: string) returns (r: Result<BuildStatus, OrchestratorError>)
      ensures r.Ok? <==> redis.up && BuildKey(id) in redis.strings && redis.strings[BuildKey(id)].Parsed?
      ensures r.Ok? ==> r.value == redis.strings[BuildKey(id)].record
      ensures r.Err? && redis.up && BuildKey(id) !in redis.strings ==> r.error == NotFound(id)
      ensures !redis.up ==> r == Err(StoreFailed)
    {
      var reply := redis.Get(BuildKey(id));
      match reply
      case Nil => r := Err(NotFound(id));
      case Failed => r := Err(StoreFailed);
      case Found(doc) =>
        r := if doc.Parsed? then Ok(doc.record) else Err(DecodeFailed);
    }

    /**
     * What handling a build request does: the queued record is stored and
     * ranked, announced on build-status, then dispatched on build-jobs;
     * each step runs only if the previous one succeeded.
     */
    twostate predicate RequestHandled(req: BuildRequestMessage, now: Time, new err: Option<OrchestratorError>)
      reads this, redis, producer
    {
      && redis.strings == (if redis.up then old(redis.strings)[BuildKey(req.id) := Parsed(Queued(req, now))] else old(redis.strings))
      && redis.byDate == (if redis.up then old(redis.byDate)[req.id := UnixSeconds(req.createdAt)] else old(redis.byDate))
      && redis.lists == old(redis.lists)
      && var announce := StatusEvent(Queued(req, now));
         var dispatch := Dispatch(req);
         producer.sent == old(producer.sent)
           + (if redis.up then [announce] else [])
           + (if redis.up && producer.accept(announce) then [dispatch] else [])
         && (err.None? <==> redis.up && producer.accept(announce) && producer.accept(dispatch))
    }

    /**
     * What handling a status message does: with a decodable build:<id>
     * record the status is folded into it and stored; otherwise an error
     * and no change. Nothing is published.
     */
    twostate predicate StatusHandled(msg: BuildStatusMessage, now: Time, new err: Option<OrchestratorError>)
      reads this, redis, producer
    {
      && (if old(redis.up && BuildKey(msg.buildId) in redis.strings && redis.strings[BuildKey(msg.buildId)].Parsed?) then
            var b := WithStatus(old(redis.strings[BuildKey(msg.buildId)].record), msg, now);
            err.None? && redis.strings == old(redis.strings)[BuildKey(b.id) := Parsed(b)]
            && redis.byDate == old(redis.byDate)[b.id := UnixSeconds(b.createdAt)]
          else
            err.Some? && redis.strings == old(redis.strings) && redis.byDate == old(redis.byDate))
      && redis.lists == old(redis.lists)
      && producer.sent == old(producer.sent)
    }

    /**
     * What handling a completion does: with a decodable build:<id> record
     * the completion is folded into it, stored, and announced as
     * "Build <status>"; otherwise an error and no change.
     */
    twostate predicate CompletionHandled(msg: BuildCompletionMessage, new err: Option<OrchestratorError>)
      reads this, redis, producer
    {
      && (if old(redis.up && BuildKey(msg.buildId) in redis.strings && redis.strings[BuildKey(msg.buildId)].Parsed?) then
            var b := WithCompletion(old(redis.strings[BuildKey(msg.buildId)].record), msg);
            var announce := Event(StatusTopic, msg.buildId, StatusMsg(BuildStatusMessage(msg.buildId, msg.status, "Build " + msg.status, msg.completedAt)));
            redis.strings == old(redis.strings)[BuildKey(b.id) := Parsed(b)]
            && redis.byDate == old(redis.byDate)[b.id := UnixSeconds(b.createdAt)]
            && producer.sent == old(producer.sent) + [announce]
            && (err.None? <==> producer.accept(announce))
          else
            err.Some? && redis.strings == old(redis.strings) && redis.byDate == old(redis.byDate)
            && producer.sent == old(producer.sent))
      && redis.lists == old(redis.lists)
    }

    method ProcessBuildRequest(req: BuildRequestMessage, now: Time) returns (err: Option<OrchestratorError>)
      modifies redis, producer
      ensures RequestHandled(req, now, err)
    {
      var b := Queued(req, now);
      err := StoreBuildStatus(b);
      if err.Some? {
        return;
      }
      var ok := producer.SendMessage(StatusTopic, b.id, StatusMsg(BuildStatusMessage(b.id, b.status, b.message, b.updatedAt)));
      if !ok {
        return Some(SendFailed(StatusTopic));
      }
      ok := producer.SendMessage(JobsTopic, req.id, RequestMsg(req));
      if !ok {
        return Some(SendFailed(JobsTopic));
      }
    }

    method ProcessBuildStatus(msg: BuildStatusMessage, now: Time) returns (err: Option<OrchestratorError>)
      modifies redis
      ensures StatusHandled(msg, now, err)
    {
      var r := GetBuildStatus(msg.buildId);
      if r.Err? {
        return Some(r.error);
      }
      var b := WithStatus(r.value, msg, now);
      err := StoreBuildStatus(b);
    }

    method ProcessBuildCompletion(msg: BuildCompletionMessage) returns (err: Option<OrchestratorError>)
      modifies redis, producer
      ensures CompletionHandled(msg, err)
    {
      var r := GetBuildStatus(msg.buildId);
      if r.Err? {
        return Some(r.error);
      }
      var b := WithCompletion(r.value, msg);
      err := StoreBuildStatus(b);
      if err.Some? {
        return;
      }
      var ok := producer.SendMessage(StatusTopic, msg.buildId,
        StatusMsg(BuildStatusMessage(msg.buildId, msg.status, "Build " + msg.status, msg.completedAt)));
      if !ok {
        err := Some(SendFailed(StatusTopic));
      }
    }

    /** The consumer: dispatch one decoded payload to its handler; unrecognised ones are dropped. */
    method HandleMessage(p: Payload, now: Time) returns (err: Option<OrchestratorError>)
      modifies redis, producer
      ensures RouteOf(p).ToRequest? ==> RequestHandled(RouteOf(p).request, now, err)
      ensures RouteOf(p).ToStatus? ==> StatusHandled(RouteOf(p).status, now, err)
      ensures RouteOf(p).ToCompletion? ==> CompletionHandled(RouteOf(p).completion, err)
      ensures RouteOf(p).Unrecognised? ==>
        err.None? && redis.strings == old(redis.strings) && redis.byDate == old(redis.byDate)
        && redis.lists == old(redis.lists) && producer.sent == old(producer.sent)
    {
      match RouteOf(p)
      case ToRequest(req) => err := ProcessBuildRequest(req, now);
      case ToCompletion(c) => err := ProcessBuildCompletion(c);
      case ToStatus(s) => err := ProcessBuildStatus(s, now);
      case Unrecognised => err := None;
    }
  }
}
