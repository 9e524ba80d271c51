/*
 * The earlier orchestrator (gobuild/build-orchestrator/main.go): jobs
 * live in an in-memory cache as well as under build:<id>, and an
 * accepted request is re-published on build-requests, the topic this
 * same service consumes.
 */
module GobuildOrchestrator {
  import opened Util
  import opened Message
  import opened Model
  import opened Store
  import opened Bus

  datatype BuildJob = BuildJob(
    id: string, repositoryUrl: string, branch: string, commitHash: string, userId: string,
    status: string, createdAt: Time, updatedAt: Time)

  datatype JobError = StoreFailed | NotFound(id: string) | DecodeFailed | SendFailed(topic: string)

  /** The topics the consumer subscribes to. */
  const Subscriptions: set<string> := {RequestsTopic}

  function NewJob(req: BuildRequestMessage, now: Time): (j: BuildJob)
    ensures RequestOfJob(j) == req && j.status == "queued" && j.updatedAt == now
  {
    BuildJob(req.id, req.repositoryUrl, req.branch, req.commitHash, req.userId, "queued", req.createdAt, now)
  }

  function RequestOfJob(j: BuildJob): BuildRequestMessage {
    BuildRequestMessage(j.id, j.repositoryUrl, j.branch, j.commitHash, j.userId, j.createdAt)
  }

  /** The JSON of a BuildJob, as the common record. */
  function JobRecord(j: BuildJob): (b: BuildStatus)
    ensures b == JobView(b)
  {
    Blank.(id := j.id, repositoryUrl := j.repositoryUrl, branch := j.branch, commitHash := j.commitHash,
           userId := j.userId, status := j.status, createdAt := j.createdAt, updatedAt := j.updatedAt)
  }

  /** A stored document decoded as a BuildJob. */
  function JobOf(b: BuildStatus): BuildJob {
    BuildJob(b.id, b.repositoryUrl, b.branch, b.commitHash, b.userId, b.status, b.createdAt, b.updatedAt)
  }

  /** Storing a job and reading it back gives the job; reading keeps only the job's fields. */
  lemma JobRoundTrip(j: BuildJob, b: BuildStatus)
    ensures JobOf(JobRecord(j)) == j
    ensures JobRecord(JobOf(b)) == JobView(b)
  {
  }

  /** The event meant to hand an accepted request to the builders. */
  function Forward(req: BuildRequestMessage): (e: Event)
    ensures e.key == req.id
  {
    Event(RequestsTopic, req.id, RequestMsg(req))
  }

  /**
   * The forwarded request reaches no builder: it goes back to the topic
   * this service consumes, where it is read as the same request again.
   */
  lemma ForwardMissesBuilder(req: BuildRequestMessage)
    ensures Forward(req).topic !in BuilderSubscriptions
    ensures Forward(req).topic in Subscriptions && AsRequest(Encode(Forward(req).msg)) == req
  {
  }

  class BuildOrchestrator {
    var jobs: map<string, BuildJob>
    const redis: Redis
    const producer: Producer

    constructor (redis: Redis, producer: Producer)
      ensures jobs == map[] && this.redis == redis && this.producer == producer
    {
      jobs := map[];
      this.redis := redis;
      this.producer := producer;
    }

    /**
     * What handling a build request does: the queued job is cached and
     * stored, "Build queued" is announced, and the request is
     * re-published on build-requests; each step after the cache runs only
     * if the previous one succeeded.
     */
    twostate predicate RequestHandled(req: BuildRequestMessage, now: Time, new err: Option<JobError>)
      reads this, redis, producer
    {
      && jobs == old(jobs)[req.id := NewJob(req, now)]
      && redis.strings == (if redis.up then old(redis.strings)[BuildKey(req.id) := Parsed(JobRecord(NewJob(req, now)))] else old(redis.strings))
      && redis.lists == old(redis.lists) && redis.byDate == old(redis.byDate)
      && var announce := Event(StatusTopic, req.id, StatusMsg(BuildStatusMessage(req.id, "queued", "Build queued", now)));
         var again := Forward(req);
         producer.sent == old(producer.sent)
           + (if redis.up then [announce] else [])
           + (if redis.up && producer.accept(announce) then [again] else [])
         && (err.None? <==> redis.up && producer.accept(announce) && producer.accept(again))
    }

    method ProcessBuildRequest(req: BuildRequestMessage, now: Time) returns (err: Option<JobError>)
      modifies this, redis, producer
      ensures RequestHandled(req, now, err)
    {
      var job := NewJob(req, now);
      jobs := jobs[req.id := job];
      var ok := redis.Set(BuildKey(req.id), Parsed(JobRecord(job)));
      if !ok {
        return Some(StoreFailed);
      }
      ok := producer.SendMessage(StatusTopic, req.id, StatusMsg(BuildStatusMessage(req.id, "queued", "Build queued", now)));
      if !ok {
        return Some(SendFailed(StatusTopic));
      }
      ok := producer.SendMessage(RequestsTopic, req.id, RequestMsg(req));
      err := if ok then None else Some(SendFailed(RequestsTopic));
    }

    /**
     * Changes a cached job's status: the cache changes first, so a
     * failed store write leaves cache and store disagreeing.
     */
    method UpdateBuildStatus(id: string, status: string, message: string, now: Time) returns (err: Option<JobError>)
      modifies this, redis, producer
      ensures id !in old(jobs) ==>
        (err == Some(NotFound(id)) && jobs == old(jobs)
         && redis.strings == old(redis.strings) && producer.sent == old(producer.sent))
      ensures id in old(jobs) ==>
        var j := old(jobs[id]).(status := status, updatedAt := now);
        var announce := Event(StatusTopic, j.id, StatusMsg(BuildStatusMessage(j.id, status, message, now)));
        jobs == old(jobs)[id := j]
        && redis.strings == (if redis.up then old(redis.strings)[BuildKey(j.id) := Parsed(JobRecord(j))] else old(redis.strings))
        && producer.sent == old(producer.sent) + (if redis.up then [announce] else [])
        && (err.None? <==> redis.up && producer.accept(announce))
      ensures redis.lists == old(redis.lists) && redis.byDate == old(redis.byDate)
    {
      if id !in jobs {
        return Some(NotFound(id));
      }
      var j := jobs[id].(status := status, updatedAt := now);
      jobs := jobs[id := j];
      var ok := redis.Set(BuildKey(j.id), Parsed(JobRecord(j)));
      if !ok {
        return Some(StoreFailed);
      }
      ok := producer.SendMessage(StatusTopic, j.id, StatusMsg(BuildStatusMessage(j.id, status, message, now)));
      err := if ok then None else Some(SendFailed(StatusTopic));
    }

    /**
     * The cached job when there is one; otherwise build:<id> from the
     * store, cached under the id the document itself carries.
     */
    method GetBuildJob(id: string) returns (r: Result<BuildJob, JobError>)
      modifies this
      ensures id in old(jobs) ==> r == Ok(old(jobs[id])) && jobs == old(jobs)
      ensures id !in old(jobs) ==>
        match redis.Lookup(BuildKey(id))
        case Nil => r == Err(NotFound(id)) && jobs == old(jobs)
        case Failed => r == Err(StoreFailed) && jobs == old(jobs)
        case Found(Unparseable) => r == Err(DecodeFailed) && jobs == old(jobs)
        case Found(Parsed(b)) => r == Ok(JobOf(b)) && jobs == old(jobs)[JobOf(b).id := JobOf(b)]
    {
      if id in jobs {
        return Ok(jobs[id]);
      }
      var reply := redis.Get(BuildKey(id));
      match reply
      case Nil => r := Err(NotFound(id));
      case Failed => r := Err(StoreFailed);
      case Found(doc) =>
        if doc.Unparseable? {
          r := Err(DecodeFailed);
        } else {
          var j := JobOf(doc.record);
          jobs := jobs[j.id := j];
          r := Ok(j);
        }
    }

    /** The consumer: every payload on build-requests is treated as a request, even one without an id. */
    method HandleMessage(p: Payload, now: Time) returns (err: Option<JobError>)
      modifies this, redis, producer
      ensures RequestHandled(AsRequest(p), now, err)
    {
      err := ProcessBuildRequest(AsRequest(p), now);
    }
  }
}
