/*
 * The builder (builder/main.go): for each job it announces the build,
 * clones the repository, checks out a branch other than main/master,
 * builds with build.sh or by project type, packs and uploads the
 * artifact, and reports completion; any failing step ends in failBuild.
 *
 * Log text goes out on build-logs; text sent through sendLogLines is
 * also appended to logs:<id> in Redis, one entry per non-blank line.
 * The results of subprocesses, of creating the build directory and of
 * the upload come from an Oracle; the work directory after cloning is
 * the set of file names in Oracle.files.
 *
 * The pipeline is specified by functions over a snapshot St of what
 * it changes (Redis strings, Redis lists, the producer's trace); the
 * Builder class performs it step by step and is proved to agree.
 */
module BuilderService {
  import opened Util
  import opened Message
  import opened Model
  import opened Store
  import opened Bus

  /** One subprocess or OS call: success, the error text, the combined output. */
  datatype Run = Run(ok: bool, err: string, output: string)

  /** The upload: no HTTP answer (with the error text), or the storage service's status and body. */
  datatype Upload = Unanswered(err: string) | Answered(code: int, body: string)

  datatype Oracle = Oracle(
    files: set<string>,
    mkdir: Run, clone: Run, checkout: Run,
    script: Run, install: Run, build: Run, goBuild: Run,
    tar: Run, upload: Upload,
    elapsedMs: Int64)

  /** Fixed for one job: Redis reachability, the broker's answers, the clock, the storage URL. */
  datatype Env = Env(up: bool, accept: Event -> bool, now: Time, storageUrl: string)

  /** What the builder changes: Redis documents, Redis lists, the events it sent. */
  datatype St = St(strings: map<string, Doc>, lists: map<string, seq<string>>, sent: seq<Event>)

  datatype BuilderError = SendFailed(topic: string)

  // -----------------------------------------------------------------------
  // Project detection
  // -----------------------------------------------------------------------

  /** detectProjectType: package.json wins over go.mod. */
  function DetectProjectType(files: set<string>): (kind: string)
    ensures kind == "node" <==> "package.json" in files
    ensures kind == "go" <==> "package.json" !in files && "go.mod" in files
    ensures kind == "unknown" <==> "package.json" !in files && "go.mod" !in files
  {
    if "package.json" in files then "node" else if "go.mod" in files then "go" else "unknown"
  }

  /** detectNodePackageManager: the first lock file found, in the order pnpm, npm, yarn. */
  function DetectNodePackageManager(files: set<string>): (pm: string)
    ensures pm == "pnpm" <==> "pnpm-lock.yaml" in files
    ensures pm == "npm" <==> "pnpm-lock.yaml" !in files && "package-lock.json" in files
    ensures pm == "yarn" <==> "pnpm-lock.yaml" !in files && "package-lock.json" !in files && "yarn.lock" in files
    ensures pm == "unknown" <==> "pnpm-lock.yaml" !in files && "package-lock.json" !in files && "yarn.lock" !in files
  {
    if "pnpm-lock.yaml" in files then "pnpm"
    else if "package-lock.json" in files then "npm"
    else if "yarn.lock" in files then "yarn"
    else "unknown"
  }

  /** The package manager a Node.js build runs: npm when no lock file says otherwise. */
  function PackageManager(files: set<string>): (pm: string)
    ensures pm in {"pnpm", "npm", "yarn"}
    ensures pm == "npm" <==> DetectNodePackageManager(files) in {"npm", "unknown"}
  {
    var detected := DetectNodePackageManager(files);
    if detected == "unknown" then "npm" else detected
  }

  /** A branch is checked out only when it is named and is neither main nor master. */
  predicate NeedsCheckout(branch: string) {
    branch != "" && branch != "main" && branch != "master"
  }

  // -----------------------------------------------------------------------
  // Steps on the snapshot
  // -----------------------------------------------------------------------

  function LogEvent(id: string, entry: string, now: Time): Event {
    Event(LogsTopic, id, LogMsg(BuildLogMessage(id, entry, now)))
  }

  function LogEvents(id: string, entries: seq<string>, now: Time): (es: seq<Event>)
    ensures |es| == |entries|
  {
    seq(|entries|, i requires 0 <= i < |entries| => LogEvent(id, entries[i], now))
  }

  function StatusEvent(id: string, status: string, message: string, now: Time): Event {
    Event(StatusTopic, id, StatusMsg(BuildStatusMessage(id, status, message, now)))
  }

  function CompletionEvent(id: string, status: string, url: string, duration: Int64, now: Time): Event {
    Event(CompletionsTopic, id, CompletionMsg(BuildCompletionMessage(id, status, url, duration, now)))
  }

  function ListAt(lists: map<string, seq<string>>, key: string): seq<string> {
    if key in lists then lists[key] else []
  }

  /** The lists after RPUSHing `entries` one by one onto `key` (nothing when Redis is down). */
  function Pushed(up: bool, lists: map<string, seq<string>>, key: string, entries: seq<string>): (r: map<string, seq<string>>)
    ensures ListAt(r, key) == ListAt(lists, key) + (if up then entries else [])
  {
    if up && entries != [] then lists[key := ListAt(lists, key) + entries] else lists
  }

  /** Each of `entries` published on build-logs and RPUSHed onto logs:<id>, in order. */
  function LogAll(s: St, env: Env, id: string, entries: seq<string>): St {
    St(s.strings, Pushed(env.up, s.lists, LogsKey(id), entries), s.sent + LogEvents(id, entries, env.now))
  }

  lemma PushedTwice(up: bool, lists: map<string, seq<string>>, key: string, a: seq<string>, b: seq<string>)
    ensures Pushed(up, Pushed(up, lists, key, a), key, b) == Pushed(up, lists, key, a + b)
  {
    if up && a != [] && b != [] {
      assert ListAt(lists, key) + a + b == ListAt(lists, key) + (a + b);
    } else if b == [] {
      assert a + b == a;
    } else if a == [] {
      assert a + b == b;
    }
  }

  lemma LogEventsAppend(id: string, a: seq<string>, b: seq<string>, now: Time)
    ensures LogEvents(id, a + b, now) == LogEvents(id, a, now) + LogEvents(id, b, now)
  {
  }

  /** Publishing two batches is publishing both at once. */
  lemma LogAllTwice(s: St, env: Env, id: string, a: seq<string>, b: seq<string>)
    ensures LogAll(LogAll(s, env, id, a), env, id, b) == LogAll(s, env, id, a + b)
  {
    PushedTwice(env.up, s.lists, LogsKey(id), a, b);
    LogEventsAppend(id, a, b, env.now);
  }

  function Emit(s: St, e: Event): St {
    s.(sent := s.sent + [e])
  }

  /** sendLogLines: each non-blank line goes out on build-logs and onto logs:<id>. */
  function Say(s: St, env: Env, id: string, text: string): St {
    LogAll(s, env, id, Lines(text))
  }

  /**
   * sendLogLines sends exactly the non-blank lines of the trimmed text,
   * in order, each on build-logs and at the end of logs:<id>; no other
   * list and no document changes.
   */
  lemma SayEffect(s: St, env: Env, id: string, text: string)
    ensures var r := Say(s, env, id, text);
      r.strings == s.strings
      && r.sent == s.sent + LogEvents(id, Lines(text), env.now)
      && |r.sent| == |s.sent| + |Lines(text)|
      && (forall i :: 0 <= i < |Lines(text)| ==> r.sent[|s.sent| + i] == LogEvent(id, Lines(text)[i], env.now))
      && ListAt(r.lists, LogsKey(id)) == ListAt(s.lists, LogsKey(id)) + (if env.up then Lines(text) else [])
      && (forall k :: k != LogsKey(id) ==> ListAt(r.lists, k) == ListAt(s.lists, k))
  {
  }

  /** Every event of LogEvents is on build-logs. */
  lemma LogEventsOnLogs(id: string, entries: seq<string>, now: Time)
    ensures forall e :: e in LogEvents(id, entries, now) ==> e.topic == LogsTopic
  {
  }

  /** A log entry published directly, without line splitting and without storing it in Redis. */
  function Note(s: St, env: Env, id: string, entry: string): St {
    Emit(s, LogEvent(id, entry, env.now))
  }

  /**
   * The record updateBuildStatusInRedis starts from: an earlier
   * build:status:<id> record; failing that, the build:<id> record decoded
   * as a job, which has no user; failing both, a blank record created now.
   * A document that does not decode gives a blank record.
   */
  function StatusBase(up: bool, strings: map<string, Doc>, id: string, now: Time): (base: BuildStatus)
    ensures !up ==> base == Blank.(createdAt := now)
    ensures up && StatusKey(id) in strings ==>
      base == (if strings[StatusKey(id)].Parsed? then strings[StatusKey(id)].record else Blank)
    ensures up && StatusKey(id) !in strings && BuildKey(id) in strings && strings[BuildKey(id)].Parsed? ==>
      var b := strings[BuildKey(id)].record;
      base.userId == "" && base.id == b.id && base.repositoryUrl == b.repositoryUrl && base.branch == b.branch
      && base.commitHash == b.commitHash && base.status == b.status
      && base.createdAt == b.createdAt && base.updatedAt == b.updatedAt
      && base.message == "" && base.artifactUrl == ""
      && base.startedAt.None? && base.completedAt.None? && base.duration == 0
    ensures up && StatusKey(id) !in strings && BuildKey(id) in strings && strings[BuildKey(id)].Unparseable? ==>
      base == Blank
    ensures up && StatusKey(id) !in strings && BuildKey(id) !in strings ==> base == Blank.(createdAt := now)
  {
    if !up then Blank.(createdAt := now)
    else if StatusKey(id) in strings then
      (match strings[StatusKey(id)]
       case Parsed(b) => b
       case Unparseable => Blank)
    else if BuildKey(id) in strings then
      (match strings[BuildKey(id)]
       case Parsed(b) => JobView(b).(userId := "")
       case Unparseable => Blank)
    else Blank.(createdAt := now)
  }

  /**
   * The record updateBuildStatusInRedis writes: the base with the new id,
   * status and time; empty message and URL leave the base's; every other
   * field is the base's.
   */
  function Marked(env: Env, strings: map<string, Doc>, id: string, status: string, message: string, url: string): (b: BuildStatus)
    ensures b.id == id && b.status == status && b.updatedAt == env.now
    ensures var base := StatusBase(env.up, strings, id, env.now);
      b.message == (if message != "" then message else base.message)
      && b.artifactUrl == (if url != "" then url else base.artifactUrl)
      && b.createdAt == base.createdAt && b.repositoryUrl == base.repositoryUrl
      && b.branch == base.branch && b.commitHash == base.commitHash && b.userId == base.userId
      && b.startedAt == base.startedAt && b.completedAt == base.completedAt && b.duration == base.duration
  {
    var base := StatusBase(env.up, strings, id, env.now);
    base.(id := id, status := status, updatedAt := env.now,
          message := if message != "" then message else base.message,
          artifactUrl := if url != "" then url else base.artifactUrl)
  }

  /** updateBuildStatusInRedis: the merged record under build:status:<id>. */
  function MarkStatus(s: St, env: Env, id: string, status: string, message: string, url: string): St {
    if env.up then s.(strings := s.strings[StatusKey(id) := Parsed(Marked(env, s.strings, id, status, message, url))])
    else s
  }

  /** With no message and no URL, an earlier build:status:<id> record keeps everything but its id, status and time. */
  lemma MarkStatusKeepsRecord(s: St, env: Env, id: string, status: string)
    requires env.up && StatusKey(id) in s.strings && s.strings[StatusKey(id)].Parsed?
    ensures MarkStatus(s, env, id, status, "", "").strings
      == s.strings[StatusKey(id) := Parsed(s.strings[StatusKey(id)].record.(id := id, status := status, updatedAt := env.now))]
  {
  }

  /**
   * The first status written for a build known only as build:<id> loses
   * that record's user: a job-shaped decode carries no user_id, and the
   * copy clears it.
   */
  lemma MarkStatusFromJobDropsUser(s: St, env: Env, id: string, status: string, message: string, url: string)
    requires env.up && StatusKey(id) !in s.strings && BuildKey(id) in s.strings && s.strings[BuildKey(id)].Parsed?
    ensures var job := s.strings[BuildKey(id)].record;
      var r := MarkStatus(s, env, id, status, message, url).strings[StatusKey(id)].record;
      r.userId == "" && r.repositoryUrl == job.repositoryUrl && r.branch == job.branch
      && r.commitHash == job.commitHash && r.createdAt == job.createdAt
  {
  }

  /**
   * Two status updates in a row amount to one with the later status,
   * where the later message and URL win unless empty.
   */
  lemma MarkStatusTwice(s: St, env: Env, id: string, st1: string, m1: string, u1: string, st2: string, m2: string, u2: string)
    ensures MarkStatus(MarkStatus(s, env, id, st1, m1, u1), env, id, st2, m2, u2)
      == MarkStatus(s, env, id, st2, if m2 != "" then m2 else m1, if u2 != "" then u2 else u1)
  {
    if env.up {
      var s1 := MarkStatus(s, env, id, st1, m1, u1);
      var b1 := Marked(env, s.strings, id, st1, m1, u1);
      assert StatusBase(env.up, s1.strings, id, env.now) == b1;
    }
  }

  /** failBuild: log the failure, report a failed completion, then the failed status. */
  function FailBuildOutcome(s: St, env: Env, id: string, msg: string): (St, Option<BuilderError>) {
    var entry := "Build failed: " + msg;
    var s1 := Note(s, env, id, entry).(lists := Pushed(env.up, s.lists, LogsKey(id), [entry]));
    var done := CompletionEvent(id, "failure", "", 0, env.now);
    var s2 := Emit(s1, done);
    if !env.accept(done) then (s2, Some(SendFailed(CompletionsTopic)))
    else
      var failed := StatusEvent(id, "failed", msg, env.now);
      (Emit(s2, failed), if env.accept(failed) then None else Some(SendFailed(StatusTopic)))
  }

  function RunBuildScriptOutcome(s: St, env: Env, id: string, o: Oracle): (St, Option<string>) {
    var s1 := Note(s, env, id, "Executing build script");
    if !o.script.ok then
      (Note(s1, env, id, "Build script failed: " + o.script.err + "\nOutput: " + o.script.output),
       Some("build script failed: " + o.script.err))
    else (Note(s1, env, id, "Build script completed successfully\n" + o.script.output), None)
  }

  function BuildGoProjectOutcome(s: St, env: Env, id: string, o: Oracle): (St, Option<string>) {
    var s1 := Note(s, env, id, "Detected Go project, running go build");
    if !o.goBuild.ok then
      (Note(s1, env, id, "go build failed: " + o.goBuild.err + "\nOutput: " + o.goBuild.output),
       Some("failed to build project: " + o.goBuild.err))
    else (Note(s1, env, id, "Go project built successfully\n" + o.goBuild.output), None)
  }

  function BuildNodeProjectOutcome(s: St, env: Env, id: string, o: Oracle): (St, Option<string>) {
    var pm := PackageManager(o.files);
    var s1 := Say(Say(Say(s, env, id, "Detected Node.js project"), env, id, "Using package manager: " + pm),
                  env, id, "Running " + pm + " install...");
    if !o.install.ok then
      (Say(Say(s1, env, id, pm + " install failed: " + o.install.err), env, id, o.install.output),
       Some("failed to install dependencies: " + o.install.err))
    else
      var s2 := Say(Say(Say(s1, env, id, "Dependencies installed successfully"), env, id, o.install.output),
                    env, id, "Running " + pm + " run build...");
      if !o.build.ok then
        (Say(Say(s2, env, id, pm + " build failed: " + o.build.err), env, id, o.build.output),
         Some("failed to build project: " + o.build.err))
      else (Say(Say(s2, env, id, "Project built successfully"), env, id, o.build.output), None)
  }

  function BuildByProjectTypeOutcome(s: St, env: Env, id: string, kind: string, o: Oracle): (St, Option<string>) {
    if kind == "node" then BuildNodeProjectOutcome(s, env, id, o)
    else if kind == "go" then BuildGoProjectOutcome(s, env, id, o)
    else (s, Some("unknown project type: " + kind + ", no build script found"))
  }

  /** executeBuild: build.sh when present, otherwise by the detected project type. */
  function ExecuteBuildOutcome(s: St, env: Env, id: string, o: Oracle): (St, Option<string>) {
    if "build.sh" in o.files then RunBuildScriptOutcome(s, env, id, o)
    else BuildByProjectTypeOutcome(s, env, id, DetectProjectType(o.files), o)
  }

  function ArtifactUrl(env: Env, id: string): string {
    env.storageUrl + "/artifacts/" + id
  }

  /** uploadArtifact: on 200 it marks the build completed in Redis and reports a first completion. */
  function UploadArtifactOutcome(s: St, env: Env, id: string, o: Oracle): (St, Option<string>) {
    match o.upload
    case Unanswered(err) => (s, Some(err))
    case Answered(code, body) =>
      if code != 200 then (s, Some("storage service returned status " + IntToString(code) + ": " + body))
      else
        var url := ArtifactUrl(env, id);
        (Emit(MarkStatus(s, env, id, "completed", "", url), CompletionEvent(id, "success", url, 0, env.now)), None)
  }

  function CreateAndUploadArtifactOutcome(s: St, env: Env, id: string, o: Oracle): (St, Option<string>) {
    var s1 := Note(s, env, id, "Creating artifact...");
    if !o.tar.ok then
      (Note(s1, env, id, "Failed to create artifact: " + o.tar.err + "\nOutput: " + o.tar.output),
       Some("failed to create artifact: " + o.tar.err))
    else
      var up := UploadArtifactOutcome(Note(s1, env, id, "Uploading artifact to storage..."), env, id, o);
      if up.1.Some? then
        (Note(up.0, env, id, "Failed to upload artifact: " + up.1.value), Some("failed to upload artifact: " + up.1.value))
      else (Note(up.0, env, id, "Artifact uploaded successfully"), None)
  }

  /** The clone step of ProcessBuildJob; an error is the message failBuild receives. */
  function Clone(s: St, env: Env, req: BuildRequestMessage, o: Oracle): (St, Option<string>) {
    var s1 := Say(s, env, req.id, "Cloning repository...");
    if !o.clone.ok then
      (Say(Say(s1, env, req.id, "Clone failed: " + o.clone.err), env, req.id, o.clone.output),
       Some("Failed to clone repository: " + o.clone.err))
    else (Say(Say(s1, env, req.id, "Repository cloned successfully"), env, req.id, o.clone.output), None)
  }

  /** The checkout step of ProcessBuildJob; an error is the message failBuild receives. */
  function Checkout(s: St, env: Env, req: BuildRequestMessage, o: Oracle): (St, Option<string>) {
    if !NeedsCheckout(req.branch) then (s, None)
    else
      var s1 := Say(s, env, req.id, "Checking out branch: " + req.branch);
      if !o.checkout.ok then
        (Say(Say(s1, env, req.id, "Checkout failed: " + o.checkout.err), env, req.id, o.checkout.output),
         Some("Failed to checkout branch: " + o.checkout.err))
      else (Say(Say(s1, env, req.id, "Branch checked out successfully"), env, req.id, o.checkout.output), None)
  }

  /** The end of a successful job: the second completion, then the completed status. */
  function Finish(s: St, env: Env, req: BuildRequestMessage, o: Oracle): (St, Option<BuilderError>) {
    var s1 := Say(s, env, req.id, "Build completed successfully!");
    var done := CompletionEvent(req.id, "success", "/artifacts/" + req.id, o.elapsedMs, env.now);
    if !env.accept(done) then (Emit(s1, done), Some(SendFailed(CompletionsTopic)))
    else
      var completed := StatusEvent(req.id, "completed", "Build completed successfully", env.now);
      (Emit(Emit(s1, done), completed), if env.accept(completed) then None else Some(SendFailed(StatusTopic)))
  }

  /** The announcement that opens every job: three log texts, the in-progress mark, the status event. */
  function Start(s: St, env: Env, req: BuildRequestMessage): St {
    var s1 := Say(Say(s, env, req.id, "Build started"), env, req.id, "Repository: " + req.repositoryUrl);
    var s2 := if req.branch != "" then Say(s1, env, req.id, "Branch: " + req.branch) else s1;
    Emit(MarkStatus(s2, env, req.id, "in-progress", "Build started", ""), StatusEvent(req.id, "in-progress", "Build started", env.now))
  }

  /** The steps after a successful build: artifact, then the end of a successful job. */
  function AfterBuild(s: St, env: Env, req: BuildRequestMessage, o: Oracle): (St, Option<BuilderError>) {
    var art := CreateAndUploadArtifactOutcome(s, env, req.id, o);
    if art.1.Some? then FailBuildOutcome(art.0, env, req.id, "Failed to create artifact: " + art.1.value)
    else Finish(art.0, env, req, o)
  }

  /** The steps after checkout: build, then the rest. */
  function AfterCheckout(s: St, env: Env, req: BuildRequestMessage, o: Oracle): (St, Option<BuilderError>) {
    var built := ExecuteBuildOutcome(s, env, req.id, o);
    if built.1.Some? then FailBuildOutcome(built.0, env, req.id, built.1.value)
    else AfterBuild(built.0, env, req, o)
  }

  /** The steps after an accepted announcement: build directory, clone, checkout, then the rest. */
  function AfterStart(s: St, env: Env, req: BuildRequestMessage, o: Oracle): (St, Option<BuilderError>) {
    var id := req.id;
    if !o.mkdir.ok then FailBuildOutcome(s, env, id, "Failed to create build directory: " + o.mkdir.err)
    else
      var cl := Clone(s, env, req, o);
      if cl.1.Some? then FailBuildOutcome(cl.0, env, id, cl.1.value)
      else
        var co := Checkout(cl.0, env, req, o);
        if co.1.Some? then FailBuildOutcome(co.0, env, id, co.1.value)
        else AfterCheckout(co.0, env, req, o)
  }

  /** ProcessBuildJob, step by step; every failure after the announcement goes through failBuild. */
  function ProcessBuildJobOutcome(s: St, env: Env, req: BuildRequestMessage, o: Oracle): (St, Option<BuilderError>) {
    var s1 := Start(s, env, req);
    if !env.accept(StatusEvent(req.id, "in-progress", "Build started", env.now)) then (s1, Some(SendFailed(StatusTopic)))
    else AfterStart(s1, env, req, o)
  }

  // -----------------------------------------------------------------------
  // Properties of the pipeline
  // -----------------------------------------------------------------------

  /** The events of a trace on the given topics, in order. */
  function OnTopics(trace: seq<Event>, topics: set<string>): (c: seq<Event>)
    ensures |c| <= |trace|
  {
    if trace == [] then []
    else
      var last := trace[|trace| - 1];
      assert trace == trace[..|trace| - 1] + [last];
      OnTopics(trace[..|trace| - 1], topics) + (if last.topic in topics then [last] else [])
  }

  lemma {:induction false} OnTopicsAppend(a: seq<Event>, b: seq<Event>, topics: set<string>)
    ensures OnTopics(a + b, topics) == OnTopics(a, topics) + OnTopics(b, topics)
    decreases |b|
  {
    if b == [] {
      assert a + b == a;
    } else {
      assert (a + b)[..|a + b| - 1] == a + b[..|b| - 1];
      OnTopicsAppend(a, b[..|b| - 1], topics);
    }
  }

  lemma {:induction false} OnTopicsNone(b: seq<Event>, topics: set<string>)
    requires forall e :: e in b ==> e.topic !in topics
    ensures OnTopics(b, topics) == []
    decreases |b|
  {
    if b != [] {
      assert b[|b| - 1] in b;
      assert forall e :: e in b[..|b| - 1] ==> e in b;
      OnTopicsNone(b[..|b| - 1], topics);
    }
  }

  /** Adding events on other topics changes nothing. */
  lemma QuietAppend(a: seq<Event>, b: seq<Event>, topics: set<string>)
    requires forall e :: e in b ==> e.topic !in topics
    ensures OnTopics(a + b, topics) == OnTopics(a, topics)
  {
    OnTopicsAppend(a, b, topics);
    OnTopicsNone(b, topics);
    assert OnTopics(a, topics) + [] == OnTopics(a, topics);
  }

  /** The topics that report a build's progress, as opposed to its log. */
  const Reports: set<string> := {StatusTopic, CompletionsTopic}
  const Completions: set<string> := {CompletionsTopic}

  lemma EmitOnTopics(s: St, e: Event, topics: set<string>)
    ensures OnTopics(Emit(s, e).sent, topics) == OnTopics(s.sent, topics) + (if e.topic in topics then [e] else [])
  {
    OnTopicsAppend(s.sent, [e], topics);
    assert OnTopics([e], topics) == OnTopics([], topics) + (if e.topic in topics then [e] else []);
  }

  lemma SayQuiet(s: St, env: Env, id: string, text: string, topics: set<string>)
    requires LogsTopic !in topics
    ensures OnTopics(Say(s, env, id, text).sent, topics) == OnTopics(s.sent, topics)
  {
    LogEventsOnLogs(id, Lines(text), env.now);
    QuietAppend(s.sent, LogEvents(id, Lines(text), env.now), topics);
  }

  lemma NoteQuiet(s: St, env: Env, id: string, entry: string, topics: set<string>)
    requires LogsTopic !in topics
    ensures OnTopics(Note(s, env, id, entry).sent, topics) == OnTopics(s.sent, topics)
  {
    EmitOnTopics(s, LogEvent(id, entry, env.now), topics);
  }

  /** The announcement adds only the in-progress status to the reports. */
  lemma StartReports(s: St, env: Env, req: BuildRequestMessage, topics: set<string>)
    requires LogsTopic !in topics
    ensures var ip := StatusEvent(req.id, "in-progress", "Build started", env.now);
      OnTopics(Start(s, env, req).sent, topics) == OnTopics(s.sent, topics) + (if StatusTopic in topics then [ip] else [])
  {
    var id := req.id;
    SayQuiet(s, env, id, "Build started", topics);
    var s0 := Say(s, env, id, "Build started");
    SayQuiet(s0, env, id, "Repository: " + req.repositoryUrl, topics);
    var s1 := Say(s0, env, id, "Repository: " + req.repositoryUrl);
    SayQuiet(s1, env, id, "Branch: " + req.branch, topics);
    var s2 := if req.branch != "" then Say(s1, env, id, "Branch: " + req.branch) else s1;
    EmitOnTopics(MarkStatus(s2, env, id, "in-progress", "Build started", ""), StatusEvent(id, "in-progress", "Build started", env.now), topics);
  }

  lemma CloneQuiet(s: St, env: Env, req: BuildRequestMessage, o: Oracle, topics: set<string>)
    requires LogsTopic !in topics
    ensures OnTopics(Clone(s, env, req, o).0.sent, topics) == OnTopics(s.sent, topics)
  {
    var id := req.id;
    SayQuiet(s, env, id, "Cloning repository...", topics);
    var s1 := Say(s, env, id, "Cloning repository...");
    var line := if o.clone.ok then "Repository cloned successfully" else "Clone failed: " + o.clone.err;
    SayQuiet(s1, env, id, line, topics);
    SayQuiet(Say(s1, env, id, line), env, id, o.clone.output, topics);
  }

  lemma CheckoutQuiet(s: St, env: Env, req: BuildRequestMessage, o: Oracle, topics: set<string>)
    requires LogsTopic !in topics
    ensures OnTopics(Checkout(s, env, req, o).0.sent, topics) == OnTopics(s.sent, topics)
  {
    var id := req.id;
    if NeedsCheckout(req.branch) {
      SayQuiet(s, env, id, "Checking out branch: " + req.branch, topics);
      var s1 := Say(s, env, id, "Checking out branch: " + req.branch);
      var line := if o.checkout.ok then "Branch checked out successfully" else "Checkout failed: " + o.checkout.err;
      SayQuiet(s1, env, id, line, topics);
      SayQuiet(Say(s1, env, id, line), env, id, o.checkout.output, topics);
    }
  }

  lemma NodeQuiet(s: St, env: Env, id: string, o: Oracle, topics: set<string>)
    requires LogsTopic !in topics
    ensures OnTopics(BuildNodeProjectOutcome(s, env, id, o).0.sent, topics) == OnTopics(s.sent, topics)
  {
    var pm := PackageManager(o.files);
    SayQuiet(s, env, id, "Detected Node.js project", topics);
    var a := Say(s, env, id, "Detected Node.js project");
    SayQuiet(a, env, id, "Using package manager: " + pm, topics);
    var b := Say(a, env, id, "Using package manager: " + pm);
    SayQuiet(b, env, id, "Running " + pm + " install...", topics);
    var s1 := Say(b, env, id, "Running " + pm + " install...");
    if !o.install.ok {
      SayQuiet(s1, env, id, pm + " install failed: " + o.install.err, topics);
      SayQuiet(Say(s1, env, id, pm + " install failed: " + o.install.err), env, id, o.install.output, topics);
    } else {
      SayQuiet(s1, env, id, "Dependencies installed successfully", topics);
      var c := Say(s1, env, id, "Dependencies installed successfully");
      SayQuiet(c, env, id, o.install.output, topics);
      var d := Say(c, env, id, o.install.output);
      SayQuiet(d, env, id, "Running " + pm + " run build...", topics);
      var s2 := Say(d, env, id, "Running " + pm + " run build...");
      var line := if o.build.ok then "Project built successfully" else pm + " build failed: " + o.build.err;
      SayQuiet(s2, env, id, line, topics);
      SayQuiet(Say(s2, env, id, line), env, id, o.build.output, topics);
    }
  }

  lemma ExecuteBuildQuiet(s: St, env: Env, id: string, o: Oracle, topics: set<string>)
    requires LogsTopic !in topics
    ensures OnTopics(ExecuteBuildOutcome(s, env, id, o).0.sent, topics) == OnTopics(s.sent, topics)
  {
    if "build.sh" in o.files {
      NoteQuiet(s, env, id, "Executing build script", topics);
      var s1 := Note(s, env, id, "Executing build script");
      NoteQuiet(s1, env, id, "Build script failed: " + o.script.err + "\nOutput: " + o.script.output, topics);
      NoteQuiet(s1, env, id, "Build script completed successfully\n" + o.script.output, topics);
    } else if DetectProjectType(o.files) == "node" {
      NodeQuiet(s, env, id, o, topics);
    } else if DetectProjectType(o.files) == "go" {
      NoteQuiet(s, env, id, "Detected Go project, running go build", topics);
      var s1 := Note(s, env, id, "Detected Go project, running go build");
      NoteQuiet(s1, env, id, "go build failed: " + o.goBuild.err + "\nOutput: " + o.goBuild.output, topics);
      NoteQuiet(s1, env, id, "Go project built successfully\n" + o.goBuild.output, topics);
    }
  }

  /** The upload reports one completion, with the storage URL, exactly when it succeeds. */
  lemma UploadCompletions(s: St, env: Env, id: string, o: Oracle)
    ensures var (r, err) := UploadArtifactOutcome(s, env, id, o);
      OnTopics(r.sent, Completions)
        == OnTopics(s.sent, Completions) + (if err.None? then [CompletionEvent(id, "success", ArtifactUrl(env, id), 0, env.now)] else [])
  {
    if o.upload.Answered? && o.upload.code == 200 {
      var url := ArtifactUrl(env, id);
      EmitOnTopics(MarkStatus(s, env, id, "completed", "", url), CompletionEvent(id, "success", url, 0, env.now), Completions);
    } else {
      assert OnTopics(s.sent, Completions) + [] == OnTopics(s.sent, Completions);
    }
  }

  /** The artifact step reports one completion, with the storage URL, exactly when it succeeds. */
  lemma ArtifactCompletions(s: St, env: Env, id: string, o: Oracle)
    ensures CreateAndUploadArtifactOutcome(s, env, id, o).1.None? ==>
      OnTopics(CreateAndUploadArtifactOutcome(s, env, id, o).0.sent, Completions)
        == OnTopics(s.sent, Completions) + [CompletionEvent(id, "success", ArtifactUrl(env, id), 0, env.now)]
    ensures CreateAndUploadArtifactOutcome(s, env, id, o).1.Some? ==>
      OnTopics(CreateAndUploadArtifactOutcome(s, env, id, o).0.sent, Completions) == OnTopics(s.sent, Completions)
  {
    NoteQuiet(s, env, id, "Creating artifact...", Completions);
    var s1 := Note(s, env, id, "Creating artifact...");
    if !o.tar.ok {
      NoteQuiet(s1, env, id, "Failed to create artifact: " + o.tar.err + "\nOutput: " + o.tar.output, Completions);
    } else {
      var s2 := Note(s1, env, id, "Uploading artifact to storage...");
      NoteQuiet(s1, env, id, "Uploading artifact to storage...", Completions);
      UploadCompletions(s2, env, id, o);
      var up := UploadArtifactOutcome(s2, env, id, o);
      if up.1.None? {
        NoteQuiet(up.0, env, id, "Artifact uploaded successfully", Completions);
      } else {
        NoteQuiet(up.0, env, id, "Failed to upload artifact: " + up.1.value, Completions);
      }
    }
  }

  lemma FailBuildCompletions(s: St, env: Env, id: string, msg: string)
    ensures OnTopics(FailBuildOutcome(s, env, id, msg).0.sent, Completions)
      == OnTopics(s.sent, Completions) + [CompletionEvent(id, "failure", "", 0, env.now)]
  {
    var entry := "Build failed: " + msg;
    var s1 := Note(s, env, id, entry).(lists := Pushed(env.up, s.lists, LogsKey(id), [entry]));
    NoteQuiet(s, env, id, entry, Completions);
    var done := CompletionEvent(id, "failure", "", 0, env.now);
    EmitOnTopics(s1, done, Completions);
    EmitOnTopics(Emit(s1, done), StatusEvent(id, "failed", msg, env.now), Completions);
  }

  lemma FinishCompletions(s: St, env: Env, req: BuildRequestMessage, o: Oracle)
    ensures OnTopics(Finish(s, env, req, o).0.sent, Completions)
      == OnTopics(s.sent, Completions) + [CompletionEvent(req.id, "success", "/artifacts/" + req.id, o.elapsedMs, env.now)]
  {
    SayQuiet(s, env, req.id, "Build completed successfully!", Completions);
    var s1 := Say(s, env, req.id, "Build completed successfully!");
    var done := CompletionEvent(req.id, "success", "/artifacts/" + req.id, o.elapsedMs, env.now);
    EmitOnTopics(s1, done, Completions);
    EmitOnTopics(Emit(s1, done), StatusEvent(req.id, "completed", "Build completed successfully", env.now), Completions);
  }

  /** The completions a job reports once its announcement was accepted: a failure, or the two successes. */
  predicate Reported(before: seq<Event>, after: seq<Event>, env: Env, id: string, elapsedMs: Int64) {
    after == before + [CompletionEvent(id, "failure", "", 0, env.now)]
    || after == before + [CompletionEvent(id, "success", ArtifactUrl(env, id), 0, env.now),
                          CompletionEvent(id, "success", "/artifacts/" + id, elapsedMs, env.now)]
  }

  lemma ArtifactFailureCompletions(s: St, env: Env, req: BuildRequestMessage, o: Oracle)
    requires CreateAndUploadArtifactOutcome(s, env, req.id, o).1.Some?
    ensures OnTopics(AfterBuild(s, env, req, o).0.sent, Completions)
      == OnTopics(s.sent, Completions) + [CompletionEvent(req.id, "failure", "", 0, env.now)]
  {
    ArtifactCompletions(s, env, req.id, o);
    var art := CreateAndUploadArtifactOutcome(s, env, req.id, o);
    FailBuildCompletions(art.0, env, req.id, "Failed to create artifact: " + art.1.value);
  }

  lemma ArtifactSuccessCompletions(s: St, env: Env, req: BuildRequestMessage, o: Oracle)
    requires CreateAndUploadArtifactOutcome(s, env, req.id, o).1.None?
    ensures OnTopics(AfterBuild(s, env, req, o).0.sent, Completions)
      == OnTopics(s.sent, Completions) + [CompletionEvent(req.id, "success", ArtifactUrl(env, req.id), 0, env.now),
                                          CompletionEvent(req.id, "success", "/artifacts/" + req.id, o.elapsedMs, env.now)]
  {
    var id := req.id;
    ArtifactCompletions(s, env, id, o);
    var a := CreateAndUploadArtifactOutcome(s, env, id, o).0;
    assert AfterBuild(s, env, req, o).0 == Finish(a, env, req, o).0;
    FinishCompletions(a, env, req, o);
    ConcatTwo(OnTopics(s.sent, Completions), OnTopics(a.sent, Completions),
      CompletionEvent(id, "success", ArtifactUrl(env, id), 0, env.now), OnTopics(Finish(a, env, req, o).0.sent, Completions),
      CompletionEvent(id, "success", "/artifacts/" + id, o.elapsedMs, env.now));
  }

  lemma ConcatTwo<T>(c: seq<T>, c1: seq<T>, x: T, c2: seq<T>, y: T)
    requires c1 == c + [x] && c2 == c1 + [y]
    ensures c2 == c + [x, y]
  {
  }

  lemma AfterBuildCompletions(s: St, env: Env, req: BuildRequestMessage, o: Oracle)
    ensures Reported(OnTopics(s.sent, Completions), OnTopics(AfterBuild(s, env, req, o).0.sent, Completions), env, req.id, o.elapsedMs)
  {
    if CreateAndUploadArtifactOutcome(s, env, req.id, o).1.Some? {
      ArtifactFailureCompletions(s, env, req, o);
    } else {
      ArtifactSuccessCompletions(s, env, req, o);
    }
  }

  lemma AfterCheckoutCompletions(s: St, env: Env, req: BuildRequestMessage, o: Oracle)
    ensures Reported(OnTopics(s.sent, Completions), OnTopics(AfterCheckout(s, env, req, o).0.sent, Completions), env, req.id, o.elapsedMs)
  {
    ExecuteBuildQuiet(s, env, req.id, o, Completions);
    var built := ExecuteBuildOutcome(s, env, req.id, o);
    if built.1.Some? {
      FailBuildCompletions(built.0, env, req.id, built.1.value);
    } else {
      AfterBuildCompletions(built.0, env, req, o);
    }
  }

  lemma AfterStartCompletions(s: St, env: Env, req: BuildRequestMessage, o: Oracle)
    ensures Reported(OnTopics(s.sent, Completions), OnTopics(AfterStart(s, env, req, o).0.sent, Completions), env, req.id, o.elapsedMs)
  {
    var id := req.id;
    if !o.mkdir.ok {
      FailBuildCompletions(s, env, id, "Failed to create build directory: " + o.mkdir.err);
    } else {
      CloneQuiet(s, env, req, o, Completions);
      var cl := Clone(s, env, req, o);
      if cl.1.Some? {
        FailBuildCompletions(cl.0, env, id, cl.1.value);
      } else {
        CheckoutQuiet(cl.0, env, req, o, Completions);
        var co := Checkout(cl.0, env, req, o);
        if co.1.Some? {
          FailBuildCompletions(co.0, env, id, co.1.value);
        } else {
          AfterCheckoutCompletions(co.0, env, req, o);
        }
      }
    }
  }

  /**
   * A job whose in-progress status was refused reports no completion;
   * any other job reports one failure completion, or two success
   * completions: the upload's, with the full storage URL, then the final
   * one with "/artifacts/<id>".
   */
  lemma JobCompletions(s: St, env: Env, req: BuildRequestMessage, o: Oracle)
    ensures var ip := StatusEvent(req.id, "in-progress", "Build started", env.now);
      var r := ProcessBuildJobOutcome(s, env, req, o).0;
      !env.accept(ip) ==> OnTopics(r.sent, Completions) == OnTopics(s.sent, Completions)
    ensures var ip := StatusEvent(req.id, "in-progress", "Build started", env.now);
      var r := ProcessBuildJobOutcome(s, env, req, o).0;
      env.accept(ip) ==> Reported(OnTopics(s.sent, Completions), OnTopics(r.sent, Completions), env, req.id, o.elapsedMs)
  {
    StartReports(s, env, req, Completions);
    var s1 := Start(s, env, req);
    if env.accept(StatusEvent(req.id, "in-progress", "Build started", env.now)) {
      AfterStartCompletions(s1, env, req, o);
      assert ProcessBuildJobOutcome(s, env, req, o) == AfterStart(s1, env, req, o);
    } else {
      assert ProcessBuildJobOutcome(s, env, req, o).0 == s1;
    }
  }

  /** Blank text is not logged at all. */
  lemma SayBlank(s: St, env: Env, id: string, text: string)
    requires forall i :: 0 <= i < |text| ==> IsSpace(text[i])
    ensures Say(s, env, id, text) == s
  {
    LinesOfBlank(text);
    assert s.sent + [] == s.sent;
  }

  /**
   * When the in-progress status is refused the job ends with that
   * error: apart from log events it sent only that status, so no
   * failure is reported.
   */
  lemma RefusedAnnouncementEndsJob(s: St, env: Env, req: BuildRequestMessage, o: Oracle)
    requires !env.accept(StatusEvent(req.id, "in-progress", "Build started", env.now))
    ensures var (r, err) := ProcessBuildJobOutcome(s, env, req, o);
      err == Some(SendFailed(StatusTopic))
      && OnTopics(r.sent, Reports) == OnTopics(s.sent, Reports) + [StatusEvent(req.id, "in-progress", "Build started", env.now)]
  {
    StartReports(s, env, req, Reports);
  }

  /** Checkout runs, and can fail the job, only off the default branches. */
  lemma CheckoutOnlyOffDefaultBranches(s: St, env: Env, req: BuildRequestMessage, o: Oracle)
    ensures !NeedsCheckout(req.branch) ==> Checkout(s, env, req, o) == (s, None)
    ensures NeedsCheckout(req.branch) ==> (Checkout(s, env, req, o).1.None? <==> o.checkout.ok)
  {
  }

  /**
   * With build.sh present the outcome depends only on the script's
   * result: no other file and no install or build result matters.
   */
  lemma ScriptBypassesDetection(s: St, env: Env, id: string, o: Oracle, files: set<string>, install: Run, build: Run, goBuild: Run)
    requires "build.sh" in o.files && "build.sh" in files
    ensures ExecuteBuildOutcome(s, env, id, o)
      == ExecuteBuildOutcome(s, env, id, o.(files := files, install := install, build := build, goBuild := goBuild))
  {
  }

  /** Without build.sh, package.json or go.mod the build fails before any log is sent. */
  lemma UnknownProjectFails(s: St, env: Env, id: string, o: Oracle)
    requires "build.sh" !in o.files && "package.json" !in o.files && "go.mod" !in o.files
    ensures ExecuteBuildOutcome(s, env, id, o) == (s, Some("unknown project type: " + "unknown" + ", no build script found"))
  {
    assert DetectProjectType(o.files) == "unknown";
  }

  /** A failed install ends the Node.js build: the build result plays no part. */
  lemma InstallFailureSkipsBuild(s: St, env: Env, id: string, o: Oracle, b: Run)
    requires !o.install.ok
    ensures BuildNodeProjectOutcome(s, env, id, o).1 == Some("failed to install dependencies: " + o.install.err)
    ensures BuildNodeProjectOutcome(s, env, id, o) == BuildNodeProjectOutcome(s, env, id, o.(build := b))
  {
  }

  /**
   * failBuild sends the failure log, then the failure completion, then
   * (only if that was accepted) the failed status; it writes the log
   * line to logs:<id> but never touches any build record.
   */
  lemma FailBuildTrace(s: St, env: Env, id: string, msg: string)
    ensures var (r, err) := FailBuildOutcome(s, env, id, msg);
      var done := CompletionEvent(id, "failure", "", 0, env.now);
      var failed := StatusEvent(id, "failed", msg, env.now);
      r.strings == s.strings
      && ListAt(r.lists, LogsKey(id)) == ListAt(s.lists, LogsKey(id)) + (if env.up then ["Build failed: " + msg] else [])
      && r.sent == s.sent + [LogEvent(id, "Build failed: " + msg, env.now), done] + (if env.accept(done) then [failed] else [])
      && (err.None? <==> env.accept(done) && env.accept(failed))
  {
  }

  // -----------------------------------------------------------------------
  // The service
  // -----------------------------------------------------------------------

  class Builder {
    const redis: Redis
    const producer: Producer
    const storageUrl: string

    constructor (redis: Redis, producer: Producer, storageUrl: string)
      ensures this.redis == redis && this.producer == producer && this.storageUrl == storageUrl
    {
      this.redis := redis;
      this.producer := producer;
      this.storageUrl := storageUrl;
    }

    function Snap(): St
      reads redis, producer
    {
      St(redis.strings, redis.lists, producer.sent)
    }

    function EnvAt(now: Time): Env {
      Env(redis.up, producer.accept, now, storageUrl)
    }

    /** storeBuildLogInRedis: RPUSH logs:<id>; failures are only logged. */
    method StoreBuildLog(id: string, entry: string)
      modifies redis
      ensures redis.lists == Pushed(redis.up, old(redis.lists), LogsKey(id), [entry])
      ensures redis.strings == old(redis.strings) && redis.byDate == old(redis.byDate)
    {
      var _ := redis.RPush(LogsKey(id), entry);
    }

    /** One line: published on build-logs, then stored; a refused send does not stop the store. */
    method SendLogLine(id: string, line: string, now: Time)
      modifies redis, producer
      ensures Snap() == LogAll(old(Snap()), EnvAt(now), id, [line])
      ensures redis.byDate == old(redis.byDate)
    {
      var _ := producer.SendMessage(LogsTopic, id, LogMsg(BuildLogMessage(id, line, now)));
      StoreBuildLog(id, line);
    }

    method SendLogLines(id: string, text: string, now: Time)
      modifies redis, producer
      ensures Snap() == Say(old(Snap()), EnvAt(now), id, text)
      ensures redis.byDate == old(redis.byDate)
    {
      var parts := Split(TrimSpace(text), '\n');
      ghost var s0 := Snap();
      var i := 0;
      while i < |parts|
        invariant 0 <= i <= |parts|
        invariant redis.byDate == old(redis.byDate)
        invariant Snap() == LogAll(s0, EnvAt(now), id, NonEmpty(parts[..i]))
      {
        ghost var done := NonEmpty(parts[..i]);
        NonEmptyAppend(parts[..i], [parts[i]]);
        assert parts[..i + 1] == parts[..i] + [parts[i]];
        if parts[i] != "" {
          assert NonEmpty([parts[i]]) == [parts[i]];
          SendLogLine(id, parts[i], now);
          LogAllTwice(s0, EnvAt(now), id, done, [parts[i]]);
        } else {
          assert NonEmpty([parts[i]]) == [];
          assert done + [] == done;
        }
        i := i + 1;
      }
      assert parts[..i] == parts;
    }

    method UpdateBuildStatusInRedis(id: string, status: string, message: string, url: string, now: Time)
      modifies redis
      ensures Snap() == MarkStatus(old(Snap()), EnvAt(now), id, status, message, url)
      ensures redis.byDate == old(redis.byDate)
    {
      var base: BuildStatus;
      var reply := redis.Get(StatusKey(id));
      match reply {
        case Found(doc) =>
          base := if doc.Parsed? then doc.record else Blank;
        case Nil =>
          var legacy := redis.Get(BuildKey(id));
          match legacy {
            case Found(doc) =>
              base := if doc.Parsed? then JobView(doc.record).(userId := "") else Blank;
            case _ =>
              base := Blank.(createdAt := now);
          }
        case Failed =>
          base := Blank.(createdAt := now);
      }
      base := base.(id := id, status := status, updatedAt := now);
      if message != "" {
        base := base.(message := message);
      }
      if url != "" {
        base := base.(artifactUrl := url);
      }
      var _ := redis.Set(StatusKey(id), Parsed(base));
    }

    method FailBuild(id: string, msg: string, now: Time) returns (err: Option<BuilderError>)
      modifies redis, producer
      ensures (Snap(), err) == FailBuildOutcome(old(Snap()), EnvAt(now), id, msg)
      ensures redis.byDate == old(redis.byDate)
    {
      var entry := "Build failed: " + msg;
      var _ := producer.SendMessage(LogsTopic, id, LogMsg(BuildLogMessage(id, entry, now)));
      StoreBuildLog(id, entry);
      var ok := producer.SendMessage(CompletionsTopic, id, CompletionMsg(BuildCompletionMessage(id, "failure", "", 0, now)));
      if !ok {
        return Some(SendFailed(CompletionsTopic));
      }
      ok := producer.SendMessage(StatusTopic, id, StatusMsg(BuildStatusMessage(id, "failed", msg, now)));
      err := if ok then None else Some(SendFailed(StatusTopic));
    }

    /** Publishes one log entry as it is, without splitting or storing it. */
    method Publish(id: string, entry: string, now: Time)
      modifies producer
      ensures producer.sent == old(producer.sent) + [LogEvent(id, entry, now)]
    {
      var _ := producer.SendMessage(LogsTopic, id, LogMsg(BuildLogMessage(id, entry, now)));
    }

    method RunBuildScript(id: string, o: Oracle, now: Time) returns (err: Option<string>)
      modifies producer
      ensures (Snap(), err) == RunBuildScriptOutcome(old(Snap()), EnvAt(now), id, o)
    {
      Publish(id, "Executing build script", now);
      if !o.script.ok {
        Publish(id, "Build script failed: " + o.script.err + "\nOutput: " + o.script.output, now);
        return Some("build script failed: " + o.script.err);
      }
      Publish(id, "Build script completed successfully\n" + o.script.output, now);
      err := None;
    }

    method BuildGoProject(id: string, o: Oracle, now: Time) returns (err: Option<string>)
      modifies producer
      ensures (Snap(), err) == BuildGoProjectOutcome(old(Snap()), EnvAt(now), id, o)
    {
      Publish(id, "Detected Go project, running go build", now);
      if !o.goBuild.ok {
        Publish(id, "go build failed: " + o.goBuild.err + "\nOutput: " + o.goBuild.output, now);
        return Some("failed to build project: " + o.goBuild.err);
      }
      Publish(id, "Go project built successfully\n" + o.goBuild.output, now);
      err := None;
    }

    method BuildNodeProject(id: string, o: Oracle, now: Time) returns (err: Option<string>)
      modifies redis, producer
      ensures (Snap(), err) == BuildNodeProjectOutcome(old(Snap()), EnvAt(now), id, o)
      ensures redis.byDate == old(redis.byDate)
    {
      SendLogLines(id, "Detected Node.js project", now);
      var pm := DetectNodePackageManager(o.files);
      if pm == "unknown" {
        pm := "npm";
      }
      SendLogLines(id, "Using package manager: " + pm, now);
      SendLogLines(id, "Running " + pm + " install...", now);
      if !o.install.ok {
        SendLogLines(id, pm + " install failed: " + o.install.err, now);
        SendLogLines(id, o.install.output, now);
        return Some("failed to install dependencies: " + o.install.err);
      }
      SendLogLines(id, "Dependencies installed successfully", now);
      SendLogLines(id, o.install.output, now);
      SendLogLines(id, "Running " + pm + " run build...", now);
      if !o.build.ok {
        SendLogLines(id, pm + " build failed: " + o.build.err, now);
        SendLogLines(id, o.build.output, now);
        return Some("failed to build project: " + o.build.err);
      }
      SendLogLines(id, "Project built successfully", now);
      SendLogLines(id, o.build.output, now);
      err := None;
    }

    method ExecuteBuild(id: string, o: Oracle, now: Time) returns (err: Option<string>)
      modifies redis, producer
      ensures (Snap(), err) == ExecuteBuildOutcome(old(Snap()), EnvAt(now), id, o)
      ensures redis.byDate == old(redis.byDate)
    {
      if "build.sh" in o.files {
        err := RunBuildScript(id, o, now);
      } else {
        var kind := DetectProjectType(o.files);
        if kind == "node" {
          err := BuildNodeProject(id, o, now);
        } else if kind == "go" {
          err := BuildGoProject(id, o, now);
        } else {
          err := Some("unknown project type: " + kind + ", no build script found");
        }
      }
    }

    method UploadArtifact(id: string, o: Oracle, now: Time) returns (err: Option<string>)
      modifies redis, producer
      ensures (Snap(), err) == UploadArtifactOutcome(old(Snap()), EnvAt(now), id, o)
      ensures redis.byDate == old(redis.byDate)
    {
      match o.upload
      case Unanswered(e) =>
        err := Some(e);
      case Answered(code, body) =>
        if code != 200 {
          return Some("storage service returned status " + IntToString(code) + ": " + body);
        }
        var url := storageUrl + "/artifacts/" + id;
        UpdateBuildStatusInRedis(id, "completed", "", url, now);
        var _ := producer.SendMessage(CompletionsTopic, id, CompletionMsg(BuildCompletionMessage(id, "success", url, 0, now)));
        err := None;
    }

    method CreateAndUploadArtifact(id: string, o: Oracle, now: Time) returns (err: Option<string>)
      modifies redis, producer
      ensures (Snap(), err) == CreateAndUploadArtifactOutcome(old(Snap()), EnvAt(now), id, o)
      ensures redis.byDate == old(redis.byDate)
    {
      Publish(id, "Creating artifact...", now);
      if !o.tar.ok {
        Publish(id, "Failed to create artifact: " + o.tar.err + "\nOutput: " + o.tar.output, now);
        return Some("failed to create artifact: " + o.tar.err);
      }
      Publish(id, "Uploading artifact to storage...", now);
      var upErr := UploadArtifact(id, o, now);
      if upErr.Some? {
        Publish(id, "Failed to upload artifact: " + upErr.value, now);
        return Some("failed to upload artifact: " + upErr.value);
      }
      Publish(id, "Artifact uploaded successfully", now);
      err := None;
    }

    /** The announcement: opening log lines, the in-progress mark, the in-progress status. */
    method Announce(req: BuildRequestMessage, now: Time) returns (ok: bool)
      modifies redis, producer
      ensures Snap() == Start(old(Snap()), EnvAt(now), req)
      ensures ok == producer.accept(StatusEvent(req.id, "in-progress", "Build started", now))
      ensures redis.byDate == old(redis.byDate)
    {
      SendLogLines(req.id, "Build started", now);
      SendLogLines(req.id, "Repository: " + req.repositoryUrl, now);
      if req.branch != "" {
        SendLogLines(req.id, "Branch: " + req.branch, now);
      }
      UpdateBuildStatusInRedis(req.id, "in-progress", "Build started", "", now);
      ok := producer.SendMessage(StatusTopic, req.id, StatusMsg(BuildStatusMessage(req.id, "in-progress", "Build started", now)));
    }

    method CloneRepository(req: BuildRequestMessage, o: Oracle, now: Time) returns (failure: Option<string>)
      modifies redis, producer
      ensures (Snap(), failure) == Clone(old(Snap()), EnvAt(now), req, o)
      ensures redis.byDate == old(redis.byDate)
    {
      SendLogLines(req.id, "Cloning repository...", now);
      if !o.clone.ok {
        SendLogLines(req.id, "Clone failed: " + o.clone.err, now);
        SendLogLines(req.id, o.clone.output, now);
        return Some("Failed to clone repository: " + o.clone.err);
      }
      SendLogLines(req.id, "Repository cloned successfully", now);
      SendLogLines(req.id, o.clone.output, now);
      failure := None;
    }

    method CheckoutBranch(req: BuildRequestMessage, o: Oracle, now: Time) returns (failure: Option<string>)
      modifies redis, producer
      ensures (Snap(), failure) == Checkout(old(Snap()), EnvAt(now), req, o)
      ensures redis.byDate == old(redis.byDate)
    {
      failure := None;
      if NeedsCheckout(req.branch) {
        SendLogLines(req.id, "Checking out branch: " + req.branch, now);
        if !o.checkout.ok {
          SendLogLines(req.id, "Checkout failed: " + o.checkout.err, now);
          SendLogLines(req.id, o.checkout.output, now);
          return Some("Failed to checkout branch: " + o.checkout.err);
        }
        SendLogLines(req.id, "Branch checked out successfully", now);
        SendLogLines(req.id, o.checkout.output, now);
      }
    }

    method Complete(req: BuildRequestMessage, o: Oracle, now: Time) returns (err: Option<BuilderError>)
      modifies redis, producer
      ensures (Snap(), err) == Finish(old(Snap()), EnvAt(now), req, o)
      ensures redis.byDate == old(redis.byDate)
    {
      SendLogLines(req.id, "Build completed successfully!", now);
      var ok := producer.SendMessage(CompletionsTopic, req.id,
        CompletionMsg(BuildCompletionMessage(req.id, "success", "/artifacts/" + req.id, o.elapsedMs, now)));
      if !ok {
        return Some(SendFailed(CompletionsTopic));
      }
      ok := producer.SendMessage(StatusTopic, req.id, StatusMsg(BuildStatusMessage(req.id, "completed", "Build completed successfully", now)));
      err := if ok then None else Some(SendFailed(StatusTopic));
    }

    method RunAfterBuild(req: BuildRequestMessage, o: Oracle, now: Time) returns (err: Option<BuilderError>)
      modifies redis, producer
      ensures (Snap(), err) == AfterBuild(old(Snap()), EnvAt(now), req, o)
      ensures redis.byDate == old(redis.byDate)
    {
      var failure := CreateAndUploadArtifact(req.id, o, now);
      if failure.Some? {
        err := FailBuild(req.id, "Failed to create artifact: " + failure.value, now);
        return;
      }
      err := Complete(req, o, now);
    }

    method RunAfterCheckout(req: BuildRequestMessage, o: Oracle, now: Time) returns (err: Option<BuilderError>)
      modifies redis, producer
      ensures (Snap(), err) == AfterCheckout(old(Snap()), EnvAt(now), req, o)
      ensures redis.byDate == old(redis.byDate)
    {
      var failure := ExecuteBuild(req.id, o, now);
      if failure.Some? {
        err := FailBuild(req.id, failure.value, now);
        return;
      }
      err := RunAfterBuild(req, o, now);
    }

    method ProcessBuildJob(req: BuildRequestMessage, o: Oracle, now: Time) returns (err: Option<BuilderError>)
      modifies redis, producer
      ensures (Snap(), err) == ProcessBuildJobOutcome(old(Snap()), EnvAt(now), req, o)
      ensures redis.byDate == old(redis.byDate)
    {
      var id := req.id;
      var ok := Announce(req, now);
      if !ok {
        return Some(SendFailed(StatusTopic));
      }
      if !o.mkdir.ok {
        err := FailBuild(id, "Failed to create build directory: " + o.mkdir.err, now);
        return;
      }
      var failure := CloneRepository(req, o, now);
      if failure.Some? {
        err := FailBuild(id, failure.value, now);
        return;
      }
      failure := CheckoutBranch(req, o, now);
      if failure.Some? {
        err := FailBuild(id, failure.value, now);
        return;
      }
      err := RunAfterCheckout(req, o, now);
    }
  }
}
