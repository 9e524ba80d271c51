/*
 * The earlier builder (gobuild/builder/main.go). It keeps no Redis
 * state: every step only publishes, so each step is specified by the
 * events it adds to the producer's trace and the error it returns.
 * Log entries go out as single messages, never split into lines.
 *
 * Compared with builder/main.go: the first event is the in-progress
 * status, the clone and checkout failures log one combined entry, the
 * upload reports no completion of its own, and a successful job sends
 * exactly one completion.
 */
module GobuildBuilderService {
  import opened Util
  import opened Message
  import opened Bus
  import B = BuilderService

  /** Fixed for one job: the broker's answers and the clock. */
  datatype Env = Env(accept: Event -> bool, now: Time)

  function Log(env: Env, id: string, entry: string): Event {
    B.LogEvent(id, entry, env.now)
  }

  /** Every event of `es` is on build-logs. */
  predicate LogsOnly(es: seq<Event>) {
    forall e :: e in es ==> e.topic == LogsTopic
  }

  // -----------------------------------------------------------------------
  // Steps, as the events each adds and the error each returns
  // -----------------------------------------------------------------------

  /** failBuild: the failure log, the failure completion, then (if that was accepted) the failed status. */
  function FailBuildEvents(env: Env, id: string, msg: string): (seq<Event>, Option<B.BuilderError>) {
    var done := B.CompletionEvent(id, "failure", "", 0, env.now);
    var es := [Log(env, id, "Build failed: " + msg), done];
    if !env.accept(done) then (es, Some(B.SendFailed(CompletionsTopic)))
    else
      var failed := B.StatusEvent(id, "failed", msg, env.now);
      (es + [failed], if env.accept(failed) then None else Some(B.SendFailed(StatusTopic)))
  }

  function RunBuildScriptEvents(env: Env, id: string, o: B.Oracle): (seq<Event>, Option<string>) {
    var start := Log(env, id, "Executing build script");
    if !o.script.ok then
      ([start, Log(env, id, "Build script failed: " + o.script.err + "\nOutput: " + o.script.output)],
       Some("build script failed: " + o.script.err))
    else ([start, Log(env, id, "Build script completed successfully\n" + o.script.output)], None)
  }

  function BuildGoProjectEvents(env: Env, id: string, o: B.Oracle): (seq<Event>, Option<string>) {
    var start := Log(env, id, "Detected Go project, running go build");
    if !o.goBuild.ok then
      ([start, Log(env, id, "go build failed: " + o.goBuild.err + "\nOutput: " + o.goBuild.output)],
       Some("failed to build project: " + o.goBuild.err))
    else ([start, Log(env, id, "Go project built successfully\n" + o.goBuild.output)], None)
  }

  function BuildNodeProjectEvents(env: Env, id: string, o: B.Oracle): (seq<Event>, Option<string>) {
    var pm := B.PackageManager(o.files);
    var opening := [Log(env, id, "Detected Node.js project, running npm install and build"),
                    Log(env, id, "Using package manager: " + pm)];
    if !o.install.ok then
      (opening + [Log(env, id, pm + " install failed: " + o.install.err + "\nOutput: " + o.install.output)],
       Some("failed to install dependencies: " + o.install.err))
    else
      var installed := opening + [Log(env, id, "Dependencies installed successfully\n" + o.install.output)];
      if !o.build.ok then
        (installed + [Log(env, id, pm + " build failed: " + o.build.err + "\nOutput: " + o.build.output)],
         Some("failed to build project: " + o.build.err))
      else (installed + [Log(env, id, "Project built successfully\n" + o.build.output)], None)
  }

  function BuildByProjectTypeEvents(env: Env, id: string, kind: string, o: B.Oracle): (seq<Event>, Option<string>) {
    if kind == "node" then BuildNodeProjectEvents(env, id, o)
    else if kind == "go" then BuildGoProjectEvents(env, id, o)
    else ([], Some("unknown project type: " + kind + ", no build script found"))
  }

  /** executeBuild: build.sh when present, otherwise by the detected project type. */
  function ExecuteBuildEvents(env: Env, id: string, o: B.Oracle): (seq<Event>, Option<string>) {
    if "build.sh" in o.files then RunBuildScriptEvents(env, id, o)
    else BuildByProjectTypeEvents(env, id, B.DetectProjectType(o.files), o)
  }

  /** uploadArtifact: only an HTTP 200 answer is success; it publishes nothing. */
  function UploadArtifactResult(o: B.Oracle): (err: Option<string>)
    ensures err.None? <==> o.upload.Answered? && o.upload.code == 200
  {
    match o.upload
    case Unanswered(e) => Some(e)
    case Answered(code, body) =>
      if code != 200 then Some("storage service returned status " + IntToString(code) + ": " + body) else None
  }

  function CreateAndUploadArtifactEvents(env: Env, id: string, o: B.Oracle): (seq<Event>, Option<string>) {
    var creating := Log(env, id, "Creating artifact...");
    if !o.tar.ok then
      ([creating, Log(env, id, "Failed to create artifact: " + o.tar.err + "\nOutput: " + o.tar.output)],
       Some("failed to create artifact: " + o.tar.err))
    else
      var uploading := [creating, Log(env, id, "Uploading artifact to storage...")];
      var up := UploadArtifactResult(o);
      if up.Some? then
        (uploading + [Log(env, id, "Failed to upload artifact: " + up.value)], Some("failed to upload artifact: " + up.value))
      else (uploading + [Log(env, id, "Artifact uploaded successfully")], None)
  }

  /** The clone step; an error is the message failBuild receives. */
  function CloneEvents(env: Env, req: BuildRequestMessage, o: B.Oracle): (seq<Event>, Option<string>) {
    var cloning := Log(env, req.id, "Cloning repository...");
    if !o.clone.ok then
      ([cloning, Log(env, req.id, "Clone failed: " + o.clone.err + "\nOutput: " + o.clone.output)],
       Some("Failed to clone repository: " + o.clone.err))
    else ([cloning, Log(env, req.id, "Repository cloned successfully\n" + o.clone.output)], None)
  }

  /** The checkout step, run only off the default branches. */
  function CheckoutEvents(env: Env, req: BuildRequestMessage, o: B.Oracle): (seq<Event>, Option<string>) {
    if !B.NeedsCheckout(req.branch) then ([], None)
    else
      var checking := Log(env, req.id, "Checking out branch: " + req.branch);
      if !o.checkout.ok then
        ([checking, Log(env, req.id, "Checkout failed: " + o.checkout.err + "\nOutput: " + o.checkout.output)],
         Some("Failed to checkout branch: " + o.checkout.err))
      else ([checking, Log(env, req.id, "Branch checked out successfully\n" + o.checkout.output)], None)
  }

  /** The end of a successful job: one completion, then the completed status. */
  function FinishEvents(env: Env, req: BuildRequestMessage, o: B.Oracle): (seq<Event>, Option<B.BuilderError>) {
    var done := B.CompletionEvent(req.id, "success", "/artifacts/" + req.id, o.elapsedMs, env.now);
    if !env.accept(done) then ([done], Some(B.SendFailed(CompletionsTopic)))
    else
      var completed := B.StatusEvent(req.id, "completed", "Build completed successfully", env.now);
      ([done, completed], if env.accept(completed) then None else Some(B.SendFailed(StatusTopic)))
  }

  function AfterBuildEvents(env: Env, req: BuildRequestMessage, o: B.Oracle): (seq<Event>, Option<B.BuilderError>) {
    var art := CreateAndUploadArtifactEvents(env, req.id, o);
    if art.1.Some? then
      var f := FailBuildEvents(env, req.id, "Failed to create artifact: " + art.1.value);
      (art.0 + f.0, f.1)
    else
      var fin := FinishEvents(env, req, o);
      (art.0 + fin.0, fin.1)
  }

  function AfterCheckoutEvents(env: Env, req: BuildRequestMessage, o: B.Oracle): (seq<Event>, Option<B.BuilderError>) {
    var built := ExecuteBuildEvents(env, req.id, o);
    if built.1.Some? then
      var f := FailBuildEvents(env, req.id, built.1.value);
      (built.0 + f.0, f.1)
    else
      var rest := AfterBuildEvents(env, req, o);
      (built.0 + rest.0, rest.1)
  }

  function AfterStartEvents(env: Env, req: BuildRequestMessage, o: B.Oracle): (seq<Event>, Option<B.BuilderError>) {
    if !o.mkdir.ok then FailBuildEvents(env, req.id, "Failed to create build directory: " + o.mkdir.err)
    else
      var cl := CloneEvents(env, req, o);
      if cl.1.Some? then
        var f := FailBuildEvents(env, req.id, cl.1.value);
        (cl.0 + f.0, f.1)
      else
        var co := CheckoutEvents(env, req, o);
        if co.1.Some? then
          var f := FailBuildEvents(env, req.id, co.1.value);
          (cl.0 + co.0 + f.0, f.1)
        else
          var rest := AfterCheckoutEvents(env, req, o);
          (cl.0 + co.0 + rest.0, rest.1)
  }

  function InProgress(env: Env, id: string): Event {
    B.StatusEvent(id, "in-progress", "Build started", env.now)
  }

  /** ProcessBuildJob: the in-progress status first; every later failure goes through failBuild. */
  function ProcessBuildJobEvents(env: Env, req: BuildRequestMessage, o: B.Oracle): (seq<Event>, Option<B.BuilderError>) {
    var ip := InProgress(env, req.id);
    if !env.accept(ip) then ([ip], Some(B.SendFailed(StatusTopic)))
    else
      var rest := AfterStartEvents(env, req, o);
      ([ip] + rest.0, rest.1)
  }

  // -----------------------------------------------------------------------
  // Properties
  // -----------------------------------------------------------------------

  lemma LogsOnlyQuiet(es: seq<Event>)
    requires LogsOnly(es)
    ensures B.OnTopics(es, B.Completions) == []
  {
    B.OnTopicsNone(es, B.Completions);
  }

  lemma NodeLogsOnly(env: Env, id: string, o: B.Oracle)
    ensures LogsOnly(BuildNodeProjectEvents(env, id, o).0)
  {
  }

  lemma ExecuteBuildLogsOnly(env: Env, id: string, o: B.Oracle)
    ensures LogsOnly(ExecuteBuildEvents(env, id, o).0)
  {
    if "build.sh" !in o.files && B.DetectProjectType(o.files) == "node" {
      NodeLogsOnly(env, id, o);
    }
  }

  lemma Assoc<T>(a: seq<T>, b: seq<T>, c: seq<T>)
    ensures a + (b + c) == a + b + c
  {
  }

  lemma StepsLogOnly(env: Env, req: BuildRequestMessage, o: B.Oracle)
    ensures LogsOnly(CloneEvents(env, req, o).0)
    ensures LogsOnly(CheckoutEvents(env, req, o).0)
    ensures LogsOnly(CreateAndUploadArtifactEvents(env, req.id, o).0)
  {
  }

  /** A non-200 answer from storage is an error, and the upload publishes nothing either way. */
  lemma UploadNeedsOk(env: Env, id: string, o: B.Oracle)
    requires o.upload.Answered? && o.upload.code != 200
    ensures UploadArtifactResult(o).Some?
    ensures CreateAndUploadArtifactEvents(env, id, o).1.Some?
    ensures B.OnTopics(CreateAndUploadArtifactEvents(env, id, o).0, B.Completions) == []
  {
    StepsLogOnly(env, BuildRequestMessage(id, "", "", "", "", 0), o);
    LogsOnlyQuiet(CreateAndUploadArtifactEvents(env, id, o).0);
  }

  /** The completions failBuild reports: the failure completion alone. */
  lemma FailBuildCompletions(env: Env, id: string, msg: string)
    ensures B.OnTopics(FailBuildEvents(env, id, msg).0, B.Completions) == [B.CompletionEvent(id, "failure", "", 0, env.now)]
  {
    var done := B.CompletionEvent(id, "failure", "", 0, env.now);
    var log := Log(env, id, "Build failed: " + msg);
    B.OnTopicsAppend([log], [done], B.Completions);
    assert [log] + [done] == [log, done];
    if env.accept(done) {
      B.OnTopicsAppend([log, done], [B.StatusEvent(id, "failed", msg, env.now)], B.Completions);
    }
  }

  lemma FinishCompletions(env: Env, req: BuildRequestMessage, o: B.Oracle)
    ensures B.OnTopics(FinishEvents(env, req, o).0, B.Completions)
      == [B.CompletionEvent(req.id, "success", "/artifacts/" + req.id, o.elapsedMs, env.now)]
  {
    var done := B.CompletionEvent(req.id, "success", "/artifacts/" + req.id, o.elapsedMs, env.now);
    if env.accept(done) {
      B.OnTopicsAppend([done], [B.StatusEvent(req.id, "completed", "Build completed successfully", env.now)], B.Completions);
    }
  }

  /** Logs followed by a tail report what the tail reports. */
  lemma QuietPrefix(logs: seq<Event>, tail: seq<Event>)
    requires LogsOnly(logs)
    ensures B.OnTopics(logs + tail, B.Completions) == B.OnTopics(tail, B.Completions)
  {
    B.OnTopicsAppend(logs, tail, B.Completions);
    LogsOnlyQuiet(logs);
  }

  /** The single completion of an accepted job: the failure one, or the success one. */
  predicate OneCompletion(c: seq<Event>, env: Env, req: BuildRequestMessage, o: B.Oracle) {
    c == [B.CompletionEvent(req.id, "failure", "", 0, env.now)]
    || c == [B.CompletionEvent(req.id, "success", "/artifacts/" + req.id, o.elapsedMs, env.now)]
  }

  lemma AfterBuildCompletions(env: Env, req: BuildRequestMessage, o: B.Oracle)
    ensures OneCompletion(B.OnTopics(AfterBuildEvents(env, req, o).0, B.Completions), env, req, o)
  {
    var art := CreateAndUploadArtifactEvents(env, req.id, o);
    StepsLogOnly(env, req, o);
    if art.1.Some? {
      var f := FailBuildEvents(env, req.id, "Failed to create artifact: " + art.1.value);
      QuietPrefix(art.0, f.0);
      FailBuildCompletions(env, req.id, "Failed to create artifact: " + art.1.value);
    } else {
      QuietPrefix(art.0, FinishEvents(env, req, o).0);
      FinishCompletions(env, req, o);
    }
  }

  lemma AfterCheckoutCompletions(env: Env, req: BuildRequestMessage, o: B.Oracle)
    ensures OneCompletion(B.OnTopics(AfterCheckoutEvents(env, req, o).0, B.Completions), env, req, o)
  {
    var built := ExecuteBuildEvents(env, req.id, o);
    ExecuteBuildLogsOnly(env, req.id, o);
    if built.1.Some? {
      QuietPrefix(built.0, FailBuildEvents(env, req.id, built.1.value).0);
      FailBuildCompletions(env, req.id, built.1.value);
    } else {
      QuietPrefix(built.0, AfterBuildEvents(env, req, o).0);
      AfterBuildCompletions(env, req, o);
    }
  }

  lemma AfterStartCompletions(env: Env, req: BuildRequestMessage, o: B.Oracle)
    ensures OneCompletion(B.OnTopics(AfterStartEvents(env, req, o).0, B.Completions), env, req, o)
  {
    if !o.mkdir.ok {
      FailBuildCompletions(env, req.id, "Failed to create build directory: " + o.mkdir.err);
    } else {
      StepsLogOnly(env, req, o);
      var cl := CloneEvents(env, req, o);
      if cl.1.Some? {
        QuietPrefix(cl.0, FailBuildEvents(env, req.id, cl.1.value).0);
        FailBuildCompletions(env, req.id, cl.1.value);
      } else {
        var co := CheckoutEvents(env, req, o);
        assert LogsOnly(cl.0 + co.0);
        var tail := if co.1.Some? then FailBuildEvents(env, req.id, co.1.value).0 else AfterCheckoutEvents(env, req, o).0;
        QuietPrefix(cl.0 + co.0, tail);
        if co.1.Some? {
          FailBuildCompletions(env, req.id, co.1.value);
        } else {
          AfterCheckoutCompletions(env, req, o);
        }
      }
    }
  }

  /**
   * The first event of every job is the in-progress status. If the
   * broker refuses it, that is the only event and the job fails with
   * that error; otherwise the job reports exactly one completion: the
   * failure one, or a success with "/artifacts/<id>".
   */
  lemma JobEvents(env: Env, req: BuildRequestMessage, o: B.Oracle)
    ensures var es := ProcessBuildJobEvents(env, req, o).0;
      |es| >= 1 && es[0] == InProgress(env, req.id)
    ensures !env.accept(InProgress(env, req.id)) ==>
      ProcessBuildJobEvents(env, req, o) == ([InProgress(env, req.id)], Some(B.SendFailed(StatusTopic)))
    ensures env.accept(InProgress(env, req.id)) ==>
      OneCompletion(B.OnTopics(ProcessBuildJobEvents(env, req, o).0, B.Completions), env, req, o)
  {
    var ip := InProgress(env, req.id);
    if env.accept(ip) {
      var rest := AfterStartEvents(env, req, o);
      B.OnTopicsAppend([ip], rest.0, B.Completions);
      assert B.OnTopics([ip], B.Completions) == [];
      AfterStartCompletions(env, req, o);
    }
  }

  /** A failed clone logs one entry holding both the error and the output, then fails the build. */
  lemma CloneFailureLogsOnce(env: Env, req: BuildRequestMessage, o: B.Oracle)
    requires env.accept(InProgress(env, req.id)) && o.mkdir.ok && !o.clone.ok
    ensures var f := FailBuildEvents(env, req.id, "Failed to clone repository: " + o.clone.err);
      ProcessBuildJobEvents(env, req, o)
        == ([InProgress(env, req.id), Log(env, req.id, "Cloning repository..."),
             Log(env, req.id, "Clone failed: " + o.clone.err + "\nOutput: " + o.clone.output)] + f.0, f.1)
  {
    var cl := CloneEvents(env, req, o);
    var f := FailBuildEvents(env, req.id, "Failed to clone repository: " + o.clone.err);
    Assoc([InProgress(env, req.id)], cl.0, f.0);
    assert ProcessBuildJobEvents(env, req, o).0 == [InProgress(env, req.id)] + (cl.0 + f.0);
    assert [InProgress(env, req.id)] + cl.0
      == [InProgress(env, req.id), Log(env, req.id, "Cloning repository..."),
          Log(env, req.id, "Clone failed: " + o.clone.err + "\nOutput: " + o.clone.output)];
  }

  /** With build.sh present no detection happens: other files and the install and build results play no part. */
  lemma ScriptBypassesDetection(env: Env, id: string, o: B.Oracle, files: set<string>, install: B.Run, build: B.Run, goBuild: B.Run)
    requires "build.sh" in o.files && "build.sh" in files
    ensures ExecuteBuildEvents(env, id, o)
      == ExecuteBuildEvents(env, id, o.(files := files, install := install, build := build, goBuild := goBuild))
  {
  }

  /** Checkout runs, and can fail the job, only off the default branches. */
  lemma CheckoutOnlyOffDefaultBranches(env: Env, req: BuildRequestMessage, o: B.Oracle)
    ensures !B.NeedsCheckout(req.branch) ==> CheckoutEvents(env, req, o) == ([], None)
    ensures B.NeedsCheckout(req.branch) ==> (CheckoutEvents(env, req, o).1.None? <==> o.checkout.ok)
  {
  }

  /** A failed install ends the Node.js build with its error: the build result plays no part. */
  lemma InstallFailureSkipsBuild(env: Env, id: string, o: B.Oracle, b: B.Run)
    requires !o.install.ok
    ensures BuildNodeProjectEvents(env, id, o).1 == Some("failed to install dependencies: " + o.install.err)
    ensures BuildNodeProjectEvents(env, id, o) == BuildNodeProjectEvents(env, id, o.(build := b))
  {
  }

  // -----------------------------------------------------------------------
  // The service
  // -----------------------------------------------------------------------

  class Builder {
    const producer: Producer
    const storageUrl: string

    constructor (producer: Producer, storageUrl: string)
      ensures this.producer == producer && this.storageUrl == storageUrl
    {
      this.producer := producer;
      this.storageUrl := storageUrl;
    }

    function EnvAt(now: Time): Env {
      Env(producer.accept, now)
    }

    /** Publishes one log entry; the broker's answer is ignored. */
    method SendLog(id: string, entry: string, now: Time)
      modifies producer
      ensures producer.sent == old(producer.sent) + [Log(EnvAt(now), id, entry)]
    {
      var _ := producer.SendMessage(LogsTopic, id, LogMsg(BuildLogMessage(id, entry, now)));
    }

    method FailBuild(id: string, msg: string, now: Time) returns (err: Option<B.BuilderError>)
      modifies producer
      ensures producer.sent == old(producer.sent) + FailBuildEvents(EnvAt(now), id, msg).0
      ensures err == FailBuildEvents(EnvAt(now), id, msg).1
    {
      SendLog(id, "Build failed: " + msg, now);
      var ok := producer.SendMessage(CompletionsTopic, id, CompletionMsg(BuildCompletionMessage(id, "failure", "", 0, now)));
      if !ok {
        return Some(B.SendFailed(CompletionsTopic));
      }
      ok := producer.SendMessage(StatusTopic, id, StatusMsg(BuildStatusMessage(id, "failed", msg, now)));
      err := if ok then None else Some(B.SendFailed(StatusTopic));
    }

    method RunBuildScript(id: string, o: B.Oracle, now: Time) returns (err: Option<string>)
      modifies producer
      ensures producer.sent == old(producer.sent) + RunBuildScriptEvents(EnvAt(now), id, o).0
      ensures err == RunBuildScriptEvents(EnvAt(now), id, o).1
    {
      SendLog(id, "Executing build script", now);
      if !o.script.ok {
        SendLog(id, "Build script failed: " + o.script.err + "\nOutput: " + o.script.output, now);
        return Some("build script failed: " + o.script.err);
      }
      SendLog(id, "Build script completed successfully\n" + o.script.output, now);
      err := None;
    }

    method BuildGoProject(id: string, o: B.Oracle, now: Time) returns (err: Option<string>)
      modifies producer
      ensures producer.sent == old(producer.sent) + BuildGoProjectEvents(EnvAt(now), id, o).0
      ensures err == BuildGoProjectEvents(EnvAt(now), id, o).1
    {
      SendLog(id, "Detected Go project, running go build", now);
      if !o.goBuild.ok {
        SendLog(id, "go build failed: " + o.goBuild.err + "\nOutput: " + o.goBuild.output, now);
        return Some("failed to build project: " + o.goBuild.err);
      }
      SendLog(id, "Go project built successfully\n" + o.goBuild.output, now);
      err := None;
    }

    method BuildNodeProject(id: string, o: B.Oracle, now: Time) returns (err: Option<string>)
      modifies producer
      ensures producer.sent == old(producer.sent) + BuildNodeProjectEvents(EnvAt(now), id, o).0
      ensures err == BuildNodeProjectEvents(EnvAt(now), id, o).1
    {
      SendLog(id, "Detected Node.js project, running npm install and build", now);
      var pm := B.DetectNodePackageManager(o.files);
      if pm == "unknown" {
        pm := "npm";
      }
      SendLog(id, "Using package manager: " + pm, now);
      if !o.install.ok {
        SendLog(id, pm + " install failed: " + o.install.err + "\nOutput: " + o.install.output, now);
        return Some("failed to install dependencies: " + o.install.err);
      }
      SendLog(id, "Dependencies installed successfully\n" + o.install.output, now);
      if !o.build.ok {
        SendLog(id, pm + " build failed: " + o.build.err + "\nOutput: " + o.build.output, now);
        return Some("failed to build project: " + o.build.err);
      }
      SendLog(id, "Project built successfully\n" + o.build.output, now);
      err := None;
    }

    method ExecuteBuild(id: string, o: B.Oracle, now: Time) returns (err: Option<string>)
      modifies producer
      ensures producer.sent == old(producer.sent) + ExecuteBuildEvents(EnvAt(now), id, o).0
      ensures err == ExecuteBuildEvents(EnvAt(now), id, o).1
    {
      if "build.sh" in o.files {
        err := RunBuildScript(id, o, now);
      } else {
        var kind := B.DetectProjectType(o.files);
        if kind == "node" {
          err := BuildNodeProject(id, o, now);
        } else if kind == "go" {
          err := BuildGoProject(id, o, now);
        } else {
          err := Some("unknown project type: " + kind + ", no build script found");
          assert old(producer.sent) + [] == producer.sent;
        }
      }
    }

    method CreateAndUploadArtifact(id: string, o: B.Oracle, now: Time) returns (err: Option<string>)
      modifies producer
      ensures producer.sent == old(producer.sent) + CreateAndUploadArtifactEvents(EnvAt(now), id, o).0
      ensures err == CreateAndUploadArtifactEvents(EnvAt(now), id, o).1
    {
      SendLog(id, "Creating artifact...", now);
      if !o.tar.ok {
        SendLog(id, "Failed to create artifact: " + o.tar.err + "\nOutput: " + o.tar.output, now);
        return Some("failed to create artifact: " + o.tar.err);
      }
      SendLog(id, "Uploading artifact to storage...", now);
      var upErr := UploadArtifactResult(o);
      if upErr.Some? {
        SendLog(id, "Failed to upload artifact: " + upErr.value, now);
        return Some("failed to upload artifact: " + upErr.value);
      }
      SendLog(id, "Artifact uploaded successfully", now);
      err := None;
    }

    method CloneRepository(req: BuildRequestMessage, o: B.Oracle, now: Time) returns (failure: Option<string>)
      modifies producer
      ensures producer.sent == old(producer.sent) + CloneEvents(EnvAt(now), req, o).0
      ensures failure == CloneEvents(EnvAt(now), req, o).1
    {
      SendLog(req.id, "Cloning repository...", now);
      if !o.clone.ok {
        SendLog(req.id, "Clone failed: " + o.clone.err + "\nOutput: " + o.clone.output, now);
        return Some("Failed to clone repository: " + o.clone.err);
      }
      SendLog(req.id, "Repository cloned successfully\n" + o.clone.output, now);
      failure := None;
    }

    method CheckoutBranch(req: BuildRequestMessage, o: B.Oracle, now: Time) returns (failure: Option<string>)
      modifies producer
      ensures producer.sent == old(producer.sent) + CheckoutEvents(EnvAt(now), req, o).0
      ensures failure == CheckoutEvents(EnvAt(now), req, o).1
    {
      failure := None;
      if B.NeedsCheckout(req.branch) {
        SendLog(req.id, "Checking out branch: " + req.branch, now);
        if !o.checkout.ok {
          SendLog(req.id, "Checkout failed: " + o.checkout.err + "\nOutput: " + o.checkout.output, now);
          return Some("Failed to checkout branch: " + o.checkout.err);
        }
        SendLog(req.id, "Branch checked out successfully\n" + o.checkout.output, now);
      } else {
        assert old(producer.sent) + [] == producer.sent;
      }
    }

    method Complete(req: BuildRequestMessage, o: B.Oracle, now: Time) returns (err: Option<B.BuilderError>)
      modifies producer
      ensures producer.sent == old(producer.sent) + FinishEvents(EnvAt(now), req, o).0
      ensures err == FinishEvents(EnvAt(now), req, o).1
    {
      var ok := producer.SendMessage(CompletionsTopic, req.id,
        CompletionMsg(BuildCompletionMessage(req.id, "success", "/artifacts/" + req.id, o.elapsedMs, now)));
      if !ok {
        return Some(B.SendFailed(CompletionsTopic));
      }
      ok := producer.SendMessage(StatusTopic, req.id, StatusMsg(BuildStatusMessage(req.id, "completed", "Build completed successfully", now)));
      err := if ok then None else Some(B.SendFailed(StatusTopic));
    }

    method RunAfterBuild(req: BuildRequestMessage, o: B.Oracle, now: Time) returns (err: Option<B.BuilderError>)
      modifies producer
      ensures producer.sent == old(producer.sent) + AfterBuildEvents(EnvAt(now), req, o).0
      ensures err == AfterBuildEvents(EnvAt(now), req, o).1
    {
      ghost var t := producer.sent;
      var failure := CreateAndUploadArtifact(req.id, o, now);
      ghost var art := producer.sent[|t|..];
      assert producer.sent == t + art;
      if failure.Some? {
        err := FailBuild(req.id, "Failed to create artifact: " + failure.value, now);
        Assoc(t, art, FailBuildEvents(EnvAt(now), req.id, "Failed to create artifact: " + failure.value).0);
        return;
      }
      err := Complete(req, o, now);
      Assoc(t, art, FinishEvents(EnvAt(now), req, o).0);
    }

    method RunAfterCheckout(req: BuildRequestMessage, o: B.Oracle, now: Time) returns (err: Option<B.BuilderError>)
      modifies producer
      ensures producer.sent == old(producer.sent) + AfterCheckoutEvents(EnvAt(now), req, o).0
      ensures err == AfterCheckoutEvents(EnvAt(now), req, o).1
    {
      ghost var t := producer.sent;
      var failure := ExecuteBuild(req.id, o, now);
      ghost var built := producer.sent[|t|..];
      assert producer.sent == t + built;
      if failure.Some? {
        err := FailBuild(req.id, failure.value, now);
        Assoc(t, built, FailBuildEvents(EnvAt(now), req.id, failure.value).0);
        return;
      }
      err := RunAfterBuild(req, o, now);
      Assoc(t, built, AfterBuildEvents(EnvAt(now), req, o).0);
    }

    method RunAfterStart(req: BuildRequestMessage, o: B.Oracle, now: Time) returns (err: Option<B.BuilderError>)
      modifies producer
      ensures producer.sent == old(producer.sent) + AfterStartEvents(EnvAt(now), req, o).0
      ensures err == AfterStartEvents(EnvAt(now), req, o).1
    {
      if !o.mkdir.ok {
        err := FailBuild(req.id, "Failed to create build directory: " + o.mkdir.err, now);
        return;
      }
      ghost var t := producer.sent;
      var failure := CloneRepository(req, o, now);
      ghost var cl := producer.sent[|t|..];
      assert producer.sent == t + cl;
      if failure.Some? {
        err := FailBuild(req.id, failure.value, now);
        Assoc(t, cl, FailBuildEvents(EnvAt(now), req.id, failure.value).0);
        return;
      }
      failure := CheckoutBranch(req, o, now);
      ghost var co := producer.sent[|t + cl|..];
      assert producer.sent == t + cl + co;
      Assoc(t, cl, co);
      if failure.Some? {
        err := FailBuild(req.id, failure.value, now);
        Assoc(t, cl + co, FailBuildEvents(EnvAt(now), req.id, failure.value).0);
        return;
      }
      err := RunAfterCheckout(req, o, now);
      Assoc(t, cl + co, AfterCheckoutEvents(EnvAt(now), req, o).0);
    }

    method ProcessBuildJob(req: BuildRequestMessage, o: B.Oracle, now: Time) returns (err: Option<B.BuilderError>)
      modifies producer
      ensures producer.sent == old(producer.sent) + ProcessBuildJobEvents(EnvAt(now), req, o).0
      ensures err == ProcessBuildJobEvents(EnvAt(now), req, o).1
    {
      var ok := producer.SendMessage(StatusTopic, req.id, StatusMsg(BuildStatusMessage(req.id, "in-progress", "Build started", now)));
      if !ok {
        return Some(B.SendFailed(StatusTopic));
      }
      ghost var t := producer.sent;
      err := RunAfterStart(req, o, now);
      Assoc(t[..|t| - 1], [t[|t| - 1]], AfterStartEvents(EnvAt(now), req, o).0);
      assert t[..|t| - 1] + [t[|t| - 1]] == t;
    }
  }
}
