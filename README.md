# A verified model of the build pipeline services

The repository is a small distributed build system written in Go, in two
generations: the current services at the top level and an earlier set under
`gobuild/`. The services talk over Kafka topics and share one Redis instance.

- The API gateway authenticates users with JWTs and keeps users in Redis
  under `user:<id>`, with the index `user:email:<email>`. It publishes build
  requests on `build-requests`.
- The build orchestrator stores each job under `build:<id>`, ranks it in the
  sorted set `builds:by_date`, and hands it to a builder on `build-jobs`. It
  folds status and completion messages back into the record.
- The builder clones the repository, checks out a branch, builds it with
  `build.sh` or by project type (Node.js or Go), uploads a `.tar.gz` artifact
  to the storage service, and reports progress. Progress goes out on
  `build-logs`, `build-status` and `build-completions`. The current builder
  also appends each log line to `logs:<id>` and merges its status into
  `build:status:<id>`.
- The storage service saves artifacts as `<id>-<YYYYMMDD-HHMMSS>.tar.gz` and
  serves the first file, in name order, that matches an id.
- The status dashboard lists builds and serves one build with its log. The
  notification service fans build events out to WebSocket clients, each with
  an optional build filter.
- The shared Kafka consumer subscribes with bounded retries and exponential
  back-off, then polls until a signal or a fatal error.

The Dafny modules follow the Go files: one module per service file
(`Auth`, `Users`, `Orchestrator`, `BuilderService`, `Storage`, `Dashboard`,
`Notification`, `Consumer` and their `Gobuild*` counterparts). They sit on
shared modules for strings (`Util`), the wire messages (`Message`), the
build record (`Model`), Redis (`Store`) and the Kafka producer (`Bus`).

How the model is built:

- Services that keep state are classes over a `Redis` object and a
  `Producer`. The producer records every message it tries to send; a
  function `accept` stands for the broker's answer.
- Pure steps are functions. Each imperative method is proved equal to a
  specification function, and the properties are lemmas about those
  functions.
- Subprocesses, the file system, the HTTP upload and the clock are
  parameters. The builder's `Oracle` holds the outcome of each subprocess
  and of the upload, and the work directory's file names.

## Model

| member | source | states |
|---|---|---|
| Util.Split | builder/main.go:154 | strings.Split on one separator never returns an empty slice |
| Util.JoinSplit | builder/main.go:154 | joining the pieces with the separator gives back the input |
| Util.SplitPiecesFree | builder/main.go:154 | no piece holds the separator |
| Util.SplitJoin | api-gateway/auth/jwt.go:100 | joining separator-free pieces and splitting again gives the pieces back |
| Util.SplitFree | api-gateway/auth/jwt.go:100 | a string without the separator splits into itself alone |
| Util.TrimLeft | builder/main.go:154 | the result is a suffix of the input that does not start with white space, and everything dropped is white space |
| Util.TrimRight | builder/main.go:154 | the result is a prefix of the input that does not end with white space, and everything dropped is white space |
| Util.TrimSpace | builder/main.go:154 | strings.TrimSpace gives a slice of the input with only white space before and after it, and that slice neither starts nor ends with white space |
| Util.TrimSpaceUnique | builder/main.go:154 | any slice of the input that has only white space around it and none at its own ends is what strings.TrimSpace returns, so the result is determined |
| Util.TrimmedIsPadded | builder/main.go:154 | trimming the left and then the right leaves a slice with only white space around it |
| Util.TrimSpaceTrimmed | builder/main.go:154 | text with no white space at either end is left alone |
| Util.NonEmpty | builder/main.go:155-156 | dropping empty lines never makes the list longer |
| Util.NonEmptyAppend | builder/main.go:155-156 | dropping empty lines distributes over concatenation |
| Util.NonEmptyKeeps | builder/main.go:155-156 | every line kept is non-empty and comes from the input |
| Util.LinesAreLines | builder/main.go:154-156 | every line sent is non-empty and holds no newline |
| Util.LinesOfBlank | builder/main.go:154-156 | blank text yields no lines |
| Util.LinesOfOneLine | builder/main.go:154-156 | a one-line message with no white space at either end is sent as a single line |
| Util.NatToString | builder/main.go:549 | decimal formatting yields at least one character, all of them digits |
| Util.DecimalValue | builder/main.go:549 | a one-digit string denotes that digit's value |
| Util.NatToStringValue | builder/main.go:549 | the digits %d prints denote the number itself, and only zero starts with the digit 0 |
| Message.UnixSeconds | build-orchestrator/main.go:159 | time.Time.Unix: the whole seconds since 1970, rounded towards minus infinity |
| Message.JsonKeys | shared/message/message.go:7-35 | a request writes "id" and every other message writes "build_id" instead; a completion writes artifact_url exactly when it is non-empty |
| Message.Encode | shared/message/message.go:7-35 | decoding what a producer wrote gives back the message's own fields, and every field only other messages have is at its zero value |
| Message.EncodeSetsOnlyItsKeys | shared/message/message.go:7-35 | a decoded field is set only when the JSON carries its key |
| Model.JobView | shared/model/build.go:8-22 | reading a record through the job-shaped struct keeps the request fields, the status and the update time, and zeroes message, URL, start, completion and duration |
| Model.JobViewIdempotent | shared/model/build.go:8-22 | reading a record through the job-shaped struct twice changes nothing more |
| Store.BuildKeyInjective | build-orchestrator/main.go:148-163 | different build ids have different build:<id> keys |
| Store.StatusKeyIsBuildKey | status-dashboard-api/main.go:55 | build:status:<id> is also a build:* key, that of "status:"+id, and differs from build:<id> |
| Store.Redis.constructor | builder/main.go:30 | a client starts from the given server state |
| Store.Redis.Lookup | builder/main.go:70-81 | GET answers the stored document exactly when the server is up and holds the key, redis.Nil exactly when it is up and does not, and an error exactly when it is down |
| Store.Redis.Get | builder/main.go:70-81 | GET returns an error when the server is down, the stored document when it holds the key, and redis.Nil otherwise |
| Store.Redis.Set | builder/main.go:144 | SET replaces the key's document when the server is up; nothing else changes |
| Store.Redis.Range | status-dashboard-api/main.go:114 | LRANGE 0 -1 is the whole list, and empty for a missing key or a server that is down |
| Store.Redis.RPush | builder/main.go:48 | RPUSH appends one value at the end of the list when the server is up; nothing else changes |
| Store.Redis.SetAndRank | build-orchestrator/main.go:148-163 | the SET and ZADD pipeline stores the document and the member's score together, or neither when the server is down |
| Store.Redis.Keys | gobuild/status-dashboard-api/main.go:47-53 | KEYS prefix* gives every key with that prefix exactly once, and nothing when the server is down |
| Store.Redis.RankAll | status-dashboard-api/main.go:45 | ZREVRANGE gives every member exactly once, highest score first |
| Store.Redis.Highest | status-dashboard-api/main.go:45 | the member picked has a score no other remaining member exceeds |
| Bus.Producer.constructor | gobuild/shared/kafka/producer.go:44-68 | a new producer has sent nothing |
| Bus.Producer.SendMessage | gobuild/shared/kafka/producer.go:44-68 | every send is recorded in order, and it succeeds exactly when the broker accepts it |
| Auth.GetEnv | api-gateway/auth/jwt.go:20-26 | the variable's value when it is set and non-empty, the fallback otherwise |
| Auth.Utf8Char | api-gateway/auth/jwt.go:15 | a character's bytes number one to four, and exactly one, equal to its code, for ASCII |
| Auth.Utf8 | api-gateway/auth/jwt.go:15 | []byte of a string holds between one and four bytes per character, one per character for ASCII text |
| Auth.Utf8Width | api-gateway/auth/jwt.go:15 | a lead byte announces a sequence of one to four bytes |
| Auth.Scalars | api-gateway/auth/jwt.go:15 | the code points of a string, one per character |
| Auth.Utf8CharDecodes | api-gateway/auth/jwt.go:15 | each character's bytes start with a lead byte giving their number and decode back to the character |
| Auth.Utf8RoundTrip | api-gateway/auth/jwt.go:15 | decoding the bytes of a string gives back its characters |
| Auth.Utf8Injective | api-gateway/auth/jwt.go:15 | different strings have different bytes |
| Auth.Utf8Ascii | api-gateway/auth/jwt.go:15 | the bytes of ASCII text are its character codes |
| Auth.SecretKeyExact | api-gateway/auth/jwt.go:15 | two environments sign with the same key exactly when JWT_SECRET, or the default, names the same secret |
| Auth.NumericDate | api-gateway/auth/jwt.go:44-46 | a NumericDate is the instant truncated to a whole second, at most one second earlier |
| Auth.GenerateToken | api-gateway/auth/jwt.go:35-60 | an HS256 token signed with the secret, carrying id, email and role, issuer "gobuild-api", subject = user id, the given token id, issued and not-before at the issue second, expiring 24 hours later |
| Auth.KeyFor | api-gateway/auth/jwt.go:63-69 | the key callback hands out the secret exactly for HMAC methods and refuses every other method |
| Auth.ValidateToken | api-gateway/auth/jwt.go:62-80 | claims are returned exactly when the text parses, is signed with HMAC under the secret, is not expired and is already valid; they are the token's own claims |
| Auth.GeneratedTokenWindow | api-gateway/auth/jwt.go:35-80 | a generated token is accepted from its issue second until exactly 24 hours after it, and at no other time |
| Auth.ForeignTokenRefused | api-gateway/auth/jwt.go:62-80 | a token signed with another key or with a non-HMAC method is refused at every time |
| Auth.BearerToken | api-gateway/auth/jwt.go:100-104 | a token is extracted only when the header is exactly "Bearer " followed by a text without spaces |
| Auth.BearerTokenComplete | api-gateway/auth/jwt.go:100-104 | every "Bearer " + space-free token yields that token (the converse of BearerToken's contract) |
| Auth.BearerStrict | api-gateway/auth/jwt.go:100-104 | "bearer x" and "Bearer  x" are refused: the scheme is case-sensitive and spaces are not collapsed |
| Auth.Gate | api-gateway/auth/jwt.go:83-116 | OPTIONS and the three public paths pass without a check; a missing header is refused with "Authorization header is required"; a request is authorized exactly when its bearer token validates, with that token's claims |
| Auth.FreshTokenAuthorizes | api-gateway/auth/jwt.go:35-116 | a token generated with the environment's secret and presented within its 24 hours authorizes any protected route with its claims |
| GobuildAuth.SecretBytes | gobuild/api-gateway/auth/jwt.go:13 | the fixed key is the ASCII codes of "your-secret-key", one byte per character |
| GobuildAuth.GenerateToken | gobuild/api-gateway/auth/jwt.go:23-41 | an HS256 token signed with "your-secret-key", with id, email and role, issued at the issue second, expiring 24 hours later, and no issuer, subject, not-before or token id |
| GobuildAuth.KeyFor | gobuild/api-gateway/auth/jwt.go:44-46 | the key callback hands out the secret whatever the signing method |
| GobuildAuth.ValidateToken | gobuild/api-gateway/auth/jwt.go:43-57 | claims are returned exactly when the text parses, verifies under the secret and is not expired |
| GobuildAuth.SameTokensAccepted | gobuild/api-gateway/auth/jwt.go:43-57 | not checking the method accepts exactly the tokens that the later validation, which checks it, accepts with the same secret |
| GobuildAuth.GeneratedTokenWindow | gobuild/api-gateway/auth/jwt.go:23-57 | a generated token is accepted until 24 hours after its issue second, and also at every earlier time, since it has no not-before claim |
| GobuildAuth.Gate | gobuild/api-gateway/auth/jwt.go:60-91 | OPTIONS, /api/login and /health pass; otherwise the same refusals as the later gateway, and authorization exactly when the bearer token validates |
| GobuildAuth.RegisterNeedsToken | gobuild/api-gateway/auth/jwt.go:64 | POST /api/register without a token is refused here and passed through by the later gateway |
| Users.Hash | api-gateway/users/model.go:59 | GenerateFromPassword with a given salt: a "$2a$10$" hash whose length is fixed by the password's |
| Users.HashMatchesExactly | api-gateway/users/model.go:135 | CompareHashAndPassword accepts a hash for the password it was made from and for no other; the empty hash matches nothing |
| Users.Stored | api-gateway/users/model.go:66-73 | the stored record carries the user's id, email, hash, role and both times |
| Users.Loaded | api-gateway/users/model.go:117-124 | the user read back from a record stores as that record and has no plaintext password |
| Users.Hashed | api-gateway/users/model.go:63-64 | after hashing, the plaintext is cleared, the hash matches the old plaintext, and nothing else changes |
| Users.CreatedRoundTrip | api-gateway/users/model.go:63-124 | storing the created user and reading the record back gives that same user |
| Users.EmailKeyIsUserKey | api-gateway/users/model.go:83-84 | the index key of an email is the record key of the id "email:" + email |
| Users.IdKeyIsNotIndex | api-gateway/users/model.go:83-84 | an id that does not start with "email:" has a record key different from every index key |
| Users.UserStore.constructor | api-gateway/users/model.go:43-47 | a store over an empty database that is reachable or not |
| Users.UserStore.GetByID | api-gateway/users/model.go:102-127 | a user exactly for a record under user:<id>; "user not found" exactly for a missing key; a connection failure as an error; other text as a decode error |
| Users.UserStore.GetByEmail | api-gateway/users/model.go:90-100 | "user not found" for an unindexed email; otherwise the result of GetByID on the indexed id |
| Users.UserStore.Authenticate | api-gateway/users/model.go:129-141 | the user found by email exactly when the password matches its hash; "invalid credentials" when it does not; lookup errors unchanged |
| Users.UserStore.Create | api-gateway/users/model.go:49-87 | an indexed email is refused as "user already exists" and a hashing failure as an error, both with no change; otherwise both SETs of the pipeline, of which those applied take effect; after a full success the email and password authenticate as the created user and every other password is refused |
| Users.HashMatchesForall | api-gateway/users/model.go:135 | a hash matches exactly the one password it was made from, for all candidate passwords |
| GobuildUsers.Public | gobuild/api-gateway/users/model.go:20-28 | the JSON of a User carries id, email, role and both times, and nothing else |
| GobuildUsers.Loaded | gobuild/api-gateway/users/model.go:100-106 | a User decoded from that JSON has an empty password and an empty hash |
| GobuildUsers.UserStore.constructor | gobuild/api-gateway/users/model.go:36-40 | a store over an empty database that is reachable or not |
| GobuildUsers.UserStore.GetByID | gobuild/api-gateway/users/model.go:91-107 | a user exactly for a record under user:<id>, always with an empty hash; "user not found" exactly for a missing key |
| GobuildUsers.UserStore.GetByEmail | gobuild/api-gateway/users/model.go:76-88 | "user not found" for an unindexed email, otherwise GetByID of the indexed id; every user it returns has an empty hash |
| GobuildUsers.UserStore.Authenticate | gobuild/api-gateway/users/model.go:110-123 | as written: every user found by email is refused as "invalid credentials" |
| GobuildUsers.UserStore.Create | gobuild/api-gateway/users/model.go:43-73 | the same refusals and pipeline as the later store, but the record written omits the hash, so after a full success the email finds the user and every password is refused |
| Consumer.Grow | shared/kafka/consumer.go:52 | the next delay is one and a half times the last, rounded down |
| Consumer.Delay | shared/kafka/consumer.go:36-52 | every delay is at least the initial two seconds |
| Consumer.Delays | shared/kafka/consumer.go:36-52 | the first n sleeps, one per failed attempt |
| Consumer.DelaysGrow | shared/kafka/consumer.go:36-52 | the k-th sleep is the k-th delay; the first is two seconds and they never shrink |
| Consumer.Outcome | shared/kafka/consumer.go:39-56 | Subscribe makes at least one and at most 15 SubscribeTopics calls |
| Consumer.OutcomeFacts | shared/kafka/consumer.go:39-56 | Subscribe succeeds exactly when some attempt succeeds, and then makes no further call; otherwise all 15 attempts are made and the last error is returned |
| Consumer.OutcomeSkip | shared/kafka/consumer.go:39-56 | failed attempts before the i-th do not change the outcome |
| Consumer.StopAt | shared/kafka/consumer.go:63-94 | the loop ends at or before the last observation |
| Consumer.StopAtIs | shared/kafka/consumer.go:66-90 | the loop ends at the first signal or all-brokers-down error, and only there |
| Consumer.Delivered | shared/kafka/consumer.go:76-80 | the handler sees at most one message per observation |
| Consumer.NoStopDeliversAll | shared/kafka/consumer.go:71-92 | with no signal and no all-brokers-down error, every message is handed to the handler; other errors and empty polls do not end the loop |
| Consumer.KafkaConsumer.constructor | shared/kafka/consumer.go:20-32 | a consumer that has made no call, slept no time and handled no message |
| Consumer.KafkaConsumer.Subscribe | shared/kafka/consumer.go:34-57 | the error and the number of calls are those of Outcome, and the sleeps taken are the delays before every attempt but the first |
| Consumer.KafkaConsumer.ConsumeMessages | shared/kafka/consumer.go:59-95 | it reports a stop exactly when a stopping observation occurs, and the handler has then seen exactly the messages before it, in order, whatever the handler returns |
| Orchestrator.Queued | build-orchestrator/main.go:37-48 | a request starts as a "queued" record carrying the request's fields and the queued message, updated now, neither started nor completed |
| Orchestrator.WithStatus | build-orchestrator/main.go:89-98 | a status message sets status, message and update time, keeps the request fields and the completion fields, and never moves a StartedAt already set |
| Orchestrator.WithCompletion | build-orchestrator/main.go:120-124 | a completion sets status, artifact URL, duration, update and completion time, and keeps the request fields, message and StartedAt |
| Orchestrator.RequestFieldsKept | build-orchestrator/main.go:89-124 | no sequence of status and completion messages changes the fields copied from the request |
| Orchestrator.StartedAtSetOnce | build-orchestrator/main.go:94-98 | once StartedAt is set, no later message moves it |
| Orchestrator.StartedAtIsFirstStart | build-orchestrator/main.go:94-98 | from a record that never started, StartedAt ends up set exactly when some message reports in-progress, and then holds the time of the first such message |
| Orchestrator.TerminalRecordsAreOverwritten | build-orchestrator/main.go:89-92 | a status message reopens a completed record: statuses are not monotone |
| Orchestrator.RouteOf | build-orchestrator/main.go:240-262 | a payload with an id is a request; one with a build id and an artifact URL is a completion; one with a build id and no URL is a status update; the rest are dropped |
| Orchestrator.RoutesOfMessages | build-orchestrator/main.go:240-262 | requests, status messages and completions with an artifact URL each reach their own handler |
| Orchestrator.FailureCompletionHandledAsStatus | build-orchestrator/main.go:249-259 | a failure completion without an artifact URL is handled as a status update with an empty message and the zero time, and CompletedAt stays unset |
| Orchestrator.SuccessStoresUndocumentedStatus | build-orchestrator/main.go:120 | a successful completion stores "success", which is not one of the documented record statuses |
| Orchestrator.BuildOrchestrator.constructor | build-orchestrator/main.go:26-31 | an orchestrator over the given Redis and producer |
| Orchestrator.BuildOrchestrator.StoreBuildStatus | build-orchestrator/main.go:143-165 | build:<id> and the id's rank (the creation time in Unix seconds) are written together or not at all |
| Orchestrator.BuildOrchestrator.GetBuildStatus | build-orchestrator/main.go:168-191 | the record exactly when build:<id> holds one that decodes; "not found" for a missing key; a store error when Redis is down |
| Orchestrator.BuildOrchestrator.ProcessBuildRequest | build-orchestrator/main.go:34-76 | the queued record is stored and ranked, then announced on build-status, then the request is sent on build-jobs; each step runs only when the one before succeeded, and success means all three did |
| Orchestrator.BuildOrchestrator.ProcessBuildStatus | build-orchestrator/main.go:79-107 | a stored record is replaced by WithStatus of it and re-ranked; without one nothing changes and an error is returned; nothing is published |
| Orchestrator.BuildOrchestrator.ProcessBuildCompletion | build-orchestrator/main.go:110-140 | a stored record is replaced by WithCompletion of it and "Build <status>" is announced on build-status; without one nothing changes or is sent |
| Orchestrator.BuildOrchestrator.HandleMessage | build-orchestrator/main.go:240-262 | each payload has exactly the effect and error of the handler RouteOf picks: a request is stored, ranked, announced and dispatched as ProcessBuildRequest states, a status or completion is folded into the stored record as ProcessBuildStatus and ProcessBuildCompletion state; an unrecognised one changes nothing and is not an error |
| GobuildOrchestrator.NewJob | gobuild/build-orchestrator/main.go:51-60 | a request starts as a "queued" job carrying the request's fields, updated now |
| GobuildOrchestrator.JobRecord | gobuild/build-orchestrator/main.go:20-29 | the JSON of a job is a record with only the job's fields, unchanged by reading it as a job |
| GobuildOrchestrator.JobRoundTrip | gobuild/build-orchestrator/main.go:149-150 | storing a job and reading it back gives the job; reading any record keeps exactly the job's fields |
| GobuildOrchestrator.ForwardMissesBuilder | gobuild/build-orchestrator/main.go:90-91 | the forwarded request goes to build-requests, which no builder consumes and this service consumes, and it is read back as the same request |
| GobuildOrchestrator.BuildOrchestrator.constructor | gobuild/build-orchestrator/main.go:40-46 | an orchestrator with an empty job cache |
| GobuildOrchestrator.BuildOrchestrator.ProcessBuildRequest | gobuild/build-orchestrator/main.go:49-92 | the queued job is cached whatever happens next, then stored, then "Build queued" is announced, then the request is forwarded; each step runs only when the one before succeeded |
| GobuildOrchestrator.BuildOrchestrator.UpdateBuildStatus | gobuild/build-orchestrator/main.go:95-126 | an uncached id is "not found" with no change; otherwise the cached job takes the status and time first, then it is stored and announced, so a failed store leaves cache and store disagreeing |
| GobuildOrchestrator.BuildOrchestrator.GetBuildJob | gobuild/build-orchestrator/main.go:129-161 | a cached job is returned as is; otherwise build:<id> is read, and a decoded job is cached under the id it carries; missing, unreachable and undecodable records are errors |
| GobuildOrchestrator.BuildOrchestrator.HandleMessage | gobuild/build-orchestrator/main.go:196-204 | every payload is processed as a request, even one without an id: the job is cached, stored, announced and forwarded, with the error, exactly as ProcessBuildRequest states |
| Orchestrator.DispatchReachesBuilder | build-orchestrator/main.go:68-72 | the dispatched request goes to build-jobs, which the builders consume and this service does not, and it is read there as the same request |
| BuilderService.DetectProjectType | builder/main.go:614-626 | "node" exactly when package.json is present, "go" exactly when only go.mod is, "unknown" exactly when neither is |
| BuilderService.DetectNodePackageManager | builder/main.go:628-642 | the first lock file in the order pnpm-lock.yaml, package-lock.json, yarn.lock decides; each answer holds exactly under its condition |
| BuilderService.PackageManager | builder/main.go:314-317 | the manager run is always pnpm, npm or yarn, and is npm exactly when detection said npm or unknown |
| BuilderService.Pushed | builder/main.go:44-61 | RPUSH appends the entries to the list at the key, and nothing when Redis is down |
| BuilderService.LogAllTwice | builder/main.go:153-169 | publishing and storing two batches of lines one after the other equals doing both batches at once |
| BuilderService.SayEffect | builder/main.go:153-169 | sendLogLines publishes exactly the non-blank lines of the trimmed text, in order, on build-logs and appends them to logs:<id>; no document and no other list changes |
| BuilderService.SayBlank | builder/main.go:153-169 | blank text publishes and stores nothing |
| BuilderService.LogEventsOnLogs | builder/main.go:158-163 | every log event goes to build-logs |
| BuilderService.StatusBase | builder/main.go:66-122 | the record the update starts from: a parsed build:status:<id>; else the build:<id> record decoded as a job, with no user, message, URL, start, end or duration; else a blank record created now; an undecodable document gives a blank record |
| BuilderService.Marked | builder/main.go:124-135 | the written record has the id, the new status and the time; an empty message or URL keeps the base's; every other field, user and start, end and duration included, is the base's |
| BuilderService.MarkStatusKeepsRecord | builder/main.go:124-144 | with no message and no URL, an earlier build:status:<id> record is rewritten with only its id, status and update time changed |
| BuilderService.MarkStatusFromJobDropsUser | builder/main.go:79-106 | the first status written for a build known only as build:<id> keeps its repository, branch, commit and creation time but loses its user |
| BuilderService.MarkStatusTwice | builder/main.go:63-151 | two updates in a row equal one with the later status, the later message and URL winning unless empty |
| BuilderService.OnTopics | builder/main.go:163-283 | the sub-trace of events on some topics is no longer than the trace |
| BuilderService.OnTopicsAppend | builder/main.go:163-283 | filtering by topic distributes over concatenation |
| BuilderService.QuietAppend | builder/main.go:163 | events on other topics leave the filtered trace unchanged |
| BuilderService.StartReports | builder/main.go:175-190 | the announcement adds only the in-progress status to the reported progress |
| BuilderService.CloneQuiet | builder/main.go:210-228 | the clone step sends no status and no completion |
| BuilderService.CheckoutQuiet | builder/main.go:230-250 | the checkout step sends no status and no completion |
| BuilderService.NodeQuiet | builder/main.go:311-360 | the Node.js build sends no status and no completion |
| BuilderService.ExecuteBuildQuiet | builder/main.go:287-434 | the build step sends no status and no completion, whatever it runs |
| BuilderService.UploadCompletions | builder/main.go:547-576 | the upload reports one success completion with the full storage URL exactly when it gets a 200 answer |
| BuilderService.ArtifactCompletions | builder/main.go:437-495 | the artifact step reports that one completion when it succeeds and none when it fails |
| BuilderService.FailBuildCompletions | builder/main.go:580-611 | failBuild reports exactly one failure completion with no URL and zero duration |
| BuilderService.FinishCompletions | builder/main.go:262-283 | the end of a successful job reports one success completion with /artifacts/<id> and the elapsed time |
| BuilderService.AfterBuildCompletions | builder/main.go:257-283 | after the build, the job reports one failure, or the two success completions |
| BuilderService.AfterCheckoutCompletions | builder/main.go:252-283 | after checkout, the job reports one failure, or the two success completions |
| BuilderService.AfterStartCompletions | builder/main.go:196-283 | after the announcement, the job reports one failure, or the two success completions |
| BuilderService.JobCompletions | builder/main.go:172-284 | a job whose in-progress status is refused reports no completion; any other job reports one failure completion, or the upload's success completion followed by the final one |
| BuilderService.RefusedAnnouncementEndsJob | builder/main.go:190-194 | a refused in-progress status ends the job with that error, and the in-progress status is the only report it sent |
| BuilderService.CheckoutOnlyOffDefaultBranches | builder/main.go:231-250 | with no branch, main or master the checkout step does nothing; otherwise it succeeds exactly when git checkout does |
| BuilderService.ScriptBypassesDetection | builder/main.go:287-296 | with build.sh present the build's outcome does not depend on the other files or on the install or build results |
| BuilderService.UnknownProjectFails | builder/main.go:299-307 | with no build.sh, package.json or go.mod the build fails with the unknown-project error and sends nothing |
| BuilderService.InstallFailureSkipsBuild | builder/main.go:330-335 | a failed install ends the Node.js build with the install error, whatever the build result |
| BuilderService.FailBuildTrace | builder/main.go:580-611 | failBuild sends the failure log, then the failure completion, then the failed status only if the completion was accepted; it stores the log line and touches no record; it succeeds exactly when both sends are accepted |
| BuilderService.Builder.constructor | builder/main.go:34-42 | the builder keeps its Redis client, producer and storage URL |
| BuilderService.Builder.StoreBuildLog | builder/main.go:44-61 | RPUSH onto logs:<id> and nothing else |
| BuilderService.Builder.SendLogLine | builder/main.go:156-167 | one line published on build-logs and stored |
| BuilderService.Builder.SendLogLines | builder/main.go:153-169 | the loop agrees with the sendLogLines specification |
| BuilderService.Builder.UpdateBuildStatusInRedis | builder/main.go:63-151 | the new state is the merged record under build:status:<id> |
| BuilderService.Builder.FailBuild | builder/main.go:580-611 | agrees with the failBuild specification |
| BuilderService.Builder.Publish | builder/main.go:364-369 | one log entry sent as it is |
| BuilderService.Builder.RunBuildScript | builder/main.go:400-434 | agrees with the build-script specification |
| BuilderService.Builder.BuildGoProject | builder/main.go:363-397 | agrees with the go build specification |
| BuilderService.Builder.BuildNodeProject | builder/main.go:311-360 | agrees with the Node.js build specification |
| BuilderService.Builder.ExecuteBuild | builder/main.go:287-308 | agrees with executeBuild: build.sh, else by project type |
| BuilderService.Builder.UploadArtifact | builder/main.go:498-577 | agrees with the upload specification |
| BuilderService.Builder.CreateAndUploadArtifact | builder/main.go:437-495 | agrees with the artifact specification |
| BuilderService.Builder.Announce | builder/main.go:175-190 | agrees with the announcement specification and returns whether the in-progress status was accepted |
| BuilderService.Builder.CloneRepository | builder/main.go:210-228 | agrees with the clone specification |
| BuilderService.Builder.CheckoutBranch | builder/main.go:230-250 | agrees with the checkout specification |
| BuilderService.Builder.Complete | builder/main.go:262-283 | agrees with the successful-end specification |
| BuilderService.Builder.RunAfterBuild | builder/main.go:257-283 | agrees with the post-build specification |
| BuilderService.Builder.RunAfterCheckout | builder/main.go:252-283 | agrees with the post-checkout specification |
| BuilderService.Builder.ProcessBuildJob | builder/main.go:172-284 | the whole job agrees with ProcessBuildJobOutcome, whose completions JobCompletions states |
| GobuildBuilderService.UploadArtifactResult | gobuild/builder/main.go:410-464 | the upload succeeds exactly when storage answers 200, and publishes nothing |
| GobuildBuilderService.LogsOnlyQuiet | gobuild/builder/main.go:69-139 | a run of log events reports no completion |
| GobuildBuilderService.NodeLogsOnly | gobuild/builder/main.go:199-272 | the Node.js build sends only log events |
| GobuildBuilderService.ExecuteBuildLogsOnly | gobuild/builder/main.go:175-346 | the build step sends only log events, whatever it runs |
| GobuildBuilderService.StepsLogOnly | gobuild/builder/main.go:69-139 | the clone and checkout steps, and the artifact step at lines 349-407, send only log events |
| GobuildBuilderService.UploadNeedsOk | gobuild/builder/main.go:458-461 | a non-200 answer fails the upload and the artifact step, and no completion is reported |
| GobuildBuilderService.FailBuildCompletions | gobuild/builder/main.go:467-497 | failBuild reports exactly the failure completion, with no URL and zero duration |
| GobuildBuilderService.FinishCompletions | gobuild/builder/main.go:151-171 | the end of a successful job reports exactly one success completion with /artifacts/<id> and the elapsed time |
| GobuildBuilderService.QuietPrefix | gobuild/builder/main.go:69-139 | log events before a tail do not change what the tail reports |
| GobuildBuilderService.AfterBuildCompletions | gobuild/builder/main.go:147-171 | after the build, the job reports exactly one completion: the failure or the success one |
| GobuildBuilderService.AfterCheckoutCompletions | gobuild/builder/main.go:142-171 | after checkout, the job reports exactly one completion: the failure or the success one |
| GobuildBuilderService.AfterStartCompletions | gobuild/builder/main.go:55-171 | after the in-progress status, the job reports exactly one completion: the failure or the success one |
| GobuildBuilderService.JobEvents | gobuild/builder/main.go:39-172 | the first event of every job is the in-progress status; if it is refused it is the only event and the job fails with that error; otherwise the job reports exactly one completion |
| GobuildBuilderService.CloneFailureLogsOnce | gobuild/builder/main.go:69-95 | a failed clone sends the in-progress status, the cloning log, one entry holding the error and the output, then failBuild's events |
| GobuildBuilderService.ScriptBypassesDetection | gobuild/builder/main.go:175-184 | with build.sh present the build's outcome does not depend on the other files or on the install or build results |
| GobuildBuilderService.CheckoutOnlyOffDefaultBranches | gobuild/builder/main.go:105-140 | with no branch, main or master the checkout step does nothing; otherwise it succeeds exactly when git checkout does |
| GobuildBuilderService.InstallFailureSkipsBuild | gobuild/builder/main.go:227-236 | a failed install ends the Node.js build with the install error, whatever the build result |
| GobuildBuilderService.Builder.constructor | gobuild/builder/main.go:29-36 | the builder keeps its producer and storage URL |
| GobuildBuilderService.Builder.SendLog | gobuild/builder/main.go:69-74 | one log entry sent as it is |
| GobuildBuilderService.Builder.FailBuild | gobuild/builder/main.go:467-497 | sends exactly failBuild's events and returns its error |
| GobuildBuilderService.Builder.RunBuildScript | gobuild/builder/main.go:312-346 | sends exactly the build-script events and returns its error |
| GobuildBuilderService.Builder.BuildGoProject | gobuild/builder/main.go:275-309 | sends exactly the go build events and returns its error |
| GobuildBuilderService.Builder.BuildNodeProject | gobuild/builder/main.go:199-272 | sends exactly the Node.js build events and returns its error |
| GobuildBuilderService.Builder.ExecuteBuild | gobuild/builder/main.go:175-196 | sends exactly executeBuild's events: build.sh, else by project type |
| GobuildBuilderService.Builder.CreateAndUploadArtifact | gobuild/builder/main.go:349-407 | sends exactly the artifact events and returns its error |
| GobuildBuilderService.Builder.CloneRepository | gobuild/builder/main.go:69-103 | sends exactly the clone events |
| GobuildBuilderService.Builder.CheckoutBranch | gobuild/builder/main.go:105-140 | sends exactly the checkout events |
| GobuildBuilderService.Builder.Complete | gobuild/builder/main.go:151-171 | sends exactly the successful-end events |
| GobuildBuilderService.Builder.RunAfterBuild | gobuild/builder/main.go:147-171 | sends exactly the post-build events |
| GobuildBuilderService.Builder.RunAfterCheckout | gobuild/builder/main.go:142-171 | sends exactly the post-checkout events |
| GobuildBuilderService.Builder.RunAfterStart | gobuild/builder/main.go:55-171 | sends exactly the events after the in-progress status |
| GobuildBuilderService.Builder.ProcessBuildJob | gobuild/builder/main.go:39-172 | the whole job sends exactly ProcessBuildJobEvents, whose completions JobEvents states |
| Storage.BelowIrreflexive | storage/main.go:36-43 | no name sorts before itself in the order Glob returns matches in |
| Storage.BelowTransitive | storage/main.go:36-43 | the name order is transitive |
| Storage.BelowTotal | storage/main.go:36-43 | any two different names are ordered one way or the other |
| Storage.BelowAsymmetric | storage/main.go:36-43 | two names are never each before the other |
| Storage.LeastExists | storage/main.go:36-43 | every non-empty set of matches has a first name |
| Storage.LeastUnique | storage/main.go:36-43 | that first name is unique |
| Storage.First | storage/main.go:43 | matches[0] is the name that sorts before every other match |
| Storage.Pad | storage/main.go:75 | a zero-padded field of the layout has exactly its width and holds only digits |
| Storage.PadInjective | storage/main.go:75 | two numbers padded to the same width give the same digits only when they are equal |
| Storage.Stamp | storage/main.go:75 | the layout "20060102-150405" gives 15 characters with the dash at position 8 |
| Storage.StampInjective | storage/main.go:74-75 | two clock readings give the same stamp only when they are the same second |
| Storage.FileName | storage/main.go:76 | the saved name is the build id followed by 23 characters: "-", the stamp and ".tar.gz" |
| Storage.FileNameInjective | storage/main.go:74-76 | two uploads share a name only for the same build id in the same second |
| Storage.SavedMatchesPrefix | storage/main.go:35-76 | a file saved for a build whose id starts with another id also matches that other id's pattern |
| Storage.Matching | storage/main.go:35-36 | the matches are exactly the stored names that start with the id and end in ".tar.gz" |
| Storage.StorageService.constructor | storage/main.go:19-23 | a service over an empty artifacts directory |
| Storage.StorageService.GetArtifact | storage/main.go:25-50 | 400 exactly for an empty id; 404 exactly when nothing matches; otherwise the first match in name order, with its content, offered as an attachment under its own name |
| Storage.StorageService.UploadArtifact | storage/main.go:52-94 | 400 with no change for an empty id or a form without an artifact; 500 with no change when the file cannot be created; 500 with the copied prefix written when the copy fails; 200 with the artifact saved under FileName, after which every non-empty prefix of the id finds an artifact |
| Dashboard.Present | status-dashboard-api/main.go:71-83 | the listing holds at most one record per listed id |
| Dashboard.PresentWhenAllParsed | status-dashboard-api/main.go:71-83 | when every listed id has a readable build:<id> record, the listing is exactly those records, in the order of the ids |
| Dashboard.PresentSkipsMissing | status-dashboard-api/main.go:72-80 | ids whose record is missing or unreadable contribute nothing |
| Dashboard.Route | status-dashboard-api/main.go:338-345 | every payload with a build id is appended as a log line, whatever message it was; the others are ignored |
| Dashboard.NonLogMessagesAppendEmptyLines | status-dashboard-api/main.go:338-345 | status and completion messages are appended as empty log lines |
| Dashboard.Suffixes | status-dashboard-api/main.go:63-67 | the fallback ids are exactly the non-empty suffixes of the build:* keys, each listed once, given keys that KEYS returns once each |
| Dashboard.StatusDashboard.constructor | status-dashboard-api/main.go:35-39 | a dashboard over the given Redis |
| Dashboard.StatusDashboard.ListIds | status-dashboard-api/main.go:44-68 | when builds are ranked: at most 100 distinct ranked ids, highest score first, none outranked by an id left out, and all of them when fewer than 100; otherwise every build:* key's non-empty suffix, each once; nothing when Redis is down |
| Dashboard.StatusDashboard.GetBuilds | status-dashboard-api/main.go:41-87 | the readable records of the listed ids, in their order; ranked ids are distinct, at most 100, highest score first, and no unlisted id outranks a listed one; in the fallback listing, each build:* key's non-empty suffix is listed once, so every build:status:<id> key shows up as the id "status:<id>" |
| Dashboard.StatusDashboard.GetBuild | status-dashboard-api/main.go:89-130 | 404 exactly for a missing build:<id>; the record with the whole logs:<id> list exactly for a readable one; a server error otherwise |
| Dashboard.StatusDashboard.ProcessBuildStatus | status-dashboard-api/main.go:133-209 | build:status:<id> is set to the updated record, nothing else changes, and GetBuild answers as before for every id but "status:<id>" |
| Dashboard.StatusDashboard.ProcessBuildLog | status-dashboard-api/main.go:212-223 | the entry is appended to the end of logs:<id>; nothing else changes |
| Dashboard.StatusDashboard.ProcessBuildCompletion | status-dashboard-api/main.go:226-297 | build:status:<id> is set to the completed record when an earlier record exists, otherwise nothing changes; GetBuild answers as before for every id but "status:<id>" |
| Dashboard.StatusDashboard.HandleMessage | status-dashboard-api/main.go:338-345 | the payload's entry is appended to logs:<build_id> when it has a build id and Redis is up; the records and the ranking never change |
| GobuildDashboard.CodecRoundTrip | gobuild/status-dashboard-api/main.go:105-130 | writing the dashboard's struct and reading it back loses only the log lines; the copy from the orchestrator's job is the job-shaped reading of the record |
| GobuildDashboard.WithId | gobuild/status-dashboard-api/main.go:80-83 | a status record without an id takes the id from its key; nothing else changes |
| GobuildDashboard.Entry | gobuild/status-dashboard-api/main.go:62-134 | an id with a build:status:<id> key is listed from that record, or not at all when it does not parse; otherwise it is listed from a parsed build:<id> record that is not itself a status key |
| GobuildDashboard.StatusKeyParts | gobuild/status-dashboard-api/main.go:64 | removing the 13-character prefix of a build:status:* key gives the id whose status key it is |
| GobuildDashboard.BuildKeyParts | gobuild/status-dashboard-api/main.go:91 | removing the 6-character prefix of a build:* key gives the id whose build key it is |
| GobuildDashboard.PlainKeyPrefix | gobuild/status-dashboard-api/main.go:47-53 | every build and status key matches its KEYS pattern |
| GobuildDashboard.SwappedPermutes | gobuild/status-dashboard-api/main.go:146 | swapping two neighbours keeps the same builds |
| GobuildDashboard.Pass | gobuild/status-dashboard-api/main.go:144-148 | one pass of the inner loop moves the oldest build of the prefix to its end, permutes the prefix and leaves the rest alone |
| GobuildDashboard.PassExtends | gobuild/status-dashboard-api/main.go:143-149 | each pass grows the sorted suffix by one and keeps the same builds |
| GobuildDashboard.SortedWhole | gobuild/status-dashboard-api/main.go:143-149 | a sorted suffix from position 1 that nothing before it is older than is the whole list sorted |
| GobuildDashboard.BubbleSort | gobuild/status-dashboard-api/main.go:142-149 | the builds end up newest first and are a permutation of the input |
| GobuildDashboard.Existing | gobuild/status-dashboard-api/main.go:235-274 | the update handlers start from a parsed build:status:<id> record when there is one, otherwise from a parsed build:<id> record, and only when Redis answers |
| GobuildDashboard.StatusUpdateKeeps | gobuild/status-dashboard-api/main.go:276-290 | a status update sets status, message and update time from the message and keeps every other field of an existing record; with no record it creates a minimal one created at the message's time |
| GobuildDashboard.CompletionUpdated | gobuild/status-dashboard-api/main.go:327-383 | a completion updates a record exactly when one exists, setting status, update time and artifact URL from the message |
| GobuildDashboard.EmptyUrlOverwrites | gobuild/status-dashboard-api/main.go:383 | a completion without an artifact URL erases a stored one |
| GobuildDashboard.Route | gobuild/status-dashboard-api/main.go:439-464 | every payload with a build id is taken as a status update, and every other payload is ignored |
| GobuildDashboard.EveryMessageIsAStatus | gobuild/status-dashboard-api/main.go:439-460 | log and completion messages are handled as status updates that blank the message and time (and, for a log, the status) |
| GobuildDashboard.StatusDashboard.constructor | gobuild/status-dashboard-api/main.go:36-41 | a dashboard over the given Redis |
| GobuildDashboard.StatusDashboard.CollectStatus | gobuild/status-dashboard-api/main.go:62-86 | the ids noted are those of every status key; those kept are exactly the ones whose record parses, each as Entry lists it |
| GobuildDashboard.StatusDashboard.CollectPlain | gobuild/status-dashboard-api/main.go:88-134 | the handler panics exactly when a build:* key is 7 to 12 characters long; otherwise the merged map holds the status records and every build:* id Entry lists, as Entry lists it |
| GobuildDashboard.StatusDashboard.Values | gobuild/status-dashboard-api/main.go:136-140 | one build per map entry, each id once, in some order |
| GobuildDashboard.StatusDashboard.GetBuilds | gobuild/status-dashboard-api/main.go:43-153 | a panic exactly when a short build:* key exists; otherwise one build per id that Entry lists, each once, newest first |
| GobuildDashboard.StatusDashboard.GetBuild | gobuild/status-dashboard-api/main.go:155-225 | a parsed status record first, else the build record as a job, with the logs:<id> list attached; 404 exactly when neither a parsed status record nor a build key exists |
| GobuildDashboard.StatusDashboard.ProcessBuildStatus | gobuild/status-dashboard-api/main.go:228-306 | build:status:<id> is set to StatusUpdated when Redis answers; logs and ranking are untouched |
| GobuildDashboard.StatusDashboard.ProcessBuildLog | gobuild/status-dashboard-api/main.go:308-324 | the entry is appended to the end of logs:<id>; nothing else changes |
| GobuildDashboard.StatusDashboard.ProcessBuildCompletion | gobuild/status-dashboard-api/main.go:327-398 | build:status:<id> is set to CompletionUpdated when a record exists, otherwise nothing changes |
| GobuildDashboard.StatusDashboard.HandleMessage | gobuild/status-dashboard-api/main.go:439-464 | a payload with a build id always leads to a status update, which sets build:status:<id>; the log lists are never written |
| Notification.Kind | notification/main.go:91-147 | every frame's "type" is "status", "log" or "completion" |
| Notification.Matching | notification/main.go:99-101 | the interested clients are among the registered ones |
| Notification.FanOutCount | notification/main.go:99-108 | a broadcast makes exactly one write per interested client |
| Notification.TargetsAppend | notification/main.go:99-108 | one more write adds its client to the clients written to |
| Notification.DistinctTargets | notification/main.go:99-108 | writes to pairwise different clients reach as many clients as there are writes |
| Notification.Registered | notification/main.go:46-60 | without a clientId nothing is registered; otherwise the clientId maps to the new connection and its filter, replacing any earlier one, and no other entry changes |
| Notification.LateCloseDropsNewer | notification/main.go:58-67 | when an earlier connection closes after a newer one registered under the same clientId, the registry loses that clientId altogether, and every later fan-out skips the still-open newer connection |
| Notification.Route | notification/main.go:184-210 | the handler never sends a completion frame |
| Notification.RouteOfMessages | notification/main.go:186-206 | a status message with id and status is broadcast when it has a time; a log message with id and entry is broadcast; a completion decodes as a status without a time and is dropped; a request is dropped |
| Notification.NotificationService.constructor | notification/main.go:25-34 | no clients and nothing written |
| Notification.NotificationService.Connect | notification/main.go:35-60 | the connection is registered exactly when it has a clientId, as Registered says, and nothing is written |
| Notification.NotificationService.Disconnect | notification/main.go:62-67 | the clientId is removed, whoever holds it now, and nothing is written |
| Notification.NotificationService.Broadcast | notification/main.go:99-108 | the registry is unchanged and the new writes are one fan-out of the frame to the interested clients |
| Notification.NotificationService.BroadcastBuildStatus | notification/main.go:87-110 | a fan-out of the status frame (id, status, message, time) to the clients interested in the build |
| Notification.NotificationService.BroadcastBuildLog | notification/main.go:113-134 | a fan-out of the log frame (id, entry, time) to the clients interested in the build |
| Notification.NotificationService.BroadcastBuildCompletion | notification/main.go:136-161 | a fan-out of the completion frame (id, status, artifact URL, duration, time) to the clients interested in the build |
| Notification.NotificationService.HandleMessage | notification/main.go:184-210 | the registry is unchanged; earlier writes are kept and the new ones are the fan-out of the frame Route selects, or none |

## Left out

- Store.Redis: whether the server answers (`up`) is fixed for a client's lifetime, so a command cannot fail after an earlier command of the same operation succeeded. The outcomes reached only that way are not modelled: the failing SET after a successful GET in Orchestrator.BuildOrchestrator.ProcessBuildStatus and ProcessBuildCompletion (build-orchestrator/main.go:79-140); the failing SET that ends updateBuildStatusInRedis after a successful GET (builder/main.go:144-148); and the failing LRANGE after a successful GET in Dashboard.StatusDashboard.GetBuild, which serves the build without logs (status-dashboard-api/main.go:114-117).
- Environment values are strings of Unicode characters, encoded as UTF-8 for the JWT key. An environment value holding bytes that are not valid UTF-8 is not modelled.
- Key expiry: the 24-hour TTLs set with SET and EXPIRE are not modelled; keys never vanish.
- Each operation reads the clock once (`now`). Go calls `time.Now()` at every step, so timestamps within one job may differ slightly in the source.
- Elapsed time since the request (`time.Since`) is an oracle value, not computed.
- Subprocesses are oracle results: git, npm/pnpm/yarn, go build, `/bin/sh build.sh` and tar. So are the build directory, the artifact file and the HTTP upload. The multipart encoding and the error texts from opening or copying the artifact file are folded into one upload failure.
- Cleanup of the build directory and of the temporary artifact (`os.RemoveAll`, `os.Remove`) is not modelled; its failures are only logged in the source.
- `os.Stat` is reduced to membership in the work directory's file names; errors other than "does not exist" are not modelled.
- KEYS is modelled for prefix patterns only (`build:*`, `build:status:*`), not for general glob syntax. A storage id holding glob metacharacters is not modelled.
- The order in which KEYS and Go map iteration return elements is not modelled: `Redis.Keys` promises the set of keys, not an order.
- Stored JSON is a parsed record or unparseable text. `json.Marshal` failures and JSON syntax are not modelled.
- bcrypt is an ideal hash: a hash matches exactly the password it was made from. Its 72-byte limit and its cost are not modelled.
- JWT: a token is modelled by its algorithm, claims and signing key, with an ideal signature. Parsing the compact text is a `decode` parameter. The library's error text is reduced, and which failing check it reports first is not modelled.
- Users.UserStore.GetByEmail: a full user record stored under an email index key reads as "user not found". Go would look up `user:` followed by that JSON text, which no record has.
- Users.Hashed: the Go code mutates the caller's `*User`; the model returns the changed user as `after`.
- Consumer.KafkaConsumer.ConsumeMessages: the endless poll loop runs over a finite sequence of what each poll observes.
- Consumer.Grow: the float64 back-off `time.Duration(float64(d) * 1.5)` is modelled as exact integer arithmetic. That is what float64 gives below 2^52 nanoseconds, and the 15 retries stay far below that; rounding above it is not modelled.
- Storage: years outside 0..9999 in the timestamp layout, and the 32 MB multipart form limit, are not modelled.
- Notification: WebSocket write errors are only logged in the source and are not modelled; the ping/pong loop and upgrade failures are left out.
- Concurrency: goroutines, mutexes and the interleaving of consumers are left out. Each handler runs atomically.
- HTTP routing, CORS, the health endpoints, environment-variable plumbing in `main` and process start-up are left out. Handlers are modelled as methods that return a status code and a body.
- A panic in the earlier dashboard's listing is modelled as a `Panicked` answer rather than a crashed goroutine.

## Behaviour that differs from the documented design

The model follows the code in each of these cases:

- Status updates are not monotone. A status message reopens a completed record (`Orchestrator.TerminalRecordsAreOverwritten`).
- The orchestrator stores "success" as a record status, which is not one of the documented statuses (`Orchestrator.SuccessStoresUndocumentedStatus`).
- The orchestrator routes a failure completion without an artifact URL to the status handler (`Orchestrator.FailureCompletionHandledAsStatus`).
- The notification service never sends a completion frame. A completion decodes as a status message with a zero time, and such a message is dropped (`Notification.Route`).
- The current dashboard's consumer appends every message with a build id to `logs:<id>`. Status and completion messages therefore become empty log lines (`Dashboard.NonLogMessagesAppendEmptyLines`).
- The current dashboard's fallback listing turns every `build:status:<id>` key into the id `status:<id>` (`Dashboard.StatusDashboard.GetBuilds`).
- The earlier dashboard's consumer handles every message as a status update (`GobuildDashboard.StatusDashboard.HandleMessage`).
- The earlier dashboard's listing panics on any `build:*` key of 7 to 12 characters, through `key[:13]`.
- In the earlier dashboard, a completion without an artifact URL erases a stored URL (`GobuildDashboard.EmptyUrlOverwrites`).

## Findings

| source | as written | input that shows it | evidently intended | confidence | as-written member | corrected member |
|---|---|---|---|---|---|---|
| gobuild/api-gateway/users/model.go:24 | The user is stored with `json.Marshal(user)` (line 62), but `PasswordHash` is tagged `json:"-"`. Every user read back has an empty hash, so `CompareHashAndPassword` (line 117) fails for every password. | Create a user with email `a@b` and password `pw`, then Authenticate(`a@b`, `pw`): the answer is "invalid credentials". | The hash is stored in the record, and the creating password authenticates, as in api-gateway/users/model.go:66-73. | not executed | GobuildUsers.UserStore.Create | Users.UserStore.Create |
| gobuild/build-orchestrator/main.go:90-91 | An accepted job is forwarded on `build-requests`. The builder subscribes only to `build-jobs` (gobuild/builder/main.go:564), and the orchestrator itself consumes `build-requests` (line 182). | Any build request: the forwarded event reaches no builder, and the orchestrator receives the request again. | The job is forwarded on `build-jobs`, as in build-orchestrator/main.go:68-72. | not executed | GobuildOrchestrator.ForwardMissesBuilder | Orchestrator.DispatchReachesBuilder |
