/*
 * The earlier status dashboard (gobuild/status-dashboard-api/main.go).
 * It reads records from both key families, build:status:<id> (written
 * here) before build:<id> (written by the orchestrator), and lists them
 * newest first with a bubble sort.
 *
 * Its BuildStatus struct has fewer fields than the shared record: a
 * stored record decodes to the fields below, and writing one back
 * drops the others.
 */
module GobuildDashboard {
  import opened Util
  import opened Message
  import Model
  import opened Store

  datatype BuildStatus = BuildStatus(
    id: string, repositoryUrl: string, branch: string, commitHash: string,
    status: string, message: string, createdAt: Time, updatedAt: Time,
    artifactUrl: string, logs: seq<string>)

  const StatusPrefix: string := "build:status:"
  const BuildPrefix: string := "build:"

  /** A stored record decoded into this struct. */
  function Decoded(b: Model.BuildStatus): BuildStatus {
    BuildStatus(b.id, b.repositoryUrl, b.branch, b.commitHash, b.status, b.message,
                b.createdAt, b.updatedAt, b.artifactUrl, [])
  }

  /** A stored record decoded as the orchestrator's job and copied field by field. */
  function FromJob(b: Model.BuildStatus): BuildStatus {
    BuildStatus(b.id, b.repositoryUrl, b.branch, b.commitHash, b.status, "",
                b.createdAt, b.updatedAt, "", [])
  }

  /** The JSON this struct writes, as the shared record. */
  function Encoded(s: BuildStatus): Model.BuildStatus {
    Model.Blank.(id := s.id, repositoryUrl := s.repositoryUrl, branch := s.branch, commitHash := s.commitHash,
                 status := s.status, message := s.message, createdAt := s.createdAt, updatedAt := s.updatedAt,
                 artifactUrl := s.artifactUrl)
  }

  /** Writing a struct and reading it back loses only the log lines; the job copy is the job-shaped decoding. */
  lemma CodecRoundTrip(s: BuildStatus, b: Model.BuildStatus)
    ensures Decoded(Encoded(s)) == s.(logs := [])
    ensures FromJob(b) == Decoded(Model.JobView(b))
  {
  }

  // -----------------------------------------------------------------------
  // GetBuilds
  // -----------------------------------------------------------------------

  /** A status record without an id takes the one from its key. */
  function WithId(s: BuildStatus, id: string): (r: BuildStatus)
    ensures r.id == (if s.id == "" then id else s.id)
    ensures r.(id := s.id) == s
  {
    if s.id == "" then s.(id := id) else s
  }

  /** A build:* key the second loop reads: at least 13 long and not a status key. */
  predicate Plain(k: string) {
    |k| >= 13 && k[..13] != StatusPrefix
  }

  /** A build:* key that makes the `key[:13]` slice panic. */
  predicate Short(k: string) {
    BuildPrefix <= k && 6 < |k| < 13
  }

  /**
   * The build GetBuilds lists under `id`: from build:status:<id> whenever
   * that key exists (nothing when it does not parse), otherwise from a
   * plain build:<id>.
   */
  function Entry(strings: map<string, Doc>, id: string): (r: Option<BuildStatus>)
    ensures StatusKey(id) in strings ==>
      r == (if strings[StatusKey(id)].Parsed? then Some(WithId(Decoded(strings[StatusKey(id)].record), id)) else None)
    ensures StatusKey(id) !in strings ==>
      (r.Some? <==> BuildKey(id) in strings && Plain(BuildKey(id)) && strings[BuildKey(id)].Parsed?)
  {
    if StatusKey(id) in strings then
      match strings[StatusKey(id)]
      case Parsed(b) => Some(WithId(Decoded(b), id))
      case Unparseable => None
    else if BuildKey(id) in strings && Plain(BuildKey(id)) then
      match strings[BuildKey(id)]
      case Parsed(b) => Some(FromJob(b))
      case Unparseable => None
    else None
  }

  predicate NewestFirst(s: seq<BuildStatus>) {
    forall i, j :: 0 <= i < j < |s| ==> s[i].createdAt >= s[j].createdAt
  }

  predicate DistinctIds(ids: seq<string>) {
    forall i, j :: 0 <= i < j < |ids| ==> ids[i] != ids[j]
  }

  lemma StatusKeyParts(k: string)
    requires StatusPrefix <= k
    ensures StatusKey(k[13..]) == k
  {
  }

  lemma BuildKeyParts(k: string)
    requires BuildPrefix <= k
    ensures BuildKey(k[6..]) == k
  {
  }

  lemma PlainKeyPrefix(id: string)
    ensures BuildPrefix <= BuildKey(id)
    ensures StatusPrefix <= StatusKey(id)
  {
  }

  /** What GetBuilds answers: the list, or a panic of the handler (no response). */
  datatype Listing = Listing(builds: seq<BuildStatus>) | Panicked

  /** Any short build:* key makes the handler panic, whatever the order KEYS returns. */
  predicate HasShortKey(strings: map<string, Doc>) {
    exists k :: k in strings && Short(k)
  }

  function Swapped<T>(s: seq<T>, j: int): seq<T>
    requires 0 <= j < |s| - 1
  {
    s[j := s[j + 1]][j + 1 := s[j]]
  }

  lemma SwappedPermutes<T>(s: seq<T>, j: int)
    requires 0 <= j < |s| - 1
    ensures multiset(Swapped(s, j)) == multiset(s)
  {
  }

  /**
   * One pass of the bubble sort over a[..limit]: afterwards a[limit - 1]
   * is the oldest of them, they are a permutation of what they were, and
   * a[limit..] is untouched.
   */
  method Pass(a: array<BuildStatus>, limit: int)
    requires 1 <= limit <= a.Length
    modifies a
    ensures a[limit..] == old(a[limit..])
    ensures multiset(a[..limit]) == multiset(old(a[..limit]))
    ensures forall p :: 0 <= p < limit ==> a[p].createdAt >= a[limit - 1].createdAt
  {
    var j := 0;
    while j < limit - 1
      invariant 0 <= j <= limit - 1
      invariant forall p :: 0 <= p <= j ==> a[p].createdAt >= a[j].createdAt
      invariant a[limit..] == old(a[limit..])
      invariant multiset(a[..limit]) == multiset(old(a[..limit]))
    {
      if a[j].createdAt < a[j + 1].createdAt {
        ghost var before := a[..limit];
        a[j], a[j + 1] := a[j + 1], a[j];
        assert a[..limit] == Swapped(before, j);
        SwappedPermutes(before, j);
      }
      j := j + 1;
    }
  }

  /** s[m..] is newest first. */
  predicate SuffixSorted(s: seq<BuildStatus>, m: int) {
    forall p, q :: 0 <= m <= p < q < |s| ==> s[p].createdAt >= s[q].createdAt
  }

  /** Nothing in s[..m] is older than anything in s[m..]. */
  predicate Dominates(s: seq<BuildStatus>, m: int)
    requires 0 <= m <= |s|
  {
    forall x, q :: x in s[..m] && m <= q < |s| ==> x.createdAt >= s[q].createdAt
  }

  /** A pass over s[..m] grows the sorted suffix by one. */
  lemma PassExtends(before: seq<BuildStatus>, after: seq<BuildStatus>, m: int)
    requires 1 <= m <= |before| == |after|
    requires after[m..] == before[m..]
    requires multiset(after[..m]) == multiset(before[..m])
    requires forall p :: 0 <= p < m ==> after[p].createdAt >= after[m - 1].createdAt
    requires SuffixSorted(before, m) && Dominates(before, m)
    ensures SuffixSorted(after, m - 1) && Dominates(after, m - 1)
    ensures multiset(after) == multiset(before)
  {
    assert before == before[..m] + before[m..];
    assert after == after[..m] + after[m..];
    forall x | x in after[..m]
      ensures x in before[..m]
    {
      assert x in multiset(after[..m]);
    }
    assert after[..m] == after[..m - 1] + [after[m - 1]];
  }

  lemma SortedWhole(s: seq<BuildStatus>)
    requires |s| > 0 && SuffixSorted(s, 1) && Dominates(s, 1)
    ensures NewestFirst(s)
  {
    assert s[..1] == [s[0]];
  }

  /** Sorts newest first, swapping neighbours whose left one was created earlier. */
  method BubbleSort(a: array<BuildStatus>)
    modifies a
    ensures NewestFirst(a[..])
    ensures multiset(a[..]) == multiset(old(a[..]))
  {
    var n := a.Length;
    var i := 0;
    while i < n - 1
      invariant 0 <= i && (n == 0 ==> i == 0) && (n > 0 ==> i <= n - 1)
      invariant SuffixSorted(a[..], n - i) && Dominates(a[..], n - i)
      invariant multiset(a[..]) == multiset(old(a[..]))
    {
      ghost var before := a[..];
      Pass(a, n - i);
      PassExtends(before, a[..], n - i);
      i := i + 1;
    }
    if n > 0 {
      SortedWhole(a[..]);
    }
  }

  // -----------------------------------------------------------------------
  // GetBuild
  // -----------------------------------------------------------------------

  /** GetBuild's answer: the build with its log lines (200), 404, or 500 with the reason. */
  datatype Answer = Served(build: BuildStatus) | NotFound | ServerError(reason: string)

  function HttpStatus(a: Answer): int {
    match a
    case Served(_) => 200
    case NotFound => 404
    case ServerError(_) => 500
  }

  // -----------------------------------------------------------------------
  // Updates from the consumer
  // -----------------------------------------------------------------------

  /** The existing record the handlers start from: a parsed status record, else a parsed build record. */
  function Existing(up: bool, strings: map<string, Doc>, id: string): (r: Option<BuildStatus>)
    ensures r.Some? ==> up
    ensures up && StatusKey(id) in strings && strings[StatusKey(id)].Parsed? ==>
      r == Some(Decoded(strings[StatusKey(id)].record))
  {
    if up && StatusKey(id) in strings && strings[StatusKey(id)].Parsed? then Some(Decoded(strings[StatusKey(id)].record))
    else if up && BuildKey(id) in strings && strings[BuildKey(id)].Parsed? then Some(FromJob(strings[BuildKey(id)].record))
    else None
  }

  /** The record ProcessBuildStatus writes to build:status:<id>. */
  function StatusUpdated(up: bool, strings: map<string, Doc>, m: BuildStatusMessage): BuildStatus {
    match Existing(up, strings, m.buildId)
    case Some(b) => b.(status := m.status, message := m.message, updatedAt := m.updatedAt)
    case None => BuildStatus(m.buildId, "", "", "", m.status, m.message, m.updatedAt, m.updatedAt, "", [])
  }

  /** An existing record keeps everything but status, message and updatedAt; a new one is minimal. */
  lemma StatusUpdateKeeps(up: bool, strings: map<string, Doc>, m: BuildStatusMessage)
    ensures var r := StatusUpdated(up, strings, m);
      r.status == m.status && r.message == m.message && r.updatedAt == m.updatedAt
    ensures Existing(up, strings, m.buildId).Some? ==>
      StatusUpdated(up, strings, m).(status := "", message := "", updatedAt := 0)
        == Existing(up, strings, m.buildId).value.(status := "", message := "", updatedAt := 0)
    ensures Existing(up, strings, m.buildId).None? ==>
      StatusUpdated(up, strings, m) == BuildStatus(m.buildId, "", "", "", m.status, m.message, m.updatedAt, m.updatedAt, "", [])
  {
  }

  /** The record ProcessBuildCompletion writes, or None when neither key holds a parsed record. */
  function CompletionUpdated(up: bool, strings: map<string, Doc>, c: BuildCompletionMessage): (r: Option<BuildStatus>)
    ensures r.Some? <==> Existing(up, strings, c.buildId).Some?
    ensures r.Some? ==> r.value.status == c.status && r.value.updatedAt == c.completedAt && r.value.artifactUrl == c.artifactUrl
  {
    match Existing(up, strings, c.buildId)
    case Some(b) => Some(b.(status := c.status, updatedAt := c.completedAt, artifactUrl := c.artifactUrl))
    case None => None
  }

  /** An artifact URL the completion lacks replaces a stored one all the same. */
  lemma EmptyUrlOverwrites(up: bool, strings: map<string, Doc>, c: BuildCompletionMessage)
    requires c.artifactUrl == "" && Existing(up, strings, c.buildId).Some?
    ensures CompletionUpdated(up, strings, c).value.artifactUrl == ""
  {
  }

  datatype Action =
    | UpdateStatus(status: BuildStatusMessage)
    | AppendLog(log: BuildLogMessage)
    | RecordCompletion(completion: BuildCompletionMessage)
    | Ignore

  /**
   * The consumer's classification: each branch tests only for a
   * non-empty build_id, so the first one takes every message that has
   * one, and the log and completion branches are never reached.
   */
  function Route(p: Payload): (a: Action)
    ensures a.UpdateStatus? <==> p.buildId != ""
    ensures a.Ignore? <==> p.buildId == ""
  {
    if p.buildId != "" then UpdateStatus(AsStatus(p))
    else if p.buildId != "" then AppendLog(AsLog(p))
    else if p.buildId != "" then RecordCompletion(AsCompletion(p))
    else Ignore
  }

  /**
   * A log or completion message is handled as a status update: it
   * blanks the stored message and time, and a log's status too.
   */
  lemma EveryMessageIsAStatus(m: Msg)
    requires !m.RequestMsg?
    ensures Encode(m).buildId != "" ==> Route(Encode(m)).UpdateStatus?
    ensures m.LogMsg? ==> Route(Encode(m)) == (if m.log.buildId != "" then UpdateStatus(BuildStatusMessage(m.log.buildId, "", "", ZeroTime)) else Ignore)
    ensures m.CompletionMsg? ==>
      Route(Encode(m)) == (if m.completion.buildId != "" then UpdateStatus(BuildStatusMessage(m.completion.buildId, m.completion.status, "", ZeroTime)) else Ignore)
  {
  }

  class StatusDashboard {
    const redis: Redis

    constructor (redis: Redis)
      ensures this.redis == redis
    {
      this.redis := redis;
    }

    /** The build:status:* loop: notes every id, keeps the records that parse. */
    method CollectStatus(keys: seq<string>) returns (seen: set<string>, found: map<string, BuildStatus>)
      requires forall k :: k in keys ==> k in redis.strings && StatusPrefix <= k
      requires keys != [] ==> redis.up
      ensures forall id :: id in seen <==> StatusKey(id) in keys
      ensures forall id :: id in found <==> id in seen && redis.strings[StatusKey(id)].Parsed?
      ensures forall id :: id in found ==> Some(found[id]) == Entry(redis.strings, id)
    {
      seen, found := {}, map[];
      var i := 0;
      while i < |keys|
        invariant 0 <= i <= |keys|
        invariant forall id :: id in seen <==> StatusKey(id) in keys[..i]
        invariant forall id :: id in found <==> id in seen && redis.strings[StatusKey(id)].Parsed?
        invariant forall id :: id in found ==> Some(found[id]) == Entry(redis.strings, id)
      {
        var key := keys[i];
        assert key in keys;
        StatusKeyParts(key);
        var id := key[13..];
        assert keys[..i + 1] == keys[..i] + [key];
        seen := seen + {id};
        var reply := redis.Get(key);
        if reply.Found? && reply.doc.Parsed? {
          found := found[id := WithId(Decoded(reply.doc.record), id)];
        }
        i := i + 1;
      }
    }

    /** The build:* loop: adds the plain keys' parsed records for ids no status key named. */
    method CollectPlain(keys: seq<string>, seen: set<string>, found: map<string, BuildStatus>)
      returns (merged: Option<map<string, BuildStatus>>)
      requires forall k :: k in keys ==> k in redis.strings && BuildPrefix <= k
      requires keys != [] ==> redis.up
      requires forall id :: id in seen <==> redis.up && StatusKey(id) in redis.strings
      requires forall id :: id in found <==> id in seen && redis.strings[StatusKey(id)].Parsed?
      requires forall id :: id in found ==> Some(found[id]) == Entry(redis.strings, id)
      ensures merged.None? <==> exists k :: k in keys && Short(k)
      ensures merged.Some? ==> forall id :: id in merged.value <==> (id in found || (BuildKey(id) in keys && Entry(redis.strings, id).Some?))
      ensures merged.Some? ==> forall id :: id in merged.value ==> Some(merged.value[id]) == Entry(redis.strings, id)
    {
      var m := found;
      var i := 0;
      while i < |keys|
        invariant 0 <= i <= |keys|
        invariant forall k :: k in keys[..i] ==> !Short(k)
        invariant forall id :: id in m <==> (id in found || (BuildKey(id) in keys[..i] && Entry(redis.strings, id).Some?))
        invariant forall id :: id in m ==> Some(m[id]) == Entry(redis.strings, id)
      {
        var key := keys[i];
        assert keys[..i + 1] == keys[..i] + [key];
        if |key| > 6 && key[..6] == BuildPrefix {
          if |key| < 13 {
            assert Short(key);
            return None;
          }
          if key[..13] != StatusPrefix {
            BuildKeyParts(key);
            var id := key[6..];
            if id !in seen {
              var reply := redis.Get(key);
              if reply.Found? && reply.doc.Parsed? {
                m := m[id := FromJob(reply.doc.record)];
              }
            }
          } else {
            StatusKeyParts(key);
            assert BuildKey(key[6..]) == key;
          }
        }
        i := i + 1;
      }
      merged := Some(m);
    }

    /** The map's values in its (unspecified) iteration order, with the ids they came from. */
    method Values(m: map<string, BuildStatus>) returns (list: seq<BuildStatus>, ghost ids: seq<string>)
      ensures |list| == |ids| && DistinctIds(ids)
      ensures forall id :: id in ids <==> id in m
      ensures forall k :: 0 <= k < |ids| ==> ids[k] in m && list[k] == m[ids[k]]
    {
      list, ids := [], [];
      var rest := m.Keys;
      while rest != {}
        invariant rest <= m.Keys
        invariant |list| == |ids| && DistinctIds(ids)
        invariant forall id :: id in ids <==> id in m && id !in rest
        invariant forall k :: 0 <= k < |ids| ==> ids[k] in m && list[k] == m[ids[k]]
        decreases rest
      {
        var id :| id in rest;
        list, ids := list + [m[id]], ids + [id];
        rest := rest - {id};
      }
    }

    /**
     * GET /api/builds: a panic when a short build:* key exists; otherwise
     * one build per id that Entry gives one for, newest first. The ghost
     * results name the ids and the builds before sorting.
     */
    method GetBuilds() returns (answer: Listing, ghost ids: seq<string>, ghost unsorted: seq<BuildStatus>)
      ensures answer.Panicked? <==> redis.up && HasShortKey(redis.strings)
      ensures answer.Listing? ==> NewestFirst(answer.builds) && multiset(answer.builds) == multiset(unsorted)
      ensures answer.Listing? ==> |unsorted| == |ids| && DistinctIds(ids)
      ensures answer.Listing? ==> forall id :: id in ids <==> redis.up && Entry(redis.strings, id).Some?
      ensures answer.Listing? ==> forall k :: 0 <= k < |ids| ==> Some(unsorted[k]) == Entry(redis.strings, ids[k])
    {
      var statusKeys := redis.Keys(StatusPrefix);
      var buildKeys := redis.Keys(BuildPrefix);
      var seen, found := CollectStatus(statusKeys);
      assert forall id :: id in seen <==> redis.up && StatusKey(id) in redis.strings by {
        forall id ensures id in seen <==> redis.up && StatusKey(id) in redis.strings {
          PlainKeyPrefix(id);
        }
      }
      var merged := CollectPlain(buildKeys, seen, found);
      assert (exists k :: k in buildKeys && Short(k)) <==> redis.up && HasShortKey(redis.strings);
      if merged.None? {
        return Panicked, [], [];
      }
      assert forall id :: id in merged.value <==> redis.up && Entry(redis.strings, id).Some? by {
        forall id ensures id in merged.value <==> redis.up && Entry(redis.strings, id).Some? {
          PlainKeyPrefix(id);
        }
      }
      var list;
      list, ids := Values(merged.value);
      unsorted := list;
      var a := new BuildStatus[|list|](k requires 0 <= k < |list| => list[k]);
      assert a[..] == list;
      BubbleSort(a);
      answer := Listing(a[..]);
    }

    /**
     * GET /api/builds/{id}: build:status:<id> when it parses, otherwise
     * build:<id> decoded as a job; the logs:<id> list is attached.
     */
    function GetBuild(id: string): (r: Answer)
      reads redis
      ensures r.NotFound? <==> redis.up && BuildKey(id) !in redis.strings
                               && !(StatusKey(id) in redis.strings && redis.strings[StatusKey(id)].Parsed?)
      ensures r.Served? <==> Existing(redis.up, redis.strings, id).Some?
      ensures r.Served? ==> r.build == Existing(redis.up, redis.strings, id).value.(logs := redis.Range(LogsKey(id)))
    {
      var byStatus := redis.Lookup(StatusKey(id));
      if byStatus.Found? && byStatus.doc.Parsed? then
        Served(Decoded(byStatus.doc.record).(logs := redis.Range(LogsKey(id))))
      else
        match redis.Lookup(BuildKey(id))
        case Nil => NotFound
        case Failed => ServerError("Failed to retrieve build")
        case Found(Unparseable) => ServerError("Failed to parse build data")
        case Found(Parsed(b)) => Served(FromJob(b).(logs := redis.Range(LogsKey(id))))
    }

    method ProcessBuildStatus(m: BuildStatusMessage)
      modifies redis
      ensures redis.strings == if redis.up
        then old(redis.strings)[StatusKey(m.buildId) := Parsed(Encoded(StatusUpdated(redis.up, old(redis.strings), m)))]
        else old(redis.strings)
      ensures redis.lists == old(redis.lists) && redis.byDate == old(redis.byDate)
    {
      var build: BuildStatus;
      var found := false;
      var reply := redis.Get(StatusKey(m.buildId));
      if reply.Found? && reply.doc.Parsed? {
        build, found := Decoded(reply.doc.record), true;
      }
      if !found {
        reply := redis.Get(BuildKey(m.buildId));
        if reply.Found? && reply.doc.Parsed? {
          build, found := FromJob(reply.doc.record), true;
        }
      }
      if !found {
        build := BuildStatus(m.buildId, "", "", "", m.status, m.message, m.updatedAt, m.updatedAt, "", []);
      } else {
        build := build.(status := m.status, message := m.message, updatedAt := m.updatedAt);
      }
      var _ := redis.Set(StatusKey(m.buildId), Parsed(Encoded(build)));
    }

    /** Appends the entry to logs:<id> (the expiry it then sets is not modelled). */
    method ProcessBuildLog(m: BuildLogMessage)
      modifies redis
      ensures redis.lists == if redis.up then old(redis.lists)[LogsKey(m.buildId) := old(redis.Range(LogsKey(m.buildId))) + [m.logEntry]] else old(redis.lists)
      ensures redis.strings == old(redis.strings) && redis.byDate == old(redis.byDate)
    {
      var _ := redis.RPush(LogsKey(m.buildId), m.logEntry);
    }

    method ProcessBuildCompletion(c: BuildCompletionMessage)
      modifies redis
      ensures redis.strings == match CompletionUpdated(redis.up, old(redis.strings), c)
        case Some(b) => old(redis.strings)[StatusKey(c.buildId) := Parsed(Encoded(b))]
        case None => old(redis.strings)
      ensures redis.lists == old(redis.lists) && redis.byDate == old(redis.byDate)
    {
      var build: BuildStatus;
      var reply := redis.Get(StatusKey(c.buildId));
      if reply.Found? && reply.doc.Parsed? {
        build := Decoded(reply.doc.record);
      } else {
        reply := redis.Get(BuildKey(c.buildId));
        if !reply.Found? || !reply.doc.Parsed? {
          return;
        }
        build := FromJob(reply.doc.record);
      }
      build := build.(status := c.status, updatedAt := c.completedAt, artifactUrl := c.artifactUrl);
      var _ := redis.Set(StatusKey(c.buildId), Parsed(Encoded(build)));
    }

    /** The consumer's handler. */
    method HandleMessage(p: Payload)
      modifies redis
      ensures p.buildId == "" ==> redis.strings == old(redis.strings)
      ensures p.buildId != "" ==> redis.strings == if redis.up
        then old(redis.strings)[StatusKey(p.buildId) := Parsed(Encoded(StatusUpdated(redis.up, old(redis.strings), AsStatus(p))))]
        else old(redis.strings)
      ensures redis.lists == old(redis.lists) && redis.byDate == old(redis.byDate)
    {
      match Route(p)
      case UpdateStatus(m) => ProcessBuildStatus(m);
      case AppendLog(_) => assert false;
      case RecordCompletion(_) => assert false;
      case Ignore =>
    }
  }
}
