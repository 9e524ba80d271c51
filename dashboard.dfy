/*
 * The status dashboard (status-dashboard-api/main.go). Listings come
 * from build:<id> records, ranked by builds:by_date; the consumer only
 * appends log lines. The update handlers write build:status:<id> with
 * the dashboard's own struct, the same code as the earlier dashboard.
 */
module Dashboard {
  import opened Util
  import opened Message
  import Model
  import opened Store
  import G = GobuildDashboard

  /** The parsed build:<id> records of `ids`, in the order of `ids`; the rest are skipped. */
  function Present(strings: map<string, Doc>, ids: seq<string>): (r: seq<Model.BuildStatus>)
    ensures |r| <= |ids|
  {
    if ids == [] then []
    else
      var last := ids[|ids| - 1];
      Present(strings, ids[..|ids| - 1])
        + (if BuildKey(last) in strings && strings[BuildKey(last)].Parsed? then [strings[BuildKey(last)].record] else [])
  }

  predicate AllParsed(strings: map<string, Doc>, ids: seq<string>) {
    forall id :: id in ids ==> BuildKey(id) in strings && strings[BuildKey(id)].Parsed?
  }

  /** When every id has a parsed record, the listing is exactly those records, one per id. */
  lemma {:induction false} PresentWhenAllParsed(strings: map<string, Doc>, ids: seq<string>)
    requires AllParsed(strings, ids)
    ensures |Present(strings, ids)| == |ids|
    ensures forall k :: 0 <= k < |ids| ==> Present(strings, ids)[k] == strings[BuildKey(ids[k])].record
  {
    if ids != [] {
      var init := ids[..|ids| - 1];
      assert forall id :: id in init ==> id in ids;
      PresentWhenAllParsed(strings, init);
      assert ids[|ids| - 1] in ids;
    }
  }

  /** Ids without a parsed record contribute nothing. */
  lemma {:induction false} PresentSkipsMissing(strings: map<string, Doc>, ids: seq<string>)
    requires forall id :: id in ids ==> BuildKey(id) !in strings || !strings[BuildKey(id)].Parsed?
    ensures Present(strings, ids) == []
  {
    if ids != [] {
      var init := ids[..|ids| - 1];
      assert forall id :: id in init ==> id in ids;
      PresentSkipsMissing(strings, init);
      assert ids[|ids| - 1] in ids;
    }
  }

  datatype Answer = Served(build: Model.BuildStatus, logs: seq<string>) | NotFound | ServerError(reason: string)

  /** The consumer's one action. */
  datatype Action = AppendLog(log: BuildLogMessage) | Ignore

  /** Every payload with a build id is stored as a log line, whatever message it was. */
  function Route(p: Payload): (a: Action)
    ensures a.AppendLog? <==> p.buildId != ""
    ensures a.AppendLog? ==> a.log.buildId == p.buildId && a.log.logEntry == p.logEntry
  {
    if p.buildId != "" then AppendLog(AsLog(p)) else Ignore
  }

  /** Status and completion messages become empty log lines. */
  lemma NonLogMessagesAppendEmptyLines(m: Msg)
    requires m.StatusMsg? || m.CompletionMsg?
    ensures Encode(m).buildId != "" ==> Route(Encode(m)) == AppendLog(BuildLogMessage(Encode(m).buildId, "", ZeroTime))
  {
  }

  /** The id part of every build:* key longer than the prefix: each such key yields its id once. */
  method Suffixes(keys: seq<string>) returns (ids: seq<string>)
    requires forall k :: k in keys ==> "build:" <= k
    requires forall i, j :: 0 <= i < j < |keys| ==> keys[i] != keys[j]
    ensures forall id :: id in ids <==> BuildKey(id) in keys && id != ""
    ensures |ids| <= |keys| && G.DistinctIds(ids)
  {
    ids := [];
    var i := 0;
    while i < |keys|
      invariant 0 <= i <= |keys|
      invariant |ids| <= i
      invariant forall id :: id in ids <==> BuildKey(id) in keys[..i] && id != ""
      invariant G.DistinctIds(ids)
    {
      var key := keys[i];
      assert keys[..i + 1] == keys[..i] + [key];
      assert key in keys;
      if |key| > 6 {
        G.BuildKeyParts(key);
        assert key !in keys[..i];
        ids := ids + [key[6..]];
      }
      i := i + 1;
    }
    assert keys[..i] == keys;
  }

  class StatusDashboard {
    const redis: Redis

    constructor (redis: Redis)
      ensures this.redis == redis
    {
      this.redis := redis;
    }

    /** The ids the listing reads: the 100 highest ranked, or, when none are ranked, every build:* key's suffix. */
    method ListIds() returns (ids: seq<string>)
      ensures !redis.up ==> ids == []
      ensures redis.up && redis.byDate != map[] ==>
        |ids| <= 100 && G.DistinctIds(ids)
        && (forall id :: id in ids ==> id in redis.byDate)
        && (forall i, j :: 0 <= i < j < |ids| ==> redis.byDate[ids[i]] >= redis.byDate[ids[j]])
        && (forall m, i :: m in redis.byDate && m !in ids && 0 <= i < |ids| ==> redis.byDate[ids[i]] >= redis.byDate[m])
        && (|ids| < 100 ==> forall m :: m in redis.byDate ==> m in ids)
      ensures redis.up && redis.byDate == map[] ==>
        G.DistinctIds(ids) && forall id :: id in ids <==> BuildKey(id) in redis.strings && id != ""
    {
      var ranked := redis.RankAll();
      if ranked != [] {
        ids := if |ranked| > 100 then ranked[..100] else ranked;
        assert ranked[0] in ranked;
        assert forall m :: m in ranked && m !in ids ==> exists k :: 100 <= k < |ranked| && ranked[k] == m;
        return;
      }
      assert redis.up ==> redis.byDate.Keys == {};
      var keys := redis.Keys("build:");
      ids := Suffixes(keys);
      assert forall id :: BuildKey(id) in redis.strings ==> "build:" <= BuildKey(id);
    }

    /**
     * GET /api/builds: the parsed build:<id> record of each listed id, in
     * the order of the ids. The ghost result names the ids.
     */
    method GetBuilds() returns (builds: seq<Model.BuildStatus>, ghost ids: seq<string>)
      ensures builds == Present(redis.strings, ids)
      ensures !redis.up ==> builds == []
      ensures redis.up && redis.byDate != map[] ==>
        |ids| <= 100 && G.DistinctIds(ids)
        && (forall id :: id in ids ==> id in redis.byDate)
        && (forall i, j :: 0 <= i < j < |ids| ==> redis.byDate[ids[i]] >= redis.byDate[ids[j]])
        && (forall m, i :: m in redis.byDate && m !in ids && 0 <= i < |ids| ==> redis.byDate[ids[i]] >= redis.byDate[m])
        && (|ids| < 100 ==> forall m :: m in redis.byDate ==> m in ids)
      ensures redis.up && redis.byDate == map[] ==>
        G.DistinctIds(ids) && (forall id :: id in ids <==> BuildKey(id) in redis.strings && id != "")
        && (forall x :: StatusKey(x) in redis.strings ==> "status:" + x in ids)
    {
      var listed := ListIds();
      ids := listed;
      builds := [];
      var i := 0;
      while i < |listed|
        invariant 0 <= i <= |listed|
        invariant builds == Present(redis.strings, listed[..i])
      {
        assert listed[..i + 1][..i] == listed[..i];
        var reply := redis.Get(BuildKey(listed[i]));
        if reply.Found? && reply.doc.Parsed? {
          builds := builds + [reply.doc.record];
        }
        i := i + 1;
      }
      assert listed[..i] == listed;
      forall x | redis.up && redis.byDate == map[] && StatusKey(x) in redis.strings
        ensures "status:" + x in ids
      {
        StatusKeyIsBuildKey(x);
      }
    }

    /** GET /api/builds/{id}: build:<id> only, with the logs:<id> list. */
    function GetBuild(id: string): (r: Answer)
      reads redis
      ensures r.NotFound? <==> redis.up && BuildKey(id) !in redis.strings
      ensures r.Served? <==> redis.up && BuildKey(id) in redis.strings && redis.strings[BuildKey(id)].Parsed?
      ensures r.Served? ==> r.build == redis.strings[BuildKey(id)].record && r.logs == redis.Range(LogsKey(id))
    {
      match redis.Lookup(BuildKey(id))
      case Nil => NotFound
      case Failed => ServerError("Failed to retrieve build")
      case Found(Unparseable) => ServerError("Failed to parse build data")
      case Found(Parsed(b)) => Served(b, redis.Range(LogsKey(id)))
    }

    /**
     * Writes build:status:<id>, which GetBuild only ever reads as the
     * build key of the id "status:<id>": every other answer is unchanged.
     */
    method ProcessBuildStatus(m: BuildStatusMessage)
      modifies redis
      ensures redis.strings == if redis.up
        then old(redis.strings)[StatusKey(m.buildId) := Parsed(G.Encoded(G.StatusUpdated(redis.up, old(redis.strings), m)))]
        else old(redis.strings)
      ensures redis.lists == old(redis.lists) && redis.byDate == old(redis.byDate)
      ensures forall id :: id != "status:" + m.buildId ==> GetBuild(id) == old(GetBuild(id))
    {
      var build: G.BuildStatus;
      var found := false;
      var reply := redis.Get(StatusKey(m.buildId));
      if reply.Found? && reply.doc.Parsed? {
        build, found := G.Decoded(reply.doc.record), true;
      }
      if !found {
        reply := redis.Get(BuildKey(m.buildId));
        if reply.Found? && reply.doc.Parsed? {
          build, found := G.FromJob(reply.doc.record), true;
        }
      }
      if !found {
        build := G.BuildStatus(m.buildId, "", "", "", m.status, m.message, m.updatedAt, m.updatedAt, "", []);
      } else {
        build := build.(status := m.status, message := m.message, updatedAt := m.updatedAt);
      }
      var _ := redis.Set(StatusKey(m.buildId), Parsed(G.Encoded(build)));
      StatusKeyIsBuildKey(m.buildId);
      forall id | id != "status:" + m.buildId
        ensures GetBuild(id) == old(GetBuild(id))
      {
        BuildKeyInjective(id, "status:" + m.buildId);
      }
    }

    /** Appends the entry to the end of logs:<id>; nothing else changes. */
    method ProcessBuildLog(m: BuildLogMessage)
      modifies redis
      ensures redis.lists == if redis.up then old(redis.lists)[LogsKey(m.buildId) := old(redis.Range(LogsKey(m.buildId))) + [m.logEntry]] else old(redis.lists)
      ensures redis.strings == old(redis.strings) && redis.byDate == old(redis.byDate)
    {
      var _ := redis.RPush(LogsKey(m.buildId), m.logEntry);
    }

    method ProcessBuildCompletion(c: BuildCompletionMessage)
      modifies redis
      ensures redis.strings == match G.CompletionUpdated(redis.up, old(redis.strings), c)
        case Some(b) => old(redis.strings)[StatusKey(c.buildId) := Parsed(G.Encoded(b))]
        case None => old(redis.strings)
      ensures redis.lists == old(redis.lists) && redis.byDate == old(redis.byDate)
      ensures forall id :: id != "status:" + c.buildId ==> GetBuild(id) == old(GetBuild(id))
    {
      var build: G.BuildStatus;
      var reply := redis.Get(StatusKey(c.buildId));
      if reply.Found? && reply.doc.Parsed? {
        build := G.Decoded(reply.doc.record);
      } else {
        reply := redis.Get(BuildKey(c.buildId));
        if !reply.Found? || !reply.doc.Parsed? {
          return;
        }
        build := G.FromJob(reply.doc.record);
      }
      build := build.(status := c.status, updatedAt := c.completedAt, artifactUrl := c.artifactUrl);
      var _ := redis.Set(StatusKey(c.buildId), Parsed(G.Encoded(build)));
      StatusKeyIsBuildKey(c.buildId);
      forall id | id != "status:" + c.buildId
        ensures GetBuild(id) == old(GetBuild(id))
      {
        BuildKeyInjective(id, "status:" + c.buildId);
      }
    }

    /** The consumer's handler: an append to logs:<build_id> for every payload that has one. */
    method HandleMessage(p: Payload)
      modifies redis
      ensures p.buildId != "" && redis.up ==>
        redis.lists == old(redis.lists)[LogsKey(p.buildId) := old(redis.Range(LogsKey(p.buildId))) + [p.logEntry]]
      ensures p.buildId == "" || !redis.up ==> redis.lists == old(redis.lists)
      ensures redis.strings == old(redis.strings) && redis.byDate == old(redis.byDate)
    {
      match Route(p)
      case AppendLog(m) => ProcessBuildLog(m);
      case Ignore =>
    }
  }
}
