/*
 * The Redis instance the services share, reduced to the commands they
 * use: GET/SET on JSON documents, RPUSH/LRANGE on log lists, ZADD and
 * ZREVRANGE on the builds:by_date sorted set, and KEYS on a prefix.
 * `up` says whether the server answers; when it does not, every
 * command fails and nothing changes.
 */
module Store {
  import opened Util
  import opened Model

  /** The JSON kept under one key: a build record, or text no struct decodes. */
  datatype Doc = Parsed(record: BuildStatus) | Unparseable

  /** The answer to GET: a value, redis.Nil for a missing key, or another error. */
  datatype Reply = Found(doc: Doc) | Nil | Failed

  function BuildKey(id: string): string { "build:" + id }
  function StatusKey(id: string): string { "build:status:" + id }
  function LogsKey(id: string): string { "logs:" + id }

  lemma BuildKeyInjective(a: string, b: string)
    ensures BuildKey(a) == BuildKey(b) ==> a == b
  {
    if BuildKey(a) == BuildKey(b) {
      assert a == BuildKey(a)[6..] && b == BuildKey(b)[6..];
    }
  }

  const ByDate: string := "builds:by_date"

  /** The two key families overlap: a status key is the build key of "status:" + id. */
  lemma StatusKeyIsBuildKey(id: string)
    ensures StatusKey(id) == BuildKey("status:" + id)
    ensures StatusKey(id) != BuildKey(id)
  {
    assert |StatusKey(id)| != |BuildKey(id)|;
  }

  class Redis {
    const up: bool
    var strings: map<string, Doc>
    var lists: map<string, seq<string>>
    var byDate: map<string, int>

    constructor (up: bool, strings: map<string, Doc>, lists: map<string, seq<string>>, byDate: map<string, int>)
      ensures this.up == up && this.strings == strings && this.lists == lists && this.byDate == byDate
    {
      this.up := up;
      this.strings := strings;
      this.lists := lists;
      this.byDate := byDate;
    }

    /** The GET reply for `key` in the current state. */
    function Lookup(key: string): (r: Reply)
      reads this
      ensures r.Found? <==> up && key in strings
      ensures r.Nil? <==> up && key !in strings
      ensures r.Failed? <==> !up
      ensures r.Found? ==> r.doc == strings[key]
    {
      if !up then Failed else if key in strings then Found(strings[key]) else Nil
    }

    /** GET: the stored document, nil for a missing key, an error when the server is unreachable. */
    method Get(key: string) returns (r: Reply)
      ensures !up ==> r == Failed
      ensures up && key in strings ==> r == Found(strings[key])
      ensures up && key !in strings ==> r == Nil
      ensures r == Lookup(key)
    {
      r := Lookup(key);
    }

    method Set(key: string, doc: Doc) returns (ok: bool)
      modifies this
      ensures ok == up
      ensures strings == if up then old(strings)[key := doc] else old(strings)
      ensures lists == old(lists) && byDate == old(byDate)
    {
      ok := up;
      if up {
        strings := strings[key := doc];
      }
    }

    /** LRANGE key 0 -1: the whole list, empty when missing or unreachable. */
    function Range(key: string): (r: seq<string>)
      reads this
      ensures up && key in lists ==> r == lists[key]
      ensures !up || key !in lists ==> r == []
    {
      if up && key in lists then lists[key] else []
    }

    method RPush(key: string, value: string) returns (ok: bool)
      modifies this
      ensures ok == up
      ensures lists == if up then old(lists)[key := old(Range(key)) + [value]] else old(lists)
      ensures strings == old(strings) && byDate == old(byDate)
    {
      ok := up;
      if up {
        lists := lists[key := Range(key) + [value]];
      }
    }

    /** A MULTI/EXEC pipeline of SET key doc and ZADD builds:by_date score member. */
    method SetAndRank(key: string, doc: Doc, member: string, score: int) returns (ok: bool)
      modifies this
      ensures ok == up
      ensures strings == if up then old(strings)[key := doc] else old(strings)
      ensures byDate == if up then old(byDate)[member := score] else old(byDate)
      ensures lists == old(lists)
    {
      ok := up;
      if up {
        strings := strings[key := doc];
        byDate := byDate[member := score];
      }
    }

    /** KEYS prefix*: every matching key once, in no particular order. */
    method Keys(prefix: string) returns (keys: seq<string>)
      ensures up ==> forall k :: k in keys <==> k in strings && prefix <= k
      ensures !up ==> keys == []
      ensures forall i, j :: 0 <= i < j < |keys| ==> keys[i] != keys[j]
    {
      keys := [];
      if !up {
        return;
      }
      var rest := set k | k in strings && prefix <= k;
      while rest != {}
        invariant forall k :: k in keys ==> k in strings && prefix <= k && k !in rest
        invariant forall k :: k in strings && prefix <= k ==> k in keys || k in rest
        invariant forall k :: k in rest ==> k in strings && prefix <= k
        invariant forall i, j :: 0 <= i < j < |keys| ==> keys[i] != keys[j]
        decreases |rest|
      {
        var k :| k in rest;
        keys := keys + [k];
        rest := rest - {k};
      }
    }

    /**
     * ZREVRANGE builds:by_date 0 -1: every member once, highest score
     * first (ties in no particular order).
     */
    method RankAll() returns (members: seq<string>)
      ensures up ==> forall m :: m in members <==> m in byDate
      ensures !up ==> members == []
      ensures forall i, j :: 0 <= i < j < |members| ==> members[i] != members[j]
      ensures forall i, j :: 0 <= i < j < |members| ==> byDate[members[i]] >= byDate[members[j]]
    {
      members := [];
      if !up {
        return;
      }
      var rest := byDate.Keys;
      while rest != {}
        invariant rest <= byDate.Keys
        invariant forall m :: m in members <==> m in byDate && m !in rest
        invariant forall i, j :: 0 <= i < j < |members| ==> members[i] != members[j]
        invariant forall i, j :: 0 <= i < j < |members| ==> byDate[members[i]] >= byDate[members[j]]
        invariant forall i, m :: 0 <= i < |members| && m in rest ==> byDate[members[i]] >= byDate[m]
        decreases |rest|
      {
        var top := Highest(rest);
        members := members + [top];
        rest := rest - {top};
      }
    }

    /** A member of `rest` whose score no other member of `rest` exceeds. */
    method Highest(rest: set<string>) returns (top: string)
      requires rest != {} && rest <= byDate.Keys
      ensures top in rest
      ensures forall m :: m in rest ==> byDate[m] <= byDate[top]
    {
      top :| top in rest;
      var seen := {top};
      while seen != rest
        invariant top in seen && seen <= rest
        invariant forall m :: m in seen ==> byDate[m] <= byDate[top]
        decreases |rest - seen|
      {
        var m :| m in rest - seen;
        if byDate[m] > byDate[top] {
          top := m;
        }
        seen := seen + {m};
      }
    }
  }
}
