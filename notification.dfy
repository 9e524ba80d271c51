/*
 * The notification service (notification/main.go): a registry of
 * WebSocket clients keyed by clientId, each with an optional build
 * filter, and the fan-out of build events to the matching clients.
 *
 * A connection is an opaque number; every WriteJSON attempt is recorded
 * in `written`. Write errors are only logged, so the model needs no
 * answer for them: nothing the service does depends on one.
 */
module Notification {
  import opened Message

  type Conn = nat

  datatype Client = Client(conn: Conn, buildId: string, clientId: string)

  /** The JSON object sent to a client; "type" is the constructor. */
  datatype Frame =
    | StatusFrame(buildId: string, status: string, message: string, time: Time)
    | LogFrame(buildId: string, log: string, time: Time)
    | CompletionFrame(buildId: string, status: string, artifactUrl: string, duration: Int64, time: Time)

  /** The frame's "type" field. */
  function Kind(f: Frame): (k: string)
    ensures k in {"status", "log", "completion"}
  {
    match f
    case StatusFrame(_, _, _, _) => "status"
    case LogFrame(_, _, _) => "log"
    case CompletionFrame(_, _, _, _, _) => "completion"
  }

  /** One WriteJSON attempt: the client it was meant for, its connection, and the frame. */
  datatype Write = Write(clientId: string, conn: Conn, frame: Frame)

  /** A client receives an event when it has no filter or filters on that build. */
  predicate Wants(c: Client, buildId: string) {
    c.buildId == "" || c.buildId == buildId
  }

  function Matching(clients: map<string, Client>, buildId: string): (ids: set<string>)
    ensures ids <= clients.Keys
  {
    set id | id in clients && Wants(clients[id], buildId)
  }

  function Targets(ws: seq<Write>): set<string> {
    set w | w in ws :: w.clientId
  }

  predicate Distinct(ws: seq<Write>) {
    forall i, j :: 0 <= i < j < |ws| ==> ws[i].clientId != ws[j].clientId
  }

  /** `ws` sends `f` once to each client that wants `buildId`, on that client's connection, and to no one else. */
  predicate FanOut(ws: seq<Write>, clients: map<string, Client>, buildId: string, f: Frame) {
    (forall w :: w in ws ==> w.frame == f && w.clientId in clients && w.conn == clients[w.clientId].conn)
    && Distinct(ws)
    && Targets(ws) == Matching(clients, buildId)
  }

  /** A fan-out makes exactly as many writes as there are matching clients. */
  lemma {:induction false} FanOutCount(ws: seq<Write>, clients: map<string, Client>, buildId: string, f: Frame)
    requires FanOut(ws, clients, buildId, f)
    ensures |ws| == |Matching(clients, buildId)|
  {
    DistinctTargets(ws);
  }

  lemma TargetsAppend(ws: seq<Write>, w: Write)
    ensures Targets(ws + [w]) == Targets(ws) + {w.clientId}
  {
    assert forall x :: x in ws + [w] <==> x in ws || x == w;
  }

  lemma {:induction false} DistinctTargets(ws: seq<Write>)
    requires Distinct(ws)
    ensures |Targets(ws)| == |ws|
  {
    if ws != [] {
      var init, last := ws[..|ws| - 1], ws[|ws| - 1];
      assert ws == init + [last];
      TargetsAppend(init, last);
      assert Distinct(init) by {
        forall i, j | 0 <= i < j < |init|
          ensures init[i].clientId != init[j].clientId
        {
          assert init[i] == ws[i] && init[j] == ws[j];
        }
      }
      DistinctTargets(init);
    }
  }

  /** The registry after a connection with this query registers. */
  function Registered(clients: map<string, Client>, conn: Conn, buildId: string, clientId: string): (m: map<string, Client>)
    ensures clientId == "" ==> m == clients
    ensures clientId != "" ==> clientId in m && m[clientId].conn == conn && m[clientId].buildId == buildId
    ensures forall id :: id != clientId ==> (id in m <==> id in clients) && (id in m ==> m[id] == clients[id])
  {
    if clientId == "" then clients else clients[clientId := Client(conn, buildId, clientId)]
  }

  /**
   * Closing a connection deletes its clientId, even when a later
   * connection has since registered under the same id. With connection
   * `a` registered, then `b` under the same clientId, the close of `a`
   * (Disconnect's `clients - {clientId}`) leaves the registry as it was
   * before either connected, minus the id, and every later fan-out
   * skips `b` although it is still open.
   */
  lemma LateCloseDropsNewer(clients: map<string, Client>, a: Conn, b: Conn, buildA: string, buildB: string, clientId: string,
                            ws: seq<Write>, buildId: string, f: Frame)
    requires clientId != ""
    requires forall id :: id in clients ==> clients[id].conn != b
    requires FanOut(ws, Registered(Registered(clients, a, buildA, clientId), b, buildB, clientId) - {clientId}, buildId, f)
    ensures var both := Registered(Registered(clients, a, buildA, clientId), b, buildB, clientId);
      both[clientId] == Client(b, buildB, clientId)
      && both - {clientId} == clients - {clientId}
    ensures forall w :: w in ws ==> w.conn != b && w.clientId != clientId
  {
    var both := Registered(Registered(clients, a, buildA, clientId), b, buildB, clientId);
    assert both - {clientId} == clients - {clientId};
  }

  /** What the consumer does with a decoded payload. */
  datatype Action =
    | SendStatus(status: BuildStatusMessage)
    | SendLog(log: BuildLogMessage)
    | SendCompletion(completion: BuildCompletionMessage)
    | Ignore

  /**
   * The consumer's classification: a payload with a build id and a status
   * is a status (sent on only when updated_at is set); otherwise one with
   * a build id and a log entry is a log; the completion test repeats the
   * status test, so it is never reached.
   */
  function Route(p: Payload): (a: Action)
    ensures !a.SendCompletion?
  {
    if p.buildId != "" && p.status != "" then
      if p.updatedAt != ZeroTime then SendStatus(AsStatus(p)) else Ignore
    else if p.buildId != "" && p.logEntry != "" then SendLog(AsLog(p))
    else if p.buildId != "" && p.status != "" then SendCompletion(AsCompletion(p))
    else Ignore
  }

  /** How each message a producer sends is handled: completions are dropped, as are status messages without a time. */
  lemma RouteOfMessages(m: Msg)
    ensures m.StatusMsg? && m.status.buildId != "" && m.status.status != "" ==>
      Route(Encode(m)) == (if m.status.updatedAt != ZeroTime then SendStatus(m.status) else Ignore)
    ensures m.LogMsg? && m.log.buildId != "" && m.log.logEntry != "" ==> Route(Encode(m)) == SendLog(m.log)
    ensures m.CompletionMsg? ==> Route(Encode(m)) == Ignore
    ensures m.RequestMsg? ==> Route(Encode(m)) == Ignore
  {
  }

  class NotificationService {
    var clients: map<string, Client>
    var written: seq<Write>

    constructor ()
      ensures clients == map[] && written == []
    {
      clients := map[];
      written := [];
    }

    /** A new connection: without a clientId it is closed unregistered; otherwise it replaces any client with that id. */
    method Connect(conn: Conn, buildId: string, clientId: string) returns (registered: bool)
      modifies this
      ensures registered <==> clientId != ""
      ensures clients == Registered(old(clients), conn, buildId, clientId)
      ensures written == old(written)
    {
      if clientId == "" {
        return false;
      }
      clients := clients[clientId := Client(conn, buildId, clientId)];
      registered := true;
    }

    /** The end of a registered connection: its clientId is deleted, whoever holds it now. */
    method Disconnect(clientId: string)
      modifies this
      ensures clients == old(clients) - {clientId}
      ensures written == old(written)
    {
      clients := clients - {clientId};
    }

    /** Sends `f` to every client that wants `buildId`, in the map's (unspecified) iteration order. */
    method Broadcast(buildId: string, f: Frame)
      modifies this
      ensures clients == old(clients)
      ensures |written| >= |old(written)| && written[..|old(written)|] == old(written)
      ensures FanOut(written[|old(written)|..], clients, buildId, f)
    {
      var rest := clients.Keys;
      var ws: seq<Write> := [];
      while rest != {}
        invariant clients == old(clients) && written == old(written)
        invariant rest <= clients.Keys
        invariant forall w :: w in ws ==> w.frame == f && w.clientId in clients && w.conn == clients[w.clientId].conn
        invariant forall w :: w in ws ==> w.clientId !in rest
        invariant Distinct(ws)
        invariant Targets(ws) == Matching(clients, buildId) - rest
        decreases rest
      {
        var id :| id in rest;
        if Wants(clients[id], buildId) {
          TargetsAppend(ws, Write(id, clients[id].conn, f));
          ws := ws + [Write(id, clients[id].conn, f)];
        }
        rest := rest - {id};
      }
      var before := written;
      written := written + ws;
      assert written[..|before|] == before;
      assert written[|before|..] == ws;
    }

    method BroadcastBuildStatus(m: BuildStatusMessage)
      modifies this
      ensures clients == old(clients)
      ensures |written| >= |old(written)| && written[..|old(written)|] == old(written)
      ensures FanOut(written[|old(written)|..], clients, m.buildId, StatusFrame(m.buildId, m.status, m.message, m.updatedAt))
    {
      Broadcast(m.buildId, StatusFrame(m.buildId, m.status, m.message, m.updatedAt));
    }

    method BroadcastBuildLog(m: BuildLogMessage)
      modifies this
      ensures clients == old(clients)
      ensures |written| >= |old(written)| && written[..|old(written)|] == old(written)
      ensures FanOut(written[|old(written)|..], clients, m.buildId, LogFrame(m.buildId, m.logEntry, m.timestamp))
    {
      Broadcast(m.buildId, LogFrame(m.buildId, m.logEntry, m.timestamp));
    }

    method BroadcastBuildCompletion(m: BuildCompletionMessage)
      modifies this
      ensures clients == old(clients)
      ensures |written| >= |old(written)| && written[..|old(written)|] == old(written)
      ensures FanOut(written[|old(written)|..], clients, m.buildId,
        CompletionFrame(m.buildId, m.status, m.artifactUrl, m.duration, m.completedAt))
    {
      Broadcast(m.buildId, CompletionFrame(m.buildId, m.status, m.artifactUrl, m.duration, m.completedAt));
    }

    /** The consumer's handler: dispatches as Route says; it never fails. */
    method HandleMessage(p: Payload)
      modifies this
      ensures clients == old(clients)
      ensures Route(p).Ignore? ==> written == old(written)
      ensures Route(p).SendStatus? ==>
        (|written| >= |old(written)| && written[..|old(written)|] == old(written)
         && FanOut(written[|old(written)|..], clients, p.buildId, StatusFrame(p.buildId, p.status, p.message, p.updatedAt)))
      ensures Route(p).SendLog? ==>
        (|written| >= |old(written)| && written[..|old(written)|] == old(written)
         && FanOut(written[|old(written)|..], clients, p.buildId, LogFrame(p.buildId, p.logEntry, p.timestamp)))
    {
      var a := Route(p);
      match a
      case SendStatus(m) => BroadcastBuildStatus(m);
      case SendLog(m) => BroadcastBuildLog(m);
      case SendCompletion(_) => assert false;
      case Ignore =>
    }
  }
}
