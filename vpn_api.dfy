/**
 * The backend's single HTTP entry point. It answers a CORS preflight, lists
 * the relay servers, opens a session by inserting a row into the
 * `vpn_sessions` table and closes one by setting that row's status. Any
 * other method and action gets a 404.
 *
 * The database is an in-memory table: rows keyed by their SERIAL id, and the
 * next value the id sequence will hand out.
 */
module VpnApi {
  import opened Wrappers

  /** One entry of the server listing. */
  datatype Endpoint = Endpoint(
    id: string, name: string, country: string, flag: string,
    ping: int, load: int, ip: string, status: string)

  /** The static listing returned for GET `servers`. */
  function Catalogue(): (r: seq<Endpoint>)
    ensures |r| == 6
    ensures forall i :: 0 <= i < |r| ==> r[i].id == [('1' as int + i) as char]
    ensures forall i, j :: 0 <= i < j < |r| ==> r[i].id != r[j].id
    ensures forall i :: 0 <= i < |r| ==> r[i].ping >= 0 && 0 <= r[i].load <= 100 && r[i].status == "online"
  {
    [ Endpoint("1", "Нидерланды", "Amsterdam", "\U{1F1F3}\U{1F1F1}", 12, 45, "185.246.208.82", "online"),
      Endpoint("2", "США", "New York", "\U{1F1FA}\U{1F1F8}", 85, 62, "167.172.158.241", "online"),
      Endpoint("3", "Германия", "Frankfurt", "\U{1F1E9}\U{1F1EA}", 18, 38, "138.68.73.224", "online"),
      Endpoint("4", "Великобритания", "London", "\U{1F1EC}\U{1F1E7}", 25, 51, "146.190.16.200", "online"),
      Endpoint("5", "Япония", "Tokyo", "\U{1F1EF}\U{1F1F5}", 156, 29, "54.150.58.117", "online"),
      Endpoint("6", "Сингапур", "Singapore", "\U{1F1F8}\U{1F1EC}", 178, 44, "128.199.216.87", "online") ]
  }

  /**
   * The two fields the handler reads from a decoded JSON request body. The
   * handler reads them with a plain `.get`, so an absent field and a null one
   * are both `None`.
   */
  datatype RequestBody = RequestBody(serverId: Option<string>, sessionId: Option<int>)

  /**
   * The parts of an invocation event the handler looks at. A missing key is
   * `None`; a key that is present but holds null has no representation here.
   * `body` holds the already decoded JSON object.
   */
  datatype Event = Event(
    httpMethod: Option<string>,
    queryStringParameters: Option<map<string, string>>,
    body: Option<RequestBody>)

  /** `event.get('httpMethod', 'GET')`. */
  function MethodOf(e: Event): string {
    e.httpMethod.GetOr("GET")
  }

  /** `event.get('queryStringParameters', {}).get('action', 'servers')`. */
  function ActionOf(e: Event): string {
    var query := e.queryStringParameters.GetOr(map[]);
    if "action" in query then query["action"] else "servers"
  }

  /** `json.loads(event.get('body', '{}'))`: a missing body reads as the empty object. */
  function BodyOf(e: Event): RequestBody {
    e.body.GetOr(RequestBody(None, None))
  }

  /** Which branch of the handler an event takes. */
  datatype Route = Preflight | ListServers | Connect | Disconnect | NotFound

  /**
   * The handler's if-chain. OPTIONS is decided before the action is read, so
   * it wins whatever the action; every pair other than the four handled ones
   * falls through to 404.
   */
  function Dispatch(e: Event): (r: Route)
    ensures r == Preflight <==> MethodOf(e) == "OPTIONS"
    ensures r == ListServers <==> MethodOf(e) == "GET" && ActionOf(e) == "servers"
    ensures r == Connect <==> MethodOf(e) == "POST" && ActionOf(e) == "connect"
    ensures r == Disconnect <==> MethodOf(e) == "POST" && ActionOf(e) == "disconnect"
    ensures e.httpMethod == None && e.queryStringParameters == None ==> r == ListServers
  {
    var verb := MethodOf(e);
    if verb == "OPTIONS" then Preflight
    else
      var action := ActionOf(e);
      if verb == "GET" && action == "servers" then ListServers
      else if verb == "POST" && action == "connect" then Connect
      else if verb == "POST" && action == "disconnect" then Disconnect
      else NotFound
  }

  /** The `status` column of a session row; the handler writes only these two values. */
  datatype Status = Connected | Disconnected

  /** A row of `vpn_sessions` apart from its id (the key) and its timestamp. */
  datatype SessionRow = SessionRow(serverId: Option<string>, status: Status)

  /**
   * `UPDATE vpn_sessions SET status = s WHERE id = key`: the row whose id
   * equals the key gets the new status, every other row is kept, and a NULL
   * key or an id with no row matches nothing.
   */
  function SetStatus(rows: map<int, SessionRow>, key: Option<int>, status: Status): (r: map<int, SessionRow>)
    ensures r.Keys == rows.Keys
    ensures forall id :: id in rows && key != Some(id) ==> r[id] == rows[id]
    ensures forall id :: id in rows && key == Some(id) ==> r[id] == rows[id].(status := status)
    ensures (key == None || key.value !in rows) ==> r == rows
  {
    if key.Some? && key.value in rows then rows[key.value := rows[key.value].(status := status)] else rows
  }

  /** The body kinds the handler returns; headers and the message texts are left out. */
  datatype Body =
    | EmptyBody
    | ServerListing(servers: seq<Endpoint>)
    | ConnectSuccess(sessionId: int)
    | DisconnectSuccess
    | ErrorBody(error: string)

  datatype Response = Response(statusCode: int, body: Body)

  /** The `vpn_sessions` table and its SERIAL id sequence. */
  class Database {
    var sessions: map<int, SessionRow>
    var nextId: int

    /** Sequence values start at 1 and every id in use was handed out before `nextId`. */
    ghost predicate Valid()
      reads this
    {
      nextId >= 1 && forall id :: id in sessions ==> 1 <= id < nextId
    }

    /** A freshly created table: no rows, the sequence at its start. */
    constructor ()
      ensures Valid() && sessions == map[] && nextId == 1
    {
      sessions := map[];
      nextId := 1;
    }

    /**
     * `INSERT INTO vpn_sessions (server_id, status) VALUES (…, 'connected')
     * RETURNING id`: one new row under an id no existing row has.
     */
    method Insert(serverId: Option<string>) returns (id: int)
      requires Valid()
      modifies this
      ensures Valid()
      ensures id !in old(sessions)
      ensures sessions == old(sessions)[id := SessionRow(serverId, Connected)]
      ensures id == old(nextId) && nextId == old(nextId) + 1
    {
      id := nextId;
      sessions := sessions[id := SessionRow(serverId, Connected)];
      nextId := nextId + 1;
    }

    /** `UPDATE vpn_sessions SET status = 'disconnected' WHERE id = …`. */
    method MarkDisconnected(key: Option<int>)
      requires Valid()
      modifies this
      ensures Valid()
      ensures sessions == SetStatus(old(sessions), key, Disconnected)
      ensures nextId == old(nextId)
    {
      sessions := SetStatus(sessions, key, Disconnected);
    }
  }

  /**
   * `handler(event, context)`: the response for each route, and the table
   * change it makes. Only connect and disconnect touch the table.
   */
  method Handler(e: Event, db: Database) returns (resp: Response)
    requires db.Valid()
    modifies db
    ensures db.Valid()
    ensures Dispatch(e) == Preflight ==> resp == Response(200, EmptyBody)
    ensures Dispatch(e) == ListServers ==> resp == Response(200, ServerListing(Catalogue()))
    ensures Dispatch(e) == Connect ==>
      resp == Response(200, ConnectSuccess(old(db.nextId))) &&
      old(db.nextId) !in old(db.sessions) && db.nextId == old(db.nextId) + 1 &&
      db.sessions == old(db.sessions)[old(db.nextId) := SessionRow(BodyOf(e).serverId, Connected)]
    ensures Dispatch(e) == Disconnect ==>
      resp == Response(200, DisconnectSuccess) &&
      db.sessions == SetStatus(old(db.sessions), BodyOf(e).sessionId, Disconnected)
    ensures Dispatch(e) == NotFound ==> resp == Response(404, ErrorBody("Not found"))
    ensures Dispatch(e) != Connect ==> db.nextId == old(db.nextId)
    ensures Dispatch(e) !in {Connect, Disconnect} ==> db.sessions == old(db.sessions)
  {
    match Dispatch(e)
    case Preflight =>
      resp := Response(200, EmptyBody);
    case ListServers =>
      resp := Response(200, ServerListing(Catalogue()));
    case Connect =>
      var id := db.Insert(BodyOf(e).serverId);
      resp := Response(200, ConnectSuccess(id));
    case Disconnect =>
      db.MarkDisconnected(BodyOf(e).sessionId);
      resp := Response(200, DisconnectSuccess);
    case NotFound =>
      resp := Response(404, ErrorBody("Not found"));
  }

  /** Connecting twice and closing the first session: two distinct ids, only the first row closed. */
  method TwoSessions()
  {
    var db := new Database();
    var connect := Event(Some("POST"), Some(map["action" := "connect"]), Some(RequestBody(Some("3"), None)));
    var first := Handler(connect, db);
    var second := Handler(connect, db);
    assert first.body == ConnectSuccess(1) && second.body == ConnectSuccess(2);
    var close := Event(Some("POST"), Some(map["action" := "disconnect"]), Some(RequestBody(None, Some(1))));
    var closed := Handler(close, db);
    assert closed == Response(200, DisconnectSuccess);
    assert db.sessions == map[1 := SessionRow(Some("3"), Disconnected), 2 := SessionRow(Some("3"), Connected)];
    var listing := Handler(Event(None, None, None), db);
    assert listing.statusCode == 200 && listing.body.ServerListing?;
  }
}
