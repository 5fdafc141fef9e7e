/**
 * `lambda_handler`: resolve the cached database configuration, open a
 * connection, dispatch on `(httpMethod, path)` to the insert or the listing,
 * turn every exception into a fixed 500, and close the connection if it was
 * opened. The pure functions state what one invocation does to the observable
 * world; the class `Lambda` carries it out step by step and is proved to agree.
 */
module Handler {

  import opened Wrappers
  import opened PyValues
  import opened Imc
  import opened Serialize
  import opened Store

  /** The `body` entry of the event, as far as `json.loads(event.get('body', '{}'))` sees it. */
  datatype EventBody =
    | NoBody                      // the key is absent: the default '{}' is decoded
    | Text(parsed: Option<Json>)  // a string, with its decoding (None: not valid JSON)
    | NotText                     // null or another non-string: json.loads raises TypeError

  /** The API Gateway event; `httpMethod` and `path` are whatever `event.get` returns. */
  datatype Event = Event(httpMethod: Json, path: Json, body: EventBody)

  /** Which database driver calls raise during one invocation; the secret store's failure is the `secret` parameter. */
  datatype Faults = Faults(connect: bool, insert: bool, commit: bool, select: bool)

  /** The dict the handler returns: `statusCode`, and the value `json.dumps` encodes as `body`. */
  datatype Response = Response(statusCode: int, body: Json)

  const BAD_REQUEST_MESSAGE: string := "Taille et poids doivent être des nombres positifs"
  const NOT_FOUND_MESSAGE: string := "Route non trouvée"
  const SERVER_ERROR_MESSAGE: string := "Erreur serveur"
  const SAVED_MESSAGE: string := "IMC calculé et sauvegardé avec succès"

  function ErrorResponse(status: int, message: string): Response {
    Response(status, Obj(map["error" := Str(message)]))
  }

  const BAD_REQUEST: Response := ErrorResponse(400, BAD_REQUEST_MESSAGE)
  const NOT_FOUND: Response := ErrorResponse(404, NOT_FOUND_MESSAGE)
  const SERVER_ERROR: Response := ErrorResponse(500, SERVER_ERROR_MESSAGE)

  function Saved(imc: real): Response {
    Response(200, Obj(map["imc" := Num(imc), "message" := Str(SAVED_MESSAGE)]))
  }

  predicate IsPost(e: Event) {
    e.httpMethod == Str("POST") && e.path == Str("/imc")
  }

  predicate IsGet(e: Event) {
    e.httpMethod == Str("GET") && e.path == Str("/imc")
  }

  /** The fields of the decoded POST body, or None when decoding or `body.get` raises. */
  function PostedFields(body: EventBody): (r: Option<map<string, Json>>)
    ensures body.NoBody? ==> r == Some(map[])
    ensures body.NotText? ==> r.None?
    ensures body.Text? ==> (r.Some? <==> body.parsed.Some? && body.parsed.value.Obj?)
    ensures body.Text? && r.Some? ==> r.value == body.parsed.value.fields
  {
    var doc := match body
      case NoBody => Some(Obj(map[]))
      case Text(parsed) => parsed
      case NotText => None;
    if doc.Some? && doc.value.Obj? then Some(doc.value.fields) else None
  }

  /** The arguments `pymysql.connect` receives, or None when `config[...]` raises. */
  datatype ConnectArgs = ConnectArgs(host: Json, user: Json, password: Json, database: Json)

  function ConnectionArgs(config: Json): (r: Option<ConnectArgs>)
    ensures r.Some? <==> config.Obj? && {"host", "username", "password", "dbname"} <= config.fields.Keys
    ensures r.Some? ==> && r.value.host == config.fields["host"] && r.value.user == config.fields["username"]
                        && r.value.password == config.fields["password"] && r.value.database == config.fields["dbname"]
  {
    if config.Obj? && "host" in config.fields && "username" in config.fields
       && "password" in config.fields && "dbname" in config.fields
    then Some(ConnectArgs(config.fields["host"], config.fields["username"],
                          config.fields["password"], config.fields["dbname"]))
    else None
  }

  /** The result of `get_db_config()` and the cache it leaves; `config` is None when it raised. */
  datatype ConfigFetch = ConfigFetch(config: Option<Json>, cache: Json, fetches: nat)

  /**
   * `get_db_config()` against a cache (`Null` is Python's None) and a secret
   * store whose answer is `secret` (None: the lookup, the fetch or the
   * decoding raised).
   */
  function FetchConfig(cache: Json, fetches: nat, secret: Option<Json>): (r: ConfigFetch)
    ensures r.fetches == if cache == Null then fetches + 1 else fetches
    ensures cache != Null ==> r.config == Some(cache) && r.cache == cache
    ensures cache == Null ==> r.config == secret && r.cache == (if secret.Some? then secret.value else Null)
  {
    if cache != Null then ConfigFetch(Some(cache), cache, fetches)
    else
      match secret
      case None => ConfigFetch(None, Null, fetches + 1)
      case Some(v) => ConfigFetch(Some(v), v, fetches + 1)
  }

  /** What the handler's callers can observe: the process-wide cache, the fetch count and the store. */
  datatype World = World(dbConfig: Json, fetches: nat, db: DbState)

  /** The invocation gets as far as an open connection. */
  predicate Connects(w: World, secret: Option<Json>, f: Faults) {
    var fetch := FetchConfig(w.dbConfig, w.fetches, secret);
    fetch.config.Some? && ConnectionArgs(fetch.config.value).Some? && !f.connect
  }

  /** The POST branch, on an open connection. */
  function Created(d: DbState, body: EventBody, f: Faults): (r: (Response, DbState))
    ensures r.1.opens == d.opens && r.1.closes == d.closes
  {
    match PostedFields(body)
    case None => (SERVER_ERROR, d)
    case Some(fields) =>
      match Validate(Get(fields, "height"), Get(fields, "weight"))
      case Rejected => (BAD_REQUEST, d)
      case Raises => (SERVER_ERROR, d)
      case Accepted(height, weight) =>
        match CalculateImc(height, weight)
        case None => (SERVER_ERROR, d)
        case Some(imc) =>
          var executed := d.(statements := d.statements + 1);
          if f.insert then (SERVER_ERROR, executed)
          else
            var inserted := executed.(nextId := d.nextId + 1, clock := d.clock + 1);
            if f.commit then (SERVER_ERROR, inserted)
            else
              var row := Row(d.nextId, height, weight, imc, d.clock);
              (Saved(imc), inserted.(rows := d.rows + [row], commits := d.commits + 1))
  }

  /** The GET branch, on an open connection. */
  function Listed(d: DbState, f: Faults): (r: (Response, DbState))
    ensures r.1 == d.(statements := d.statements + 1)
  {
    var executed := d.(statements := d.statements + 1);
    if f.select then (SERVER_ERROR, executed)
    else
      var doc := DumpRows(FetchAll(SortDesc(d.rows)));
      if doc.None? then (SERVER_ERROR, executed) else (Response(200, doc.value), executed)
  }

  lemma ListedOnSuccess(d: DbState, f: Faults, doc: Json)
    requires !f.select && DumpRows(FetchAll(SortDesc(d.rows))) == Some(doc)
    ensures Listed(d, f) == (Response(200, doc), d.(statements := d.statements + 1))
  {
  }

  /** The body of the `with connection.cursor()` block. */
  function Routed(d: DbState, e: Event, f: Faults): (r: (Response, DbState))
    ensures r.1.opens == d.opens && r.1.closes == d.closes
  {
    if IsPost(e) then Created(d, e.body, f)
    else if IsGet(e) then Listed(d, f)
    else (NOT_FOUND, d)
  }

  /** One call of `lambda_handler(event, context)`. */
  function Handled(w: World, e: Event, secret: Option<Json>, f: Faults): (r: (Response, World))
    ensures r.1.db.opens + w.db.closes == r.1.db.closes + w.db.opens
    ensures r.0.statusCode == 200 ==> Connects(w, secret, f)
  {
    var fetch := FetchConfig(w.dbConfig, w.fetches, secret);
    var cached := w.(dbConfig := fetch.cache, fetches := fetch.fetches);
    if !Connects(w, secret, f) then (SERVER_ERROR, cached)
    else
      var routed := Routed(cached.db.(opens := cached.db.opens + 1), e, f);
      (routed.0, cached.(db := routed.1.(closes := routed.1.closes + 1)))
  }

  /** One invocation's inputs. */
  datatype Call = Call(event: Event, secret: Option<Json>, faults: Faults)

  /** The world after a sequence of invocations of one process. */
  function Run(w: World, calls: seq<Call>): World
    decreases |calls|
  {
    if calls == [] then w
    else Run(Handled(w, calls[0].event, calls[0].secret, calls[0].faults).1, calls[1..])
  }

  /** The handler module's global state, and the database it connects to. */
  class Lambda {
    var dbConfig: Json  // the module-global `db_config`; Null is Python's None
    var fetches: nat    // cache-fill attempts: every call that finds the cache empty
    const db: Database

    /** A cold start: nothing cached yet. */
    constructor (db: Database)
      ensures this.db == db && dbConfig == Null && fetches == 0
    {
      this.db := db;
      dbConfig := Null;
      fetches := 0;
    }

    function State(): World
      reads this, db
    {
      World(dbConfig, fetches, db.Snapshot())
    }

    /** `get_db_config()`: fill the cache on a miss, then return it. */
    method GetDbConfig(secret: Option<Json>) returns (config: Option<Json>)
      modifies this
      ensures ConfigFetch(config, dbConfig, fetches) == FetchConfig(old(dbConfig), old(fetches), secret)
    {
      if dbConfig == Null {
        fetches := fetches + 1;
        if secret.None? {
          return None;
        }
        dbConfig := secret.value;
      }
      config := Some(dbConfig);
    }

    /** `lambda_handler`: the `try` body, the `except` mapping to 500 and the `finally` close. */
    method LambdaHandler(event: Event, secret: Option<Json>, faults: Faults) returns (response: Response)
      requires db.Valid() && !db.connected
      modifies this, db
      ensures db.Valid() && !db.connected
      ensures (response, State()) == Handled(old(State()), event, secret, faults)
    {
      ghost var before := State();
      var config := GetDbConfig(secret);
      if config.None? || ConnectionArgs(config.value).None? {
        assert !Connects(before, secret, faults);
        return SERVER_ERROR;  // raised before `connection` was bound: nothing to close
      }
      var connected := db.Connect(faults.connect);
      if !connected {
        return SERVER_ERROR;
      }
      assert Connects(before, secret, faults);
      ghost var atConnect := db.Snapshot();
      response := Route(event, faults);
      assert (response, db.Snapshot()) == Routed(atConnect, event, faults);
      db.Close();
    }

    /** The `with connection.cursor()` block. */
    method Route(event: Event, faults: Faults) returns (response: Response)
      requires db.Valid() && db.connected && db.pending == []
      modifies db
      ensures db.Valid() && db.connected
      ensures (response, db.Snapshot()) == Routed(old(db.Snapshot()), event, faults)
    {
      if IsPost(event) {
        response := Create(event.body, faults);
      } else if IsGet(event) {
        response := ListHistory(faults);
      } else {
        response := NOT_FOUND;
      }
    }

    /** POST /imc: validate, compute, insert and commit. */
    method Create(body: EventBody, faults: Faults) returns (response: Response)
      requires db.Valid() && db.connected && db.pending == []
      modifies db
      ensures db.Valid() && db.connected
      ensures (response, db.Snapshot()) == Created(old(db.Snapshot()), body, faults)
    {
      var fields := PostedFields(body);
      if fields.None? {
        return SERVER_ERROR;
      }
      var verdict := Validate(Get(fields.value, "height"), Get(fields.value, "weight"));
      if verdict.Rejected? {
        return BAD_REQUEST;
      }
      if verdict.Raises? {
        return SERVER_ERROR;
      }
      var imc := CalculateImc(verdict.height, verdict.weight);
      if imc.None? {
        return SERVER_ERROR;
      }
      ghost var before := db.Snapshot();
      var inserted := db.Insert(verdict.height, verdict.weight, imc.value, faults.insert);
      if !inserted {
        return SERVER_ERROR;
      }
      assert db.pending == [Row(before.nextId, verdict.height, verdict.weight, imc.value, before.clock)];
      var committed := db.Commit(faults.commit);
      if !committed {
        return SERVER_ERROR;
      }
      response := Saved(imc.value);
    }

    /** GET /imc: select every row newest first and encode the result. */
    method ListHistory(faults: Faults) returns (response: Response)
      requires db.Valid() && db.connected && db.pending == []
      modifies db
      ensures db.Valid() && db.connected
      ensures (response, db.Snapshot()) == Listed(old(db.Snapshot()), faults)
    {
      ghost var before := db.Snapshot();
      assert db.rows + db.pending == before.rows;
      var result := db.Select(faults.select);
      if result.None? {
        return SERVER_ERROR;
      }
      var doc := DumpRows(FetchAll(result.value));
      assert doc == DumpRows(FetchAll(SortDesc(before.rows)));
      if doc.None? {
        return SERVER_ERROR;
      }
      response := Response(200, doc.value);
      assert Listed(before, faults) == (response, db.Snapshot()) by {
        ListedOnSuccess(before, faults, doc.value);
      }
    }
  }

}
