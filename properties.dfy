/**
 * What one invocation, and any sequence of invocations, of the handler
 * promises: fixed responses per outcome, the store untouched by everything
 * but a committed POST, a read-only listing, the connection released on
 * every path, and a configuration fetched until it is first cached.
 */
module Properties {

  import opened Wrappers
  import opened PyValues
  import opened Imc
  import opened Serialize
  import opened Store
  import opened Handler

  /** The store as it is after an invocation that changed nothing but the connection counters. */
  function Untouched(w: World, s: Option<Json>, f: Faults): DbState {
    if Connects(w, s, f) then w.db.(opens := w.db.opens + 1, closes := w.db.closes + 1) else w.db
  }

  /** A connection is closed exactly when one was opened, and never when the config or connect step raised. */
  lemma ConnectionReleased(w: World, e: Event, s: Option<Json>, f: Faults)
    ensures Handled(w, e, s, f).1.db.opens == w.db.opens + (if Connects(w, s, f) then 1 else 0)
    ensures Handled(w, e, s, f).1.db.closes == w.db.closes + (if Connects(w, s, f) then 1 else 0)
  {
  }

  /** Each status code comes with its one fixed body; a 500 never carries the cause. */
  lemma ResponsesAreFixed(w: World, e: Event, s: Option<Json>, f: Faults)
    ensures var r := Handled(w, e, s, f).0;
      && r.statusCode in {200, 400, 404, 500}
      && (r.statusCode == 400 ==> r == BAD_REQUEST)
      && (r.statusCode == 404 ==> r == NOT_FOUND)
      && (r.statusCode == 500 ==> r == SERVER_ERROR)
      && (r.statusCode == 200 ==> IsPost(e) || IsGet(e))
  {
  }

  /** Configuration and connection come before routing: when either raises, every route gets 500. */
  lemma FailureBeforeRouting(w: World, e: Event, s: Option<Json>, f: Faults)
    requires !Connects(w, s, f)
    ensures Handled(w, e, s, f).0 == SERVER_ERROR
    ensures Handled(w, e, s, f).1.db == w.db
  {
  }

  /** Any other method or path gets 404 and executes no statement. */
  lemma UnknownRoute(w: World, e: Event, s: Option<Json>, f: Faults)
    requires !IsPost(e) && !IsGet(e)
    ensures Handled(w, e, s, f).0 == if Connects(w, s, f) then NOT_FOUND else SERVER_ERROR
    ensures Handled(w, e, s, f).1.db == Untouched(w, s, f)
  {
  }

  /** A POST gets 400 exactly when the positivity check rejects the decoded fields; nothing is executed. */
  lemma BadRequestExactly(w: World, e: Event, s: Option<Json>, f: Faults)
    ensures Handled(w, e, s, f).0.statusCode == 400 <==>
      && Connects(w, s, f)
      && IsPost(e)
      && PostedFields(e.body).Some?
      && Validate(Get(PostedFields(e.body).value, "height"), Get(PostedFields(e.body).value, "weight")).Rejected?
    ensures Handled(w, e, s, f).0.statusCode == 400 ==> Handled(w, e, s, f).1.db == Untouched(w, s, f)
  {
  }

  /** A truthy value that `<= 0` cannot compare raises TypeError: 500 rather than 400, nothing executed. */
  lemma ComparisonErrorIsServerError(w: World, e: Event, s: Option<Json>, f: Faults)
    requires Connects(w, s, f) && IsPost(e) && PostedFields(e.body).Some?
    requires var fields := PostedFields(e.body).value;
      var height := Get(fields, "height");
      var weight := Get(fields, "weight");
      Truthy(height) && Truthy(weight) && (!IsNumber(height) || (IsPositive(height) && !IsNumber(weight)))
    ensures Handled(w, e, s, f).0 == SERVER_ERROR
    ensures Handled(w, e, s, f).1.db == Untouched(w, s, f)
  {
  }

  /**
   * Every exception on the POST branch answers the fixed 500 and commits
   * nothing. The exceptions are: the body does not decode or is not a dict,
   * `<= 0` raises, or the INSERT or the commit raises.
   */
  lemma PostFailuresAreServerErrors(w: World, e: Event, s: Option<Json>, f: Faults)
    requires Connects(w, s, f) && IsPost(e)
    requires || PostedFields(e.body).None?
             || (var fields := PostedFields(e.body).value;
                 var verdict := Validate(Get(fields, "height"), Get(fields, "weight"));
                 verdict.Raises? || (verdict.Accepted? && (f.insert || f.commit)))
    ensures Handled(w, e, s, f).0 == SERVER_ERROR
    ensures Handled(w, e, s, f).1.db.rows == w.db.rows
    ensures Handled(w, e, s, f).1.db.commits == w.db.commits
  {
  }

  /** A POST answers 200 exactly when the body decodes to a dict, the check accepts, and insert and commit succeed. */
  lemma SavedExactly(w: World, e: Event, s: Option<Json>, f: Faults)
    requires IsPost(e)
    ensures Handled(w, e, s, f).0.statusCode == 200 <==>
      && Connects(w, s, f)
      && PostedFields(e.body).Some?
      && Validate(Get(PostedFields(e.body).value, "height"), Get(PostedFields(e.body).value, "weight")).Accepted?
      && !f.insert && !f.commit
  {
  }

  /** A valid POST whose insert and commit succeed stores one row and answers with its index. */
  lemma ValidPostIsSaved(w: World, e: Event, s: Option<Json>, f: Faults, height: real, weight: real)
    requires Connects(w, s, f) && IsPost(e) && PostedFields(e.body).Some?
    requires var fields := PostedFields(e.body).value;
      && IsPositive(Get(fields, "height")) && NumberValue(Get(fields, "height")) == height
      && IsPositive(Get(fields, "weight")) && NumberValue(Get(fields, "weight")) == weight
    requires !f.insert && !f.commit
    ensures var imc := Round2(weight / (height * height));
      && Handled(w, e, s, f).0 == Saved(imc)
      && Handled(w, e, s, f).1.db.rows == w.db.rows + [Row(w.db.nextId, height, weight, imc, w.db.clock)]
    ensures Handled(w, e, s, f).1.db.commits == w.db.commits + 1
    ensures Handled(w, e, s, f).1.db.statements == w.db.statements + 1
  {
    assert CalculateImc(height, weight) == Some(Round2(weight / (height * height)));
  }

  /** The table changes only by one appended row, and only when a POST answers 200 with that row's index. */
  lemma RowsChangeOnlyOnSavedPost(w: World, e: Event, s: Option<Json>, f: Faults)
    ensures var (r, w') := Handled(w, e, s, f);
      || (w'.db.rows == w.db.rows && w'.db.commits == w.db.commits && !(IsPost(e) && r.statusCode == 200))
      || (&& IsPost(e) && r.statusCode == 200
          && |w'.db.rows| == |w.db.rows| + 1
          && w'.db.rows[..|w.db.rows|] == w.db.rows
          && r == Saved(w'.db.rows[|w.db.rows|].imc)
          && w'.db.commits == w.db.commits + 1)
  {
  }

  /**
   * GET never changes the table; it answers 200 exactly when the table is
   * empty (with `[]`), because `created_at` cannot be encoded.
   */
  lemma ListingIsReadOnly(w: World, e: Event, s: Option<Json>, f: Faults)
    requires IsGet(e)
    ensures var (r, w') := Handled(w, e, s, f);
      && w'.db == Untouched(w, s, f).(statements := w.db.statements + (if Connects(w, s, f) then 1 else 0))
      && (r.statusCode == 200 <==> Connects(w, s, f) && !f.select && w.db.rows == [])
      && (r.statusCode == 200 ==> r.body == List([]))
      && (r.statusCode != 200 ==> r == SERVER_ERROR)
  {
    ListedSucceedsOnlyWhenEmpty(w.db.(opens := w.db.opens + 1), f);
  }

  lemma ListedSucceedsOnlyWhenEmpty(d: DbState, f: Faults)
    ensures var (r, d') := Listed(d, f);
      && (r.statusCode == 200 <==> !f.select && d.rows == [])
      && (r.statusCode == 200 ==> r.body == List([]))
      && (r.statusCode != 200 ==> r == SERVER_ERROR)
  {
    var sorted := SortDesc(d.rows);
    assert sorted == [] <==> d.rows == [] by {
      if sorted == [] {
        assert |multiset(d.rows)| == 0;
      }
    }
    DumpFailsUnlessEmpty(sorted);
  }

  /** The store's invariant between invocations: rows in insertion order and no connection open. */
  predicate WorldValid(w: World) {
    Chronological(w.db.rows, w.db.clock, w.db.nextId) && w.db.opens == w.db.closes
  }

  lemma HandledPreservesValid(w: World, e: Event, s: Option<Json>, f: Faults)
    requires WorldValid(w)
    ensures WorldValid(Handled(w, e, s, f).1)
  {
  }

  /** Over any sequence of invocations, the table stays in insertion order and no connection leaks. */
  lemma {:induction false} RunPreservesValid(w: World, calls: seq<Call>)
    requires WorldValid(w)
    ensures WorldValid(Run(w, calls))
    decreases |calls|
  {
    if calls != [] {
      HandledPreservesValid(w, calls[0].event, calls[0].secret, calls[0].faults);
      RunPreservesValid(Handled(w, calls[0].event, calls[0].secret, calls[0].faults).1, calls[1..]);
    }
  }

  /** Rows are never updated or deleted: the table before is a prefix of the table after. */
  lemma {:induction false} RowsAreNeverRemoved(w: World, calls: seq<Call>)
    ensures w.db.rows <= Run(w, calls).db.rows
    decreases |calls|
  {
    if calls != [] {
      var next := Handled(w, calls[0].event, calls[0].secret, calls[0].faults).1;
      RowsChangeOnlyOnSavedPost(w, calls[0].event, calls[0].secret, calls[0].faults);
      RowsAreNeverRemoved(next, calls[1..]);
    }
  }

  /** Once the cache holds a configuration, no later invocation fetches the secret or changes the cache. */
  lemma {:induction false} FilledCacheIsKept(w: World, calls: seq<Call>)
    requires w.dbConfig != Null
    ensures Run(w, calls).dbConfig == w.dbConfig
    ensures Run(w, calls).fetches == w.fetches
    decreases |calls|
  {
    if calls != [] {
      FilledCacheIsKept(Handled(w, calls[0].event, calls[0].secret, calls[0].faults).1, calls[1..]);
    }
  }

  /** A cold process fetches on its first invocation and, once the secret decodes to a non-null value, never again. */
  lemma {:induction false} SecretFetchedOnce(w: World, first: Call, calls: seq<Call>)
    requires w.dbConfig == Null
    requires first.secret.Some? && first.secret.value != Null
    ensures Run(w, [first] + calls).dbConfig == first.secret.value
    ensures Run(w, [first] + calls).fetches == w.fetches + 1
  {
    var next := Handled(w, first.event, first.secret, first.faults).1;
    assert ([first] + calls)[1..] == calls;
    FilledCacheIsKept(next, calls);
  }

  function TestConfig(): Json {
    Obj(map["host" := Str("db"), "username" := Str("u"), "password" := Str("p"), "dbname" := Str("imc")])
  }

  /** A cold start: the first listing fetches the secret, caches it and answers `[]`. */
  method ScenarioEmptyListing()
  {
    var db := new Database();
    var lambda := new Lambda(db);
    var ok := Faults(false, false, false, false);
    var list := Event(Str("GET"), Str("/imc"), NoBody);

    ghost var w0 := lambda.State();
    assert Connects(w0, Some(TestConfig()), ok);
    var empty := lambda.LambdaHandler(list, Some(TestConfig()), ok);
    ListingIsReadOnly(w0, list, Some(TestConfig()), ok);
    assert empty == Response(200, List([]));
    assert lambda.dbConfig == TestConfig() && lambda.fetches == 1;
    assert db.opens == db.closes == 1;
  }

  /** The POST of the second scenario, on a cold process: 70 kg at 1.75 m is saved as 22.86. */
  lemma ColdSave(post: Event)
    requires post == Event(Str("POST"), Str("/imc"), Text(Some(Obj(map["height" := Num(1.75), "weight" := Num(70.0)]))))
    ensures var r := Handled(World(Null, 0, DbState([], 0, 0, 0, 0, 0, 0)), post, Some(TestConfig()), Faults(false, false, false, false));
      && r.0 == Saved(22.86)
      && r.1.dbConfig == TestConfig() && r.1.fetches == 1
      && r.1.db.rows == [Row(0, 1.75, 70.0, 22.86, 0)]
  {
    var w0 := World(Null, 0, DbState([], 0, 0, 0, 0, 0, 0));
    var fields := map["height" := Num(1.75), "weight" := Num(70.0)];
    assert Get(fields, "height") == Num(1.75) && Get(fields, "weight") == Num(70.0);
    ValidPostIsSaved(w0, post, Some(TestConfig()), Faults(false, false, false, false), 1.75, 70.0);
    CalculateImcExample();
  }

  /** A POST of 1.75 m and 70 kg saves 22.86; the listing that follows fails on `created_at`. */
  method ScenarioSaveThenList()
  {
    var db := new Database();
    var lambda := new Lambda(db);
    var ok := Faults(false, false, false, false);
    var post := Event(Str("POST"), Str("/imc"), Text(Some(Obj(map["height" := Num(1.75), "weight" := Num(70.0)]))));

    var saved := lambda.LambdaHandler(post, Some(TestConfig()), ok);
    ColdSave(post);
    assert saved == Saved(22.86);
    assert db.rows == [Row(0, 1.75, 70.0, 22.86, 0)];

    ghost var w1 := lambda.State();
    var history := lambda.LambdaHandler(Event(Str("GET"), Str("/imc"), NoBody), None, ok);
    ListingIsReadOnly(w1, Event(Str("GET"), Str("/imc"), NoBody), None, ok);
    assert history == SERVER_ERROR;
    assert lambda.fetches == 1;
  }

}
