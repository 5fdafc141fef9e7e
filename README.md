# IMC handler model

A Dafny model of the AWS Lambda request handler of the serverless IMC
(indice de masse corporelle, body-mass index) application,
`backend/src/handler.py`. Each invocation does the following:

- It resolves the database configuration. The configuration comes from a process-wide cache that is filled from the secret store on a miss.
- It opens a database connection.
- It dispatches on `(httpMethod, path)`:
  - `POST /imc` validates `height` and `weight`, computes `round(weight / (height * height), 2)`, inserts one row into `imc_history` and commits.
  - `GET /imc` selects every row newest first and encodes them with `json.dumps(..., default=decimal_to_float)`.
  - Anything else gets 404.
- Every exception becomes a fixed 500, and the connection is closed on every path that opened it.

Files:

- `wrappers.dfy`: `Option`. `None` also stands for "this Python call raised".
- `python_values.dfy` (module `PyValues`): decoded JSON values. It has Python truthiness, the `<= 0` test (TypeError for non-numbers; `bool` counts as an `int`) and `dict.get`.
- `imc.dfy` (module `Imc`): `round(x, 2)` on exact reals, `calculate_imc`, and the short-circuit positivity check.
- `serialize.dfy` (module `Serialize`): the values the driver returns, `decimal_to_float`, and `json.dumps` over a result set.
- `store.dfy` (module `Store`): the `imc_history` table and class `Database`. The class holds committed rows, the rows of the open transaction, the auto-increment id, a `created_at` clock, and counters for connections opened and closed, statements executed and commits.
- `handler.dfy` (module `Handler`): the pure specification of one invocation (`Handled`, `Routed`, `Created`, `Listed`) and of a sequence of invocations (`Run`). Class `Lambda` holds the module-global cache and a fetch counter. Its methods run the handler step by step and are proved to agree with the specification.
- `properties.dfy` (module `Properties`): what one invocation and any sequence of invocations guarantee. It also has two client scenarios, verified against the class.

The external collaborators are parameters of each invocation:

- `secret` is what the secret store would return. `None` means the environment lookup, the fetch or the decoding raised.
- `Faults` says which driver calls raise: connect, insert, commit, select.

Behaviour of the handler worth knowing:

- The route is `/imc` and the success key is `imc`. The repository's client reads `bmi` instead (frontend/app.py:26 and the `bmi` column at frontend/app.py:41). The messages are the French ones in the code.
- When `height` and `weight` are both truthy, a non-numeric `height` gives 500, not 400. So does a non-numeric `weight` when `height` is a positive number. The `<= 0` comparison raises TypeError, and the handler catches it as any other exception. When either value is falsy, the answer is 400 before any comparison.
- `True` passes validation as 1.
- A configuration without the expected keys stays cached. The error is a KeyError when `pymysql.connect`'s arguments are built, and the secret is not fetched again.
- A GET on a non-empty table answers 500, not the list of rows. `decimal_to_float` accepts only `Decimal`, so `json.dumps` raises TypeError on the `created_at` datetime. An empty table answers 200 with `[]`.
- The table schema is not part of this model. The model assumes DECIMAL `height`, `weight` and `imc`, an INT `id` and a TIMESTAMP `created_at`, read back as `Decimal`, `int` and `datetime`.

## Model

| member | source | states |
|---|---|---|
| `Imc.RoundHalfEven` | backend/src/handler.py:26 | the result is an integer within 0.5 of the input, an integer input is returned unchanged, and an exact tie goes to the even neighbour |
| `Imc.Round2` | backend/src/handler.py:26 | `round(x, 2)` has at most two decimals, lies within 0.005 of `x`, leaves a value with two decimals unchanged, and at an exact half-cent tie picks the even number of cents |
| `Imc.CalculateImc` | backend/src/handler.py:24-26 | raises (None) exactly when height is 0; otherwise the index has at most two decimals and lies within 0.005 of `weight / height²` |
| `Imc.CalculateImcExample` | backend/src/handler.py:24-26 | 1.75 m and 70 kg give 22.86 |
| `Imc.Validate` | backend/src/handler.py:60-66 | accepts exactly when both values are positive numbers (bool counting as 0/1) and returns their numeric values. It raises exactly when both are truthy and either height is not a number, or height is a positive number and weight is not a number. It rejects exactly when one is falsy or the first number compared is `<= 0` |
| `Serialize.DecimalToFloat` | backend/src/handler.py:29-33 | succeeds exactly on a `Decimal`, giving its value; any other value raises TypeError |
| `Serialize.Dump` | backend/src/handler.py:91 | encoding one value fails exactly on a datetime; a `Decimal` or an `int` becomes the number with its value, a `str` the same string and `None` JSON null |
| `Serialize.DumpRow` | backend/src/handler.py:91 | a row encodes exactly when none of its values is a datetime, into an object with the same keys and each value encoded |
| `Serialize.DumpRows` | backend/src/handler.py:91 | a result set encodes exactly when every row does, into a list of the same length with row `i` encoded at `i` |
| `Store.FetchAll` | backend/src/handler.py:86-87 | the dictionary cursor returns one dict per row, in order |
| `Store.DumpFailsUnlessEmpty` | backend/src/handler.py:85-92 | the fetched result set encodes exactly when it is empty, and then as `[]` |
| `Store.InsertByCreatedAt` | backend/src/handler.py:86 | inserting into a newest-first sequence keeps it newest first and adds exactly that row |
| `Store.SortDesc` | backend/src/handler.py:86 | `ORDER BY created_at DESC` yields a newest-first permutation of the table |
| `Store.SortDescIsReverse` | backend/src/handler.py:86 | on a table in insertion order, the sorted result is exactly the insertion order reversed |
| `Store.Database.Connect` | backend/src/handler.py:43-49 | a successful connect opens one connection and changes nothing else; a failed one changes nothing |
| `Store.Database.Insert` | backend/src/handler.py:71-74 | one statement is executed. On success the row (next id, height, weight, imc, current clock) joins the open transaction and the committed rows are unchanged |
| `Store.Database.Commit` | backend/src/handler.py:75 | a successful commit appends the transaction's rows to the table and counts one commit; a failed one changes nothing |
| `Store.Database.Select` | backend/src/handler.py:86-87 | one statement is executed; the result is the visible rows newest first, or the failure |
| `Store.Database.Close` | backend/src/handler.py:106-108 | closes the connection, counts one close and discards the uncommitted rows |
| `Handler.PostedFields` | backend/src/handler.py:56-58 | a missing body reads as `{}`; a body that is not a string, not valid JSON or not a dict raises (None); a dict's fields are returned unchanged |
| `Handler.ConnectionArgs` | backend/src/handler.py:43-47 | the connect arguments exist exactly when the configuration is a dict holding `host`, `username`, `password` and `dbname`, and each argument is the matching entry; otherwise `config[...]` raises (None) |
| `Handler.Handled` | backend/src/handler.py:36-108 | one call of `lambda_handler`: every connection it opens is closed, and 200 is answered only when the configuration and the connect step succeed. The `Properties` lemmas give the rest of its behaviour |
| `Handler.FetchConfig` | backend/src/handler.py:14-21 | fetches exactly when the cache is None; a filled cache is returned and kept unchanged; on a miss the secret's value is returned and cached |
| `Handler.Created` | backend/src/handler.py:55-83 | the POST branch never opens or closes a connection |
| `Handler.Listed` | backend/src/handler.py:85-92 | the GET branch changes nothing but the statement count |
| `Handler.Routed` | backend/src/handler.py:54-98 | routing never opens or closes a connection |
| `Handler.Lambda.constructor` | backend/src/handler.py:11 | a cold process starts with no cached configuration and no fetch |
| `Handler.Lambda.GetDbConfig` | backend/src/handler.py:14-21 | the returned configuration, new cache and fetch count are those of `FetchConfig` |
| `Handler.Lambda.LambdaHandler` | backend/src/handler.py:36-108 | the response and the new cache, fetch count and store are those of `Handled`; no connection stays open |
| `Handler.Lambda.Route` | backend/src/handler.py:54-98 | the response and the new store are those of `Routed` |
| `Handler.Lambda.Create` | backend/src/handler.py:55-83 | the response and the new store are those of `Created` |
| `Handler.Lambda.ListHistory` | backend/src/handler.py:85-92 | the response and the new store are those of `Listed` |
| `Properties.ConnectionReleased` | backend/src/handler.py:106-108 | one connection is opened and one closed exactly when the configuration and the connect step succeed; none otherwise |
| `Properties.ResponsesAreFixed` | backend/src/handler.py:100-105 | the status is 200, 400, 404 or 500. 400, 404 and 500 each carry their one fixed body, so a 500 never exposes the cause. 200 comes only from the two `/imc` routes |
| `Properties.FailureBeforeRouting` | backend/src/handler.py:38-49 | when the configuration or the connection fails, every route gets 500 and the store is unchanged |
| `Properties.UnknownRoute` | backend/src/handler.py:94-98 | any other method or path gets 404 once connected (500 otherwise) and executes no statement |
| `Properties.BadRequestExactly` | backend/src/handler.py:60-66 | 400 exactly when connected, on POST `/imc`, with a dict body whose fields the positivity check rejects; the table, statements and commits are unchanged |
| `Properties.ComparisonErrorIsServerError` | backend/src/handler.py:60 | a truthy non-number that reaches `<= 0` gives 500 and leaves the store unchanged |
| `Properties.PostFailuresAreServerErrors` | backend/src/handler.py:56-75 | on POST `/imc`, a body that does not decode or is not a dict, a `<= 0` TypeError, or a raising INSERT or commit each answer the fixed 500; no row is added and nothing is committed |
| `Properties.SavedExactly` | backend/src/handler.py:55-83 | a POST answers 200 exactly when connected, the body is a dict, the check accepts, and the insert and the commit succeed |
| `Properties.ValidPostIsSaved` | backend/src/handler.py:68-83 | a valid POST with a working insert and commit answers 200 with the rounded index and appends exactly the row (next id, height, weight, index, clock); one statement and one commit are counted |
| `Properties.RowsChangeOnlyOnSavedPost` | backend/src/handler.py:71-83 | the table is unchanged, or a POST answered 200 and the table grew by exactly one row whose index is the one returned |
| `Properties.ListingIsReadOnly` | backend/src/handler.py:85-92 | GET changes only the statement and connection counters. It answers 200 exactly when connected, the select succeeds and the table is empty, and then with `[]`. Otherwise it answers the fixed 500 |
| `Properties.ListedSucceedsOnlyWhenEmpty` | backend/src/handler.py:85-92 | on an open connection, the listing answers 200 with `[]` exactly when the select succeeds on an empty table, else the fixed 500 |
| `Properties.HandledPreservesValid` | backend/src/handler.py:71-75 | an invocation keeps the table in insertion order (ids and `created_at` increasing, below the counters) and leaves no connection open |
| `Properties.RunPreservesValid` | backend/src/handler.py:36-108 | the same holds after any sequence of invocations |
| `Properties.RowsAreNeverRemoved` | backend/src/handler.py:71-75 | after any sequence of invocations the earlier table is a prefix of the later one |
| `Properties.FilledCacheIsKept` | backend/src/handler.py:14-21 | once the cache holds a configuration, no sequence of invocations fetches again or changes it |
| `Properties.SecretFetchedOnce` | backend/src/handler.py:14-21 | a cold process whose first fetch yields a non-null configuration fetches exactly once over any sequence of invocations and keeps that configuration |

## Left out

- The Secrets Manager client and the `DB_SECRET_ARN` environment lookup are foreign I/O. Each invocation receives the secret store's answer as the `secret` parameter.
- The pymysql driver, the cursor context manager and the SQL text are a foreign driver. They become class `Database` and the `Faults` parameter. A failure of `connection.close()` itself is not modelled.
- Which connection arguments make `pymysql.connect` fail is decided by `Faults.connect`. Only the KeyError or TypeError from building those arguments is modelled.
- `json.loads` of the event body and of the secret is abstracted. The event carries the decoded value, or its failure.
- The body's text encoding by `json.dumps` is not modelled: escaping of non-ASCII characters and key order. A response carries the JSON value that would be encoded.
- `print` logging of the exception is diagnostic output only.
- The race between concurrent invocations filling the cache for the first time is a concurrency concern and is not modelled.
- `created_at` comes from a strictly increasing counter. Timestamps that tie, with the unspecified order `ORDER BY` then gives, are not modelled.
- The scale of the DECIMAL columns is not modelled. Stored values keep the exact value that was inserted.
- `frontend/app.py` is a Streamlit user interface and HTTP client. It is not part of this model.
- Imc.CalculateImc: computes on exact reals with round-half-even at two decimals, not on IEEE doubles. Float overflow, underflow of `height * height` to 0.0 (a ZeroDivisionError), NaN and Infinity inputs, and the exact digits of the rounded double are not captured.
- Serialize.DecimalToFloat: `float(Decimal)` is the exact value, not the nearest double.
- PyValues.Json has no separate "missing" value. `dict.get` gives `None` for an absent key, so an absent field and a null field behave the same, as they do in the handler.
