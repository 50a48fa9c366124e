# cruder — a Dafny model of the user service's core

cruder is a small HTTP service that keeps a `users` table in PostgreSQL and
offers create, read, update and delete on it under `/api/v1/users`. This
project models, in Dafny, the parts of it that decide outcomes:

- the **repository** layer, which turns what the database driver reports
  (a row, "no rows", a PostgreSQL error with a code, a row count) into a
  Go `(user, err)` pair, mapping the unique-violation code `23505` to
  `ErrUniqueConstraint`;
- the **service** layer, which translates "no rows" into a fresh "user is not found" error
  and recognises the repository's unique-constraint error through the
  `errors.Is` unwrap chain;
- the **API-key gate** middleware (401 without a key, 403 with a wrong one,
  everything allowed when no key is configured);
- the **request-logging** middleware's derivation of a log record (level by
  status class, route, user id from the request context);
- the **test configuration loader**: the `.env` line parser, the walk over
  candidate files where already-set variables win, the defaults, and the
  keyword/value connection string (`BuildDSN`).

A small in-memory `users` table (`UsersTable.Table`) stands in for the
database so that the layers can be composed into end-to-end round trips
(`RoundTrips`). A reader of keyword/value connection strings
(`Conninfo.ParseConninfo`) follows the syntax PostgreSQL documents for
libpq in the PostgreSQL manual, under "Keyword/Value Connection Strings": white space separates pairs, values may be single-quoted,
and a backslash escapes the next character. It is the reference against which
`BuildDSN` is judged.

Modules: `Wrappers` (Option), `Model` (User), `Errors` (error values and
`errors.Is`), `Repository`, `Service`, `Auth`, `Logging` and `MiddlewareChain` (the
logger wrapping the gate), `GoStrings` (Go's `strings.TrimSpace` and
`strings.SplitN(s, sep, 2)`), `TestConfig`, `Conninfo`, `UsersTable`,
`RoundTrips`.

## Model

| member | source | states |
|---|---|---|
| Errors.Chain | internal/service/users.go:52-54 | the unwrap chain starts at the error, each link is the previous one's wrapped error, and it ends at an error that wraps nothing |
| Errors.IsIffOnChain | internal/service/users.go:52-54 | `errors.Is(err, target)` holds exactly when target is one of the errors on err's unwrap chain |
| Repository.IsUniqueConstraintError | internal/repository/users.go:126-131 | an error counts as a unique violation exactly when it is a PostgreSQL error whose code is 23505 |
| Repository.GetOne | internal/repository/users.go:55-89 | a lookup by username, id or uuid returns the scanned user on a row, `(nil, nil)` on "no rows", and the driver's error otherwise, never both a user and an error |
| Repository.ArgsIgnoreIdAndUuid | internal/repository/users.go:91-124 | the INSERT and UPDATE statements are fed only username, email and full name (plus the path uuid for UPDATE); the body's id and uuid are ignored |
| Repository.CreateOutcome | internal/repository/users.go:91-105 | create returns either the inserted user or an error; a unique violation becomes `ErrUniqueConstraint`, any other error is returned unchanged |
| Repository.UpdateOutcome | internal/repository/users.go:107-124 | update returns the updated user, `(nil, nil)` exactly when no row matched the uuid, `ErrUniqueConstraint` for a unique violation, and other errors unchanged |
| Repository.DeleteOutcome | internal/repository/users.go:133-146 | delete succeeds exactly when the statement ran and affected a row, reports "no rows" when it affected none, and passes through an execution or row-count error |
| Repository.ScanAll | internal/repository/users.go:39-46 | scanning succeeds exactly when every row scans, then yields the users in row order; otherwise it reports the first row whose scan failed, with its error |
| Repository.ScanAllErrPersists | internal/repository/users.go:40-44 | rows after the first failed scan cannot change the outcome |
| Repository.GetAll | internal/repository/users.go:32-53 | the listing loop computes the specified outcome: the query error, the first scan error, or the cursor's iteration error give no users, and otherwise every row's user in order |
| Service.EnsureUserExists | internal/service/users.go:85-93 | a repository error is passed on, a missing user becomes a fresh "user is not found" error, and a found user is returned as is |
| Service.GetOne | internal/service/users.go:34-47 | the three getters return the user on a row, a fresh "user is not found" error on "no rows", and the driver's error otherwise; exactly one of user and error is set |
| Service.GetAll | internal/service/users.go:30-32 | listing passes the repository's users and error through unchanged |
| Service.Create | internal/service/users.go:49-58 | an error that is (or wraps) the repository's unique-constraint error becomes the service's `ErrUniqueConstraint`; other errors pass through; success is returned as is |
| Service.Update | internal/service/users.go:60-72 | as create, and in addition a repository `(nil, nil)` becomes a fresh "user is not found" error |
| Service.Delete | internal/service/users.go:74-83 | "no rows" becomes a fresh "user is not found" error; every other result passes through |
| Service.CreateThroughLayers | internal/service/users.go:49-58 | composed over the repository: a unique violation reaches the caller as the service's `ErrUniqueConstraint`, a row as the user, any other driver error unchanged |
| Service.UpdateThroughLayers | internal/service/users.go:60-72 | composed over the repository: no matching row gives a fresh "user is not found" error, a unique violation the service's `ErrUniqueConstraint`, a row the user, other errors unchanged |
| Service.DeleteThroughLayers | internal/service/users.go:74-83 | composed over the repository: delete succeeds exactly when a row was affected, zero rows give a fresh "user is not found" error, driver errors pass through |
| Auth.NewGate | internal/middleware/auth.go:13-21 | an empty configured key disables the check; otherwise the configured key is the one required |
| Auth.Decide | internal/middleware/auth.go:23-43 | with a key configured: a missing or empty `X-API-Key` header gives 401, a different key gives 403, and only the exact key lets the request through |
| Auth.AuthorizeOutcomes | internal/middleware/auth.go:13-44 | end to end: requests pass exactly when no key is configured or the header equals the non-empty key; 401 exactly when a key is configured and the header is empty; 403 otherwise |
| Logging.LogLevel | internal/middleware/logging.go:36-41 | the level is "info" exactly below 400, "warn" exactly for 400–499, "error" exactly from 500 on |
| Logging.LogLevelMonotone | internal/middleware/logging.go:36-41 | a higher status never gets a less severe level |
| Logging.UserId | internal/middleware/logging.go:43-48 | the record carries a user id exactly when the context holds a non-empty string under `user_id`, and then it is that string |
| Logging.Route | internal/middleware/logging.go:50-53 | the route is the matched route pattern, or the raw path when no route matched |
| Logging.LogRecord | internal/middleware/logging.go:24-70 | the record holds the request's method and path, the status the handler chain set, the level for that status, the route, the host, the user id and the given timestamp and duration |
| MiddlewareChain.RejectedRequestIsLoggedAsWarning | internal/middleware/auth.go:23-43 | a request the API-key gate rejects is logged at level "warn", and a rejection only happens when a key is configured |
| GoStrings.TrimLeftDropsSpace | internal/handler/test_config.go:54 | trimming the left end removes exactly a prefix of white space |
| GoStrings.TrimRightDropsSpace | internal/handler/test_config.go:54 | trimming the right end removes exactly a suffix of white space |
| GoStrings.TrimSpace | internal/handler/test_config.go:54 | the trimmed line neither starts nor ends with white space and is no longer than the input |
| GoStrings.TrimSpaceWithin | internal/handler/test_config.go:65-66 | trimming adds no characters: anything in the trimmed text was in the input |
| GoStrings.TrimSpaceOfPadded | internal/handler/test_config.go:54 | white space around a text with non-space ends is exactly what trimming removes |
| GoStrings.TrimSpaceIdempotent | internal/handler/test_config.go:65-66 | trimming twice is the same as trimming once |
| GoStrings.SplitFirst | internal/handler/test_config.go:60 | splitting at most once gives the whole text when the separator is absent, and otherwise the text before the first separator and everything after it |
| GoStrings.SplitFirstOfJoined | internal/handler/test_config.go:60 | splitting `a + "=" + b` with no `=` in `a` gives back `a` and `b` |
| TestConfig.Environment.Setenv | internal/handler/test_config.go:73-79 | setting a variable succeeds exactly for a non-empty key without `=` or NUL and a value without NUL, and then changes only that variable |
| TestConfig.StripQuotes | internal/handler/test_config.go:68-71 | a value of two or more characters that starts and ends with the same double or single quote loses both; anything else is kept |
| TestConfig.StripQuotesOfQuoted | internal/handler/test_config.go:68-71 | quoting a text with either quote character and stripping gives the text back |
| TestConfig.ParseLine | internal/handler/test_config.go:54-71 | a blank or `#` line (after trimming) and a line without `=` assign nothing; an assignment's key is trimmed and contains no `=` |
| TestConfig.ParseLineOfSplit | internal/handler/test_config.go:60-71 | a trimmed line not starting with `#`, split at its first `=`, assigns the trimmed left part (possibly empty) the trimmed, unquoted right part |
| TestConfig.ParseLineOfAssignment | internal/handler/test_config.go:54-71 | a line `key = value` with any surrounding white space assigns exactly `key` the unquoted `value` |
| TestConfig.ApplyLinesKeepsSetVariables | internal/handler/test_config.go:73-79 | a variable already set to a non-empty value is never overwritten by the file |
| TestConfig.ApplyLinesTouchesOnlyAssignedKeys | internal/handler/test_config.go:52-80 | a variable no line assigns keeps its value |
| TestConfig.FirstNonEmptyValueWins | internal/handler/test_config.go:73-79 | when a key is unset, the first line assigning it a non-empty value decides its final value |
| TestConfig.ApplyLinesSuffix | internal/handler/test_config.go:52-80 | the file is processed line by line: applying a prefix and then the rest equals applying the whole |
| TestConfig.LoadEnvFile | internal/handler/test_config.go:44-83 | the loop leaves the environment as specified for the file's lines, and reports the open error or the scanner error; a file that cannot be opened changes nothing |
| TestConfig.LoadFirstKeepsSetVariables | internal/handler/test_config.go:19-27 | loading the candidate files never overwrites a variable that was already set |
| TestConfig.LoadFirstStopsAtFirstSuccess | internal/handler/test_config.go:22-27 | files after the first one that loads without error (opens and scans without a scanner error) are never looked at |
| TestConfig.GetEnvOrDefault | internal/handler/test_config.go:98-103 | an unset or empty variable gives the default, a set one its value |
| TestConfig.ConfigFrom | internal/handler/test_config.go:29-37 | host, port, user, password, database and sslmode each come from their own `TEST_POSTGRES_*` variable when it is set and non-empty, and otherwise from their own default, so none is empty; the DSN is taken from `TEST_POSTGRES_DSN` without a default |
| TestConfig.LoadTestConfig | internal/handler/test_config.go:19-40 | loading walks the candidate files in order, stopping at the first file that loads without error, and builds the configuration from the resulting environment |
| TestConfig.BuildDSN | internal/handler/test_config.go:85-88 | a non-empty configured DSN is used verbatim; the six-field string otherwise is characterised by the `Conninfo` lemmas |
| TestConfig.DefaultConnection | internal/handler/test_config.go:29-37 | with nothing set, the configuration and connection string are the documented local defaults (localhost:5433, postgres, postgres_test, sslmode disable) |
| Conninfo.BuildDSNConflates | internal/handler/test_config.go:90-95 | the connection string as written maps two different configurations to one string whenever the password contains ` dbname=` |
| Conninfo.BuildDSNConflatesConfigs | internal/handler/test_config.go:90-95 | a concrete pair of different configurations that yield the same connection string |
| Conninfo.BuildDSNIsRenderPlain | internal/handler/test_config.go:85-96 | without a DSN override, the connection string is the six settings written as `keyword=value` separated by single spaces |
| Conninfo.ParseRenderPlain | internal/handler/test_config.go:90-95 | settings written unquoted are read back exactly whenever every value is non-empty and free of white space and backslashes and does not open with a single quote |
| Conninfo.BuildDSNRoundTripWhenPlain | internal/handler/test_config.go:85-96 | when all six values are plain, a libpq reader gets back exactly the configured host, port, user, password, database and sslmode |
| Conninfo.ParseQuotedOfEscaped | internal/handler/test_config.go:90-95 | a value escaped and single-quoted is read back exactly, whatever it contains |
| Conninfo.ParseRenderQuoted | internal/handler/test_config.go:90-95 | any settings with valid keywords, written with quoted and escaped values, are read back exactly |
| Conninfo.QuotedDSNRoundTrip | internal/handler/test_config.go:85-96 | the corrected connection string gives a libpq reader exactly the six configured settings, for every value |
| Conninfo.QuotedAgreesWhenPlain | internal/handler/test_config.go:85-96 | for plain values the corrected string means the same as the string as written |
| Conninfo.QuotedDSNInjective | internal/handler/test_config.go:85-96 | different configurations always give different corrected connection strings |
| UsersTable.Table.constructor | internal/handler/handler_test.go:84 | a truncated table is empty and its identity restarts at 1 |
| UsersTable.Table.SelectByUuid | internal/repository/users.go:79-89 | selecting by uuid yields the stored row, or "no rows" when the uuid is absent |
| UsersTable.Table.Insert | internal/repository/users.go:91-105 | an insert whose uuid, username or email is taken fails with a unique violation and changes no row; otherwise it stores the user under a fresh id and returns it |
| UsersTable.Table.Update | internal/repository/users.go:107-124 | an update of an absent uuid gives "no rows"; one that would take another row's username or email fails with a unique violation; otherwise only that row's username, email and full name change |
| UsersTable.Table.Delete | internal/repository/users.go:133-146 | deleting removes the row with that uuid, affecting one row when it existed and none otherwise |
| RoundTrips.GetByUuid | internal/service/users.go:44-47 | through repository and service, a stored uuid yields its user and any other uuid a fresh "user is not found" error |
| RoundTrips.CreateUser | internal/service/users.go:49-58 | through all layers, create stores the user under the generated uuid and returns it, or returns `ErrUniqueConstraint` exactly when the uuid, username or email is taken, leaving the table unchanged |
| RoundTrips.CreateTwice | internal/handler/handler_test.go:459-491 | creating a user and then another user with the same username and any email: the first succeeds, the second fails with `ErrUniqueConstraint` and leaves the table as the first create left it |
| RoundTrips.UpdateUser | internal/service/users.go:60-72 | through all layers, updating an absent uuid gives a fresh "user is not found" error, a username or email taken by another row `ErrUniqueConstraint` with no change, an error exactly in those two cases, and otherwise the stored updated user |
| RoundTrips.DeleteUser | internal/service/users.go:74-83 | through all layers, delete succeeds exactly when the uuid was stored, removes it, and a later lookup gives a fresh "user is not found" error |
| RoundTrips.DeleteTwice | internal/handler/handler_test.go:300-346 | deleting a uuid twice leaves it removed and the second delete reports a fresh "user is not found" error |

## Left out

- The SQL text, the `database/sql` connection pool and the `lib/pq` driver: the driver's answers are inputs (`RowResult`, `ExecResult`, `Cursor`), and `UsersTable.Table` is an in-memory stand-in with the table's unique constraints on uuid, username and email.
- The gin router, the controllers' mapping of service errors to HTTP statuses and JSON bodies, and request binding: the core decides the errors, not the HTTP encoding.
- `Repository.GetOne` models GetByUsername, GetByID and GetByUUID at once, since they differ only in the WHERE clause; `UsersTable.Table` selects by uuid only.
- Zero rows: the Go listing returns a nil slice, the model an empty sequence.
- `errors.New` values are compared by identity in Go; the model's error values compare structurally. For `ErrNoRows` and `ErrUniqueConstraint` (one package-level value, which the service re-exports) this is the same.
- Not-found errors: the service builds a new `errors.New("user is not found")` at each use (internal/service/users.go:69, 78, 89), and no two of them are `==` in Go; the model treats all of them as the one value `UserNotFound`, so a contract such as `RoundTrips.DeleteTwice`'s `second == Some(UserNotFound)` says "a user-is-not-found error", not identity with any particular Go value.
- The uuid generator of the database default is a parameter of the insert.
- The logger's clock, the duration measurement, JSON encoding and the write to standard error: the timestamp and duration are parameters and the record is a value.
- `bufio.Scanner` line splitting and its 64 KiB line limit: the file is given as its lines, with the scanner's final error as a value; the OS environment and file system are a map and a set of files.
- `TestConfig.Environment.Setenv`: models the POSIX rules for keys and values, not the Windows ones.
- `Conninfo.ParseConninfo`: keyword validation against libpq's list and URI-form connection strings are not modelled; unknown keywords are accepted as they are. A value ending in a lone backslash is rejected, as lib/pq's Go parser does, whereas libpq's C parser keeps reading past it.
- Go strings are bytes; the model's are sequences of Unicode scalar values, so `strings.TrimSpace`, the quote test `len(value) >= 2`, `value[0]` and the splice work per character. For valid UTF-8 the results are the same; invalid UTF-8 in an env file or setting is not modelled.

## Findings

| source | as written | input that shows it | evidently intended | confidence | as-written member | corrected member |
|---|---|---|---|---|---|---|
| internal/handler/test_config.go:90-95 | the settings are spliced into the connection string unquoted and unescaped | password `p dbname=x` with database `y` gives the same string as password `p` with database `x dbname=y`; a password with white space is misread or rejected by the driver | every configured value reaches the driver as configured, by quoting and escaping it | not executed | Conninfo.BuildDSNConflatesConfigs | Conninfo.QuotedDSNRoundTrip |
