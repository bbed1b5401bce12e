# Webhook relay: store, ingress, fan-out and delivery worker

This project models the bookkeeping of a multi-tenant webhook relay. Callers
post events to `/server/incoming_data` with a secret token and an event id.
The relay logs each accepted event once, as a `pending` row, and queues one
`forward` job per destination of the caller's account. A worker makes the
outbound call for each job and records `success` or `failed` on the event's
row. Around this core sit account/destination provisioning, signup, login and
the `auth` middleware.

The model is one state machine over an abstract store:

- `Db` (db.js): the six tables with their UNIQUE, NOT NULL and FOREIGN KEY
  constraints, held by the class `Database`. `Database.Valid()` states every
  constraint. Each INSERT except the roles' `INSERT OR IGNORE` is a method
  that either fails with SQLite's constraint error and leaves the table
  unchanged, or adds exactly one row. The roles' `INSERT OR IGNORE` never
  fails: it adds the role when its name is new and otherwise only uses up an
  id (see the last of the behaviours noted below).
  The tables keyed by a UNIQUE column (users by email, roles by name,
  account_members by (account_id, user_id), logs by event_id) are maps.
  accounts and destinations are sequences in rowid order, because the token
  lookup takes the first matching account and fan-out follows the order of
  the destinations. The constructor creates an empty file and seeds the roles.
  `SeedDefaultRoles` is the same seeding run again when an existing file is
  reopened.
- `Queue`: the BullMQ queue, as the sequence of jobs added to it.
- `Auth` and `Http`: the `auth` middleware, with `header.split(' ')[1]`
  written out, the responses the handlers send, and JavaScript truthiness of
  string fields.
- `App` (app.js): the ingress handler, with its `forEach` loop as
  `EnqueueAll`, the provisioning handler, signup and login, as methods on a
  `Database` and a `WebhookQueue`.
- `Worker` (worker.js): the job callback, as `ProcessJob`. `RunJobs` gives
  the logs table after any sequential interleaving of finished jobs.
- `Scenario`: a worked example. T1 resolves to A1, which has two
  destinations. E1 is accepted once and then rejected. Its two queued jobs
  finish out of order, and the row ends with the status of the job that
  finished last.

External calls are inputs. The rate limiter's decision is `admitted`. The
bcrypt hash is `hashed`, bcrypt.compare is `matches`, jwt.sign is `sign` and
jwt.verify is `verify`. What the worker's `try` block did (the axios call,
the JSON.parse of the body and the success UPDATE) is an `Outcome`, either
`Completed` or `Threw(message)`. Timestamps are parameters.

Four behaviours of the code worth noting:

- On a successful delivery the worker does not clear `error_message`
  (worker.js:20-24). An earlier failure's message stays on a row whose status
  is `success` (`Worker.LastWriterWins`, `Worker.RunJobsLastError`).
- `app_secret_token` is not UNIQUE (db.js:36). The token lookup takes the
  first account in rowid order (`Db.FirstWithToken`, `Db.FirstWithTokenAppend`).
- A duplicate event id is not answered with a dedicated error. The log INSERT
  throws out of the ingress handler, which has no `catch`, after the logs
  table is left unchanged and before any job is queued. This is
  `Response.Unhandled`; Express's default handler would answer 500.
- `INSERT OR IGNORE` into roles draws an AUTOINCREMENT id before SQLite
  finds the name taken, so each reopening of the store uses up two role ids
  (db.js:100-102) while the roles themselves stay as they were.

## Model

| member | source | states |
|---|---|---|
| `Db.InsertOrIgnoreRole` | db.js:100 | a role name that exists keeps its id; a new name gets the next id; no other role changes; either way one AUTOINCREMENT id is used up |
| `Db.SeedRoles` | db.js:99-102 | after seeding, exactly the old role names plus Admin and Normal User exist, existing roles keep their ids, and two AUTOINCREMENT ids are used up |
| `Db.SeedRolesIdempotent` | db.js:100-102 | seeding a second time changes no role; it only uses up two more ids |
| `Db.SeedRolesRunsOnce` | db.js:99-102 | opening the store any number of times (at least once) leaves the roles exactly as one opening does, with Admin and Normal User present; n openings use up 2n ids |
| `Db.FirstWithToken` | app.js:90 | the result is absent exactly when no account has the token; otherwise it is the first account in rowid order with that token |
| `Db.FirstWithTokenAppend` | db.js:34-36 | adding an account (the token is not UNIQUE) never changes the account a token already resolves to; it can only make an unused token resolve |
| `Db.DestinationsOf` | app.js:94 | the result holds exactly the destinations of the account, none of another account, and is no longer than the table |
| `Db.DestinationsOfAppend` | app.js:94 | the query keeps rowid order: over two runs of rows it returns the first run's matches followed by the second's |
| `Db.DestinationsOfCounts` | app.js:94 | each destination of the account comes back as many times as it is stored, and no destination of another account comes back |
| `Db.DestinationsOfRowCount` | app.js:94 | the query returns exactly as many destinations as the account has rows |
| `Db.InsertLog` | db.js:83-97 | the insert fails exactly when event_id is taken (UNIQUE, checked first) or account_id is unknown (FOREIGN KEY); on success exactly one row is added and every other row is kept |
| `Db.InsertLogKeepsValid` | db.js:94 | a successful log insert keeps every row under its event id and its account among the existing accounts |
| `Db.Database.constructor` | db.js:12-102 | a fresh store satisfies every constraint, has empty tables, has the roles Admin = 1 and Normal User = 2, and its AUTOINCREMENT counters give the next user id 1 and the next role id 3 |
| `Db.Database.SeedDefaultRoles` | db.js:99-102 | reopening the store runs the two INSERT OR IGNORE statements; the constraints still hold |
| `Db.Database.InsertRole` | db.js:100 | the roles table becomes `InsertOrIgnoreRole` of the old one, with ids still distinct |
| `Db.Database.InsertUser` | db.js:12-20 | a taken email fails with UNIQUE users.email and changes nothing; otherwise one user with a fresh id is added |
| `Db.Database.InsertAccount` | db.js:31-45 | a taken account_id fails with UNIQUE first; an unknown creator fails with FOREIGN KEY; only a success appends the account |
| `Db.Database.InsertDestination` | db.js:66-81 | the row is appended exactly when its account and creator exist; otherwise FOREIGN KEY and nothing changes |
| `Db.Database.InsertMember` | db.js:47-64 | at most one member row per (account_id, user_id); account, user and role must exist; a failure changes nothing |
| `Db.Database.InsertLogRow` | app.js:97-100 | the logs table becomes what `InsertLog` gives, or is unchanged with the same error |
| `Queue.WebhookQueue.constructor` | app.js:15 | a new queue holds no jobs |
| `Queue.WebhookQueue.Add` | app.js:103-109 | `queue.add` appends the job at the back |
| `Http.Truthy` | app.js:87-88 | `!x` on a string field: the only falsy values are an absent field and the empty string |
| `Auth.Split` | app.js:74 | split gives at least one piece, no piece contains the separator, and there is one piece exactly when the string has no separator |
| `Auth.JoinSplit` | app.js:74 | joining the pieces of a split with the separator gives back the original header |
| `Auth.BearerToken` | app.js:74 | the second piece exists exactly when the header contains a space, and it contains no space |
| `Auth.SchemeThenToken` | app.js:74 | for "scheme token" followed by nothing or more space-separated text, the extracted token is `token` |
| `Auth.Authenticate` | app.js:70-80 | a falsy header gives 401 "Missing token"; a missing or unverifiable token gives 401 "Invalid token"; the request passes with the verifier's claims exactly when the second piece verifies |
| `Auth.AuthenticateBearer` | app.js:70-80 | a "Bearer t" header passes exactly when the verifier accepts t, and then with its claims |
| `App.FanOut` | app.js:102-110 | one job per destination, in order, each with the event id, that destination's url, method and headers, and the same body |
| `App.JobsForFanOut` | app.js:102-110 | when the queue held no job for the event, its jobs after the fan-out are exactly the fan-out's, one per destination, in order |
| `App.EnqueueAll` | app.js:102-110 | the loop appends exactly `FanOut` of the destinations to the queue |
| `App.IncomingData` | app.js:83-113 | guards in order: rate limit 429, missing header 400, unknown token 403, each with no log row and no job. A taken event id throws, which Express answers with 500, and logs and queue are unchanged. Otherwise exactly one pending row for the token's first account is added, no other row changes, and the jobs of `FanOut` over that account's destinations are appended (none for zero destinations). The event's jobs in the queue are then exactly these, one per destination row of the account. Every queued job stays a job for a logged event (`TasksLogged`). The constraints still hold |
| `App.FieldsPresentIgnoresWebsite` | app.js:126-128 | the missing-fields guard of setup reads every required field and never website |
| `App.SetupAccountWithDestination` | app.js:115-145 | an auth failure gives its 401 and missing fields give 400, both with no insert. A taken account_id or an unknown user gives 400 with the constraint message, no account and no destination. Otherwise exactly the account and then its destination are appended |
| `App.SetupThenDestinations` | app.js:130-139 | after setup for a new account_id, that account's destinations are exactly the one created |
| `App.Signup` | app.js:38-54 | falsy email or password gives 400 and a taken email gives 400 "Email already exists", both with users unchanged; otherwise one user with the next AUTOINCREMENT id and the hashed password is added, the counter moves on by one, and the reply carries its id and the Admin role id |
| `App.Login` | app.js:57-67 | a token is issued exactly when the email exists and the password matches its hash, signed over that user's id and email; otherwise 401 "Invalid credentials" |
| `Worker.Settled` | worker.js:20-30 | a job sets processed_timestamp. A success sets status success and keeps error_message. A throw sets status failed and error_message to the error's message. No other column changes |
| `Worker.ApplyOutcome` | worker.js:20-30 | only the job's event row changes, whatever its prior status; with no such row the table is unchanged, since the worker never inserts |
| `Worker.ApplyOutcomeKeepsValid` | worker.js:20-30 | recording an outcome keeps every row under its event id and its account |
| `Worker.ProcessJob` | worker.js:9-32 | one job makes exactly one UPDATE, the logs become `ApplyOutcome` of the old logs, nothing is queued and the constraints still hold |
| `Worker.ApplyOutcomeIdempotent` | worker.js:20-30 | recording the same outcome twice equals recording it once at the later time; only the timestamp differs |
| `Worker.LastWriterWins` | worker.js:20-30 | a later job overwrites status and timestamp. A later failure overwrites the message, and a later success keeps the earlier failure's message |
| `Worker.RunJobs` | worker.js:9-32 | the logs table after jobs finish one after another; workers never add or remove a row |
| `Worker.RunJobsKeepsRows` | worker.js:20-30 | any sequence of jobs adds no row, removes no row, and keeps each row's event id, account, body and receive time |
| `Worker.RunJobsLastStatus` | worker.js:9-32 | after any sequence of jobs, an event with no job keeps its row as inserted; otherwise it has the status and timestamp of its last job |
| `Worker.UnqueuedEventKeepsRow` | worker.js:9-32 | when every job that runs comes from the queue and the queue holds none for an event (its account had no destinations), that event's row stays as inserted, still pending |
| `Worker.RunJobsLastError` | worker.js:20-30 | after any sequence of jobs, an event's error message is that of its last failed job, or its original one if none failed |

## Left out

- Express plumbing: routing, `express.json`, cors, helmet, morgan and `app.listen` (app.js:13-24, app.js:148-150).
- App.IncomingData: the rate limiter (app.js:27-35) is not modelled. Its window algorithm and Redis store are a library; the model takes its decision as `admitted`. Its configuration is 1000 ms, 5 requests, keyed by `cl-x-token` or the client address.
- bcrypt and jwt (app.js:44, app.js:62-65, app.js:74) are inputs. The salted hash is a parameter; compare, sign and verify are function parameters.
- App.Login: `email` and `password` are taken as strings. A body without them (bound as undefined) is not modelled.
- The axios call (worker.js:13-18) is an input. What the `try` block did is an `Outcome`, so no policy on non-2xx statuses or timeouts is fixed here; the request it sends (method, url, headers, parsed body) is not modelled.
- Worker.ProcessJob: a `catch` whose own UPDATE throws (worker.js:26-30) is not modelled. The row would then be left unchanged and the job would fail in BullMQ.
- BullMQ and Redis: connections, the un-awaited and possibly failing `queue.add`, job removal, redelivery and concurrent workers are not modelled. The model's `Add` always succeeds. The queue is the append-only sequence of added jobs. Concurrent workers are modelled as the sequential interleavings of `RunJobs`.
- JSON: the request body is taken already serialised (`JSON.stringify(req.body)`). A destination's headers are stored as the map itself, assuming `JSON.parse(JSON.stringify(h))` gives back `h`.
- Truthiness is modelled for string fields only: an absent value and the empty string are falsy. Body fields of other JSON types are not modelled. A setup body's `headers` counts as present whenever it is given.
- Columns never read by the core are not modelled: `created_at` and `updated_at` with their defaults, and `logs.destination_id`, which is always NULL. The integer primary keys of accounts, destinations, account_members and logs are not modelled either; sequence order stands for rowid order.
- ON DELETE CASCADE and ON DELETE SET NULL are not modelled, because no statement deletes.
- Indexes and the timestamp helper statements (db.js:105-114) have no observable effect on the tables.
- An `undefined` website is bound as NULL, which the model writes as `None`.
