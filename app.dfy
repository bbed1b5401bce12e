/**
 * The request handlers of app.js: the rate-limited ingress endpoint that logs
 * an event and fans it out to the account's destinations, the provisioning of
 * an account with one destination, signup and login.
 *
 * The rate limiter's decision, the bcrypt hash and comparison, and jwt signing
 * and verification are inputs; JSON bodies are taken already serialised.
 */
module App {
  import opened Wrappers
  import opened Http
  import opened Db
  import opened Queue
  import opened Auth

  /** The job data queued for one destination of an event. */
  function TaskFor(eventId: string, d: Destination, data: string): Task {
    Task(eventId, d.url, d.httpMethod, d.headers, data)
  }

  /**
   * The jobs `destinations.forEach(dest => queue.add(...))` adds: one per
   * destination, in the order given, each carrying the event id, that
   * destination's url, method and headers, and the same serialised body.
   */
  function FanOut(eventId: string, destinations: seq<Destination>, data: string): (tasks: seq<Task>)
    ensures |tasks| == |destinations|
    ensures forall i :: 0 <= i < |destinations| ==>
      && tasks[i].eventId == eventId
      && tasks[i].url == destinations[i].url
      && tasks[i].httpMethod == destinations[i].httpMethod
      && tasks[i].headers == destinations[i].headers
      && tasks[i].data == data
  {
    if destinations == [] then []
    else
      var n := |destinations| - 1;
      FanOut(eventId, destinations[..n], data) + [TaskFor(eventId, destinations[n], data)]
  }

  /** `destinations.forEach(dest => queue.add('forward', ...))`: one job per destination, in order. */
  method EnqueueAll(queue: WebhookQueue, eventId: string, destinations: seq<Destination>, data: string)
    modifies queue
    ensures queue.tasks == old(queue.tasks) + FanOut(eventId, destinations, data)
  {
    var i := 0;
    while i < |destinations|
      invariant 0 <= i <= |destinations|
      invariant queue.tasks == old(queue.tasks) + FanOut(eventId, destinations[..i], data)
    {
      queue.Add(TaskFor(eventId, destinations[i], data));
      assert destinations[..i + 1][..i] == destinations[..i];
      i := i + 1;
    }
    assert destinations[..i] == destinations;
  }

  /** The jobs of `tasks` for one event, in queue order. */
  function JobsFor(tasks: seq<Task>, eventId: string): (r: seq<Task>)
    ensures forall t :: t in r <==> t in tasks && t.eventId == eventId
  {
    if tasks == [] then []
    else
      var last := tasks[|tasks| - 1];
      JobsFor(tasks[..|tasks| - 1], eventId) + (if last.eventId == eventId then [last] else [])
  }

  /** The jobs for an event among two runs of jobs are those of the first run followed by those of the second. */
  lemma {:induction false} JobsForAppend(first: seq<Task>, second: seq<Task>, eventId: string)
    ensures JobsFor(first + second, eventId) == JobsFor(first, eventId) + JobsFor(second, eventId)
  {
    if second == [] {
      assert first + second == first;
    } else {
      var n := |second| - 1;
      var tail := if second[n].eventId == eventId then [second[n]] else [];
      assert (first + second)[..|first + second| - 1] == first + second[..n];
      assert (first + second)[|first + second| - 1] == second[n];
      JobsForAppend(first, second[..n], eventId);
      calc {
        JobsFor(first + second, eventId);
        JobsFor(first + second[..n], eventId) + tail;
        (JobsFor(first, eventId) + JobsFor(second[..n], eventId)) + tail;
        JobsFor(first, eventId) + (JobsFor(second[..n], eventId) + tail);
      }
    }
  }

  /** A run of jobs that are all for the event is its own list of jobs for the event. */
  lemma {:induction false} JobsForAll(tasks: seq<Task>, eventId: string)
    requires forall i :: 0 <= i < |tasks| ==> tasks[i].eventId == eventId
    ensures JobsFor(tasks, eventId) == tasks
  {
    if tasks != [] {
      var n := |tasks| - 1;
      JobsForAll(tasks[..n], eventId);
      assert tasks == tasks[..n] + [tasks[n]];
    }
  }

  /** A run of jobs none of which is for the event has no jobs for it. */
  lemma {:induction false} JobsForNone(tasks: seq<Task>, eventId: string)
    requires forall t :: t in tasks ==> t.eventId != eventId
    ensures JobsFor(tasks, eventId) == []
  {
    if tasks != [] {
      JobsForNone(tasks[..|tasks| - 1], eventId);
    }
  }

  /**
   * When no job of `before` is for the event, the event's jobs after the
   * fan-out are exactly the fan-out's: one per destination, in order.
   */
  lemma JobsForFanOut(before: seq<Task>, eventId: string, destinations: seq<Destination>, data: string)
    requires forall t :: t in before ==> t.eventId != eventId
    ensures JobsFor(before + FanOut(eventId, destinations, data), eventId) == FanOut(eventId, destinations, data)
  {
    var added := FanOut(eventId, destinations, data);
    JobsForAppend(before, added, eventId);
    JobsForNone(before, eventId);
    JobsForAll(added, eventId);
    assert JobsFor(before + added, eventId) == [] + added;
  }

  /**
   * Every queued job is for a logged event: the ingress handler queues jobs
   * only after the event's INSERT succeeded, and no statement deletes a log row.
   */
  ghost predicate TasksLogged(db: Database, queue: WebhookQueue)
    reads db, queue
  {
    forall t :: t in queue.tasks ==> t.eventId in db.logs
  }

  /** The row the ingress INSERT creates: status 'pending', processed_timestamp and error_message NULL. */
  function PendingRow(eventId: string, accountId: string, data: string, now: Timestamp): LogRow {
    LogRow(eventId, accountId, data, now, None, Pending, None)
  }

  /**
   * POST /server/incoming_data behind its rate limiter. `admitted` is the
   * limiter's decision (1000 ms window, 5 requests, keyed by cl-x-token or
   * the client address); `token` and `eventId` are the cl-x-token and
   * cl-x-event-id headers; `data` is JSON.stringify(req.body).
   * Guards, in order: rate limit (429), missing header (400), unknown token
   * (403), each with no side effect. A taken event id makes the log INSERT
   * throw before any job is queued. Otherwise one pending row is added and one
   * job per destination row of the account is queued; these are then the
   * event's only jobs in the queue.
   */
  method IncomingData(
    db: Database, queue: WebhookQueue, admitted: bool,
    token: Option<string>, eventId: Option<string>, data: string, now: Timestamp)
    returns (resp: Response)
    requires db.Valid() && TasksLogged(db, queue)
    modifies db`logs, queue
    ensures db.Valid() && TasksLogged(db, queue)
    ensures !admitted ==>
      && resp == Reply(429, false, "Rate limit exceeded")
      && db.logs == old(db.logs) && queue.tasks == old(queue.tasks)
    ensures admitted && !(Truthy(token) && Truthy(eventId)) ==>
      && resp == Reply(400, false, "Missing headers")
      && db.logs == old(db.logs) && queue.tasks == old(queue.tasks)
    ensures admitted && Truthy(token) && Truthy(eventId) && FirstWithToken(db.accounts, token.value).None? ==>
      && resp == Reply(403, false, "Invalid token")
      && db.logs == old(db.logs) && queue.tasks == old(queue.tasks)
    ensures admitted && Truthy(token) && Truthy(eventId) && FirstWithToken(db.accounts, token.value).Some?
            && eventId.value in old(db.logs) ==>
      && resp == Unhandled(UniqueViolation("logs.event_id").Message()) && resp.Code() == 500
      && db.logs == old(db.logs) && queue.tasks == old(queue.tasks)
    ensures admitted && Truthy(token) && Truthy(eventId) && FirstWithToken(db.accounts, token.value).Some?
            && eventId.value !in old(db.logs) ==>
      var account := db.accounts[FirstWithToken(db.accounts, token.value).value];
      && resp == Reply(200, true, "Data Received")
      && db.logs == old(db.logs)[eventId.value := PendingRow(eventId.value, account.accountId, data, now)]
      && queue.tasks == old(queue.tasks) + FanOut(eventId.value, DestinationsOf(db.destinations, account.accountId), data)
      && JobsFor(queue.tasks, eventId.value) == FanOut(eventId.value, DestinationsOf(db.destinations, account.accountId), data)
      && |JobsFor(queue.tasks, eventId.value)| == |RowsOf(db.destinations, account.accountId)|
  {
    if !admitted {
      return Reply(429, false, "Rate limit exceeded");
    }
    if !Truthy(token) || !Truthy(eventId) {
      return Reply(400, false, "Missing headers");
    }
    var found := FirstWithToken(db.accounts, token.value);
    if found.None? {
      return Reply(403, false, "Invalid token");
    }
    var account := db.accounts[found.value];
    var destinations := DestinationsOf(db.destinations, account.accountId);
    assert account in db.accounts;
    var err := db.InsertLogRow(PendingRow(eventId.value, account.accountId, data, now));
    if err.Some? {
      return Unhandled(err.value.Message());
    }
    ghost var before := queue.tasks;
    EnqueueAll(queue, eventId.value, destinations, data);
    JobsForFanOut(before, eventId.value, destinations, data);
    DestinationsOfRowCount(db.destinations, account.accountId);
    resp := Reply(200, true, "Data Received");
  }

  /** The JSON body of POST /setup/account-with-destination; absent fields are None. */
  datatype SetupBody = SetupBody(
    accountId: Option<string>,
    accountName: Option<string>,
    appSecretToken: Option<string>,
    website: Option<string>,
    destinationUrl: Option<string>,
    httpMethod: Option<string>,
    headers: Option<Headers>)

  /** Every required field is truthy; website is optional. */
  predicate FieldsPresent(body: SetupBody) {
    && Truthy(body.accountId) && Truthy(body.accountName) && Truthy(body.appSecretToken)
    && Truthy(body.destinationUrl) && Truthy(body.httpMethod) && body.headers.Some?
  }

  /** The missing-fields guard never looks at website. */
  lemma FieldsPresentIgnoresWebsite(body: SetupBody, website: Option<string>)
    ensures FieldsPresent(body) == FieldsPresent(body.(website := website))
  {
  }

  function NewAccount(body: SetupBody, user: Claims): Account
    requires FieldsPresent(body)
  {
    Account(body.accountId.value, body.accountName.value, body.appSecretToken.value, body.website,
            Some(user.id), Some(user.id))
  }

  function NewDestination(body: SetupBody, user: Claims): Destination
    requires FieldsPresent(body)
  {
    Destination(body.accountId.value, body.destinationUrl.value, body.httpMethod.value, body.headers.value,
                Some(user.id), Some(user.id))
  }

  /**
   * POST /setup/account-with-destination behind `auth`. Auth failures and
   * missing fields change nothing. The account INSERT and the destination
   * INSERT run one after the other with no transaction; a taken account_id or
   * an unknown user makes the first throw, so no destination is added and the
   * answer is 400 with the constraint's message.
   */
  method SetupAccountWithDestination(
    db: Database, authorization: Option<string>, verify: string -> Option<Claims>, body: SetupBody)
    returns (resp: Response)
    requires db.Valid()
    modifies db`accounts, db`destinations
    ensures db.Valid()
    ensures Authenticate(authorization, verify).Err? ==>
      && resp == Authenticate(authorization, verify).error
      && db.accounts == old(db.accounts) && db.destinations == old(db.destinations)
    ensures Authenticate(authorization, verify).Ok? && !FieldsPresent(body) ==>
      && resp == Reply(400, false, "Missing fields")
      && db.accounts == old(db.accounts) && db.destinations == old(db.destinations)
    ensures Authenticate(authorization, verify).Ok? && FieldsPresent(body)
            && body.accountId.value in AccountIds(old(db.accounts)) ==>
      && resp == Reply(400, false, UniqueViolation("accounts.account_id").Message())
      && db.accounts == old(db.accounts) && db.destinations == old(db.destinations)
    ensures Authenticate(authorization, verify).Ok? && FieldsPresent(body)
            && body.accountId.value !in AccountIds(old(db.accounts))
            && Authenticate(authorization, verify).value.id !in UserIds(db.users) ==>
      && resp == Reply(400, false, ForeignKeyViolation.Message())
      && db.accounts == old(db.accounts) && db.destinations == old(db.destinations)
    ensures Authenticate(authorization, verify).Ok? && FieldsPresent(body)
            && body.accountId.value !in AccountIds(old(db.accounts))
            && Authenticate(authorization, verify).value.id in UserIds(db.users) ==>
      var user := Authenticate(authorization, verify).value;
      && resp == Reply(200, true, "Account and destination created")
      && db.accounts == old(db.accounts) + [NewAccount(body, user)]
      && db.destinations == old(db.destinations) + [NewDestination(body, user)]
  {
    var auth := Authenticate(authorization, verify);
    if auth.Err? {
      return auth.error;
    }
    if !FieldsPresent(body) {
      return Reply(400, false, "Missing fields");
    }
    var user := auth.value;
    var err := db.InsertAccount(NewAccount(body, user));
    if err.Some? {
      return Reply(400, false, err.value.Message());
    }
    assert NewAccount(body, user) in db.accounts;
    // The account and the user exist now, so this INSERT cannot throw.
    var destinationErr := db.InsertDestination(NewDestination(body, user));
    assert destinationErr.None?;
    resp := Reply(200, true, "Account and destination created");
  }

  /**
   * After a successful setup for a new account_id, the account's destinations
   * are exactly the one just created, so an event for it fans out to one job.
   */
  lemma SetupThenDestinations(
    destinations: seq<Destination>, accountIds: set<string>, users: map<string, User>, d: Destination)
    requires DestinationsValid(destinations, accountIds, users)
    requires d.accountId !in accountIds
    ensures DestinationsOf(destinations + [d], d.accountId) == [d]
  {
    var before := DestinationsOf(destinations, d.accountId);
    if before != [] {
      assert before[0] in destinations;
    }
    assert (destinations + [d])[..|destinations|] == destinations;
  }

  /**
   * POST /signup. `hashed` is the bcrypt hash of the password. Falsy email or
   * password gives 400 "Missing fields"; a taken email makes the INSERT throw
   * and gives 400 "Email already exists"; both leave users unchanged.
   * Otherwise one user is added and the answer carries its id and the Admin
   * role's id (the user is not made a member of anything).
   */
  method Signup(db: Database, email: Option<string>, password: Option<string>, hashed: string)
    returns (resp: Response)
    requires db.Valid()
    modifies db`users, db`nextUserId
    ensures db.Valid()
    ensures !(Truthy(email) && Truthy(password)) ==>
      resp == Reply(400, false, "Missing fields") && db.users == old(db.users) && db.nextUserId == old(db.nextUserId)
    ensures Truthy(email) && Truthy(password) && email.value in old(db.users) ==>
      resp == Reply(400, false, "Email already exists") && db.users == old(db.users) && db.nextUserId == old(db.nextUserId)
    ensures Truthy(email) && Truthy(password) && email.value !in old(db.users) ==>
      && resp == SignedUp(old(db.nextUserId), if Admin in db.roles then Some(db.roles[Admin]) else None)
      && old(db.nextUserId) !in UserIds(old(db.users))
      && db.users == old(db.users)[email.value := User(old(db.nextUserId), email.value, hashed)]
      && db.nextUserId == old(db.nextUserId) + 1
  {
    if !Truthy(email) || !Truthy(password) {
      return Reply(400, false, "Missing fields");
    }
    var r := db.InsertUser(email.value, hashed);
    if r.Err? {
      return Reply(400, false, "Email already exists");
    }
    var roleId := if Admin in db.roles then Some(db.roles[Admin]) else None;
    resp := SignedUp(r.value, roleId);
  }

  /**
   * POST /login: an unknown email or a password that does not match the stored
   * hash gives 401 "Invalid credentials"; otherwise the answer carries the
   * token signed over the user's id and email. `matches` is bcrypt.compare and
   * `sign` is jwt.sign with the server's secret.
   */
  function Login(
    db: Database, email: string, password: string,
    matches: (string, string) -> bool, sign: Claims -> string)
    : (r: Response)
    reads db
    ensures r.LoggedIn? <==> email in db.users && matches(password, db.users[email].password)
    ensures !r.LoggedIn? ==> r == Reply(401, false, "Invalid credentials")
    ensures r.LoggedIn? ==> r.token == sign(Claims(db.users[email].id, db.users[email].email))
  {
    if email !in db.users then Reply(401, false, "Invalid credentials")
    else
      var user := db.users[email];
      if !matches(password, user.password) then Reply(401, false, "Invalid credentials")
      else LoggedIn(sign(Claims(user.id, user.email)))
  }
}
