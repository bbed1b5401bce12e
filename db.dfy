/**
 * The SQLite store that db.js creates: the users, roles, accounts,
 * account_members, destinations and logs tables with their UNIQUE, NOT NULL,
 * DEFAULT and FOREIGN KEY constraints (foreign keys are switched on), and the
 * seeding of the two default roles.
 *
 * Tables keyed by a UNIQUE column are maps on that column. accounts and
 * destinations are sequences in rowid order, because the queries over them
 * return the first match or all matches in that order.
 */
module Db {
  import opened Wrappers

  /** A CURRENT_TIMESTAMP or datetime('now') value, supplied by the caller. */
  type Timestamp = nat

  /** A destination's header object, stored as JSON text and parsed back unchanged. */
  type Headers = map<string, string>

  /** logs.status: TEXT NOT NULL DEFAULT 'pending'; the code writes only these three values. */
  datatype Status = Pending | Success | Failed

  /** A users row; `id` is its AUTOINCREMENT primary key, `password` the stored hash. */
  datatype User = User(id: nat, email: string, password: string)

  /** An accounts row; `website`, `createdBy` and `updatedBy` are nullable. */
  datatype Account = Account(
    accountId: string,
    accountName: string,
    secretToken: string,
    website: Option<string>,
    createdBy: Option<nat>,
    updatedBy: Option<nat>)

  /** A destinations row. */
  datatype Destination = Destination(
    accountId: string,
    url: string,
    httpMethod: string,
    headers: Headers,
    createdBy: Option<nat>,
    updatedBy: Option<nat>)

  /** A logs row; `processedAt` and `errorMessage` are nullable. */
  datatype LogRow = LogRow(
    eventId: string,
    accountId: string,
    receivedData: string,
    receivedAt: Timestamp,
    processedAt: Option<Timestamp>,
    status: Status,
    errorMessage: Option<string>)

  /** The constraint errors an INSERT can raise, with SQLite's message text. */
  datatype DbError = UniqueViolation(columns: string) | ForeignKeyViolation
  {
    function Message(): string {
      match this
      case UniqueViolation(columns) => "UNIQUE constraint failed: " + columns
      case ForeignKeyViolation => "FOREIGN KEY constraint failed"
    }
  }

  /** The names of the roles that every startup makes sure exist. */
  const Admin: string := "Admin"
  const NormalUser: string := "Normal User"

  function UserIds(users: map<string, User>): set<nat> {
    set u | u in users.Values :: u.id
  }

  function AccountIds(accounts: seq<Account>): set<string> {
    set a | a in accounts :: a.accountId
  }

  /** A nullable foreign key into users(id): NULL, or the id of an existing user. */
  predicate RefersToUser(id: Option<nat>, users: map<string, User>) {
    id.None? || id.value in UserIds(users)
  }

  /** Each user is stored under its email, and ids are distinct and below the AUTOINCREMENT counter. */
  ghost predicate UsersValid(users: map<string, User>, nextUserId: nat) {
    && 1 <= nextUserId
    && (forall e :: e in users ==> users[e].email == e && 1 <= users[e].id < nextUserId)
    && (forall e1, e2 :: e1 in users && e2 in users && users[e1].id == users[e2].id ==> e1 == e2)
  }

  ghost predicate RolesValid(roles: map<string, nat>, nextRoleId: nat) {
    && 1 <= nextRoleId
    && (forall n :: n in roles ==> 1 <= roles[n] < nextRoleId)
    && (forall n1, n2 :: n1 in roles && n2 in roles && roles[n1] == roles[n2] ==> n1 == n2)
  }

  /** account_id is UNIQUE, created_by and updated_by refer to users. */
  ghost predicate AccountsValid(accounts: seq<Account>, users: map<string, User>) {
    && (forall i, j :: 0 <= i < j < |accounts| ==> accounts[i].accountId != accounts[j].accountId)
    && (forall a :: a in accounts ==> RefersToUser(a.createdBy, users) && RefersToUser(a.updatedBy, users))
  }

  ghost predicate MembersValid(
    members: map<(string, nat), nat>, accountIds: set<string>, users: map<string, User>, roles: map<string, nat>)
  {
    forall k :: k in members ==> k.0 in accountIds && k.1 in UserIds(users) && members[k] in roles.Values
  }

  ghost predicate DestinationsValid(destinations: seq<Destination>, accountIds: set<string>, users: map<string, User>) {
    forall d :: d in destinations ==>
      d.accountId in accountIds && RefersToUser(d.createdBy, users) && RefersToUser(d.updatedBy, users)
  }

  /** Each log row is stored under its event_id and belongs to an existing account. */
  ghost predicate LogsValid(logs: map<string, LogRow>, accountIds: set<string>) {
    forall e :: e in logs ==> logs[e].eventId == e && logs[e].accountId in accountIds
  }

  /**
   * `INSERT OR IGNORE INTO roles (role_name) VALUES (?)`: a role name that
   * exists is left alone; a new one gets the next AUTOINCREMENT id. SQLite
   * draws the AUTOINCREMENT id before the UNIQUE check and records it in
   * sqlite_sequence at the end of the statement, so an ignored insert still
   * uses up one id.
   */
  function InsertOrIgnoreRole(roles: map<string, nat>, nextRoleId: nat, name: string): (r: (map<string, nat>, nat))
    ensures r.0.Keys == roles.Keys + {name}
    ensures forall n :: n in roles ==> r.0[n] == roles[n]
    ensures name !in roles ==> r.0[name] == nextRoleId
    ensures r.1 == nextRoleId + 1
  {
    if name in roles then (roles, nextRoleId + 1) else (roles[name := nextRoleId], nextRoleId + 1)
  }

  /** The two INSERT OR IGNORE statements that run each time the store is opened. */
  function SeedRoles(roles: map<string, nat>, nextRoleId: nat): (r: (map<string, nat>, nat))
    ensures r.0.Keys == roles.Keys + {Admin, NormalUser}
    ensures forall n :: n in roles ==> r.0[n] == roles[n]
    ensures r.1 == nextRoleId + 2
  {
    var (afterAdmin, next) := InsertOrIgnoreRole(roles, nextRoleId, Admin);
    InsertOrIgnoreRole(afterAdmin, next, NormalUser)
  }

  /** The roles table after the store has been opened `runs` times. */
  function SeedRolesRuns(roles: map<string, nat>, nextRoleId: nat, runs: nat): (map<string, nat>, nat)
  {
    if runs == 0 then (roles, nextRoleId)
    else
      var (before, next) := SeedRolesRuns(roles, nextRoleId, runs - 1);
      SeedRoles(before, next)
  }

  /**
   * Opening the store a second time changes no role; only the two ids the
   * ignored inserts drew are used up.
   */
  lemma SeedRolesIdempotent(roles: map<string, nat>, nextRoleId: nat)
    ensures var (once, next) := SeedRoles(roles, nextRoleId);
            SeedRoles(once, next) == (once, next + 2)
  {
  }

  /**
   * However many times the store is opened (at least once), the roles table is
   * what one opening makes it: Admin and Normal User exist, each once, with
   * the ids the first opening gave them. Each opening uses up two ids.
   */
  lemma {:induction false} SeedRolesRunsOnce(roles: map<string, nat>, nextRoleId: nat, runs: nat)
    requires runs >= 1
    ensures SeedRolesRuns(roles, nextRoleId, runs).0 == SeedRoles(roles, nextRoleId).0
    ensures SeedRolesRuns(roles, nextRoleId, runs).1 == nextRoleId + 2 * runs
    ensures Admin in SeedRolesRuns(roles, nextRoleId, runs).0
    ensures NormalUser in SeedRolesRuns(roles, nextRoleId, runs).0
  {
    if runs > 1 {
      SeedRolesRunsOnce(roles, nextRoleId, runs - 1);
      var (before, next) := SeedRolesRuns(roles, nextRoleId, runs - 1);
      assert SeedRoles(before, next).0 == before;
    }
  }

  /**
   * `SELECT * FROM accounts WHERE app_secret_token = ?` with `.get`: the first
   * account in rowid order whose token matches. The token is not UNIQUE, so
   * later accounts with the same token are never found.
   */
  function FirstWithToken(accounts: seq<Account>, token: string): (r: Option<nat>)
    ensures r.None? <==> forall i :: 0 <= i < |accounts| ==> accounts[i].secretToken != token
    ensures r.Some? ==>
      && r.value < |accounts|
      && accounts[r.value].secretToken == token
      && forall i :: 0 <= i < r.value ==> accounts[i].secretToken != token
  {
    if accounts == [] then None
    else if accounts[0].secretToken == token then Some(0)
    else
      match FirstWithToken(accounts[1..], token)
      case None => None
      case Some(k) => Some(k + 1)
  }

  /**
   * Adding an account never changes which account a token that was already
   * in use resolves to; it can only make an unused token resolve.
   */
  lemma {:induction false} FirstWithTokenAppend(accounts: seq<Account>, a: Account, token: string)
    ensures FirstWithToken(accounts + [a], token) ==
      if FirstWithToken(accounts, token).Some? then FirstWithToken(accounts, token)
      else if a.secretToken == token then Some(|accounts|)
      else None
  {
    var all := accounts + [a];
    assert forall i :: 0 <= i < |accounts| ==> all[i] == accounts[i];
    assert all[|accounts|] == a;
  }

  /**
   * `SELECT * FROM destinations WHERE account_id = ?` with `.all`: the
   * account's destinations, in rowid order.
   */
  function DestinationsOf(destinations: seq<Destination>, accountId: string): (r: seq<Destination>)
    ensures forall d :: d in r ==> d in destinations && d.accountId == accountId
    ensures forall d :: d in destinations && d.accountId == accountId ==> d in r
    ensures |r| <= |destinations|
  {
    if destinations == [] then []
    else
      var last := destinations[|destinations| - 1];
      DestinationsOf(destinations[..|destinations| - 1], accountId)
        + (if last.accountId == accountId then [last] else [])
  }

  /**
   * The query keeps rowid order: the destinations of two runs of rows are those
   * of the first run followed by those of the second.
   */
  lemma {:induction false} DestinationsOfAppend(first: seq<Destination>, second: seq<Destination>, accountId: string)
    ensures DestinationsOf(first + second, accountId) == DestinationsOf(first, accountId) + DestinationsOf(second, accountId)
  {
    if second == [] {
      assert first + second == first;
    } else {
      var n := |second| - 1;
      var tail := if second[n].accountId == accountId then [second[n]] else [];
      assert (first + second)[..|first + second| - 1] == first + second[..n];
      assert (first + second)[|first + second| - 1] == second[n];
      DestinationsOfAppend(first, second[..n], accountId);
      calc {
        DestinationsOf(first + second, accountId);
        DestinationsOf(first + second[..n], accountId) + tail;
        (DestinationsOf(first, accountId) + DestinationsOf(second[..n], accountId)) + tail;
        DestinationsOf(first, accountId) + (DestinationsOf(second[..n], accountId) + tail);
      }
    }
  }

  /**
   * Each row of the account comes back as often as it is stored, and no row
   * of another account comes back.
   */
  lemma {:induction false} DestinationsOfCounts(destinations: seq<Destination>, accountId: string)
    ensures forall d ::
              multiset(DestinationsOf(destinations, accountId))[d] ==
              (if d.accountId == accountId then multiset(destinations)[d] else 0)
  {
    if destinations != [] {
      var n := |destinations| - 1;
      DestinationsOfCounts(destinations[..n], accountId);
      assert destinations == destinations[..n] + [destinations[n]];
    }
  }

  /** The positions of the account's rows in the destinations table. */
  function RowsOf(destinations: seq<Destination>, accountId: string): set<nat> {
    set i: nat | i < |destinations| && destinations[i].accountId == accountId
  }

  /** Dropping the last row drops at most that row's position. */
  lemma RowsOfFront(destinations: seq<Destination>, accountId: string)
    requires destinations != []
    ensures var n := |destinations| - 1;
      RowsOf(destinations, accountId) ==
        RowsOf(destinations[..n], accountId) + (if destinations[n].accountId == accountId then {n} else {})
  {
    var n := |destinations| - 1;
    var front := destinations[..n];
    forall i: nat | i < n
      ensures (i in RowsOf(destinations, accountId)) == (i in RowsOf(front, accountId))
    {
      assert front[i] == destinations[i];
    }
  }

  /** The query returns exactly one destination per row of the account. */
  lemma {:induction false} DestinationsOfRowCount(destinations: seq<Destination>, accountId: string)
    ensures |DestinationsOf(destinations, accountId)| == |RowsOf(destinations, accountId)|
  {
    if destinations != [] {
      var n := |destinations| - 1;
      DestinationsOfRowCount(destinations[..n], accountId);
      RowsOfFront(destinations, accountId);
      assert n !in RowsOf(destinations[..n], accountId);
    }
  }

  /**
   * `INSERT INTO logs ...`: rejected when the event_id is taken (UNIQUE, checked
   * first) or when account_id names no account (FOREIGN KEY); otherwise exactly
   * one row is added and every other row is kept.
   */
  function InsertLog(logs: map<string, LogRow>, accountIds: set<string>, row: LogRow)
    : (r: Result<map<string, LogRow>, DbError>)
    ensures r.Err? <==> row.eventId in logs || row.accountId !in accountIds
    ensures row.eventId in logs ==> r == Err(UniqueViolation("logs.event_id"))
    ensures row.eventId !in logs && row.accountId !in accountIds ==> r == Err(ForeignKeyViolation)
    ensures r.Ok? ==> r.value.Keys == logs.Keys + {row.eventId} && r.value[row.eventId] == row
    ensures r.Ok? ==> forall e :: e in logs ==> r.value[e] == logs[e]
  {
    if row.eventId in logs then Err(UniqueViolation("logs.event_id"))
    else if row.accountId !in accountIds then Err(ForeignKeyViolation)
    else Ok(logs[row.eventId := row])
  }

  /** A successful log insert keeps the logs table valid. */
  lemma InsertLogKeepsValid(logs: map<string, LogRow>, accountIds: set<string>, row: LogRow)
    requires LogsValid(logs, accountIds)
    requires InsertLog(logs, accountIds, row).Ok?
    ensures LogsValid(InsertLog(logs, accountIds, row).value, accountIds)
  {
  }

  /** The database file, with every table of db.js. */
  class Database {
    /** users, keyed by the UNIQUE email. */
    var users: map<string, User>
    /** The next users.id AUTOINCREMENT hands out. */
    var nextUserId: nat
    /** roles: role_name (UNIQUE) to id. */
    var roles: map<string, nat>
    var nextRoleId: nat
    /** accounts, in rowid order. */
    var accounts: seq<Account>
    /** account_members: UNIQUE(account_id, user_id) to role_id. */
    var members: map<(string, nat), nat>
    /** destinations, in rowid order. */
    var destinations: seq<Destination>
    /** logs, keyed by the UNIQUE event_id. */
    var logs: map<string, LogRow>

    /** Every constraint of the schema holds. */
    ghost predicate Valid()
      reads this
    {
      && UsersValid(users, nextUserId)
      && RolesValid(roles, nextRoleId)
      && AccountsValid(accounts, users)
      && MembersValid(members, AccountIds(accounts), users, roles)
      && DestinationsValid(destinations, AccountIds(accounts), users)
      && LogsValid(logs, AccountIds(accounts))
    }

    /** A fresh database file: empty tables, then the role seeding. */
    constructor ()
      ensures Valid()
      ensures users == map[] && accounts == [] && members == map[] && destinations == [] && logs == map[]
      ensures roles == map[Admin := 1, NormalUser := 2]
      ensures nextUserId == 1 && nextRoleId == 3
    {
      users, nextUserId := map[], 1;
      roles, nextRoleId := map[], 1;
      accounts, members, destinations, logs := [], map[], [], map[];
      new;
      SeedDefaultRoles();
    }

    /**
     * Opening an existing database file again: every CREATE ... IF NOT EXISTS
     * is a no-op and the two role inserts run once more.
     */
    method SeedDefaultRoles()
      requires Valid()
      modifies this`roles, this`nextRoleId
      ensures Valid()
      ensures (roles, nextRoleId) == SeedRoles(old(roles), old(nextRoleId))
    {
      InsertRole(Admin);
      InsertRole(NormalUser);
    }

    method InsertRole(name: string)
      requires Valid()
      modifies this`roles, this`nextRoleId
      ensures Valid()
      ensures (roles, nextRoleId) == InsertOrIgnoreRole(old(roles), old(nextRoleId), name)
    {
      if name !in roles {
        roles := roles[name := nextRoleId];
        nextRoleId := nextRoleId + 1;
        assert old(roles).Values <= roles.Values by {
          forall v | v in old(roles).Values ensures v in roles.Values {
            var n :| n in old(roles) && old(roles)[n] == v;
            assert roles[n] == v;
          }
        }
      } else {
        nextRoleId := nextRoleId + 1;
      }
    }

    /** `INSERT INTO users (email, password)`: email is UNIQUE; the new row gets the next id. */
    method InsertUser(email: string, password: string) returns (r: Result<nat, DbError>)
      requires Valid()
      modifies this`users, this`nextUserId
      ensures Valid()
      ensures email in old(users) ==>
        r == Err(UniqueViolation("users.email")) && users == old(users) && nextUserId == old(nextUserId)
      ensures email !in old(users) ==>
        && r == Ok(old(nextUserId))
        && users == old(users)[email := User(old(nextUserId), email, password)]
        && nextUserId == old(nextUserId) + 1
      ensures r.Ok? ==> r.value !in UserIds(old(users))
    {
      if email in users {
        return Err(UniqueViolation("users.email"));
      }
      var id := nextUserId;
      assert id !in UserIds(users);
      assert UserIds(users) <= UserIds(users[email := User(id, email, password)]) by {
        forall u | u in UserIds(users) ensures u in UserIds(users[email := User(id, email, password)]) {
          var x :| x in users.Values && x.id == u;
          var e :| e in users && users[e] == x;
          assert users[email := User(id, email, password)][e] == x;
        }
      }
      users := users[email := User(id, email, password)];
      nextUserId := nextUserId + 1;
      r := Ok(id);
    }

    /**
     * `INSERT INTO accounts ...`: a taken account_id violates UNIQUE (checked
     * first); created_by and updated_by must name existing users. The secret
     * token has no UNIQUE constraint.
     */
    method InsertAccount(a: Account) returns (err: Option<DbError>)
      requires Valid()
      modifies this`accounts
      ensures Valid()
      ensures a.accountId in AccountIds(old(accounts)) ==> err == Some(UniqueViolation("accounts.account_id"))
      ensures err.None? <==>
        a.accountId !in AccountIds(old(accounts)) && RefersToUser(a.createdBy, users) && RefersToUser(a.updatedBy, users)
      ensures err.Some? && a.accountId !in AccountIds(old(accounts)) ==> err == Some(ForeignKeyViolation)
      ensures accounts == if err.None? then old(accounts) + [a] else old(accounts)
    {
      if a.accountId in AccountIds(accounts) {
        return Some(UniqueViolation("accounts.account_id"));
      }
      if !RefersToUser(a.createdBy, users) || !RefersToUser(a.updatedBy, users) {
        return Some(ForeignKeyViolation);
      }
      assert AccountIds(accounts + [a]) == AccountIds(accounts) + {a.accountId};
      accounts := accounts + [a];
      err := None;
    }

    /** `INSERT INTO destinations ...`: account_id, created_by and updated_by must refer to existing rows. */
    method InsertDestination(d: Destination) returns (err: Option<DbError>)
      requires Valid()
      modifies this`destinations
      ensures Valid()
      ensures err.None? <==>
        d.accountId in AccountIds(accounts) && RefersToUser(d.createdBy, users) && RefersToUser(d.updatedBy, users)
      ensures err.Some? ==> err == Some(ForeignKeyViolation)
      ensures destinations == if err.None? then old(destinations) + [d] else old(destinations)
    {
      if d.accountId !in AccountIds(accounts) || !RefersToUser(d.createdBy, users) || !RefersToUser(d.updatedBy, users) {
        return Some(ForeignKeyViolation);
      }
      destinations := destinations + [d];
      err := None;
    }

    /**
     * `INSERT INTO account_members ...`: at most one row per (account_id, user_id)
     * (UNIQUE, checked first); the account, the user and the role must exist.
     */
    method InsertMember(accountId: string, userId: nat, roleId: nat) returns (err: Option<DbError>)
      requires Valid()
      modifies this`members
      ensures Valid()
      ensures (accountId, userId) in old(members) ==>
        err == Some(UniqueViolation("account_members.account_id, account_members.user_id"))
      ensures err.None? <==>
        && (accountId, userId) !in old(members)
        && accountId in AccountIds(accounts) && userId in UserIds(users) && roleId in roles.Values
      ensures err.Some? && (accountId, userId) !in old(members) ==> err == Some(ForeignKeyViolation)
      ensures members == if err.None? then old(members)[(accountId, userId) := roleId] else old(members)
    {
      if (accountId, userId) in members {
        return Some(UniqueViolation("account_members.account_id, account_members.user_id"));
      }
      if accountId !in AccountIds(accounts) || userId !in UserIds(users) || roleId !in roles.Values {
        return Some(ForeignKeyViolation);
      }
      members := members[(accountId, userId) := roleId];
      err := None;
    }

    /** `INSERT INTO logs ...`, as InsertLog describes it. */
    method InsertLogRow(row: LogRow) returns (err: Option<DbError>)
      requires Valid()
      modifies this`logs
      ensures Valid()
      ensures InsertLog(old(logs), AccountIds(accounts), row).Ok? ==>
        err.None? && logs == InsertLog(old(logs), AccountIds(accounts), row).value
      ensures InsertLog(old(logs), AccountIds(accounts), row).Err? ==>
        err == Some(InsertLog(old(logs), AccountIds(accounts), row).error) && logs == old(logs)
    {
      var r := InsertLog(logs, AccountIds(accounts), row);
      if r.Err? {
        return Some(r.error);
      }
      InsertLogKeepsValid(logs, AccountIds(accounts), row);
      logs := r.value;
      err := None;
    }
  }
}
