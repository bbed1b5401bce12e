/**
 * The end-to-end example of the relay, in three steps: token T1 resolves to
 * account A1 with destinations D1 and D2; event E1 is accepted once, fans out
 * to two jobs and is rejected when sent again; its row ends with the status
 * of the job that finished last.
 */
module Scenario {
  import opened Wrappers
  import opened Http
  import opened Db
  import opened Queue
  import opened App
  import opened Worker

  const A1 := Account("A1", "Acme", "T1", None, None, None)
  const D1 := Destination("A1", "https://d1.example", "POST", map[], None, None)
  const D2 := Destination("A1", "https://d2.example", "PUT", map[], None, None)
  const Body := "{\"x\":1}"

  /** Provisioning A1 with its two destinations on a fresh store. */
  method Provision() returns (db: Database)
    ensures fresh(db) && db.Valid()
    ensures db.accounts == [A1] && db.destinations == [D1, D2] && db.logs == map[]
  {
    db := new Database();
    assert AccountIds(db.accounts) == {};
    var err := db.InsertAccount(A1);
    assert db.accounts == [A1] && "A1" in AccountIds(db.accounts);
    err := db.InsertDestination(D1);
    err := db.InsertDestination(D2);
  }

  /** E1 is accepted once with one job per destination; sending it again queues nothing. */
  method AcceptOnce(db: Database, queue: WebhookQueue)
    requires db.Valid() && db.accounts == [A1] && db.destinations == [D1, D2] && db.logs == map[]
    requires queue.tasks == []
    modifies db`logs, queue
    ensures db.Valid() && db.logs == map["E1" := PendingRow("E1", "A1", Body, 100)]
    ensures queue.tasks == FanOut("E1", [D1, D2], Body)
  {
    assert FirstWithToken(db.accounts, "T1") == Some(0);
    assert DestinationsOf(db.destinations, "A1") == [D1, D2] by {
      assert [D1, D2][..1] == [D1];
      assert [D1][..0] == [];
    }
    assert Truthy(Some("T1")) && Truthy(Some("E1"));
    assert "E1" !in db.logs;
    var first := IncomingData(db, queue, true, Some("T1"), Some("E1"), Body, 100);
    assert first == Reply(200, true, "Data Received");
    assert db.logs == map["E1" := PendingRow("E1", "A1", Body, 100)];
    assert queue.tasks == FanOut("E1", [D1, D2], Body);
    assert |queue.tasks| == 2 && queue.tasks[0].url == D1.url && queue.tasks[1].url == D2.url;

    assert "E1" in db.logs;
    var again := IncomingData(db, queue, true, Some("T1"), Some("E1"), Body, 101);
    assert again.Unhandled? && |queue.tasks| == 2;
  }

  /**
   * The two queued jobs of E1 finish out of order: D2's job fails first, D1's
   * succeeds last. The row says success and keeps D2's error.
   */
  method LastFinisherWins(db: Database, queue: WebhookQueue)
    requires db.Valid() && db.logs == map["E1" := PendingRow("E1", "A1", Body, 100)]
    requires queue.tasks == FanOut("E1", [D1, D2], Body)
    modifies db`logs
    ensures "E1" in db.logs && db.logs["E1"].status == Success && db.logs["E1"].errorMessage == Some("connect ECONNREFUSED")
  {
    var d1Job, d2Job := queue.tasks[0], queue.tasks[1];
    assert d1Job.url == D1.url && d2Job.url == D2.url;
    ProcessJob(db, d2Job, Threw("connect ECONNREFUSED"), 200);
    assert db.logs["E1"].status == Failed;
    ProcessJob(db, d1Job, Completed, 201);
  }

  /** The whole example on a fresh store and an empty queue. */
  method Walkthrough()
  {
    var db := Provision();
    var queue := new WebhookQueue();
    AcceptOnce(db, queue);
    LastFinisherWins(db, queue);
    assert db.logs["E1"].status == Success;
  }

  /** On a fresh store the first signup gets user id 1 and the next one id 2; both see Admin = 1. */
  method FirstSignups()
  {
    var db := new Database();
    assert Truthy(Some("a@x")) && Truthy(Some("b@x")) && Truthy(Some("pw"));
    var first := Signup(db, Some("a@x"), Some("pw"), "hash-a");
    assert first == SignedUp(1, Some(1));
    var second := Signup(db, Some("b@x"), Some("pw"), "hash-b");
    assert second == SignedUp(2, Some(1));
  }
}
