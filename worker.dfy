/**
 * The job callback of worker.js: make the outbound call a 'forward' job
 * describes, then record its outcome on the event's log row. What the `try`
 * block did (the axios call, the JSON.parse of the body and the success
 * UPDATE) is an input: whether it finished or threw, and with which message.
 */
module Worker {
  import opened Wrappers
  import opened Db
  import opened Queue

  /**
   * What the callback's `try` block did: finished (axios returned, whatever
   * HTTP status it let through, and the success UPDATE ran) or threw an error
   * whose message is `message` (from axios, from JSON.parse of the body, or
   * from the success UPDATE), which the `catch` records.
   */
  datatype Outcome = Completed | Threw(message: string)

  /**
   * A log row after one job's UPDATE: processed_timestamp is set, status is
   * 'success' or 'failed', error_message is set only on failure (a success
   * leaves whatever was there), and no other column changes.
   */
  function Settled(row: LogRow, outcome: Outcome, now: Timestamp): (r: LogRow)
    ensures r.eventId == row.eventId && r.accountId == row.accountId
    ensures r.receivedData == row.receivedData && r.receivedAt == row.receivedAt
    ensures r.processedAt == Some(now)
    ensures outcome.Completed? ==> r.status == Success && r.errorMessage == row.errorMessage
    ensures outcome.Threw? ==> r.status == Failed && r.errorMessage == Some(outcome.message)
  {
    match outcome
    case Completed => row.(processedAt := Some(now), status := Success)
    case Threw(message) => row.(processedAt := Some(now), status := Failed, errorMessage := Some(message))
  }

  /**
   * The logs table after `UPDATE logs SET ... WHERE event_id = ?`: only the
   * row of that event changes, and when there is none nothing changes (the
   * worker never inserts). The prior status is not looked at.
   */
  function ApplyOutcome(logs: map<string, LogRow>, eventId: string, outcome: Outcome, now: Timestamp)
    : (r: map<string, LogRow>)
    ensures r.Keys == logs.Keys
    ensures forall e :: e in logs && e != eventId ==> r[e] == logs[e]
    ensures eventId in logs ==> r[eventId] == Settled(logs[eventId], outcome, now)
    ensures eventId !in logs ==> r == logs
  {
    if eventId in logs then logs[eventId := Settled(logs[eventId], outcome, now)] else logs
  }

  /** Recording an outcome keeps every log row under its event id and its account. */
  lemma ApplyOutcomeKeepsValid(
    logs: map<string, LogRow>, accountIds: set<string>, eventId: string, outcome: Outcome, now: Timestamp)
    requires LogsValid(logs, accountIds)
    ensures LogsValid(ApplyOutcome(logs, eventId, outcome, now), accountIds)
  {
  }

  /**
   * The callback handed to `new Worker('webhookQueue', ...)`, given the job's
   * data and what the call did: exactly one UPDATE of the job's log row, and
   * nothing is queued again.
   */
  method ProcessJob(db: Database, job: Task, outcome: Outcome, now: Timestamp)
    requires db.Valid()
    modifies db`logs
    ensures db.Valid()
    ensures db.logs == ApplyOutcome(old(db.logs), job.eventId, outcome, now)
  {
    ApplyOutcomeKeepsValid(db.logs, AccountIds(db.accounts), job.eventId, outcome, now);
    if job.eventId !in db.logs {
      return;
    }
    var row := db.logs[job.eventId];
    match outcome {
      case Completed =>
        db.logs := db.logs[job.eventId := row.(processedAt := Some(now), status := Success)];
      case Threw(message) =>
        db.logs := db.logs[job.eventId := row.(processedAt := Some(now), status := Failed, errorMessage := Some(message))];
    }
  }

  /** The status a job leaves on its row. */
  function StatusAfter(outcome: Outcome): Status {
    if outcome.Completed? then Success else Failed
  }

  /**
   * Recording the same outcome twice leaves the row as recording it once at
   * the later time: the same status and error message, only the timestamp moves.
   */
  lemma ApplyOutcomeIdempotent(
    logs: map<string, LogRow>, eventId: string, outcome: Outcome, first: Timestamp, second: Timestamp)
    ensures ApplyOutcome(ApplyOutcome(logs, eventId, outcome, first), eventId, outcome, second)
         == ApplyOutcome(logs, eventId, outcome, second)
  {
  }

  /**
   * A later job for the same event overwrites the earlier one's status and
   * timestamp (last writer wins). A later failure also overwrites the error
   * message; a later success keeps the earlier failure's message.
   */
  lemma LastWriterWins(
    logs: map<string, LogRow>, eventId: string,
    earlier: Outcome, t1: Timestamp, later: Outcome, t2: Timestamp)
    requires eventId in logs
    ensures var row := ApplyOutcome(ApplyOutcome(logs, eventId, earlier, t1), eventId, later, t2)[eventId];
      && row.status == StatusAfter(later)
      && row.processedAt == Some(t2)
      && row.errorMessage == (
        if later.Threw? then Some(later.message)
        else if earlier.Threw? then Some(earlier.message)
        else logs[eventId].errorMessage)
  {
  }

  /** One finished job: its data, what its call did and when its UPDATE ran. */
  datatype Run = Run(job: Task, outcome: Outcome, at: Timestamp)

  /** The logs table after the jobs of `runs` have finished, one after another, in that order. */
  function RunJobs(logs: map<string, LogRow>, runs: seq<Run>): (r: map<string, LogRow>)
    ensures r.Keys == logs.Keys
  {
    if runs == [] then logs
    else
      var last := runs[|runs| - 1];
      ApplyOutcome(RunJobs(logs, runs[..|runs| - 1]), last.job.eventId, last.outcome, last.at)
  }

  /** The run is a job for `eventId` (and a failed one, when `failuresOnly`). */
  predicate Hits(run: Run, eventId: string, failuresOnly: bool) {
    run.job.eventId == eventId && (failuresOnly ==> run.outcome.Threw?)
  }

  /** The position of the last run that hits `eventId`, if any. */
  function LastHit(runs: seq<Run>, eventId: string, failuresOnly: bool): (r: Option<nat>)
    ensures r.None? <==> forall i :: 0 <= i < |runs| ==> !Hits(runs[i], eventId, failuresOnly)
    ensures r.Some? ==>
      && r.value < |runs|
      && Hits(runs[r.value], eventId, failuresOnly)
      && forall i :: r.value < i < |runs| ==> !Hits(runs[i], eventId, failuresOnly)
  {
    if runs == [] then None
    else if Hits(runs[|runs| - 1], eventId, failuresOnly) then Some(|runs| - 1)
    else LastHit(runs[..|runs| - 1], eventId, failuresOnly)
  }

  /**
   * Workers never add or remove log rows, and never touch a row's event id,
   * account, body or receive time.
   */
  lemma {:induction false} RunJobsKeepsRows(logs: map<string, LogRow>, runs: seq<Run>)
    ensures RunJobs(logs, runs).Keys == logs.Keys
    ensures forall e :: e in logs ==>
      var row := RunJobs(logs, runs)[e];
      && row.eventId == logs[e].eventId && row.accountId == logs[e].accountId
      && row.receivedData == logs[e].receivedData && row.receivedAt == logs[e].receivedAt
  {
    if runs != [] {
      RunJobsKeepsRows(logs, runs[..|runs| - 1]);
    }
  }

  /**
   * The status of an event's row after any sequence of jobs: untouched (still
   * as inserted, e.g. 'pending') when no job was for it; otherwise the status
   * and timestamp the last job for it wrote.
   */
  lemma {:induction false} RunJobsLastStatus(logs: map<string, LogRow>, runs: seq<Run>, eventId: string)
    requires eventId in logs
    ensures eventId in RunJobs(logs, runs)
    ensures LastHit(runs, eventId, false).None? ==> RunJobs(logs, runs)[eventId] == logs[eventId]
    ensures LastHit(runs, eventId, false).Some? ==>
      var last := runs[LastHit(runs, eventId, false).value];
      && RunJobs(logs, runs)[eventId].status == StatusAfter(last.outcome)
      && RunJobs(logs, runs)[eventId].processedAt == Some(last.at)
  {
    RunJobsKeepsRows(logs, runs);
    if runs != [] {
      var front := runs[..|runs| - 1];
      RunJobsLastStatus(logs, front, eventId);
      assert forall i :: 0 <= i < |front| ==> front[i] == runs[i];
    }
  }

  /**
   * The error message of an event's row after any sequence of jobs: the
   * message of the last failed job for it, or the message it had before when
   * none of its jobs failed. Successes never clear it.
   */
  lemma {:induction false} RunJobsLastError(logs: map<string, LogRow>, runs: seq<Run>, eventId: string)
    requires eventId in logs
    ensures eventId in RunJobs(logs, runs)
    ensures RunJobs(logs, runs)[eventId].errorMessage ==
      match LastHit(runs, eventId, true)
      case None => logs[eventId].errorMessage
      case Some(k) => Some(runs[k].outcome.message)
  {
    RunJobsKeepsRows(logs, runs);
    if runs != [] {
      var front := runs[..|runs| - 1];
      RunJobsLastError(logs, front, eventId);
      assert forall i :: 0 <= i < |front| ==> front[i] == runs[i];
    }
  }

  /**
   * An event none of whose jobs is in the queue keeps its row as inserted
   * (still 'pending') however the queue's jobs finish: the ingress handler
   * queues no job for an account with no destinations.
   */
  lemma UnqueuedEventKeepsRow(logs: map<string, LogRow>, tasks: seq<Task>, runs: seq<Run>, eventId: string)
    requires eventId in logs
    requires forall i :: 0 <= i < |runs| ==> runs[i].job in tasks
    requires forall t :: t in tasks ==> t.eventId != eventId
    ensures eventId in RunJobs(logs, runs) && RunJobs(logs, runs)[eventId] == logs[eventId]
  {
    RunJobsLastStatus(logs, runs, eventId);
  }
}
