/** The BullMQ queue 'webhookQueue': app.js adds 'forward' jobs, worker.js consumes them. */
module Queue {
  import Db

  /** The data of one 'forward' job: send one event's body to one destination. */
  datatype Task = Task(eventId: string, url: string, httpMethod: string, headers: Db.Headers, data: string)

  /** The queue as the jobs added to it, oldest first. */
  class WebhookQueue {
    var tasks: seq<Task>

    constructor ()
      ensures tasks == []
    {
      tasks := [];
    }

    /** `queue.add('forward', t)`: the job goes to the back of the queue. */
    method Add(t: Task)
      modifies this
      ensures tasks == old(tasks) + [t]
    {
      tasks := tasks + [t];
    }
  }
}
