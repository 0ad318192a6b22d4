/** The daemon's unit of tracked work and the process-wide list that holds it.
    Only the part of the task object the modelled code touches is kept: its
    request data, owner, kind, status, message and result. */
module Tasks {
  import opened Core

  /** A task starts pending and is driven to finished or to error. */
  datatype Status = Pending | Finished | Errored

  class Task {
    /** The request data the task was created with; never changed. */
    const data: map<string, Value>
    /** The client application that asked for the work. */
    const appId: string
    /** The operation, such as "thumbnail_download". */
    const kind: string
    var status: Status
    var message: string
    /** Set by the handler before it finishes the task; None while unset. */
    var result: Option<Value>

    constructor (data: map<string, Value>, appId: string, kind: string, message: string)
      ensures this.data == data && this.appId == appId && this.kind == kind
      ensures status == Pending && this.message == message && result == None
    {
      this.data := data;
      this.appId := appId;
      this.kind := kind;
      this.message := message;
      status := Pending;
      result := None;
    }

    /** `task.finished(message)`: the result set beforehand stays. */
    method Finish(message: string)
      modifies this
      ensures status == Finished && this.message == message && result == old(result)
    {
      status := Finished;
      this.message := message;
    }

    /** `task.error(message)`: the result is left as it was. */
    method Fail(message: string)
      modifies this
      ensures status == Errored && this.message == message && result == old(result)
    {
      status := Errored;
      this.message := message;
    }
  }

  /** `daemon_globals.tasks`: every task the daemon created, in creation order.
      The modelled code only ever appends to it. */
  class Registry {
    var tasks: seq<Task>

    constructor ()
      ensures tasks == []
    {
      tasks := [];
    }

    method Append(task: Task)
      modifies this
      ensures tasks == old(tasks) + [task]
    {
      tasks := tasks + [task];
    }
  }
}
