// The values the control plane passes around. A Task record is what Redis or the
// in-memory map holds under one key; protobuf encoding is taken as the identity.
module Api {
  datatype Option<+T> = None | Some(value: T)

  datatype Error = NameRequired | NotFound | Backend

  // What the caller of a remote write learns; a failed write may still have landed.
  datatype Outcome = Done | Failed(applied: bool)

  predicate Landed(o: Outcome) {
    o.Done? || o.applied
  }

  // A task's metadata, reduced to the two fields that form its key.
  datatype TaskId = TaskId(atespace: string, name: string)

  datatype Condition = Condition(kind: string, status: string, reason: string, message: string, time: int)

  datatype Status = Status(phase: string, id: string, actor: string, workerIp: string, conditions: seq<Condition>)

  // `launch` stands for every spec field other than the suspend flag.
  datatype Spec = Spec(suspend: bool, launch: string)

  datatype Task = Task(meta: TaskId, spec: Spec, status: Status)

  datatype Event = Event(atespace: string, name: string, action: string)

  const DEFAULT_ATESPACE := "default"
  const PENDING := "Pending"
  const RUNNING := "Running"
  const SUSPENDED := "Suspended"
  const FAILED_PHASE := "Failed"
  const TERMINATING := "Terminating"
  const RECONCILE := "reconcile"
  const DELETE := "delete"

  function Normalized(atespace: string): string {
    if atespace == "" then DEFAULT_ATESPACE else atespace
  }

  // Records are read under the defaulted atespace.
  function ReadId(id: TaskId): TaskId {
    id.(atespace := Normalized(id.atespace))
  }

  function EventId(ev: Event): TaskId {
    ReadId(TaskId(ev.atespace, ev.name))
  }

  // The defaults both stores fill in before writing a record.
  function WithDefaults(task: Task): Task {
    task.(meta := task.meta.(atespace := Normalized(task.meta.atespace)),
          status := task.status.(phase := if task.status.phase == "" then PENDING else task.status.phase))
  }
}
