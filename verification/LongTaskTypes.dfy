/** Durable vocabulary of the long-task domain: snapshots, changes and session events. */
module LongTaskTypes {
  import opened Wrappers

  type TaskId = string

  /** Compare-and-set identity of one revision. */
  datatype Ref = Ref(id: TaskId, revision: int)

  datatype Phase = Active | Paused | Blocked | Complete

  datatype BlockReason = BlockReason(code: string, message: string)

  datatype Checkpoint = Checkpoint(ordinal: int, statement: string, verifiedBy: string)

  datatype OpenQuestion =
    OpenQuestion(ordinal: int, question: string, settledBy: string, closesCheckpoint: Option<int>)

  datatype Snapshot = Snapshot(
    id: TaskId,
    revision: int,
    objective: string,
    phase: Phase,
    blockedReason: Option<BlockReason>,
    core: seq<string>,
    checkpoints: seq<Checkpoint>,
    openQuestions: seq<OpenQuestion>,
    next: string,
    maxRounds: int,
    handoffs: int)

  datatype Operation = Create | Edit | Pause | Resume | Finish | Block | Handoff

  /** Payload of a `long-task/change` event; `Malformed` stands for data of any other shape. */
  datatype Change =
    | SnapshotChange(operation: Operation, task: Snapshot, roundsStarted: int, createdAt: int, updatedAt: int)
    | ClearChange(cleared: Ref, clearedAt: int)
    | Malformed

  datatype HandoffReason = Pressure | Overflow

  /** Payload of a `long-task/handoff` event. */
  datatype Trace =
    | Trace(ref: Ref, handoffs: int, reason: HandoffReason, at: int)
    | MalformedTrace

  /** Who a user message is attributed to. */
  datatype Source = RoundSource(taskId: TaskId, revision: int, round: int) | OtherSource

  type Content = string

  datatype Message = Message(id: nat, content: Content, source: Source)

  datatype Event =
    | ChangeEvent(change: Change)
    | TraceEvent(trace: Trace)
    | MessageEvent(message: Message)
    | OtherEvent

  /** The revision identity carried by a change that has one. */
  function ChangeRef(change: Change): Ref
    requires !change.Malformed?
  {
    match change
    case SnapshotChange(_, task, _, _, _) => TaskRef(task)
    case ClearChange(cleared, _) => cleared
  }

  function TaskRef(task: Snapshot): Ref {
    Ref(task.id, task.revision)
  }
}
