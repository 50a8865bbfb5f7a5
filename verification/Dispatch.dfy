/** Routing of execution messages. */
module Dispatch {
  import opened Model

  /** `control` carries the periodic recovery scans, never a task. */
  datatype Queue = HighQueue | MediumQueue | LowQueue | ControlQueue

  function QueueForPriority(priority: Priority): Queue {
    match priority
    case High => HighQueue
    case Medium => MediumQueue
    case Low => LowQueue
  }

  /** Each priority has the queue of its own name, and none uses the one for
      recovery. */
  predicate Routes(priority: Priority, queue: Queue) {
    && (queue == HighQueue <==> priority == High)
    && (queue == MediumQueue <==> priority == Medium)
    && (queue == LowQueue <==> priority == Low)
    && queue != ControlQueue
  }

  lemma QueuesAreSeparate(p: Priority, q: Priority)
    ensures Routes(p, QueueForPriority(p))
    ensures QueueForPriority(p) == QueueForPriority(q) <==> p == q
  {
  }

  /** An execution message names a task; `retries` is Celery's own counter. */
  datatype Message = Message(task: TaskId, queue: Queue, retries: int)

  /** A fresh publication, not a retry. */
  function Published(t: TaskId, priority: Priority): Message {
    Message(t, QueueForPriority(priority), 0)
  }
}
