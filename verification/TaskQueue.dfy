/** A queue of tasks by value, and what one call does to it: the objects of TcpSocket and the steps of SocketSystem. */
module TaskQueue {
  import opened TcpTask
  import opened Options

  /** A queued task and its callback, which `id` names. */
  datatype Entry = Entry(id: nat, task: Task)

  /** A callback with its arguments: the number that names it, the error if any, the bytes moved. */
  datatype Notification = Notification(callback: nat, error: Option<int>, size: nat)

  /** What `do_read` and `do_write` tell the front task's callback: nothing after EAGAIN or a part of the transfer. */
  function Outcome(front: Entry, transfer: Transfer): Option<Notification>
    requires CanReceive(front.task, transfer)
  {
    var copy, ec := Exec(front.task, transfer), ErrorCode(front.task, transfer);
    if copy.finished then Some(Notification(front.id, None, copy.pos))
    else if ec.Some? && ec != Some(EAGAIN) then Some(Notification(front.id, ec, copy.pos))
    else None
  }

  /**
    The queue after `do_read` or `do_write`. They work on a copy of the front task: what a transfer wrote to the buffer
    stays, but unless the callback is told the queued task keeps the position it had.
   */
  function Executed(queue: seq<Entry>, transfer: Transfer): seq<Entry>
    requires queue != [] && CanReceive(queue[0].task, transfer)
  {
    var front := queue[0];
    if Outcome(front, transfer).Some? then queue[1..]
    else [front.(task := front.task.(buffer := Exec(front.task, transfer).buffer))] + queue[1..]
  }

  /**
    What a call must answer, by cases and apart from `Outcome`: a transfer that fails, other than with EAGAIN (11), or
    moves nothing, which counts as EBADF (9), ends the front task with that error and the position it had; one that
    moves bytes ends it if it was to be tried once or its buffer is full, and there is no answer otherwise.
   */
  predicate Answers(front: Entry, transfer: Transfer, note: Option<Notification>) {
    match transfer
    case Nothing => note == Some(Notification(front.id, Some(9), front.task.pos))
    case Failed(errno) =>
      if errno == 11 then note == None else note == Some(Notification(front.id, Some(errno), front.task.pos))
    case Moved(bytes) =>
      var pos := front.task.pos + |bytes|;
      if front.task.strategy == TRY || pos == |front.task.buffer| then note == Some(Notification(front.id, None, pos))
      else note == None
  }

  lemma OutcomeAnswers(front: Entry, transfer: Transfer)
    requires !front.task.finished && CanReceive(front.task, transfer)
    ensures forall note :: Answers(front, transfer, note) <==> note == Outcome(front, transfer)
  {
  }

  /** What a drain loop tells the callbacks. */
  function Drained(queue: seq<Entry>): seq<Notification> {
    seq(|queue|, i requires 0 <= i < |queue| => Notification(queue[i].id, Some(EBADF), queue[i].task.pos))
  }
}
