/** The transfer tasks of tcp_socket.cpp: one object moves the bytes of one buffer in as many calls as it takes. */
module TcpTask {
  import opened Options

  type Byte = bv8

  const EBADF := 9
  const EAGAIN := 11

  datatype TaskStrategy = TRY | UNTIL_FINISHED

  /** What one `recv` or `send` does: moves some bytes, returns 0, or fails with an errno. */
  datatype Transfer = Moved(bytes: seq<Byte>) | Nothing | Failed(errno: int)

  /** A task by value; `buffer` is the memory it points to. */
  datatype Task = Task(finished: bool, buffer: seq<Byte>, pos: nat, strategy: TaskStrategy)

  /** A task as `async_read` and its likes make it. */
  function NewTask(buffer: seq<Byte>, strategy: TaskStrategy): Task {
    Task(false, buffer, 0, strategy)
  }

  /** The call is for at most the bytes that are left, and a transfer moves at least one byte. */
  predicate CanReceive(task: Task, transfer: Transfer) {
    task.pos <= |task.buffer| &&
    (transfer.Moved? ==> 0 < |transfer.bytes| <= |task.buffer| - task.pos)
  }

  /** What is sent is what stands in the buffer. */
  predicate CanSend(task: Task, transfer: Transfer) {
    CanReceive(task, transfer) &&
    (transfer.Moved? ==> transfer.bytes == task.buffer[task.pos..task.pos + |transfer.bytes|])
  }

  /** The error code of `exec`, none after progress. */
  function ErrorCode(task: Task, transfer: Transfer): Option<int> {
    if task.finished then None
    else match transfer
         case Moved(_) => None
         case Nothing => Some(EBADF)
         case Failed(errno) => Some(errno)
  }

  function Overwrite(buffer: seq<Byte>, pos: nat, bytes: seq<Byte>): seq<Byte>
    requires pos + |bytes| <= |buffer|
  {
    buffer[..pos] + bytes + buffer[pos + |bytes|..]
  }

  /** `TcpReadTask::exec`; `TcpWriteTask::exec` is the same on tasks whose transfers leave the buffer as it is. */
  function Exec(task: Task, transfer: Transfer): Task
    requires CanReceive(task, transfer)
  {
    if task.finished || !transfer.Moved? then task
    else
      var pos := task.pos + |transfer.bytes|;
      Task(task.strategy == TRY || pos == |task.buffer|,
           Overwrite(task.buffer, task.pos, transfer.bytes), pos, task.strategy)
  }

  /** The bytes a call moves: none once the task has finished. */
  function MovedBy(task: Task, transfer: Transfer): seq<Byte> {
    if !task.finished && transfer.Moved? then transfer.bytes else []
  }

  /** A sequence of calls on one task object, each of them possible when it is made. */
  predicate CanRun(task: Task, transfers: seq<Transfer>)
    decreases |transfers|
  {
    transfers == [] || (CanReceive(task, transfers[0]) && CanRun(Exec(task, transfers[0]), transfers[1..]))
  }

  function Run(task: Task, transfers: seq<Transfer>): Task
    requires CanRun(task, transfers)
    decreases |transfers|
  {
    if transfers == [] then task else Run(Exec(task, transfers[0]), transfers[1..])
  }

  function AllMoved(task: Task, transfers: seq<Transfer>): seq<Byte>
    requires CanRun(task, transfers)
    decreases |transfers|
  {
    if transfers == [] then []
    else MovedBy(task, transfers[0]) + AllMoved(Exec(task, transfers[0]), transfers[1..])
  }

  /** One call extends the moved prefix of the buffer and leaves the rest of it alone. */
  lemma ExecExtendsPrefix(task: Task, transfer: Transfer)
    requires CanReceive(task, transfer)
    ensures
      var next := Exec(task, transfer);
      && task.pos <= next.pos <= |next.buffer| == |task.buffer|
      && next.buffer[..next.pos] == task.buffer[..task.pos] + MovedBy(task, transfer)
      && next.buffer[next.pos..] == task.buffer[next.pos..]
      && (next.finished <==> task.finished || (transfer.Moved? && (task.strategy == TRY || next.pos == |task.buffer|)))
  {
    if !task.finished && transfer.Moved? {
      var next := Exec(task, transfer);
      assert task.buffer[..task.pos] + transfer.bytes == next.buffer[..next.pos];
    }
  }

  /**
    Byte accounting on one object: after any calls the first `pos_` bytes of the buffer are the bytes moved, in order,
    and an UNTIL_FINISHED task has finished exactly when the buffer is full, unless it was empty from the start.
   */
  lemma {:induction false} RunAccumulates(task: Task, transfers: seq<Transfer>)
    requires CanRun(task, transfers) && task.pos <= |task.buffer|
    ensures
      var end := Run(task, transfers);
      && end.pos <= |end.buffer| == |task.buffer|
      && end.buffer[..end.pos] == task.buffer[..task.pos] + AllMoved(task, transfers)
      && (task.strategy == UNTIL_FINISHED && task.buffer != [] && (task.finished <==> task.pos == |task.buffer|) ==>
            (end.finished <==> end.pos == |end.buffer|))
      && (task.strategy == TRY ==> (end.finished <==> task.finished || AllMoved(task, transfers) != []))
    decreases |transfers|
  {
    if transfers == [] {
      assert task.buffer[..task.pos] + [] == task.buffer[..task.pos];
    } else {
      var next := Exec(task, transfers[0]);
      ExecExtendsPrefix(task, transfers[0]);
      StrategyIsKept(task, transfers[0]);
      RunAccumulates(next, transfers[1..]);
      assert task.buffer[..task.pos] + (MovedBy(task, transfers[0]) + AllMoved(next, transfers[1..])) ==
             next.buffer[..next.pos] + AllMoved(next, transfers[1..]);
    }
  }

  lemma StrategyIsKept(task: Task, transfer: Transfer)
    requires CanReceive(task, transfer)
    ensures Exec(task, transfer).strategy == task.strategy
  {
  }

  /** Sending moves what stands in the buffer and does not change it. */
  lemma SendKeepsBuffer(task: Task, transfer: Transfer)
    requires CanSend(task, transfer)
    ensures Exec(task, transfer).buffer == task.buffer
  {
  }

  class TcpReadTask {
    var finished: bool
    const buf: array<Byte>
    var pos: nat
    const strategy: TaskStrategy

    constructor (buf: array<Byte>, strategy: TaskStrategy)
      ensures this.buf == buf && this.strategy == strategy && !finished && pos == 0
    {
      this.buf, this.strategy := buf, strategy;
      finished, pos := false, 0;
    }

    /** The copy a structured binding makes: it shares the buffer and nothing else. */
    constructor Copy(other: TcpReadTask)
      ensures buf == other.buf && strategy == other.strategy && finished == other.finished && pos == other.pos
    {
      buf, strategy := other.buf, other.strategy;
      finished, pos := other.finished, other.pos;
    }

    ghost function Value(): Task
      reads this, buf
    {
      Task(finished, buf[..], pos, strategy)
    }

    /** `transfer` is what `::recv` does; the bytes it moves arrive in the buffer. */
    method ExecRead(transfer: Transfer) returns (ec: Option<int>)
      requires CanReceive(Value(), transfer)
      modifies this, buf
      ensures Value() == Exec(old(Value()), transfer)
      ensures ec == ErrorCode(old(Value()), transfer)
    {
      if finished {
        return None;
      }
      match transfer {
        case Nothing =>
          return Some(EBADF);
        case Failed(errno) =>
          return Some(errno);
        case Moved(bytes) =>
          forall i | 0 <= i < |bytes| {
            buf[pos + i] := bytes[i];
          }
          assert buf[..] == Overwrite(old(buf[..]), pos, bytes);
          pos := pos + |bytes|;
          if strategy == TRY {
            finished := true;
          } else if pos == buf.Length {
            finished := true;
          }
          return None;
      }
    }
  }

  class TcpWriteTask {
    var finished: bool
    const buf: array<Byte>
    var pos: nat
    const strategy: TaskStrategy

    constructor (buf: array<Byte>, strategy: TaskStrategy)
      ensures this.buf == buf && this.strategy == strategy && !finished && pos == 0
    {
      this.buf, this.strategy := buf, strategy;
      finished, pos := false, 0;
    }

    /** The copy a structured binding makes: it shares the buffer and nothing else. */
    constructor Copy(other: TcpWriteTask)
      ensures buf == other.buf && strategy == other.strategy && finished == other.finished && pos == other.pos
    {
      buf, strategy := other.buf, other.strategy;
      finished, pos := other.finished, other.pos;
    }

    ghost function Value(): Task
      reads this, buf
    {
      Task(finished, buf[..], pos, strategy)
    }

    /** `transfer` is what `::send` does with the bytes from `pos_` on. */
    method ExecWrite(transfer: Transfer) returns (ec: Option<int>)
      requires CanSend(Value(), transfer)
      modifies this
      ensures Value() == Exec(old(Value()), transfer)
      ensures ec == ErrorCode(old(Value()), transfer)
    {
      SendKeepsBuffer(Value(), transfer);
      if finished {
        return None;
      }
      match transfer {
        case Nothing =>
          return Some(EBADF);
        case Failed(errno) =>
          return Some(errno);
        case Moved(bytes) =>
          pos := pos + |bytes|;
          if strategy == TRY {
            finished := true;
          } else if pos == buf.Length {
            finished := true;
          }
          return None;
      }
    }
  }
}
