/** The socket object: each method is one call from its lock to its unlock, callbacks are what it returns. */
module TcpSocket {
  import opened TcpTask
  import opened TaskQueue
  import opened Options

  datatype ReadEntry = ReadEntry(task: TcpReadTask, callback: nat)
  datatype WriteEntry = WriteEntry(task: TcpWriteTask, callback: nat)

  /** What a `close` call does, in order. */
  datatype CloseEvent = HandleClose | Callback(note: Notification)

  function Callbacks(notes: seq<Notification>): seq<CloseEvent> {
    seq(|notes|, i requires 0 <= i < |notes| => Callback(notes[i]))
  }

  /** The queue by value. */
  ghost function ReadValues(queue: seq<ReadEntry>): seq<Entry>
    reads set i | 0 <= i < |queue| :: queue[i].task
    reads set i | 0 <= i < |queue| :: queue[i].task.buf
  {
    if queue == [] then [] else ReadValues(queue[..|queue| - 1]) + [ReadValue(queue[|queue| - 1])]
  }

  ghost function ReadValue(entry: ReadEntry): Entry
    reads entry.task, entry.task.buf
  {
    Entry(entry.callback, entry.task.Value())
  }

  ghost function WriteValues(queue: seq<WriteEntry>): seq<Entry>
    reads set i | 0 <= i < |queue| :: queue[i].task
    reads set i | 0 <= i < |queue| :: queue[i].task.buf
  {
    if queue == [] then [] else WriteValues(queue[..|queue| - 1]) + [WriteValue(queue[|queue| - 1])]
  }

  ghost function WriteValue(entry: WriteEntry): Entry
    reads entry.task, entry.task.buf
  {
    Entry(entry.callback, entry.task.Value())
  }

  lemma {:induction false} ReadValuesAt(queue: seq<ReadEntry>)
    ensures |ReadValues(queue)| == |queue|
    ensures forall i :: 0 <= i < |queue| ==> ReadValues(queue)[i] == ReadValue(queue[i])
  {
    if queue != [] {
      ReadValuesAt(queue[..|queue| - 1]);
    }
  }

  lemma {:induction false} WriteValuesAt(queue: seq<WriteEntry>)
    ensures |WriteValues(queue)| == |queue|
    ensures forall i :: 0 <= i < |queue| ==> WriteValues(queue)[i] == WriteValue(queue[i])
  {
    if queue != [] {
      WriteValuesAt(queue[..|queue| - 1]);
    }
  }

  lemma ExecutedIs(before: seq<Entry>, transfer: Transfer, after: seq<Entry>)
    requires before != [] && CanReceive(before[0].task, transfer)
    requires
      if Outcome(before[0], transfer).Some?
      then |after| == |before| - 1 && forall i :: 0 <= i < |after| ==> after[i] == before[i + 1]
      else
        && |after| == |before|
        && after[0] == before[0].(task := before[0].task.(buffer := Exec(before[0].task, transfer).buffer))
        && forall i :: 1 <= i < |after| ==> after[i] == before[i]
    ensures after == Executed(before, transfer)
  {
    hide Outcome, Exec;
  }

  lemma FrontAnswers(front: Entry, transfer: Transfer)
    requires CanReceive(front.task, transfer)
    ensures !front.task.finished ==> Answers(front, transfer, Outcome(front, transfer))
  {
    if !front.task.finished {
      OutcomeAnswers(front, transfer);
    }
  }

  /** No queued read writes to another's buffer. */
  ghost predicate ApartFromFront(queue: seq<ReadEntry>) {
    forall i :: 1 <= i < |queue| ==> queue[i].task.buf != queue[0].task.buf
  }

  class TcpSocket {
    var closed: bool
    var readQueue: seq<ReadEntry>
    var writeQueue: seq<WriteEntry>

    constructor ()
      ensures !closed && readQueue == [] && writeQueue == []
    {
      closed, readQueue, writeQueue := false, [], [];
    }

    /** `async_read` and `async_read_some`, which differ in the strategy. */
    method AsyncRead(buf: array<Byte>, strategy: TaskStrategy, callback: nat) returns (ok: bool)
      modifies this`readQueue
      ensures ok == !closed
      ensures !ok ==> readQueue == old(readQueue)
      ensures ok ==>
                && |readQueue| == |old(readQueue)| + 1 && readQueue[..|old(readQueue)|] == old(readQueue)
                && fresh(readQueue[|old(readQueue)|].task) && readQueue[|old(readQueue)|].task.buf == buf
                && ReadValues(readQueue) ==
                   old(ReadValues(readQueue)) + [Entry(callback, NewTask(buf[..], strategy))]
    {
      if closed {
        return false;
      }
      ReadValuesAt(readQueue);
      var task := new TcpReadTask(buf, strategy);
      readQueue := readQueue + [ReadEntry(task, callback)];
      ReadValuesAt(readQueue);
      return true;
    }

    /** `async_write` and `async_write_some` */
    method AsyncWrite(buf: array<Byte>, strategy: TaskStrategy, callback: nat) returns (ok: bool)
      modifies this`writeQueue
      ensures ok == !closed
      ensures !ok ==> writeQueue == old(writeQueue)
      ensures ok ==>
                && |writeQueue| == |old(writeQueue)| + 1 && writeQueue[..|old(writeQueue)|] == old(writeQueue)
                && fresh(writeQueue[|old(writeQueue)|].task) && writeQueue[|old(writeQueue)|].task.buf == buf
                && WriteValues(writeQueue) ==
                   old(WriteValues(writeQueue)) + [Entry(callback, NewTask(buf[..], strategy))]
    {
      if closed {
        return false;
      }
      WriteValuesAt(writeQueue);
      var task := new TcpWriteTask(buf, strategy);
      writeQueue := writeQueue + [WriteEntry(task, callback)];
      WriteValuesAt(writeQueue);
      return true;
    }

    method Cancel()
      modifies this`readQueue, this`writeQueue
      ensures readQueue == [] && writeQueue == []
    {
      readQueue := [];
      writeQueue := [];
    }

    /**
      `do_read`. The task that is executed is a copy: the queued objects are not in the frame of this method, so a
      partial transfer changes the buffer and nothing else.
     */
    method DoRead(transfer: Transfer) returns (note: Option<Notification>)
      requires !closed && readQueue != [] ==> CanReceive(readQueue[0].task.Value(), transfer)
      modifies this`readQueue, if closed || readQueue == [] then {} else {readQueue[0].task.buf}
      ensures closed || old(readQueue) == [] ==> note == None && readQueue == old(readQueue)
      ensures !closed && old(readQueue) != [] ==>
                var front := old(ReadValue(readQueue[0]));
                && CanReceive(front.task, transfer)
                && note == Outcome(front, transfer)
                && (!front.task.finished ==> Answers(front, transfer, note))
                && readQueue == (if note.Some? then old(readQueue)[1..] else old(readQueue))
                && old(readQueue)[0].task.Value() == front.task.(buffer := Exec(front.task, transfer).buffer)
      ensures !closed && old(readQueue) != [] && ApartFromFront(old(readQueue)) ==>
                var before := old(ReadValues(readQueue));
                && before != [] && CanReceive(before[0].task, transfer)
                && ReadValues(readQueue) == Executed(before, transfer)
    {
      if closed {
        return None;
      }
      if readQueue == [] {
        return None;
      }
      hide Exec, ErrorCode, Executed, ReadValues;
      ghost var queue, before := readQueue, ReadValues(readQueue);
      ReadValuesAt(queue);
      var front := readQueue[0];
      var task := new TcpReadTask.Copy(front.task);
      var ec := task.ExecRead(transfer);
      note := None;
      if task.finished {
        readQueue := readQueue[1..];
        note := Some(Notification(front.callback, None, task.pos));
      } else if ec.Some? && ec.value != EAGAIN {
        readQueue := readQueue[1..];
        note := Some(Notification(front.callback, Some(ec.value), task.pos));
      }
      FrontAnswers(old(ReadValue(readQueue[0])), transfer);
      if ApartFromFront(queue) {
        assert forall i :: 1 <= i < |queue| ==> ReadValue(queue[i]) == before[i];
        ReadValuesAt(readQueue);
        ExecutedIs(before, transfer, ReadValues(readQueue));
      }
    }

    /** `do_write`; sending does not change the buffer, so after a partial transfer the same bytes are sent again. */
    method DoWrite(transfer: Transfer) returns (note: Option<Notification>)
      requires !closed && writeQueue != [] ==> CanSend(writeQueue[0].task.Value(), transfer)
      modifies this`writeQueue
      ensures closed || old(writeQueue) == [] ==> note == None && writeQueue == old(writeQueue)
      ensures !closed && old(writeQueue) != [] ==>
                var before := old(WriteValues(writeQueue));
                && before != [] && CanReceive(before[0].task, transfer)
                && note == Outcome(before[0], transfer)
                && (!before[0].task.finished ==> Answers(before[0], transfer, note))
                && writeQueue == (if note.Some? then old(writeQueue)[1..] else old(writeQueue))
                && WriteValues(writeQueue) == Executed(before, transfer)
    {
      if closed {
        return None;
      }
      if writeQueue == [] {
        return None;
      }
      hide Exec, ErrorCode, Executed, WriteValues;
      ghost var before := WriteValues(writeQueue);
      WriteValuesAt(writeQueue);
      var front := writeQueue[0];
      SendKeepsBuffer(front.task.Value(), transfer);
      var task := new TcpWriteTask.Copy(front.task);
      var ec := task.ExecWrite(transfer);
      note := None;
      if task.finished {
        writeQueue := writeQueue[1..];
        note := Some(Notification(front.callback, None, task.pos));
      } else if ec.Some? && ec.value != EAGAIN {
        writeQueue := writeQueue[1..];
        note := Some(Notification(front.callback, Some(ec.value), task.pos));
      }
      FrontAnswers(before[0], transfer);
      WriteValuesAt(writeQueue);
      ExecutedIs(before, transfer, WriteValues(writeQueue));
    }

    /** The drain loop of the read queue: each task is told EBADF and its position, in queue order. */
    method DrainReads() returns (notes: seq<Notification>)
      modifies this`readQueue
      ensures readQueue == [] && notes == Drained(old(ReadValues(readQueue)))
    {
      notes := [];
      ghost var queue := readQueue;
      ReadValuesAt(queue);
      while readQueue != []
        invariant |notes| <= |queue| && readQueue == queue[|notes|..]
        invariant forall i :: 0 <= i < |notes| ==>
                    notes[i] == Notification(queue[i].callback, Some(EBADF), queue[i].task.pos)
        decreases |readQueue|
      {
        var front := readQueue[0];
        readQueue := readQueue[1..];
        notes := notes + [Notification(front.callback, Some(EBADF), front.task.pos)];
      }
    }

    /** The drain loop of the write queue: each task is told EBADF and its position, in queue order. */
    method DrainWrites() returns (notes: seq<Notification>)
      modifies this`writeQueue
      ensures writeQueue == [] && notes == Drained(old(WriteValues(writeQueue)))
    {
      notes := [];
      ghost var queue := writeQueue;
      WriteValuesAt(queue);
      while writeQueue != []
        invariant |notes| <= |queue| && writeQueue == queue[|notes|..]
        invariant forall i :: 0 <= i < |notes| ==>
                    notes[i] == Notification(queue[i].callback, Some(EBADF), queue[i].task.pos)
        decreases |writeQueue|
      {
        var front := writeQueue[0];
        writeQueue := writeQueue[1..];
        notes := notes + [Notification(front.callback, Some(EBADF), front.task.pos)];
      }
    }

    /** `close` when no other thread interferes: the handle is closed, then reads are told, then writes. */
    method Close() returns (events: seq<CloseEvent>)
      modifies this
      ensures closed
      ensures old(closed) ==> events == [] && readQueue == old(readQueue) && writeQueue == old(writeQueue)
      ensures !old(closed) ==>
                && readQueue == [] && writeQueue == []
                && events == [HandleClose] + Callbacks(Drained(old(ReadValues(readQueue))))
                             + Callbacks(Drained(old(WriteValues(writeQueue))))
    {
      if closed {
        return [];
      }
      ReadValuesAt(readQueue);
      WriteValuesAt(writeQueue);
      closed := true;
      events := [HandleClose];
      ReadValuesAt(readQueue);
      assert ReadValues(readQueue) == old(ReadValues(readQueue));
      var notes := DrainReads();
      events := events + Callbacks(notes);
      WriteValuesAt(writeQueue);
      assert WriteValues(writeQueue) == old(WriteValues(writeQueue));
      notes := DrainWrites();
      events := events + Callbacks(notes);
    }
  }
}
