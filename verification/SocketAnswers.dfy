/** What the callbacks of a socket are told, over every run, and that `close` does not return before it has told it. */
module SocketAnswers {
  import opened TcpTask
  import opened TaskQueue
  import opened SocketSystem
  import opened SocketAccounting
  import opened Options

  /** The front task has left the queue, and its callback is due with these arguments. */
  ghost predicate Ends(side: Side, next: Side, error: Option<int>, size: nat) {
    && side.queue != []
    && next.queue == side.queue[1..]
    && next.pending == side.pending + multiset{side.queue[0].id}
    && next.notes == side.notes + [Notification(side.queue[0].id, error, size)]
  }

  /** Nobody is told anything, and the tasks that are queued stay in their places and have made no progress. */
  ghost predicate StaysQueued(side: Side, next: Side) {
    && |next.queue| == |side.queue|
    && (forall i :: 0 <= i < |side.queue| ==> next.queue[i].id == side.queue[i].id && next.queue[i].task.pos == 0)
    && next.pending == side.pending && next.notes == side.notes && next.reported == side.reported
  }

  lemma AnswerOfFailure(side: Side, transfer: Transfer)
    requires SideInv(side) && side.queue != [] && CanReceive(side.queue[0].task, transfer) && !transfer.Moved?
    ensures
      var next := Transferred(side, transfer);
      match transfer
      case Nothing => Ends(side, next, Some(9), 0) && next.reported == side.reported
      case Failed(errno) =>
        if errno == 11 then StaysQueued(side, next) && next.queue == side.queue
        else Ends(side, next, Some(errno), 0) && next.reported == side.reported
  {
    var front := side.queue[0];
    FrontIsFresh(side);
    OutcomeAnswers(front, transfer);
    FailureKeepsTask(front.task, transfer);
    TransferredShape(side, transfer);
    hide SideInv, Outcome, Exec, ErrorCode, Transferred;
    assert [front] + side.queue[1..] == side.queue;
  }

  lemma FailureKeepsTask(task: Task, transfer: Transfer)
    requires CanReceive(task, transfer) && !transfer.Moved?
    ensures Exec(task, transfer) == task && ExecExtends(task, transfer)
  {
  }

  lemma AnswerOfMove(side: Side, bytes: seq<Byte>)
    requires SideInv(side) && side.queue != [] && CanReceive(side.queue[0].task, Moved(bytes))
    ensures
      var front, next := side.queue[0].task, Transferred(side, Moved(bytes));
      if front.strategy == TRY || |bytes| == |front.buffer|
      then Ends(side, next, None, |bytes|) && next.reported == side.reported + bytes
      else StaysQueued(side, next)
  {
    var front := side.queue[0];
    FrontIsFresh(side);
    OutcomeAnswers(front, Moved(bytes));
    ExecExtendsPrefix(front.task, Moved(bytes));
    assert front.task.buffer[..0] + bytes == bytes;
    TransferredShape(side, Moved(bytes));
    hide OrderInv, PlacesInv, BytesInv, NotesInv, Outcome, Exec, ErrorCode, Transferred;
  }

  /**
    Over every run: EAGAIN (11) leaves the queue as it is and tells nobody; any other error, and a closed peer as EBADF
    (9), ends the front task with nothing moved; a transfer that makes it done ends it with the bytes it moved.
   */
  lemma TransfersAreAnswered(actions: seq<Action>, dir: Direction, transfer: Transfer)
    requires Runs(Initial, actions) && Enabled(After(Initial, actions), ExecTransfer(dir, transfer))
    ensures
      var s := After(Initial, actions);
      var side, next := SideOf(s, dir), SideOf(Next(s, ExecTransfer(dir, transfer)), dir);
      var front := side.queue[0].task;
      match transfer
      case Nothing => Ends(side, next, Some(9), 0) && next.reported == side.reported
      case Failed(errno) =>
        if errno == 11 then StaysQueued(side, next) && next.queue == side.queue
        else Ends(side, next, Some(errno), 0) && next.reported == side.reported
      case Moved(bytes) =>
        if front.strategy == TRY || |bytes| == |front.buffer|
        then Ends(side, next, None, |bytes|) && next.reported == side.reported + bytes
        else StaysQueued(side, next)
  {
    InitialInv();
    RunKeepsInv(Initial, actions);
    hide Runs, After, SideInv, CloseInv, Ends, StaysQueued, Transferred;
    match transfer {
      case Moved(bytes) => AnswerOfMove(SideOf(After(Initial, actions), dir), bytes);
      case _ => AnswerOfFailure(SideOf(After(Initial, actions), dir), transfer);
    }
  }

  /** Over every run: a task that a drain loop takes off is told EBADF and that nothing was moved. */
  lemma DrainsAreAnswered(actions: seq<Action>, dir: Direction)
    requires Runs(Initial, actions) && Enabled(After(Initial, actions), DrainPop(dir))
    ensures
      var s := After(Initial, actions);
      Ends(SideOf(s, dir), SideOf(Next(s, DrainPop(dir)), dir), Some(9), 0)
  {
    InitialInv();
    RunKeepsInv(Initial, actions);
    hide Runs, After, SideInv, CloseInv, DueInv, Pop, Ends, Next, Enabled;
    DrainEnds(After(Initial, actions), dir);
  }

  lemma DrainEnds(s: System, dir: Direction)
    requires SideInv(SideOf(s, dir)) && Enabled(s, DrainPop(dir))
    ensures Ends(SideOf(s, dir), SideOf(Next(s, DrainPop(dir)), dir), Some(9), 0)
  {
    hide SideInv, Pop, Ends, Transferred, CanReceive, CanSend;
    PopEnds(SideOf(s, dir));
  }

  lemma PopEnds(side: Side)
    requires SideInv(side) && side.queue != []
    ensures Ends(side, Pop(side), Some(9), 0)
  {
    FrontIsFresh(side);
    hide OrderInv, PlacesInv, BytesInv, NotesInv, FreshInv;
  }

  /** Over every run: each callback that is due or has been called has its arguments exactly once, no other has any. */
  lemma EachCallbackHasItsArguments(actions: seq<Action>, dir: Direction, id: nat)
    requires Runs(Initial, actions)
    ensures
      var side := SideOf(After(Initial, actions), dir);
      multiset(Told(side.notes))[id] == side.pending[id] + side.called[id] <= 1
  {
    InitialInv();
    RunKeepsInv(Initial, actions);
    EachTaskIsInOnePlace(actions, dir, id);
    hide Runs, After, OrderInv, PlacesInv, BytesInv, FreshInv, CloseInv;
  }

  /** An `async_*` call adds a task without progress at the end of the queue, unless the socket is closed. */
  lemma OpenSocketsAccept(s: System, dir: Direction, buffer: seq<Byte>, strategy: TaskStrategy)
    requires SideOf(s, dir).lock == Free
    ensures
      var lock, push := AsyncLock(dir, buffer, strategy), AsyncPush(dir);
      && Enabled(s, lock)
      && if s.closed then Next(s, lock) == s
         else
           && Enabled(Next(s, lock), push)
           && var side, next := SideOf(s, dir), SideOf(Next(Next(s, lock), push), dir);
              && next.queue == side.queue + [Entry(side.accepted, Task(false, buffer, 0, strategy))]
              && next.lock == Free
  {
  }

  lemma CallingBackStays(s: System, a: Action)
    requires s.closer.CallingBack? && s.closed && Enabled(s, a) && a != Callback(s.closer.dir, s.closer.id)
    ensures Next(s, a).closer == s.closer && Next(s, a).closed
  {
    hide Transferred, CanReceive, CanSend, CancelSide, Push, Pop, CallBack;
  }

  lemma {:induction false} CallbackBeforeReturn(s: System, actions: seq<Action>)
    requires s.closer.CallingBack? && s.closed && Runs(s, actions) && After(s, actions).closer == Closed
    ensures Callback(s.closer.dir, s.closer.id) in actions
    decreases |actions|
  {
    hide Enabled, Next;
    if actions[0] != Callback(s.closer.dir, s.closer.id) {
      CallingBackStays(s, actions[0]);
      CallbackBeforeReturn(Next(s, actions[0]), actions[1..]);
    }
  }

  /** `close` does not return before the callback of each task that its drain loops take off has been called. */
  lemma CallbacksComeBeforeReturn(s: System, dir: Direction, t: System, actions: seq<Action>)
    requires CloseInv(s) && SideOf(s, dir).queue != [] && Enabled(s, DrainPop(dir)) && t == Next(s, DrainPop(dir))
    requires Runs(t, actions) && After(t, actions).closer == Closed
    ensures Callback(dir, SideOf(s, dir).queue[0].id) in actions
  {
    hide Runs, After, Transferred, CanReceive, CanSend;
    CallbackBeforeReturn(t, actions);
  }

  predicate NoTransferUnderWay(s: System) {
    s.closed && s.reading.lock != Executor && s.writing.lock != Executor
  }

  lemma ClosedStartsNone(s: System, a: Action)
    requires NoTransferUnderWay(s) && Enabled(s, a)
    ensures NoTransferUnderWay(Next(s, a)) && !a.ExecTransfer?
    ensures Next(s, a).reading.moved == s.reading.moved && Next(s, a).writing.moved == s.writing.moved
  {
    hide Transferred, CanReceive, CanSend;
  }

  /** Once the flag is set and the transfers under way are over, nothing is received or sent any more. */
  lemma {:induction false} NoTransferAfterClose(s: System, actions: seq<Action>)
    requires NoTransferUnderWay(s) && Runs(s, actions)
    ensures forall dir, transfer :: ExecTransfer(dir, transfer) !in actions
    ensures After(s, actions).reading.moved == s.reading.moved && After(s, actions).writing.moved == s.writing.moved
    decreases |actions|
  {
    hide Enabled, Next, NoTransferUnderWay;
    if actions != [] {
      ClosedStartsNone(s, actions[0]);
      NoTransferAfterClose(Next(s, actions[0]), actions[1..]);
      assert forall a :: a in actions ==> a == actions[0] || a in actions[1..];
    }
  }

  /** A callback that is due can be called, and is then called. */
  lemma DueCallbacksCanBeCalled(s: System, dir: Direction, id: nat)
    requires id in SideOf(s, dir).pending
    ensures Enabled(s, Callback(dir, id))
    ensures
      var side, next := SideOf(s, dir), SideOf(Next(s, Callback(dir, id)), dir);
      next.pending == side.pending - multiset{id} && next.called == side.called + multiset{id}
  {
  }

  function Phase(s: System): nat {
    match s.closer
    case ClosingHandle => 2
    case Draining(dir) => if dir == Reading then 1 else 0
    case CallingBack(dir, _) => if dir == Reading then 1 else 0
    case _ => 0
  }

  function Rest(s: System): nat {
    match s.closer
    case Draining(dir) => Load(SideOf(s, dir))
    case CallingBack(dir, _) => Load(SideOf(s, dir))
    case _ => 0
  }

  function Turn(s: System): nat {
    match s.closer
    case Draining(dir) => (match SideOf(s, dir).lock case Closer => 1 case Free => 2 case _ => 3)
    case CallingBack(_, _) => 4
    case _ => 0
  }

  ghost predicate ComesCloser(s: System, t: System) {
    && t.closer != NotClosing
    && (t.closer == Closed || Phase(t) < Phase(s)
        || (Phase(t) == Phase(s) && Rest(t) < Rest(s))
        || (Phase(t) == Phase(s) && Rest(t) == Rest(s) && Turn(t) < Turn(s)))
  }

  /** The queue of the drain loop is locked by somebody else, who lets it go. */
  lemma UnlockStep(s: System, dir: Direction) returns (a: Action)
    requires Inv(s) && s.closer == Draining(dir)
    requires SideOf(s, dir).lock.Pusher? || SideOf(s, dir).lock.Executor?
    ensures Enabled(s, a) && Next(s, a).closer == s.closer
    ensures SideOf(Next(s, a), dir).lock == Free && Load(SideOf(Next(s, a), dir)) == Load(SideOf(s, dir))
  {
    hide SideInv, CloseInv, Transferred, Push, Load;
    var side := SideOf(s, dir);
    if side.lock.Pusher? {
      a := AsyncPush(dir);
      PushLoad(side);
      PushUnlocks(side);
    } else {
      a := ExecTransfer(dir, Failed(11));
      ExecutorHasFront(s, dir);
      UnlockedAfterFailure(side);
    }
  }

  lemma PushUnlocks(side: Side)
    requires side.lock.Pusher?
    ensures Push(side, side.lock.task).lock == Free
  {
  }

  lemma ExecutorHasFront(s: System, dir: Direction)
    requires Inv(s) && SideOf(s, dir).lock == Executor
    ensures
      var queue := SideOf(s, dir).queue;
      queue != [] && CanReceive(queue[0].task, Failed(11)) && CanSend(queue[0].task, Failed(11))
  {
    hide OrderInv, PlacesInv, BytesInv, NotesInv;
  }

  lemma UnlockedAfterFailure(side: Side)
    requires SideInv(side) && side.lock == Executor
    requires side.queue != [] && CanReceive(side.queue[0].task, Failed(11))
    ensures Transferred(side, Failed(11)).lock == Free
    ensures Load(Transferred(side, Failed(11))) == Load(side)
  {
    AnswerOfFailure(side, Failed(11));
    hide SideInv, Exec, ErrorCode, MovedBy;
  }

  lemma OwnStep(s: System, dir: Direction) returns (a: Action)
    requires CloseInv(s) && s.closer == Draining(dir) && (SideOf(s, dir).lock == Free || SideOf(s, dir).lock == Closer)
    ensures Enabled(s, a) && ComesCloser(s, Next(s, a))
  {
    hide CloseInv, Transferred, CanReceive, CanSend;
    var side := SideOf(s, dir);
    a := if side.lock == Free then DrainLock(dir) else if side.queue == [] then DrainEnd(dir) else DrainPop(dir);
  }

  lemma OtherStep(s: System) returns (a: Action)
    requires DueInv(s) && (s.closer == ClosingHandle || s.closer.CallingBack?)
    ensures Enabled(s, a) && ComesCloser(s, Next(s, a))
  {
    hide Transferred, CanReceive, CanSend;
    a := if s.closer == ClosingHandle then HandleClosed else Callback(s.closer.dir, s.closer.id);
  }

  /** The next step towards the end of `close`. */
  lemma CloserStep(s: System) returns (a: Action)
    requires Inv(s) && s.closer != NotClosing && s.closer != Closed
    ensures Enabled(s, a) && ComesCloser(s, Next(s, a))
  {
    hide SideInv, CloseInv, DueInv, Enabled, Next, Load;
    match s.closer {
      case Draining(dir) =>
        if SideOf(s, dir).lock == Free || SideOf(s, dir).lock == Closer {
          a := OwnStep(s, dir);
        } else {
          a := UnlockStep(s, dir);
        }
      case _ => a := OtherStep(s);
    }
  }

  /** From every reachable state in which `close` has begun, the other threads can let it return. */
  lemma CloseCanReturn(s: System) returns (actions: seq<Action>)
    requires Inv(s) && s.closer != NotClosing
    ensures Runs(s, actions) && After(s, actions).closer == Closed
    decreases Phase(s) + (if s.closer == Closed then 0 else 1), Rest(s), Turn(s)
  {
    actions := [];
    if s.closer != Closed {
      var a := CloserStep(s);
      SidesStep(s, a);
      CloseStep(s, a);
      DueStep(s, a);
      hide SideInv, CloseInv, DueInv, Enabled, Next, Rest, Turn;
      var more := CloseCanReturn(Next(s, a));
      actions := [a] + more;
      assert actions[0] == a && actions[1..] == more;
    }
  }

  /** A `close` call wins if no other has; the flag is set at once, and a call that does not win does nothing. */
  lemma FirstCloseWins(s: System)
    ensures Enabled(s, CloseFlag)
    ensures s.closed ==> Next(s, CloseFlag) == s
    ensures !s.closed ==> Next(s, CloseFlag) == s.(closed := true, closer := ClosingHandle)
  {
  }

  /** `cancel` empties both queues; none of their callbacks is due for it. */
  lemma CancelTellsNobody(s: System, dir: Direction)
    requires s.reading.lock == Free && s.writing.lock == Free
    ensures Enabled(s, Cancel)
    ensures
      var side, next := SideOf(s, dir), SideOf(Next(s, Cancel), dir);
      && next.queue == [] && next.pending == side.pending && next.notes == side.notes
      && next.cancelled == side.cancelled + multiset(Ids(side.queue))
  {
  }

  /** Over every run: what is sent is the front of the buffer, from its first byte on. */
  lemma SentIsFrontOfBuffer(actions: seq<Action>, bytes: seq<Byte>)
    requires Runs(Initial, actions) && Enabled(After(Initial, actions), ExecTransfer(Writing, Moved(bytes)))
    ensures
      var buffer := After(Initial, actions).writing.queue[0].task.buffer;
      0 < |bytes| <= |buffer| && bytes == buffer[..|bytes|]
  {
    InitialInv();
    RunKeepsInv(Initial, actions);
    hide Runs, After, SideInv, CloseInv, DueInv;
    FrontIsFresh(After(Initial, actions).writing);
  }
}
