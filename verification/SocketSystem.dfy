/**
  One TcpSocket as an interleaving of steps: threads that start transfers, cancel and close, and the event loop that
  executes transfers. Each queue has its mutex; the flag `closed_` is set outside both, and callbacks run unlocked.
 */
module SocketSystem {
  import opened TcpTask
  import opened TaskQueue
  import opened Options

  datatype Direction = Reading | Writing

  /** Who holds a queue's mutex: an `async_*` call past its test of the flag, the event loop past its own, a closer. */
  datatype Holder = Free | Pusher(task: Task) | Executor | Closer

  /**
    A queue, in which `id` numbers the tasks in the order of acceptance, and what the model keeps count of: how many
    tasks were accepted, the ids that left the queue in order, and where they are now; the bytes transfers moved, the
    bytes successful callbacks were told of, and how often an UNTIL_FINISHED transfer moved a part only; and the
    arguments of the callbacks that are due or have been called.
   */
  datatype Side = Side(
    queue: seq<Entry>,
    lock: Holder,
    accepted: nat,
    departed: seq<nat>,
    pending: multiset<nat>,
    called: multiset<nat>,
    cancelled: multiset<nat>,
    moved: seq<Byte>,
    reported: seq<Byte>,
    partials: nat,
    notes: seq<Notification>)

  /** Where the `close` call is that won the flag. */
  datatype ClosePc =
    | NotClosing
    | ClosingHandle
    | Draining(dir: Direction)
    | CallingBack(dir: Direction, id: nat)
    | Closed

  datatype System = System(closed: bool, reading: Side, writing: Side, closer: ClosePc)

  datatype Action =
    | AsyncLock(dir: Direction, buffer: seq<Byte>, strategy: TaskStrategy)
    | AsyncPush(dir: Direction)
    | Cancel
    | CloseFlag
    | HandleClosed
    | DrainLock(dir: Direction)
    | DrainPop(dir: Direction)
    | DrainEnd(dir: Direction)
    | ExecLock(dir: Direction)
    | ExecTransfer(dir: Direction, transfer: Transfer)
    | Callback(dir: Direction, id: nat)

  const EmptySide := Side([], Free, 0, [], multiset{}, multiset{}, multiset{}, [], [], 0, [])
  const Initial := System(false, EmptySide, EmptySide, NotClosing)

  function SideOf(s: System, dir: Direction): Side {
    match dir case Reading => s.reading case Writing => s.writing
  }

  function WithSide(s: System, dir: Direction, side: Side): System {
    match dir case Reading => s.(reading := side) case Writing => s.(writing := side)
  }

  function Ids(queue: seq<Entry>): seq<nat> {
    seq(|queue|, i requires 0 <= i < |queue| => queue[i].id)
  }

  function Push(side: Side, task: Task): Side {
    side.(queue := side.queue + [Entry(side.accepted, task)], accepted := side.accepted + 1, lock := Free)
  }

  /** The front task leaves the queue, `queue` is what remains, and its callback is due with the arguments in `note`. */
  function Depart(side: Side, queue: seq<Entry>, note: Notification): Side
    requires side.queue != []
  {
    var id := side.queue[0].id;
    side.(queue := queue, departed := side.departed + [id], pending := side.pending + multiset{id}, lock := Free,
          notes := side.notes + [note])
  }

  function Pop(side: Side): Side
    requires side.queue != []
  {
    Depart(side, side.queue[1..], Drained(side.queue)[0])
  }

  function CancelSide(side: Side): Side {
    side.(queue := [],
          departed := side.departed + Ids(side.queue),
          cancelled := side.cancelled + multiset(Ids(side.queue)))
  }

  function CallBack(side: Side, id: nat): Side {
    side.(pending := side.pending - multiset{id}, called := side.called + multiset{id})
  }

  /** `do_read` and `do_write` on the front task. */
  function Transferred(side: Side, transfer: Transfer): Side
    requires side.queue != [] && CanReceive(side.queue[0].task, transfer)
  {
    var front := side.queue[0];
    var copy := Exec(front.task, transfer);
    var queue := Executed(side.queue, transfer);
    var after := side.(moved := side.moved + MovedBy(front.task, transfer));
    match Outcome(front, transfer)
    case None =>
      after.(queue := queue, lock := Free, partials := side.partials + if transfer.Moved? then 1 else 0)
    case Some(note) =>
      var told := if note.error == None && note.size <= |copy.buffer| then copy.buffer[..note.size] else [];
      Depart(after.(reported := side.reported + told), queue, note)
  }

  predicate Enabled(s: System, a: Action) {
    match a
    case AsyncLock(dir, _, _) => SideOf(s, dir).lock == Free
    case AsyncPush(dir) => SideOf(s, dir).lock.Pusher?
    case Cancel => s.reading.lock == Free && s.writing.lock == Free
    case CloseFlag => true
    case HandleClosed => s.closer == ClosingHandle
    case DrainLock(dir) => s.closer == Draining(dir) && SideOf(s, dir).lock == Free
    case DrainPop(dir) => s.closer == Draining(dir) && SideOf(s, dir).lock == Closer && SideOf(s, dir).queue != []
    case DrainEnd(dir) => s.closer == Draining(dir) && SideOf(s, dir).lock == Closer && SideOf(s, dir).queue == []
    case ExecLock(dir) => SideOf(s, dir).lock == Free
    case ExecTransfer(dir, transfer) =>
      var side := SideOf(s, dir);
      side.lock == Executor && side.queue != [] &&
      if dir == Reading then CanReceive(side.queue[0].task, transfer) else CanSend(side.queue[0].task, transfer)
    case Callback(dir, id) => id in SideOf(s, dir).pending
  }

  function Next(s: System, a: Action): System
    requires Enabled(s, a)
  {
    match a
    case AsyncLock(dir, buffer, strategy) =>
      if s.closed then s
      else WithSide(s, dir, SideOf(s, dir).(lock := Pusher(NewTask(buffer, strategy))))
    case AsyncPush(dir) => WithSide(s, dir, Push(SideOf(s, dir), SideOf(s, dir).lock.task))
    case Cancel => s.(reading := CancelSide(s.reading), writing := CancelSide(s.writing))
    case CloseFlag => if s.closed then s else s.(closed := true, closer := ClosingHandle)
    case HandleClosed => s.(closer := Draining(Reading))
    case DrainLock(dir) => WithSide(s, dir, SideOf(s, dir).(lock := Closer))
    case DrainPop(dir) =>
      WithSide(s, dir, Pop(SideOf(s, dir))).(closer := CallingBack(dir, SideOf(s, dir).queue[0].id))
    case DrainEnd(dir) =>
      WithSide(s, dir, SideOf(s, dir).(lock := Free)).(closer := if dir == Reading then Draining(Writing) else Closed)
    case ExecLock(dir) =>
      if s.closed || SideOf(s, dir).queue == [] then s
      else WithSide(s, dir, SideOf(s, dir).(lock := Executor))
    case ExecTransfer(dir, transfer) => WithSide(s, dir, Transferred(SideOf(s, dir), transfer))
    case Callback(dir, id) =>
      WithSide(s, dir, CallBack(SideOf(s, dir), id))
        .(closer := if s.closer == CallingBack(dir, id) then Draining(dir) else s.closer)
  }

  predicate Runs(s: System, actions: seq<Action>)
    decreases |actions|
  {
    actions == [] || (Enabled(s, actions[0]) && Runs(Next(s, actions[0]), actions[1..]))
  }

  function After(s: System, actions: seq<Action>): System
    requires Runs(s, actions)
    decreases |actions|
  {
    if actions == [] then s else After(Next(s, actions[0]), actions[1..])
  }
}
