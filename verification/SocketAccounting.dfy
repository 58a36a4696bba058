/** What every run of a socket keeps: no task is lost or answered twice, order, bytes, nothing left behind by close. */
module SocketAccounting {
  import opened TcpTask
  import opened TaskQueue
  import opened SocketSystem
  import opened Options

  function UpTo(n: nat): (s: seq<nat>)
    ensures |s| == n && forall i :: 0 <= i < n ==> s[i] == i
  {
    if n == 0 then [] else UpTo(n - 1) + [n - 1]
  }

  /** The tasks that left the queue and the tasks in it are the accepted ones, in the order they were accepted. */
  ghost predicate OrderInv(side: Side) {
    side.departed + Ids(side.queue) == UpTo(side.accepted)
  }

  ghost predicate PlacesInv(side: Side) {
    multiset(side.departed) == side.pending + side.called + side.cancelled
  }

  /** A queued task has made no progress, whatever was transferred for it. */
  ghost predicate FreshInv(side: Side) {
    && (forall i :: 0 <= i < |side.queue| ==> !side.queue[i].task.finished && side.queue[i].task.pos == 0)
    && (side.lock.Pusher? ==> !side.lock.task.finished && side.lock.task.pos == 0)
  }

  ghost predicate BytesInv(side: Side) {
    && |side.reported| + side.partials <= |side.moved|
    && (side.partials == 0 ==> side.reported == side.moved)
  }

  function Told(notes: seq<Notification>): (ids: seq<nat>)
    ensures |ids| == |notes|
  {
    if notes == [] then [] else Told(notes[..|notes| - 1]) + [notes[|notes| - 1].callback]
  }

  /** A callback that is due or has been called has its arguments, once. */
  ghost predicate NotesInv(side: Side) {
    multiset(Told(side.notes)) == side.pending + side.called
  }

  ghost predicate SideInv(side: Side) {
    OrderInv(side) && PlacesInv(side) && FreshInv(side) && BytesInv(side) && NotesInv(side)
  }

  lemma NotesKeep(side: Side, note: Notification)
    requires NotesInv(side) && side.queue != [] && note.callback == side.queue[0].id
    ensures NotesInv(Depart(side, side.queue[1..], note))
  {
    var notes := side.notes + [note];
    assert notes[..|notes| - 1] == side.notes;
  }

  /** The closing thread has left the block that drains this queue. */
  predicate HasDrained(s: System, dir: Direction) {
    match dir
    case Reading =>
      s.closer == Draining(Writing) || (s.closer.CallingBack? && s.closer.dir == Writing) || s.closer == Closed
    case Writing => s.closer == Closed
  }

  predicate CloseSideInv(s: System, dir: Direction, side: Side) {
    && (side.lock == Closer ==> s.closer == Draining(dir))
    && (side.lock == Executor ==> side.queue != [])
    && (HasDrained(s, dir) ==> side.queue == [] && side.lock == Free)
  }

  predicate CloseInv(s: System) {
    && (s.closed <==> s.closer != NotClosing)
    && CloseSideInv(s, Reading, s.reading)
    && CloseSideInv(s, Writing, s.writing)
  }

  /** The callback that the closing thread calls is due. */
  predicate DueInv(s: System) {
    s.closer.CallingBack? ==> s.closer.id in SideOf(s, s.closer.dir).pending
  }

  ghost predicate Inv(s: System) {
    SideInv(s.reading) && SideInv(s.writing) && CloseInv(s) && DueInv(s)
  }

  lemma PushKeeps(side: Side)
    requires SideInv(side) && side.lock.Pusher?
    ensures SideInv(Push(side, side.lock.task))
  {
    var t := Push(side, side.lock.task);
    assert Ids(t.queue) == Ids(side.queue) + [side.accepted];
    assert t.departed + Ids(t.queue) == side.departed + Ids(side.queue) + [side.accepted];
  }

  lemma DepartKeepsPlaces(side: Side, note: Notification)
    requires OrderInv(side) && PlacesInv(side) && FreshInv(side) && side.queue != []
    ensures
      var t := Depart(side, side.queue[1..], note);
      OrderInv(t) && PlacesInv(t) && FreshInv(t)
  {
    var t := Depart(side, side.queue[1..], note);
    assert Ids(side.queue) == [side.queue[0].id] + Ids(t.queue);
    assert t.departed + Ids(t.queue) == side.departed + ([side.queue[0].id] + Ids(t.queue));
  }

  lemma DepartKeeps(side: Side, note: Notification)
    requires SideInv(side) && side.queue != [] && note.callback == side.queue[0].id
    ensures SideInv(Depart(side, side.queue[1..], note))
  {
    DepartKeepsPlaces(side, note);
    NotesKeep(side, note);
    hide OrderInv, PlacesInv, FreshInv, NotesInv;
  }

  lemma CancelKeeps(side: Side)
    requires SideInv(side) && side.lock == Free
    ensures SideInv(CancelSide(side))
  {
    assert CancelSide(side).departed + Ids([]) == side.departed + Ids(side.queue);
  }

  lemma CallBackKeeps(side: Side, id: nat)
    requires SideInv(side) && id in side.pending
    ensures SideInv(CallBack(side, id))
  {
  }

  lemma BytesKeep(side: Side, moved: seq<Byte>, reported: seq<Byte>, partials: nat)
    requires SideInv(side) && BytesInv(side.(moved := moved, reported := reported, partials := partials))
    ensures SideInv(side.(moved := moved, reported := reported, partials := partials))
  {
  }

  lemma FrontKeeps(side: Side, task: Task)
    requires SideInv(side) && side.queue != [] && !task.finished && task.pos == 0
    ensures SideInv(side.(queue := [side.queue[0].(task := task)] + side.queue[1..], lock := Free))
  {
    var t := side.(queue := [side.queue[0].(task := task)] + side.queue[1..], lock := Free);
    assert Ids(t.queue) == Ids(side.queue);
  }

  lemma FrontIsFresh(side: Side)
    requires SideInv(side) && side.queue != []
    ensures !side.queue[0].task.finished && side.queue[0].task.pos == 0
  {
  }

  /** What a transfer did is counted first, then the queue changes. */
  lemma CountingKeeps(side: Side, transfer: Transfer)
    requires SideInv(side) && side.queue != [] && CanReceive(side.queue[0].task, transfer)
    ensures
      var front := side.queue[0];
      var copy := Exec(front.task, transfer);
      var moved := side.moved + MovedBy(front.task, transfer);
      && (copy.finished ==> SideInv(side.(moved := moved, reported := side.reported + copy.buffer[..copy.pos])))
      && (!copy.finished ==>
            SideInv(side.(moved := moved, partials := side.partials + if transfer.Moved? then 1 else 0)))
      && (!transfer.Moved? ==> moved == side.moved)
  {
    var task := side.queue[0].task;
    var copy, bytes := Exec(task, transfer), MovedBy(task, transfer);
    FrontIsFresh(side);
    ExecExtendsPrefix(task, transfer);
    assert task.buffer[..0] + bytes == bytes;
    hide OrderInv, PlacesInv, FreshInv, NotesInv, Exec;
    if copy.finished {
      assert side.partials == 0 ==> side.reported + bytes == side.moved + bytes;
      BytesKeep(side, side.moved + bytes, side.reported + copy.buffer[..copy.pos], side.partials);
    } else {
      assert !transfer.Moved? ==> side.moved + bytes == side.moved;
      BytesKeep(side, side.moved + bytes, side.reported, side.partials + if transfer.Moved? then 1 else 0);
    }
  }

  /** The three shapes of what a transfer makes of a queue: the front is done, has failed, or stays. */
  lemma TransferredShape(side: Side, transfer: Transfer)
    requires side.queue != [] && CanReceive(side.queue[0].task, transfer)
    requires ExecExtends(side.queue[0].task, transfer)
    ensures
      var front, t := side.queue[0], Transferred(side, transfer);
      var copy := Exec(front.task, transfer);
      var counted := side.(moved := side.moved + MovedBy(front.task, transfer));
      && (copy.finished ==>
            t == Depart(counted.(reported := side.reported + copy.buffer[..copy.pos]), side.queue[1..],
                        Notification(front.id, None, copy.pos)))
      && (!copy.finished && Outcome(front, transfer).Some? ==>
            t == Depart(counted, side.queue[1..], Outcome(front, transfer).value))
      && (Outcome(front, transfer) == None ==>
            t == counted.(partials := side.partials + if transfer.Moved? then 1 else 0,
                          queue := [front.(task := front.task.(buffer := copy.buffer))] + side.queue[1..],
                          lock := Free))
      && (Outcome(front, transfer).Some? ==> Outcome(front, transfer).value.callback == front.id)
  {
    hide Exec, ErrorCode, MovedBy, CanReceive;
    assert side.reported + [] == side.reported;
  }

  predicate ExecExtends(task: Task, transfer: Transfer)
    requires CanReceive(task, transfer)
  {
    Exec(task, transfer).pos <= |Exec(task, transfer).buffer|
  }

  lemma OnlyFailuresEnd(front: Entry, transfer: Transfer)
    requires CanReceive(front.task, transfer) && !front.task.finished
    ensures !Exec(front.task, transfer).finished && Outcome(front, transfer).Some? ==> !transfer.Moved?
  {
  }

  lemma TransferKeeps(side: Side, transfer: Transfer)
    requires SideInv(side) && side.queue != [] && CanReceive(side.queue[0].task, transfer)
    ensures SideInv(Transferred(side, transfer))
  {
    var front := side.queue[0];
    var copy := Exec(front.task, transfer);
    var counted := side.(moved := side.moved + MovedBy(front.task, transfer));
    FrontIsFresh(side);
    ExecExtendsPrefix(front.task, transfer);
    hide SideInv, Exec, MovedBy, Outcome, Transferred, Depart, CanReceive;
    CountingKeeps(side, transfer);
    TransferredShape(side, transfer);
    OnlyFailuresEnd(front, transfer);
    match Outcome(front, transfer) {
      case None =>
        FrontKeeps(counted.(partials := side.partials + if transfer.Moved? then 1 else 0),
                   front.task.(buffer := copy.buffer));
      case Some(note) =>
        if copy.finished {
          DepartKeeps(counted.(reported := side.reported + copy.buffer[..copy.pos]),
                      Notification(front.id, None, copy.pos));
        } else {
          DepartKeeps(counted.(partials := side.partials + 0), note);
        }
    }
  }

  lemma PopSideKeeps(side: Side)
    requires SideInv(side) && side.queue != []
    ensures SideInv(Pop(side))
  {
    DepartKeeps(side, Drained(side.queue)[0]);
  }

  lemma LockKeeps(side: Side, lock: Holder)
    requires SideInv(side) && (lock.Pusher? ==> !lock.task.finished && lock.task.pos == 0)
    ensures SideInv(side.(lock := lock))
  {
  }

  lemma SidesStep(s: System, a: Action)
    requires Inv(s) && Enabled(s, a)
    ensures SideInv(Next(s, a).reading) && SideInv(Next(s, a).writing)
  {
    hide SideInv, Push, Pop, CancelSide, CallBack, Transferred, CloseInv;
    match a {
      case AsyncLock(dir, buffer, strategy) => LockKeeps(SideOf(s, dir), Pusher(NewTask(buffer, strategy)));
      case DrainLock(dir) => LockKeeps(SideOf(s, dir), Closer);
      case DrainEnd(dir) => LockKeeps(SideOf(s, dir), Free);
      case ExecLock(dir) => LockKeeps(SideOf(s, dir), Executor);
      case AsyncPush(dir) => PushKeeps(SideOf(s, dir));
      case Cancel =>
        CancelKeeps(s.reading);
        CancelKeeps(s.writing);
      case DrainPop(dir) => PopSideKeeps(SideOf(s, dir));
      case ExecTransfer(dir, transfer) => TransferKeeps(SideOf(s, dir), transfer);
      case Callback(dir, id) => CallBackKeeps(SideOf(s, dir), id);
      case _ =>
    }
  }

  lemma TransferCloseStep(s: System, dir: Direction, transfer: Transfer)
    requires CloseInv(s) && Enabled(s, ExecTransfer(dir, transfer))
    ensures CloseInv(Next(s, ExecTransfer(dir, transfer)))
  {
    hide Overwrite, Exec, ErrorCode, MovedBy;
    var side := Transferred(SideOf(s, dir), transfer);
    assert side.lock == Free && !HasDrained(s, dir);
  }

  predicate IsDrainStep(a: Action) {
    a.HandleClosed? || a.DrainLock? || a.DrainPop? || a.DrainEnd? || a.Callback?
  }

  lemma DrainPopCloseStep(s: System, dir: Direction)
    requires CloseInv(s) && Enabled(s, DrainPop(dir))
    ensures CloseInv(Next(s, DrainPop(dir)))
  {
    hide Transferred, CanReceive, CanSend, CancelSide, Push, CallBack;
  }

  lemma CallbackCloseStep(s: System, dir: Direction, id: nat)
    requires CloseInv(s) && Enabled(s, Callback(dir, id))
    ensures CloseInv(Next(s, Callback(dir, id)))
  {
    hide Transferred, CanReceive, CanSend, CancelSide, Push, Pop;
  }

  lemma DrainCloseStep(s: System, a: Action)
    requires CloseInv(s) && Enabled(s, a) && IsDrainStep(a)
    ensures CloseInv(Next(s, a))
  {
    if a.DrainPop? {
      DrainPopCloseStep(s, a.dir);
    } else if a.Callback? {
      CallbackCloseStep(s, a.dir, a.id);
    } else {
      hide Transferred, CanReceive, CanSend, CancelSide, Push, Pop, CallBack;
    }
  }

  lemma OtherCloseStep(s: System, a: Action)
    requires CloseInv(s) && Enabled(s, a) && !IsDrainStep(a) && !a.ExecTransfer?
    ensures CloseInv(Next(s, a))
  {
    hide Transferred, CanReceive, CanSend, Pop, CallBack;
  }

  lemma CloseStep(s: System, a: Action)
    requires CloseInv(s) && Enabled(s, a)
    ensures CloseInv(Next(s, a))
  {
    hide CloseInv;
    if a.ExecTransfer? {
      TransferCloseStep(s, a.dir, a.transfer);
    } else if IsDrainStep(a) {
      DrainCloseStep(s, a);
    } else {
      OtherCloseStep(s, a);
    }
  }

  lemma PendingAfterTransfer(side: Side, transfer: Transfer)
    requires side.queue != [] && CanReceive(side.queue[0].task, transfer)
    ensures side.pending <= Transferred(side, transfer).pending
  {
    hide Exec, ErrorCode, MovedBy, CanReceive, Executed, Outcome;
  }

  lemma CallBackKeepsOthers(side: Side, id: nat, other: nat)
    requires other in side.pending && id != other
    ensures other in CallBack(side, id).pending
  {
  }

  lemma DueStep(s: System, a: Action)
    requires CloseInv(s) && DueInv(s) && Enabled(s, a)
    ensures DueInv(Next(s, a))
  {
    hide CloseSideInv, Transferred, CanReceive, CanSend, CallBack;
    if a.ExecTransfer? {
      TransferEnabled(s, a);
      PendingAfterTransfer(SideOf(s, a.dir), a.transfer);
    }
    if a.Callback? && s.closer.CallingBack? && a.dir == s.closer.dir && a.id != s.closer.id {
      CallBackKeepsOthers(SideOf(s, a.dir), a.id, s.closer.id);
    }
  }

  lemma TransferEnabled(s: System, a: Action)
    requires Enabled(s, a) && a.ExecTransfer?
    ensures SideOf(s, a.dir).queue != [] && CanReceive(SideOf(s, a.dir).queue[0].task, a.transfer)
  {
  }

  lemma {:induction false} RunKeepsInv(s: System, actions: seq<Action>)
    requires Inv(s) && Runs(s, actions)
    ensures Inv(After(s, actions))
    decreases |actions|
  {
    hide SideInv, CloseInv, DueInv;
    if actions != [] {
      SidesStep(s, actions[0]);
      CloseStep(s, actions[0]);
      DueStep(s, actions[0]);
      RunKeepsInv(Next(s, actions[0]), actions[1..]);
    }
  }

  lemma InitialInv()
    ensures Inv(Initial)
  {
    assert EmptySide.departed + Ids(EmptySide.queue) == UpTo(0);
  }

  lemma {:induction false} UpToHasEachOnce(n: nat, id: nat)
    ensures multiset(UpTo(n))[id] == if id < n then 1 else 0
  {
    if n > 0 {
      UpToHasEachOnce(n - 1, id);
    }
  }

  /**
    Exactly-once accounting, over every run: each accepted task is in exactly one place, queued, popped with its
    callback due, called back, or cancelled, and it is there once.
   */
  lemma EachTaskIsInOnePlace(actions: seq<Action>, dir: Direction, id: nat)
    requires Runs(Initial, actions)
    ensures
      var side := SideOf(After(Initial, actions), dir);
      multiset(Ids(side.queue))[id] + side.pending[id] + side.called[id] + side.cancelled[id] ==
      if id < side.accepted then 1 else 0
  {
    InitialInv();
    RunKeepsInv(Initial, actions);
    var side := SideOf(After(Initial, actions), dir);
    UpToHasEachOnce(side.accepted, id);
    assert multiset(side.departed + Ids(side.queue)) == multiset(side.departed) + multiset(Ids(side.queue));
  }

  /** Tasks leave each queue in the order they were accepted, over every run. */
  lemma TasksLeaveInOrder(actions: seq<Action>, dir: Direction)
    requires Runs(Initial, actions)
    ensures
      var side := SideOf(After(Initial, actions), dir);
      && side.departed == UpTo(|side.departed|)
      && forall i :: 0 <= i < |side.queue| ==> side.queue[i].id == |side.departed| + i
  {
    InitialInv();
    RunKeepsInv(Initial, actions);
    hide After, Runs, PlacesInv, FreshInv, BytesInv, CloseInv, OrderInv;
    OrderOfSide(SideOf(After(Initial, actions), dir));
  }

  lemma OrderOfSide(side: Side)
    requires OrderInv(side)
    ensures side.departed == UpTo(|side.departed|)
    ensures forall i :: 0 <= i < |side.queue| ==> side.queue[i].id == |side.departed| + i
  {
    assert forall i :: 0 <= i < |side.departed| ==> side.departed[i] == (side.departed + Ids(side.queue))[i];
    forall i | 0 <= i < |side.queue| ensures side.queue[i].id == |side.departed| + i {
      assert (side.departed + Ids(side.queue))[|side.departed| + i] == Ids(side.queue)[i];
    }
  }

  /** Once the close call that won the flag has returned, both queues are empty and stay so in every later state. */
  lemma {:induction false} NothingIsStranded(before: seq<Action>, later: seq<Action>)
    requires Runs(Initial, before) && After(Initial, before).closer == Closed
    requires Runs(After(Initial, before), later)
    ensures
      var s := After(After(Initial, before), later);
      s.closer == Closed && s.reading.queue == [] && s.writing.queue == []
  {
    InitialInv();
    RunKeepsInv(Initial, before);
    ClosedStays(After(Initial, before), later);
  }

  lemma CloserStays(s: System, a: Action)
    requires s.closer == Closed && s.closed && Enabled(s, a)
    ensures Next(s, a).closer == Closed
  {
    hide Transferred, CanReceive, CanSend;
  }

  lemma {:induction false} ClosedStays(s: System, actions: seq<Action>)
    requires Inv(s) && s.closer == Closed && Runs(s, actions)
    ensures
      var t := After(s, actions);
      t.closer == Closed && t.reading.queue == [] && t.writing.queue == []
    decreases |actions|
  {
    hide SideInv;
    if actions != [] {
      SidesStep(s, actions[0]);
      CloseStep(s, actions[0]);
      DueStep(s, actions[0]);
      CloserStays(s, actions[0]);
      ClosedStays(Next(s, actions[0]), actions[1..]);
    }
  }

  /** The tasks a drain loop can still meet: those queued, and one whose thread got past the flag before it was set. */
  function Load(side: Side): nat {
    |side.queue| + if side.lock.Pusher? then 1 else 0
  }

  predicate Unloads(s: System, t: System, a: Action, dir: Direction) {
    && t.closed
    && Load(SideOf(t, dir)) <= Load(SideOf(s, dir))
    && (a == DrainPop(dir) ==> Load(SideOf(t, dir)) == Load(SideOf(s, dir)) - 1)
  }

  lemma TransferUnloads(s: System, a: Action, dir: Direction)
    requires s.closed && Enabled(s, a) && a.ExecTransfer?
    ensures Unloads(s, Next(s, a), a, dir)
  {
    hide Exec, ErrorCode, MovedBy, Transferred;
    TransferTakesAtMostOne(SideOf(s, a.dir), a.transfer);
  }

  lemma QueueUnloads(s: System, a: Action, dir: Direction)
    requires s.closed && Enabled(s, a) && (a.AsyncPush? || a.Cancel? || a.DrainPop? || a.Callback?)
    ensures Unloads(s, Next(s, a), a, dir)
  {
    hide Transferred, CanReceive, CanSend, Push, Pop, CancelSide, CallBack, Load;
    match a {
      case AsyncPush(d) => PushLoad(SideOf(s, d));
      case DrainPop(d) => PopLoad(SideOf(s, d));
      case Cancel =>
        CancelLoad(s.reading);
        CancelLoad(s.writing);
      case Callback(d, id) => CallBackLoad(SideOf(s, d), id);
    }
  }

  lemma CancelLoad(side: Side)
    ensures Load(CancelSide(side)) <= Load(side)
  {
  }

  lemma PushLoad(side: Side)
    requires side.lock.Pusher?
    ensures Load(Push(side, side.lock.task)) == Load(side)
  {
  }

  lemma PopLoad(side: Side)
    requires side.lock == Closer && side.queue != []
    ensures Load(Pop(side)) == Load(side) - 1
  {
  }

  lemma CallBackLoad(side: Side, id: nat)
    ensures Load(CallBack(side, id)) == Load(side)
  {
  }

  lemma OtherUnloads(s: System, a: Action, dir: Direction)
    requires CloseInv(s) && s.closed && Enabled(s, a)
    requires !a.AsyncPush? && !a.Cancel? && !a.DrainPop? && !a.Callback? && !a.ExecTransfer?
    ensures Unloads(s, Next(s, a), a, dir)
  {
    hide Transferred, CanReceive, CanSend, CancelSide, Push, Pop, CallBack;
  }

  /** After the flag is set no step adds to the load, and each turn of a drain loop takes one off. */
  lemma DrainStep(s: System, a: Action, dir: Direction)
    requires CloseInv(s) && Enabled(s, a) && s.closed
    ensures Unloads(s, Next(s, a), a, dir)
  {
    hide Next, Unloads, CloseInv;
    if a.ExecTransfer? {
      TransferUnloads(s, a, dir);
    } else if a.AsyncPush? || a.Cancel? || a.DrainPop? || a.Callback? {
      QueueUnloads(s, a, dir);
    } else {
      OtherUnloads(s, a, dir);
    }
  }

  /** How often a drain loop takes a task off its queue. */
  function DrainPops(actions: seq<Action>, dir: Direction): nat {
    if actions == [] then 0
    else (if actions[0] == DrainPop(dir) then 1 else 0) + DrainPops(actions[1..], dir)
  }

  /** So over every run on, a drain loop turns at most as often as there are tasks left to meet: both loops end. */
  lemma {:induction false} DrainLoopsEnd(s: System, actions: seq<Action>, dir: Direction)
    requires Inv(s) && s.closed && Runs(s, actions)
    ensures DrainPops(actions, dir) + Load(SideOf(After(s, actions), dir)) <= Load(SideOf(s, dir))
    decreases |actions|
  {
    hide SideInv, CloseInv, Load, Next, Enabled;
    if actions != [] {
      DrainStep(s, actions[0], dir);
      SidesStep(s, actions[0]);
      CloseStep(s, actions[0]);
      DueStep(s, actions[0]);
      DrainLoopsEnd(Next(s, actions[0]), actions[1..], dir);
    }
  }

  lemma TransferTakesAtMostOne(side: Side, transfer: Transfer)
    requires side.queue != [] && CanReceive(side.queue[0].task, transfer)
    ensures Load(Transferred(side, transfer)) <= |side.queue|
  {
    hide Exec, ErrorCode, MovedBy;
  }

  /**
    Byte accounting, over every run: the buffers handed to successful callbacks add up to the bytes that were moved
    exactly if no UNTIL_FINISHED transfer ever moved a part of its buffer only.
   */
  lemma BytesReportedAreBytesMoved(actions: seq<Action>, dir: Direction)
    requires Runs(Initial, actions)
    ensures
      var side := SideOf(After(Initial, actions), dir);
      side.reported == side.moved <==> side.partials == 0
  {
    InitialInv();
    RunKeepsInv(Initial, actions);
  }

  lemma {:induction false} Extend(s: System, actions: seq<Action>, a: Action)
    requires Runs(s, actions) && Enabled(After(s, actions), a)
    ensures Runs(s, actions + [a]) && After(s, actions + [a]) == Next(After(s, actions), a)
    decreases |actions|
  {
    var all := actions + [a];
    if actions == [] {
      assert all[1..] == [];
    } else {
      assert all[0] == actions[0] && all[1..] == actions[1..] + [a];
      Extend(Next(s, actions[0]), actions[1..], a);
    }
  }

  /** A read of two bytes that receives one of them first ... */
  lemma PartialReceive() returns (actions: seq<Action>)
    ensures Runs(Initial, actions)
    ensures
      var s := After(Initial, actions);
      && !s.closed && s.reading.lock == Free && s.reading.moved == [1] && s.reading.reported == []
      && s.reading.queue == [Entry(0, Task(false, [1, 0], 0, UNTIL_FINISHED))]
  {
    actions := [];
    Extend(Initial, actions, AsyncLock(Reading, [0, 0], UNTIL_FINISHED));
    actions := actions + [AsyncLock(Reading, [0, 0], UNTIL_FINISHED)];
    Extend(Initial, actions, AsyncPush(Reading));
    actions := actions + [AsyncPush(Reading)];
    Extend(Initial, actions, ExecLock(Reading));
    actions := actions + [ExecLock(Reading)];
    var s := After(Initial, actions);
    FirstPart(s);
    Extend(Initial, actions, ExecTransfer(Reading, Moved([1])));
    actions := actions + [ExecTransfer(Reading, Moved([1]))];
  }

  lemma FirstPart(s: System)
    requires s.reading.lock == Executor && s.reading.queue == [Entry(0, NewTask([0, 0], UNTIL_FINISHED))]
    requires s.reading.moved == []
    ensures Enabled(s, ExecTransfer(Reading, Moved([1])))
    ensures
      var side := Next(s, ExecTransfer(Reading, Moved([1]))).reading;
      && side.lock == Free && side.moved == [1] && side.reported == s.reading.reported
      && side.queue == [Entry(0, Task(false, [1, 0], 0, UNTIL_FINISHED))]
  {
    assert Overwrite([0, 0], 0, [1]) == [1, 0];
  }

  lemma SecondPart(s: System)
    requires s.reading.lock == Executor && s.reading.moved == [1] && s.reading.reported == []
    requires s.reading.queue == [Entry(0, Task(false, [1, 0], 0, UNTIL_FINISHED))]
    ensures Enabled(s, ExecTransfer(Reading, Moved([2, 3])))
    ensures
      var side := Next(s, ExecTransfer(Reading, Moved([2, 3]))).reading;
      side.moved == [1, 2, 3] && side.reported == [2, 3]
  {
    assert Overwrite([1, 0], 0, [2, 3]) == [2, 3];
  }

  /** ... and then two: the first byte is taken from the stream and never reported. */
  lemma PartialReceiveLosesBytes() returns (actions: seq<Action>)
    ensures Runs(Initial, actions)
    ensures var side := After(Initial, actions).reading; side.moved == [1, 2, 3] && side.reported == [2, 3]
  {
    actions := PartialReceive();
    Extend(Initial, actions, ExecLock(Reading));
    actions := actions + [ExecLock(Reading)];
    SecondPart(After(Initial, actions));
    Extend(Initial, actions, ExecTransfer(Reading, Moved([2, 3])));
    actions := actions + [ExecTransfer(Reading, Moved([2, 3]))];
  }
}
