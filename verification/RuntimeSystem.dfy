/**
  The runtime as an interleaving of steps: the event loop, any number of registering and closing threads, and the
  kernel that hands out descriptors. Regions under `handles_mtx_` are atomic, except that `epoll_wait`, which does not
  take the mutex, may run between the `epoll_ctl` call of a registration and its insertion.
 */
module RuntimeSystem {
  import opened HandleRegistry
  import opened Options

  datatype Info = Info(fd: int, kind: Kind)

  /** Where a `close` call is: about to look at `runtime_`, about to deregister, about to call `::close`. */
  datatype Stage = Checking | Deregistering | Descriptor

  /** Where `exec` is. `busy` says that the handle at the head of the batch has been asked to close. */
  datatype Pc =
    | Polling
    | Dispatching(batch: seq<nat>, busy: bool)
    | Sweeping(copy: set<nat>)
    | Released

  datatype System = System(
    info: map<nat, Info>,
    reg: Registry<nat>,
    attached: set<nat>,
    waiting: set<nat>,
    lock: Option<nat>,
    returning: set<nat>,
    known: set<nat>,
    closeBegun: set<nat>,
    closing: map<nat, Stage>,
    open: map<int, nat>,
    replaced: bool,
    pc: Pc)

  datatype Action =
    | Create(h: nat, fd: int, kind: Kind)
    | RegisterBegin(h: nat)
    | RegisterLock(h: nat)
    | RegisterInsert(h: nat)
    | RegisterReturn(h: nat)
    | CloseBegin(h: nat)
    | CloseCheck(h: nat)
    | CloseDeregister(h: nat)
    | CloseDescriptor(h: nat)
    | EpollWait(batch: seq<nat>)
    | ExecClose
    | DispatchDone
    | Snapshot
    | SweepOne(h: nat)
    | Clear
    | Release
    | Restart

  const Initial := System(map[], Empty(), {}, {}, None, {}, {}, {}, map[], map[], false, Polling)

  predicate Distinct(s: seq<nat>) {
    forall i, j :: 0 <= i < j < |s| ==> s[i] != s[j]
  }

  /** A `close` call of a socket whose flag is set returns at once; an acceptor has no flag. */
  function BeginClose(s: System, h: nat): System
    requires h in s.info
  {
    if s.info[h].kind == Socket && h in s.closeBegun then s
    else s.(closeBegun := s.closeBegun + {h}, closing := s.closing[h := Checking])
  }

  /** The descriptor number `fd` is closed, whoever holds it now; the kernel forgets it. */
  function CloseFd(s: System, fd: int): System {
    s.(open := s.open - {fd}, reg := DropDescriptor(s.reg, fd))
  }

  predicate IsWatched(s: System, h: nat) {
    exists fd :: fd in s.reg.interest && s.reg.interest[fd].handle == h
  }

  /** Whether an action can happen. */
  predicate Enabled(s: System, a: Action) {
    match a
    case Create(h, fd, kind) => h !in s.info && fd !in s.open
    case RegisterBegin(h) => h in s.info && h !in s.waiting && s.lock != Some(h) && h !in s.returning
    case RegisterLock(h) => h in s.waiting && h in s.info && s.lock == None
    case RegisterInsert(h) => s.lock == Some(h) && h in s.info
    case RegisterReturn(h) => h in s.returning
    case CloseBegin(h) => h in s.info && h !in s.closing
    case CloseCheck(h) => h in s.closing && s.closing[h] == Checking
    case CloseDeregister(h) => h in s.closing && s.closing[h] == Deregistering && h in s.info && s.lock == None
    case CloseDescriptor(h) => h in s.closing && s.closing[h] == Descriptor && h in s.info
    case EpollWait(batch) =>
      s.pc == Polling && Distinct(batch) &&
      forall i :: 0 <= i < |batch| ==> IsWatched(s, batch[i])
    case ExecClose =>
      s.pc.Dispatching? && s.pc.batch != [] && !s.pc.busy && s.pc.batch[0] in s.info && s.pc.batch[0] !in s.closing
    case DispatchDone =>
      s.pc.Dispatching? && s.pc.batch != [] && (s.pc.busy ==> s.pc.batch[0] !in s.closing)
    case Snapshot => s.pc.Dispatching? && s.pc.batch == [] && s.lock == None
    case SweepOne(h) => s.pc.Sweeping? && h in s.pc.copy
    case Clear => s.pc.Sweeping? && s.pc.copy == {} && s.lock == None
    case Release => s.pc == Polling && s.lock == None
    case Restart => s.pc == Released
  }

  function Next(s: System, a: Action): System
    requires Enabled(s, a)
  {
    match a
    case Create(h, fd, kind) => s.(info := s.info[h := Info(fd, kind)], open := s.open[fd := h])
    case RegisterBegin(h) =>
      s.(attached := s.attached + {h}, waiting := s.waiting + {h}, known := s.known + {h})
    case RegisterLock(h) =>
      var fd, kind := s.info[h].fd, s.info[h].kind;
      if fd !in s.reg.handles then
        s.(waiting := s.waiting - {h}, lock := Some(h), reg := Announce(s.reg, h, fd, kind, fd in s.open))
      else
        var prev := s.reg.handles[fd];
        var prevKind := if prev in s.info then s.info[prev].kind else Acceptor;
        var prevCloses := !(prevKind == Socket && prev in s.closeBegun);
        s.(waiting := s.waiting - {h},
           returning := s.returning + {h},
           attached := s.attached - {prev},
           closeBegun := s.closeBegun + {prev},
           open := if prevCloses then s.open - {fd} else s.open,
           reg := Replace(s.reg, h, fd, kind, prevKind, prevCloses),
           replaced := true)
    case RegisterInsert(h) =>
      s.(lock := None, returning := s.returning + {h}, reg := Insert(s.reg, h, s.info[h].fd))
    case RegisterReturn(h) => s.(returning := s.returning - {h})
    case CloseBegin(h) => BeginClose(s, h)
    case CloseCheck(h) =>
      s.(closing := s.closing[h := if h in s.attached then Deregistering else Descriptor])
    case CloseDeregister(h) =>
      var fd, kind := s.info[h].fd, s.info[h].kind;
      s.(closing := s.closing[h := Descriptor],
         attached := if fd in s.reg.handles && s.reg.handles[fd] == h then s.attached - {h} else s.attached,
         reg := Deregister(s.reg, h, fd, kind))
    case CloseDescriptor(h) => CloseFd(s, s.info[h].fd).(closing := s.closing - {h})
    case EpollWait(batch) => s.(pc := Dispatching(batch, false))
    case ExecClose =>
      var h := s.pc.batch[0];
      BeginClose(s, h).(pc := s.pc.(busy := true))
    case DispatchDone => s.(pc := Dispatching(s.pc.batch[1..], false))
    case Snapshot => s.(pc := Sweeping(s.reg.sockets))
    case SweepOne(h) => s.(pc := Sweeping(s.pc.copy - {h}))
    case Clear => s.(pc := Polling, reg := ClearRemovable(s.reg))
    case Release =>
      var kept := set h | h in s.attached && !(h in s.info && s.info[h].fd in s.reg.handles &&
                                               s.reg.handles[s.info[h].fd] == h);
      s.(pc := Released, attached := kept, reg := ReleaseAll(s.reg))
    case Restart => s.(pc := Polling)
  }

  /** A run: every action is enabled when it happens. */
  predicate Runs(s: System, actions: seq<Action>)
    decreases |actions|
  {
    actions == [] || (Enabled(s, actions[0]) && Runs(Next(s, actions[0]), actions[1..]))
  }

  function After(s: System, actions: seq<Action>): System
    requires Runs(s, actions)
    decreases |actions|
  {
    if actions == [] then s else After(Next(s, actions[0]), actions[1..])
  }
}
