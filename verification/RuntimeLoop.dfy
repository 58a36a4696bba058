/**
  What one iteration of the event loop does, and what registering and closing a handle come to: each event is
  dispatched, each registered socket is swept, and a handle that is registered and closed leaves no trace but its own
  entry among the removable handles.
 */
module RuntimeLoop {
  import opened HandleRegistry
  import opened RuntimeSystem
  import opened RuntimeSafety
  import opened RuntimeDescriptors
  import opened Options
  import opened Sets

  function Times(n: nat, a: Action): seq<Action> {
    if n == 0 then [] else [a] + Times(n - 1, a)
  }

  function Sweeps(order: seq<nat>): seq<Action> {
    if order == [] then [] else [SweepOne(order[0])] + Sweeps(order[1..])
  }

  function Members(order: seq<nat>): set<nat> {
    set h | h in order
  }

  lemma {:induction false} RunsJoin(s: System, actions: seq<Action>, more: seq<Action>)
    requires Runs(s, actions) && Runs(After(s, actions), more)
    ensures Runs(s, actions + more) && After(s, actions + more) == After(After(s, actions), more)
    decreases |actions|
  {
    hide Enabled, Next;
    var all := actions + more;
    if actions == [] {
      assert all == more;
    } else {
      assert all[0] == actions[0] && all[1..] == actions[1..] + more;
      RunsJoin(Next(s, actions[0]), actions[1..], more);
    }
  }

  lemma OneStep(s: System, a: Action)
    requires Enabled(s, a)
    ensures Runs(s, [a]) && After(s, [a]) == Next(s, a)
  {
    hide Enabled, Next;
    assert [a][1..] == [];
  }

  lemma {:induction false} DispatchRun(s: System, batch: seq<nat>)
    requires s.pc == Dispatching(batch, false)
    ensures Runs(s, Times(|batch|, DispatchDone))
    ensures After(s, Times(|batch|, DispatchDone)) == s.(pc := Dispatching([], false))
    decreases |batch|
  {
    if batch != [] {
      var actions := Times(|batch|, DispatchDone);
      assert actions[0] == DispatchDone && actions[1..] == Times(|batch[1..]|, DispatchDone);
      assert Enabled(s, DispatchDone) && Next(s, DispatchDone) == s.(pc := Dispatching(batch[1..], false));
      hide Enabled, Next;
      DispatchRun(s.(pc := Dispatching(batch[1..], false)), batch[1..]);
    }
  }

  lemma {:induction false} SweepRun(s: System, order: seq<nat>)
    requires s.pc == Sweeping(Members(order)) && Distinct(order)
    ensures Runs(s, Sweeps(order)) && After(s, Sweeps(order)) == s.(pc := Sweeping({}))
    decreases |order|
  {
    if order != [] {
      var rest := order[1..];
      var actions := Sweeps(order);
      assert actions[0] == SweepOne(order[0]) && actions[1..] == Sweeps(rest);
      assert Members(order) - {order[0]} == Members(rest);
      assert Enabled(s, SweepOne(order[0]));
      assert Next(s, SweepOne(order[0])) == s.(pc := Sweeping(Members(rest)));
      hide Enabled, Next;
      SweepRun(s.(pc := Sweeping(Members(rest))), rest);
    }
  }

  lemma {:induction false} AsOrder(handles: set<nat>) returns (order: seq<nat>)
    ensures Distinct(order) && Members(order) == handles
    decreases |handles|
  {
    order := [];
    if handles != {} {
      var x := AnElement(handles);
      var rest := AsOrder(handles - {x});
      assert x !in Members(rest);
      order := [x] + rest;
      assert Members(order) == {x} + Members(rest);
    }
  }

  /** The handle of each entry of the interest set can be reported. */
  lemma EventCanBeReported(s: System, fd: int)
    requires s.pc == Polling && fd in s.reg.interest
    ensures Enabled(s, EpollWait([s.reg.interest[fd].handle]))
    ensures Next(s, EpollWait([s.reg.interest[fd].handle])).pc == Dispatching([s.reg.interest[fd].handle], false)
  {
  }

  lemma LoopSteps(s: System)
    requires s.lock == None
    ensures
      var t := s.(pc := Dispatching([], false));
      Enabled(t, Snapshot) && Next(t, Snapshot) == s.(pc := Sweeping(s.reg.sockets))
    ensures
      var t := s.(pc := Sweeping({}));
      Enabled(t, Clear) && Next(t, Clear) == s.(pc := Polling, reg := s.reg.(removable := []))
  {
  }

  /**
    Whatever `epoll_wait` reports, and in whatever order the sockets are walked, an iteration in which nothing else
    happens runs to its end, and all it changes is that the removable handles are dropped.
   */
  lemma IterationRuns(s: System, batch: seq<nat>) returns (actions: seq<Action>)
    requires s.pc == Polling && s.lock == None && Distinct(batch)
    requires forall i :: 0 <= i < |batch| ==> IsWatched(s, batch[i])
    ensures Runs(s, actions) && After(s, actions) == s.(reg := s.reg.(removable := []))
    ensures actions != [] && actions[0] == EpollWait(batch)
  {
    var order := AsOrder(s.reg.sockets);
    OneStep(s, EpollWait(batch));
    LoopSteps(s);
    hide Distinct, IsWatched, Enabled, Next;
    DispatchRun(s.(pc := Dispatching(batch, false)), batch);
    OneStep(s.(pc := Dispatching([], false)), Snapshot);
    SweepRun(s.(pc := Sweeping(s.reg.sockets)), order);
    OneStep(s.(pc := Sweeping({})), Clear);
    hide Runs, After;
    var dispatches := Times(|batch|, DispatchDone);
    RunsJoin(s, [EpollWait(batch)], dispatches);
    RunsJoin(s, [EpollWait(batch)] + dispatches, [Snapshot]);
    RunsJoin(s, [EpollWait(batch)] + dispatches + [Snapshot], Sweeps(order));
    actions := [EpollWait(batch)] + dispatches + [Snapshot] + Sweeps(order);
    RunsJoin(s, actions, [Clear]);
    actions := actions + [Clear];
  }

  /** The loop can close the handle whose event it is at, and goes on when that call has returned. */
  lemma HeadCanBeClosed(s: System)
    requires Inv(s) && s.pc.Dispatching? && s.pc.batch != [] && !s.pc.busy && s.pc.batch[0] !in s.closing
    requires s.reg.removable == [] && s.lock == None
    ensures Enabled(s, ExecClose)
    ensures
      var h, t := s.pc.batch[0], Next(s, ExecClose);
      && h in t.closeBegun && t.pc == Dispatching(s.pc.batch, true)
      && (!IsSocket(s, h) || h !in s.closeBegun ==> h in t.closing && !Enabled(t, DispatchDone))
      && (IsSocket(s, h) && h in s.closeBegun ==> h !in t.closing && Enabled(t, DispatchDone))
  {
    assert s.pc.batch[0] in Raw(s);
  }

  lemma SweepingStep(s: System, a: Action)
    requires s.pc.Sweeping? && Enabled(s, a) && a != Clear
    ensures Next(s, a).pc.Sweeping? && s.pc.copy <= Next(s, a).pc.copy + (if a.SweepOne? then {a.h} else {})
  {
  }

  lemma {:induction false} SweptBeforeClear(s: System, actions: seq<Action>, h: nat)
    requires s.pc.Sweeping? && h in s.pc.copy && Runs(s, actions) && Clear !in actions
    requires Enabled(After(s, actions), Clear)
    ensures SweepOne(h) in actions
    decreases |actions|
  {
    if actions != [] && actions[0] != SweepOne(h) {
      SweepingStep(s, actions[0]);
      hide Enabled, Next;
      assert actions[0] in actions && forall a :: a in actions[1..] ==> a in actions;
      SweptBeforeClear(Next(s, actions[0]), actions[1..], h);
    }
  }

  /** Whatever other threads do meanwhile, each socket registered at the snapshot is swept before the iteration ends. */
  lemma EverySocketIsSwept(s: System, actions: seq<Action>, h: nat)
    requires Inv(s) && Enabled(s, Snapshot) && IsSocket(s, h) && Registered(s, h)
    requires Runs(Next(s, Snapshot), actions) && Clear !in actions && Enabled(After(Next(s, Snapshot), actions), Clear)
    ensures SweepOne(h) in actions
  {
    hide Runs, After, InterestInv, RawInv;
    SweptBeforeClear(Next(s, Snapshot), actions, h);
  }

  function Dispatches(actions: seq<Action>): nat {
    if actions == [] then 0 else (if actions[0].DispatchDone? then 1 else 0) + Dispatches(actions[1..])
  }

  lemma DispatchingStep(s: System, a: Action)
    requires s.pc.Dispatching? && Enabled(s, a) && a != Snapshot
    ensures
      var t := Next(s, a);
      && t.pc.Dispatching?
      && t.pc.batch == (if a.DispatchDone? then s.pc.batch[1..] else s.pc.batch)
      && (a.DispatchDone? ==> s.pc.batch != [])
  {
  }

  /** ... and each event of the batch is dispatched, once and in order, before the snapshot. */
  lemma {:induction false} EveryEventIsDispatched(s: System, actions: seq<Action>)
    requires s.pc.Dispatching? && Runs(s, actions) && Snapshot !in actions
    ensures Dispatches(actions) <= |s.pc.batch|
    ensures
      var t := After(s, actions);
      t.pc.Dispatching? && t.pc.batch == s.pc.batch[Dispatches(actions)..] &&
      (Enabled(t, Snapshot) ==> Dispatches(actions) == |s.pc.batch|)
    decreases |actions|
  {
    if actions != [] {
      DispatchingStep(s, actions[0]);
      assert actions[0] in actions && forall a :: a in actions[1..] ==> a in actions;
      EveryEventIsDispatched(Next(s, actions[0]), actions[1..]);
    }
  }

  lemma RunsCons(s: System, a: Action, rest: seq<Action>)
    requires Enabled(s, a) && Runs(Next(s, a), rest)
    ensures Runs(s, [a] + rest) && After(s, [a] + rest) == After(Next(s, a), rest)
  {
    hide Enabled, Next;
    assert ([a] + rest)[1..] == rest;
  }

  /** A handle that nobody has registered or closed yet. */
  ghost predicate IsNew(s: System, h: nat) {
    Inv(s) && FreshInv(s) && NoneLost(s) && s.lock == None && h in s.info && h !in s.known && h !in s.closeBegun
  }

  lemma NewHandle(s: System, h: nat)
    requires IsNew(s, h)
    ensures h !in s.waiting && h !in s.returning && h !in s.attached && h !in s.closing && h !in s.reg.sockets
    ensures s.info[h].fd !in s.reg.handles && s.info[h].fd !in s.reg.interest && s.info[h].fd in s.open
  {
    var fd := s.info[h].fd;
    assert Unclosed(s, h);
    assert Open(s, h);
    if fd in s.reg.handles {
      HeldIsOpen(s, s.reg.handles[fd]);
      assert false;
    }
  }

  /** The handle as registered: its entry, among the sockets if it is one, and watched. */
  function WithHandle(s: System, h: nat): System
    requires h in s.info
  {
    var fd, kind := s.info[h].fd, s.info[h].kind;
    s.(attached := s.attached + {h}, known := s.known + {h},
       reg := Registry(s.reg.handles[fd := h], s.reg.sockets + AsSocket(h, kind), s.reg.removable,
                       s.reg.interest[fd := Interest(h, Mask(kind))]))
  }

  lemma RegisterRuns(s: System, h: nat)
    requires IsNew(s, h)
    ensures Runs(s, [RegisterBegin(h), RegisterLock(h), RegisterInsert(h), RegisterReturn(h)])
    ensures After(s, [RegisterBegin(h), RegisterLock(h), RegisterInsert(h), RegisterReturn(h)]) == WithHandle(s, h)
  {
    NewHandle(s, h);
    hide IsNew, Mask, AsSocket;
    var s1 := Next(s, RegisterBegin(h));
    var s2 := Next(s1, RegisterLock(h));
    var s3 := Next(s2, RegisterInsert(h));
    assert s2.waiting == s.waiting;
    OneStep(s3, RegisterReturn(h));
    RunsCons(s2, RegisterInsert(h), [RegisterReturn(h)]);
    RunsCons(s1, RegisterLock(h), [RegisterInsert(h)] + [RegisterReturn(h)]);
    RunsCons(s, RegisterBegin(h), [RegisterLock(h)] + ([RegisterInsert(h)] + [RegisterReturn(h)]));
    assert Next(s3, RegisterReturn(h)).returning == s.returning;
    assert [RegisterBegin(h)] + ([RegisterLock(h)] + ([RegisterInsert(h)] + [RegisterReturn(h)])) ==
           [RegisterBegin(h), RegisterLock(h), RegisterInsert(h), RegisterReturn(h)];
  }

  /** The registry with the handle moved to the removable ones and its descriptor closed. */
  function WithoutHandle(s: System, h: nat): System
    requires h in s.info
  {
    s.(closeBegun := s.closeBegun + {h}, known := s.known + {h}, open := s.open - {s.info[h].fd},
       reg := s.reg.(removable := s.reg.removable + [h]))
  }

  lemma DeregisterStepOf(s: System, h: nat)
    requires h in s.info && h !in s.attached && h !in s.closing && h !in s.reg.sockets
    requires s.info[h].fd !in s.reg.handles && s.info[h].fd !in s.reg.interest && s.lock == None
    ensures
      var t := WithHandle(s, h).(closeBegun := s.closeBegun + {h}, closing := s.closing[h := Deregistering]);
      && Enabled(t, CloseDeregister(h))
      && Next(t, CloseDeregister(h)) ==
         WithoutHandle(s, h).(closing := s.closing[h := Descriptor], open := s.open)
  {
    hide Mask;
    var kind := s.info[h].kind;
    assert s.reg.sockets + AsSocket(h, kind) - AsSocket(h, kind) == s.reg.sockets;
    assert s.attached + {h} - {h} == s.attached;
  }

  lemma FirstStages(s: System, h: nat)
    requires h in s.info && h !in s.closing && h !in s.closeBegun
    ensures
      var r := WithHandle(s, h);
      var s1 := r.(closeBegun := s.closeBegun + {h}, closing := s.closing[h := Checking]);
      && Enabled(r, CloseBegin(h)) && Next(r, CloseBegin(h)) == s1
      && Enabled(s1, CloseCheck(h))
      && Next(s1, CloseCheck(h)) == s1.(closing := s.closing[h := Deregistering])
  {
    hide Mask, AsSocket;
  }

  lemma LastStage(s: System, h: nat)
    requires h in s.info && h !in s.closing && s.info[h].fd !in s.reg.interest
    ensures
      var t := WithoutHandle(s, h).(closing := s.closing[h := Descriptor], open := s.open);
      Enabled(t, CloseDescriptor(h)) && Next(t, CloseDescriptor(h)) == WithoutHandle(s, h)
  {
    assert s.closing[h := Descriptor] - {h} == s.closing;
  }

  lemma CloseRuns(s: System, h: nat)
    requires h in s.info && h !in s.attached && h !in s.closing && h !in s.reg.sockets && h !in s.closeBegun
    requires s.info[h].fd !in s.reg.handles && s.info[h].fd !in s.reg.interest && s.lock == None
    ensures Runs(WithHandle(s, h), [CloseBegin(h), CloseCheck(h), CloseDeregister(h), CloseDescriptor(h)])
    ensures After(WithHandle(s, h), [CloseBegin(h), CloseCheck(h), CloseDeregister(h), CloseDescriptor(h)]) ==
            WithoutHandle(s, h)
  {
    hide Enabled, Next, WithHandle, WithoutHandle, Runs, After;
    FirstStages(s, h);
    DeregisterStepOf(s, h);
    LastStage(s, h);
    var s1 := Next(WithHandle(s, h), CloseBegin(h));
    var s2 := Next(s1, CloseCheck(h));
    var s3 := Next(s2, CloseDeregister(h));
    OneStep(s3, CloseDescriptor(h));
    RunsCons(s2, CloseDeregister(h), [CloseDescriptor(h)]);
    RunsCons(s1, CloseCheck(h), [CloseDeregister(h)] + [CloseDescriptor(h)]);
    RunsCons(WithHandle(s, h), CloseBegin(h), [CloseCheck(h)] + ([CloseDeregister(h)] + [CloseDescriptor(h)]));
    assert [CloseBegin(h)] + ([CloseCheck(h)] + ([CloseDeregister(h)] + [CloseDescriptor(h)])) ==
           [CloseBegin(h), CloseCheck(h), CloseDeregister(h), CloseDescriptor(h)];
  }

  /** Registering a new handle and closing it: nothing of it is left but its entry among the removable handles. */
  lemma CloseUndoesRegister(s: System, h: nat)
    requires IsNew(s, h)
    ensures
      var actions := [RegisterBegin(h), RegisterLock(h), RegisterInsert(h), RegisterReturn(h)]
                     + [CloseBegin(h), CloseCheck(h), CloseDeregister(h), CloseDescriptor(h)];
      && Runs(s, actions)
      && var t := After(s, actions);
         && t.reg.handles == s.reg.handles && t.reg.sockets == s.reg.sockets && t.reg.interest == s.reg.interest
         && t.reg.removable == s.reg.removable + [h] && t.attached == s.attached && t.closing == s.closing
         && t.open == s.open - {s.info[h].fd} && t.lock == None && t.pc == s.pc
  {
    NewHandle(s, h);
    RegisterRuns(s, h);
    hide IsNew, Runs, After, Enabled, Next, WithHandle;
    CloseRuns(s, h);
    RunsJoin(s, [RegisterBegin(h), RegisterLock(h), RegisterInsert(h), RegisterReturn(h)],
             [CloseBegin(h), CloseCheck(h), CloseDeregister(h), CloseDescriptor(h)]);
  }

  /**
    Over every run that loses no handle: each registered handle is watched for the events that the event loop tests for
    its kind and for the peer's hanging up; writability and edge triggering are watched for sockets only.
   */
  lemma WatchedEvents(actions: seq<Action>, fd: int)
    requires DisciplinedRun(Initial, actions) && Runs(Initial, actions)
    requires After(Initial, actions).lock == None && fd in After(Initial, actions).reg.handles
    ensures
      var s := After(Initial, actions);
      && s.reg.handles[fd] in s.info && fd in s.reg.interest && s.reg.interest[fd].handle == s.reg.handles[fd]
      && s.reg.interest[fd].events ==
         match s.info[s.reg.handles[fd]].kind
         case Acceptor => {EPOLLIN, EPOLLRDHUP}
         case Socket => {EPOLLIN, EPOLLPRI, EPOLLOUT, EPOLLRDHUP, EPOLLET}
  {
    InterestIsRegistry(actions);
    hide Runs, After, DisciplinedRun;
  }

  lemma EmptyInterest(r: Registry<nat>)
    requires forall fd :: fd in r.interest ==> fd in r.handles
    ensures ReleaseAll(r).interest == map[]
  {
    var rest := ReleaseAll(r).interest;
    forall fd ensures fd !in rest.Keys {
      assert fd in rest.Keys ==> fd in r.interest.Keys && fd !in r.handles.Keys;
      assert fd in r.interest.Keys ==> fd in r.interest;
      assert fd in r.handles ==> fd in r.handles.Keys;
    }
    assert rest.Keys == {};
  }

  /** ... and when the runtime stops, nothing stays registered, kept, watched or attached, and it can be run again. */
  lemma ReleaseLeavesNothing(actions: seq<Action>)
    requires DisciplinedRun(Initial, actions) && Runs(Initial, actions)
    requires Enabled(After(Initial, actions), Release)
    ensures
      var t := Next(After(Initial, actions), Release);
      && t.reg.handles == map[] && t.reg.sockets == {} && t.reg.removable == [] && t.reg.interest == map[]
      && (forall h :: Registered(After(Initial, actions), h) ==> h !in t.attached)
      && Enabled(t, Restart) && Next(t, Restart) == t.(pc := Polling)
  {
    InterestIsRegistry(actions);
    hide Runs, After, DisciplinedRun;
    EmptyInterest(After(Initial, actions).reg);
  }

  /**
    What the replace branch does where it is taken: the previous handle's `close` call closes the descriptor, which is
    the new handle's too, so that the new handle is registered with a closed descriptor that nobody watches.
   */
  lemma ReplacementIsDead(s: System, h: nat)
    requires Inv(s) && Enabled(s, RegisterLock(h)) && s.info[h].fd in s.reg.handles
    requires
      var prev := s.reg.handles[s.info[h].fd];
      !IsSocket(s, prev) || prev !in s.closeBegun
    ensures
      var fd, t := s.info[h].fd, Next(s, RegisterLock(h));
      && fd in t.reg.handles && t.reg.handles[fd] == h
      && fd !in t.open && fd !in t.reg.interest
      && s.reg.handles[fd] in t.reg.removable && s.reg.handles[fd] !in t.attached
  {
  }
}
