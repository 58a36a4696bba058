/**
  Descriptors and registrations over whole runs in which each handle is registered once and each acceptor is closed
  once, at any time and by any thread: what holds as long as the replace branch of `register_handle` is not taken.
 */
module RuntimeDescriptors {
  import opened HandleRegistry
  import opened RuntimeSystem
  import opened RuntimeSafety
  import opened Options

  /** The `close` call of the handle has got past its deregistration, or has returned. */
  ghost predicate PastDeregistration(s: System, h: nat) {
    h in s.closeBegun && !(h in s.closing && s.closing[h] != Descriptor)
  }

  ghost predicate MayClose(s: System, h: nat) {
    IsSocket(s, h) || h !in s.closeBegun
  }

  /** A handle is registered once, and closed once: a socket's flag sees to that, an acceptor has none. */
  ghost predicate Fresh(s: System, a: Action) {
    match a
    case RegisterBegin(h) => h !in s.known
    case CloseBegin(h) => MayClose(s, h)
    case ExecClose => s.pc.Dispatching? && s.pc.batch != [] && MayClose(s, s.pc.batch[0])
    case _ => true
  }

  ghost predicate FreshRun(s: System, actions: seq<Action>)
    decreases |actions|
  {
    actions == [] ||
    (Enabled(s, actions[0]) && Fresh(s, actions[0]) && FreshRun(Next(s, actions[0]), actions[1..]))
  }

  /** No handle is deregistered before it has been inserted. */
  ghost predicate Disciplined(s: System, a: Action) {
    && Fresh(s, a)
    && match a
       case RegisterBegin(h) => !PastDeregistration(s, h)
       case CloseDeregister(h) => h !in s.waiting
       case _ => true
  }

  ghost predicate DisciplinedRun(s: System, actions: seq<Action>)
    decreases |actions|
  {
    actions == [] ||
    (Enabled(s, actions[0]) && Disciplined(s, actions[0]) && DisciplinedRun(Next(s, actions[0]), actions[1..]))
  }

  /** The kernel still has the handle's descriptor open, and for this handle. */
  ghost predicate Open(s: System, h: nat) {
    h in s.info && s.info[h].fd in s.open && s.open[s.info[h].fd] == h
  }

  ghost predicate Unclosed(s: System, h: nat) {
    h in s.info && (h !in s.closeBegun || h in s.closing)
  }

  /** The open descriptors are those of the handles whose `close` call has not returned. */
  ghost predicate DescriptorsInv(s: System) {
    && (forall h :: Unclosed(s, h) ==> Open(s, h))
    && (forall fd :: fd in s.open ==> Unclosed(s, s.open[fd]) && s.info[s.open[fd]].fd == fd)
    && (forall h :: h in s.closing ==> h in s.info && h in s.closeBegun)
    && s.closeBegun <= s.info.Keys && s.known <= s.info.Keys
  }

  ghost predicate RegistrationInv(s: System) {
    && (forall h :: h in s.waiting ==>
          && h in s.info && h in s.known && h in s.attached
          && !Registered(s, h) && s.lock != Some(h) && h !in s.reg.removable)
    && (forall h :: h in s.reg.removable ==> h in s.known)
    && s.returning <= s.known && s.attached <= s.known
    && (forall h :: s.lock == Some(h) ==> h in s.known && h in s.attached)
    && (forall h :: Registered(s, h) ==> h in s.known && h in s.attached)
  }

  /** The event loop watches each registered handle that is not past its deregistration, with the mask of its kind. */
  ghost predicate WatchInv(s: System) {
    forall h :: (Registered(s, h) || s.lock == Some(h)) && !PastDeregistration(s, h) ==>
      && h in s.info && s.info[h].fd in s.reg.interest
      && s.reg.interest[s.info[h].fd] == Interest(h, Mask(s.info[h].kind))
  }

  ghost predicate FreshInv(s: System) {
    DescriptorsInv(s) && RegistrationInv(s) && WatchInv(s)
  }

  /** A handle that is or will be in the registry although its `close` call will not take it out again. */
  ghost predicate LostHandle(s: System, h: nat) {
    (h in s.waiting || s.lock == Some(h) || Registered(s, h)) && PastDeregistration(s, h)
  }

  ghost predicate NoneLost(s: System) {
    forall h :: !LostHandle(s, h)
  }

  lemma CreateKeepsDescriptors(s: System, a: Action)
    requires DescriptorsInv(s) && Enabled(s, a) && a.Create?
    ensures DescriptorsInv(Next(s, a)) && a.h !in s.closeBegun && a.h !in s.known
  {
    var t := Next(s, a);
    assert forall k :: Open(s, k) ==> Open(t, k);
    assert forall k :: Unclosed(t, k) <==> k == a.h || Unclosed(s, k);
  }

  lemma CreateKeepsRegistration(s: System, a: Action)
    requires Inv(s) && FreshInv(s) && Enabled(s, a) && a.Create?
    ensures RegistrationInv(Next(s, a)) && WatchInv(Next(s, a))
    ensures NoneLost(s) ==> NoneLost(Next(s, a))
  {
    hide InterestInv, RawInv, Open, Mask;
    var t := Next(s, a);
    assert forall k :: Registered(t, k) <==> Registered(s, k);
    assert forall k :: PastDeregistration(t, k) <==> PastDeregistration(s, k);
    assert forall k :: LostHandle(t, k) <==> LostHandle(s, k);
  }

  /** A step that leaves handles, registry, `closing` and descriptors as they are. */
  lemma Frame(s: System, t: System)
    requires FreshInv(s)
    requires t.info == s.info && t.open == s.open && t.lock == s.lock && t.closing == s.closing
    requires t.closeBegun == s.closeBegun && t.attached == s.attached && t.waiting == s.waiting && t.known == s.known
    requires t.returning <= s.returning
    requires t.reg == s.reg.(removable := t.reg.removable)
    requires forall h :: h in t.reg.removable ==> h in s.reg.removable
    ensures FreshInv(t)
    ensures NoneLost(s) ==> NoneLost(t)
  {
    hide Mask;
    assert forall k :: Registered(t, k) <==> Registered(s, k);
    assert forall k :: Open(t, k) <==> Open(s, k);
    assert forall k :: Unclosed(t, k) <==> Unclosed(s, k);
    assert forall k :: PastDeregistration(t, k) <==> PastDeregistration(s, k);
    assert forall k :: LostHandle(t, k) <==> LostHandle(s, k);
  }

  lemma BeginStep(s: System, h: nat)
    requires Inv(s) && FreshInv(s) && Enabled(s, RegisterBegin(h)) && h !in s.known
    ensures FreshInv(Next(s, RegisterBegin(h)))
    ensures NoneLost(s) && !PastDeregistration(s, h) ==> NoneLost(Next(s, RegisterBegin(h)))
  {
    hide Mask, InterestInv, RawInv;
    var t := Next(s, RegisterBegin(h));
    assert forall k :: Registered(t, k) <==> Registered(s, k);
    assert forall k :: Open(t, k) <==> Open(s, k);
    assert forall k :: Unclosed(t, k) <==> Unclosed(s, k);
    assert forall k :: PastDeregistration(t, k) <==> PastDeregistration(s, k);
    assert forall k :: LostHandle(t, k) ==> LostHandle(s, k) || k == h;
  }

  /** A handle that may still be deregistered is open, so its descriptor is registered for nobody else like it. */
  lemma LockFindsNothing(s: System, h: nat)
    requires Inv(s) && FreshInv(s) && NoneLost(s) && Enabled(s, RegisterLock(h))
    ensures s.info[h].fd !in s.reg.handles
  {
    HeldIsOpen(s, h);
    if s.info[h].fd in s.reg.handles {
      HeldIsOpen(s, s.reg.handles[s.info[h].fd]);
      assert false;
    }
  }

  lemma HeldIsOpen(s: System, h: nat)
    requires Inv(s) && FreshInv(s) && NoneLost(s) && (h in s.waiting || Registered(s, h))
    ensures Open(s, h)
  {
    assert !LostHandle(s, h);
    assert Unclosed(s, h);
  }

  lemma LockStep(s: System, h: nat)
    requires Inv(s) && FreshInv(s) && Enabled(s, RegisterLock(h)) && s.info[h].fd !in s.reg.handles
    ensures FreshInv(Next(s, RegisterLock(h)))
    ensures NoneLost(s) ==> NoneLost(Next(s, RegisterLock(h)))
  {
    hide Mask, RawInv;
    var t := Next(s, RegisterLock(h));
    assert forall k :: Registered(t, k) <==> Registered(s, k);
    assert forall k :: Open(t, k) <==> Open(s, k);
    assert forall k :: Unclosed(t, k) <==> Unclosed(s, k);
    assert forall k :: PastDeregistration(t, k) <==> PastDeregistration(s, k);
    assert forall k :: LostHandle(t, k) <==> LostHandle(s, k);
    assert s.info[h].fd !in s.reg.interest;
    assert !PastDeregistration(s, h) ==> Open(s, h);
  }

  lemma InsertStep(s: System, h: nat)
    requires Inv(s) && FreshInv(s) && Enabled(s, RegisterInsert(h))
    ensures FreshInv(Next(s, RegisterInsert(h)))
    ensures NoneLost(s) ==> NoneLost(Next(s, RegisterInsert(h)))
  {
    hide Mask, RawInv, InterestInv;
    var t := Next(s, RegisterInsert(h));
    assert forall k :: Registered(t, k) <==> k == h || Registered(s, k);
    assert forall k :: Open(t, k) <==> Open(s, k);
    assert forall k :: Unclosed(t, k) <==> Unclosed(s, k);
    assert forall k :: PastDeregistration(t, k) <==> PastDeregistration(s, k);
    assert forall k :: LostHandle(t, k) <==> LostHandle(s, k);
  }

  lemma BeginCloseKeeps(s: System, h: nat)
    requires FreshInv(s) && h in s.info && h !in s.closing && MayClose(s, h)
    ensures FreshInv(BeginClose(s, h))
    ensures NoneLost(s) ==> NoneLost(BeginClose(s, h))
  {
    hide Mask;
    var t := BeginClose(s, h);
    assert forall k :: Registered(t, k) <==> Registered(s, k);
    assert forall k :: Open(t, k) <==> Open(s, k);
    assert forall k :: Unclosed(t, k) <==> Unclosed(s, k);
    assert forall k :: PastDeregistration(t, k) <==> PastDeregistration(s, k);
    assert forall k :: LostHandle(t, k) <==> LostHandle(s, k);
  }

  lemma CheckStep(s: System, h: nat)
    requires FreshInv(s) && Enabled(s, CloseCheck(h))
    ensures FreshInv(Next(s, CloseCheck(h)))
    ensures NoneLost(s) ==> NoneLost(Next(s, CloseCheck(h)))
  {
    hide Mask;
    var t := Next(s, CloseCheck(h));
    assert forall k :: Registered(t, k) <==> Registered(s, k);
    assert forall k :: Open(t, k) <==> Open(s, k);
    assert forall k :: Unclosed(t, k) <==> Unclosed(s, k);
    assert forall k :: k != h ==> (PastDeregistration(t, k) <==> PastDeregistration(s, k));
    assert forall k :: LostHandle(t, k) <==> LostHandle(s, k);
  }

  lemma DeregisterChanges(s: System, h: nat)
    requires Inv(s) && FreshInv(s) && Enabled(s, CloseDeregister(h))
    ensures
      var t := Next(s, CloseDeregister(h));
      && (forall k :: Registered(t, k) <==> Registered(s, k) && k != h)
      && (forall k :: Open(t, k) <==> Open(s, k))
      && (forall k :: Unclosed(t, k) <==> Unclosed(s, k))
      && (forall k :: k != h ==> (PastDeregistration(t, k) <==> PastDeregistration(s, k)))
  {
    hide Mask, RawInv, InterestInv, RegistrationInv, WatchInv;
  }

  lemma DeregisterStep(s: System, h: nat)
    requires Inv(s) && FreshInv(s) && Enabled(s, CloseDeregister(h))
    ensures FreshInv(Next(s, CloseDeregister(h)))
    ensures NoneLost(s) && h !in s.waiting ==> NoneLost(Next(s, CloseDeregister(h)))
  {
    hide Mask, RawInv, InterestInv, Open;
    DeregisterChanges(s, h);
    var t := Next(s, CloseDeregister(h));
    assert forall k :: LostHandle(t, k) ==> LostHandle(s, k) || (k == h && h in s.waiting);
  }

  lemma DescriptorStep(s: System, h: nat)
    requires Inv(s) && FreshInv(s) && Enabled(s, CloseDescriptor(h))
    ensures Open(s, h)
    ensures FreshInv(Next(s, CloseDescriptor(h)))
    ensures NoneLost(s) ==> NoneLost(Next(s, CloseDescriptor(h)))
  {
    hide Mask, RawInv, InterestInv;
    var t := Next(s, CloseDescriptor(h));
    assert Unclosed(s, h);
    assert forall k :: Registered(t, k) <==> Registered(s, k);
    assert forall k :: Open(t, k) <==> Open(s, k) && k != h;
    assert forall k :: Unclosed(t, k) <==> Unclosed(s, k) && k != h;
    assert forall k :: PastDeregistration(t, k) <==> PastDeregistration(s, k);
    assert forall k :: LostHandle(t, k) <==> LostHandle(s, k);
    assert forall k :: !PastDeregistration(s, k) && k in s.info ==> Unclosed(s, k);
  }

  lemma ReleaseStep(s: System)
    requires Inv(s) && FreshInv(s) && Enabled(s, Release)
    ensures FreshInv(Next(s, Release))
    ensures NoneLost(s) ==> NoneLost(Next(s, Release))
  {
    hide Mask, RawInv, InterestInv;
    var t := Next(s, Release);
    assert forall k :: !Registered(t, k);
    assert forall k :: Open(t, k) <==> Open(s, k);
    assert forall k :: Unclosed(t, k) <==> Unclosed(s, k);
    assert forall k :: PastDeregistration(t, k) <==> PastDeregistration(s, k);
    assert forall k :: LostHandle(t, k) ==> LostHandle(s, k);
  }

  lemma ExecCloseStep(s: System)
    requires FreshInv(s) && Enabled(s, ExecClose) && Fresh(s, ExecClose)
    ensures FreshInv(Next(s, ExecClose))
    ensures NoneLost(s) ==> NoneLost(Next(s, ExecClose))
  {
    hide FreshInv, NoneLost;
    var h := s.pc.batch[0];
    BeginCloseKeeps(s, h);
    Frame(BeginClose(s, h), Next(s, ExecClose));
  }

  lemma LoopStep(s: System, a: Action)
    requires FreshInv(s) && Enabled(s, a)
    requires a.RegisterReturn? || a.EpollWait? || a.DispatchDone? || a.Snapshot? || a.SweepOne? || a.Clear?
          || a.Restart?
    ensures FreshInv(Next(s, a))
    ensures NoneLost(s) ==> NoneLost(Next(s, a))
  {
    hide FreshInv, NoneLost;
    Frame(s, Next(s, a));
  }

  /** Fresh steps that do not take the replace branch keep the invariant, and disciplined ones lose no handle. */
  lemma NextKeepsFresh(s: System, a: Action)
    requires Inv(s) && FreshInv(s) && Enabled(s, a) && Fresh(s, a) && !Next(s, a).replaced
    ensures FreshInv(Next(s, a))
    ensures NoneLost(s) && Disciplined(s, a) ==> NoneLost(Next(s, a))
  {
    hide Inv, FreshInv, NoneLost, PastDeregistration;
    match a {
      case Create(_, _, _) => CreateKeeps(s, a);
      case RegisterBegin(h) => BeginStep(s, h);
      case RegisterLock(h) => LockStep(s, h);
      case RegisterInsert(h) => InsertStep(s, h);
      case CloseBegin(h) => BeginCloseKeeps(s, h);
      case CloseCheck(h) => CheckStep(s, h);
      case CloseDeregister(h) => DeregisterStep(s, h);
      case CloseDescriptor(h) => DescriptorStep(s, h);
      case ExecClose => ExecCloseStep(s);
      case Release => ReleaseStep(s);
      case _ => LoopStep(s, a);
    }
  }

  lemma CreateKeeps(s: System, a: Action)
    requires Inv(s) && FreshInv(s) && Enabled(s, a) && a.Create?
    ensures FreshInv(Next(s, a))
    ensures NoneLost(s) ==> NoneLost(Next(s, a))
  {
    hide DescriptorsInv, RegistrationInv, WatchInv, Inv;
    CreateKeepsDescriptors(s, a);
    CreateKeepsRegistration(s, a);
  }

  lemma DisciplinedNeverReplaces(s: System, a: Action)
    requires Inv(s) && FreshInv(s) && NoneLost(s) && !s.replaced && Enabled(s, a)
    ensures !Next(s, a).replaced
  {
    if a.RegisterLock? {
      LockFindsNothing(s, a.h);
    }
  }

  lemma ReplacedStaysNext(s: System, a: Action)
    requires Enabled(s, a) && s.replaced
    ensures Next(s, a).replaced
  {
  }

  lemma {:induction false} ReplacedStays(s: System, actions: seq<Action>)
    requires Runs(s, actions) && s.replaced
    ensures After(s, actions).replaced
    decreases |actions|
  {
    hide Enabled, Next;
    if actions != [] {
      ReplacedStaysNext(s, actions[0]);
      ReplacedStays(Next(s, actions[0]), actions[1..]);
    }
  }

  lemma {:induction false} FreshRunsRun(s: System, actions: seq<Action>)
    requires FreshRun(s, actions)
    ensures Runs(s, actions)
    decreases |actions|
  {
    hide Next, Enabled;
    if actions != [] {
      FreshRunsRun(Next(s, actions[0]), actions[1..]);
    }
  }

  lemma {:induction false} RunKeepsFresh(s: System, actions: seq<Action>)
    requires Inv(s) && FreshInv(s) && FreshRun(s, actions)
    ensures Runs(s, actions)
    ensures !After(s, actions).replaced ==> Inv(After(s, actions)) && FreshInv(After(s, actions))
    decreases |actions|
  {
    hide Inv, FreshInv, Next, Enabled;
    FreshRunsRun(s, actions);
    if actions != [] {
      var t := Next(s, actions[0]);
      NextKeepsInv(s, actions[0]);
      if t.replaced {
        FreshRunsRun(t, actions[1..]);
        ReplacedStays(t, actions[1..]);
      } else {
        NextKeepsFresh(s, actions[0]);
        RunKeepsFresh(t, actions[1..]);
      }
    }
  }

  lemma {:induction false} RunLosesNone(s: System, actions: seq<Action>)
    requires Inv(s) && FreshInv(s) && NoneLost(s) && !s.replaced && DisciplinedRun(s, actions)
    ensures Runs(s, actions)
    ensures Inv(After(s, actions)) && FreshInv(After(s, actions)) && NoneLost(After(s, actions))
    ensures !After(s, actions).replaced
    decreases |actions|
  {
    hide Inv, FreshInv, NoneLost, Next, Enabled, Fresh;
    if actions != [] {
      DisciplinedNeverReplaces(s, actions[0]);
      NextKeepsInv(s, actions[0]);
      NextKeepsFresh(s, actions[0]);
      RunLosesNone(Next(s, actions[0]), actions[1..]);
    }
  }

  lemma InitialIsFresh()
    ensures Inv(Initial) && FreshInv(Initial) && NoneLost(Initial)
  {
  }

  /** Over every disciplined run the replace branch is never taken. */
  lemma ReplaceBranchUnreachable(actions: seq<Action>)
    requires DisciplinedRun(Initial, actions)
    ensures Runs(Initial, actions) && !After(Initial, actions).replaced
  {
    InitialIsFresh();
    RunLosesNone(Initial, actions);
  }

  /** ... and the epoll interest set is the map of registered handles with the mask of each kind. */
  lemma InterestIsRegistry(actions: seq<Action>)
    requires DisciplinedRun(Initial, actions)
    ensures Runs(Initial, actions)
    ensures
      var s := After(Initial, actions);
      && (forall fd :: fd in s.reg.handles ==> s.reg.handles[fd] in s.info)
      && (s.lock == None ==>
            && (forall fd :: fd in s.reg.interest <==> fd in s.reg.handles)
            && (forall fd :: fd in s.reg.handles ==>
                  s.reg.interest[fd] == Interest(s.reg.handles[fd], Mask(s.info[s.reg.handles[fd]].kind))))
  {
    InitialIsFresh();
    RunLosesNone(Initial, actions);
    hide Runs, After, DisciplinedRun, RegistrationInv, DescriptorsInv, RawInv, Mask, PastDeregistration;
    var s := After(Initial, actions);
    forall fd | fd in s.reg.handles
      ensures fd in s.reg.interest
      ensures s.reg.interest[fd] == Interest(s.reg.handles[fd], Mask(s.info[s.reg.handles[fd]].kind))
    {
      assert Registered(s, s.reg.handles[fd]) && !LostHandle(s, s.reg.handles[fd]);
    }
  }

  /** `::close` always closes the handle's own descriptor, never one the kernel has handed out again. */
  lemma ClosesOwnDescriptor(actions: seq<Action>, h: nat)
    requires FreshRun(Initial, actions) && Runs(Initial, actions) && !After(Initial, actions).replaced
    requires Enabled(After(Initial, actions), CloseDescriptor(h))
    ensures Open(After(Initial, actions), h)
  {
    InitialIsFresh();
    RunKeepsFresh(Initial, actions);
    DescriptorStep(After(Initial, actions), h);
  }
}
