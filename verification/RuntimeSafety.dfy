/** What every run of the runtime keeps, whatever closes and registrations are interleaved. */
module RuntimeSafety {
  import opened HandleRegistry
  import opened RuntimeSystem
  import opened Options

  function LockHolder(s: System): set<nat> {
    match s.lock case None => {} case Some(h) => {h}
  }

  /** The handles the runtime itself keeps alive. */
  function Kept(s: System): set<nat> {
    s.reg.handles.Values + (set h | h in s.reg.removable)
  }

  /** The raw pointers `exec` still has to dereference. */
  function Raw(s: System): set<nat> {
    match s.pc
    case Dispatching(batch, _) => (set h | h in batch)
    case Sweeping(copy) => copy
    case _ => {}
  }

  ghost predicate IsSocket(s: System, h: nat) {
    h in s.info && s.info[h].kind == Socket
  }

  ghost predicate Registered(s: System, h: nat) {
    h in s.info && s.info[h].fd in s.reg.handles && s.reg.handles[s.info[h].fd] == h
  }

  /** Keys are the handles' own descriptors, and `all_sockets_` holds the sockets among the registered handles. */
  ghost predicate Agreement(s: System) {
    && (forall fd :: fd in s.reg.handles ==> s.reg.handles[fd] in s.info && s.info[s.reg.handles[fd]].fd == fd)
    && (forall h :: h in s.reg.sockets <==> IsSocket(s, h) && (Registered(s, h) || s.lock == Some(h)))
  }

  /** The interest set points to registered handles, or to the one being registered. */
  ghost predicate InterestInv(s: System) {
    forall fd :: fd in s.reg.interest ==>
      var h := s.reg.interest[fd].handle;
      h in s.info && s.info[h].fd == fd && (Registered(s, h) || s.lock == Some(h))
  }

  ghost predicate RawInv(s: System) {
    forall h :: h in Raw(s) ==> Registered(s, h) || h in s.reg.removable || s.lock == Some(h)
  }

  ghost predicate Inv(s: System) {
    && Agreement(s)
    && InterestInv(s)
    && RawInv(s)
    && s.waiting <= s.info.Keys
    && (forall fd :: fd in s.reg.interest ==> fd in s.open)
    && (s.lock.Some? ==> s.lock.value in s.info && s.info[s.lock.value].fd !in s.reg.handles)
  }

  lemma CreateStep(s: System, a: Action)
    requires Inv(s) && Enabled(s, a) && (a.Create? || a.RegisterBegin? || a.RegisterReturn?)
    ensures Inv(Next(s, a))
  {
    var t := Next(s, a);
    assert forall h :: h in s.info ==> h in t.info && t.info[h] == s.info[h];
    assert forall h :: Registered(s, h) ==> Registered(t, h);
  }

  lemma AnnounceStep(s: System, a: Action)
    requires Inv(s) && Enabled(s, a) && a.RegisterLock? && s.info[a.h].fd !in s.reg.handles
    ensures Inv(Next(s, a))
  {
    var t := Next(s, a);
    assert forall h :: Registered(t, h) <==> Registered(s, h);
  }

  lemma ReplaceStep(s: System, a: Action)
    requires Inv(s) && Enabled(s, a) && a.RegisterLock? && s.info[a.h].fd in s.reg.handles
    ensures Inv(Next(s, a))
  {
    var t := Next(s, a);
    var fd := s.info[a.h].fd;
    var prev := s.reg.handles[fd];
    assert forall h :: Registered(t, h) <==> h == a.h || (Registered(s, h) && h != prev);
    assert t.lock == None && prev in t.reg.removable;
    assert Agreement(t);
    assert InterestInv(t);
    assert RawInv(t);
  }

  lemma InsertStep(s: System, a: Action)
    requires Inv(s) && Enabled(s, a) && a.RegisterInsert?
    ensures Inv(Next(s, a))
  {
    var t := Next(s, a);
    assert forall h :: Registered(t, h) <==> h == a.h || Registered(s, h);
  }

  lemma CloseStep(s: System, a: Action)
    requires Inv(s) && Enabled(s, a)
    requires a.CloseBegin? || a.CloseCheck? || a.CloseDeregister? || a.CloseDescriptor?
    ensures Inv(Next(s, a))
  {
    var t := Next(s, a);
    assert forall h :: Registered(s, h) && h != a.h ==> Registered(t, h);
    assert forall h :: Registered(t, h) ==> Registered(s, h);
  }

  lemma PollStep(s: System, a: Action)
    requires Inv(s) && Enabled(s, a) && a.EpollWait?
    ensures Inv(Next(s, a))
  {
    var t := Next(s, a);
    forall h | h in Raw(t) ensures Registered(t, h) || t.lock == Some(h) {
      var i :| 0 <= i < |a.batch| && a.batch[i] == h;
      var fd :| fd in s.reg.interest && s.reg.interest[fd].handle == h;
    }
  }

  lemma ExecStep(s: System, a: Action)
    requires Inv(s) && Enabled(s, a)
    requires a.ExecClose? || a.DispatchDone? || a.Snapshot? || a.SweepOne? || a.Clear? || a.Release? || a.Restart?
    ensures Inv(Next(s, a))
  {
    var t := Next(s, a);
    assert Raw(t) <= Raw(s) || a.Snapshot?;
  }

  lemma NextKeepsInv(s: System, a: Action)
    requires Inv(s) && Enabled(s, a)
    ensures Inv(Next(s, a))
  {
    match a {
      case Create(_, _, _) => CreateStep(s, a);
      case RegisterBegin(_) => CreateStep(s, a);
      case RegisterLock(h) =>
        if s.info[h].fd in s.reg.handles {
          ReplaceStep(s, a);
        } else {
          AnnounceStep(s, a);
        }
      case RegisterInsert(_) => InsertStep(s, a);
      case RegisterReturn(_) => CreateStep(s, a);
      case CloseBegin(_) => CloseStep(s, a);
      case CloseCheck(_) => CloseStep(s, a);
      case CloseDeregister(_) => CloseStep(s, a);
      case CloseDescriptor(_) => CloseStep(s, a);
      case EpollWait(_) => PollStep(s, a);
      case _ => ExecStep(s, a);
    }
  }

  lemma {:induction false} RunKeepsInv(s: System, actions: seq<Action>)
    requires Inv(s) && Runs(s, actions)
    ensures Inv(After(s, actions))
    decreases |actions|
  {
    hide Inv;
    if actions != [] {
      NextKeepsInv(s, actions[0]);
      RunKeepsInv(Next(s, actions[0]), actions[1..]);
    }
  }

  /**
    Reclamation safety, over every run: each raw pointer `exec` still has to dereference, from the event batch or
    from its copy of the sockets, is owned by the registry, by the removable handles, or by the one registration that
    holds the mutex (whose caller holds a shared pointer until it returns).
   */
  lemma RawPointersAreOwned(actions: seq<Action>)
    requires Runs(Initial, actions)
    ensures var s := After(Initial, actions); Raw(s) <= Kept(s) + LockHolder(s)
  {
    RunKeepsInv(Initial, actions);
    var s := After(Initial, actions);
    forall h | h in Raw(s) ensures h in Kept(s) + LockHolder(s) {
      if Registered(s, h) {
        assert s.reg.handles[s.info[h].fd] == h;
      }
    }
  }

  /** Registry agreement, over every run: whenever no registration holds the mutex. */
  lemma RegistryAgrees(actions: seq<Action>)
    requires Runs(Initial, actions)
    ensures var s := After(Initial, actions);
            && (forall fd :: fd in s.reg.handles ==> s.reg.handles[fd] in s.info && s.info[s.reg.handles[fd]].fd == fd)
            && (s.lock == None ==>
                  s.reg.sockets == set fd | fd in s.reg.handles && IsSocket(s, s.reg.handles[fd]) :: s.reg.handles[fd])
  {
    RunKeepsInv(Initial, actions);
    var s := After(Initial, actions);
    if s.lock == None {
      forall h | h in s.reg.sockets
        ensures h in set fd | fd in s.reg.handles && IsSocket(s, s.reg.handles[fd]) :: s.reg.handles[fd]
      {
        assert s.reg.handles[s.info[h].fd] == h;
      }
    }
  }

  /** Over every run: the event loop watches open descriptors only. */
  lemma OnlyOpenIsWatched(actions: seq<Action>)
    requires Runs(Initial, actions)
    ensures var s := After(Initial, actions); forall fd :: fd in s.reg.interest ==> fd in s.open
  {
    RunKeepsInv(Initial, actions);
  }
}
