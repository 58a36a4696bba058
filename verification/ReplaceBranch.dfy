/**
  When the replace branch of `register_handle` can be reached. From a state of a fresh run, disciplined steps alone
  reach it exactly if a handle has been lost, that is, deregistered before it was inserted. And the repository's own
  use of the runtime loses none.
 */
module ReplaceBranch {
  import opened HandleRegistry
  import opened RuntimeSystem
  import opened RuntimeSafety
  import opened RuntimeDescriptors
  import opened Options
  import opened Sets

  /** Disciplined steps alone lead from here to the replace branch. */
  ghost predicate Reaches(s: System) {
    exists actions :: DisciplinedRun(s, actions) && Runs(s, actions) && After(s, actions).replaced
  }

  lemma ReachesNow(s: System)
    requires s.replaced
    ensures Reaches(s)
  {
    assert DisciplinedRun(s, []) && Runs(s, []) && After(s, []) == s;
  }

  lemma ReachesAfter(s: System, a: Action)
    requires Enabled(s, a) && Disciplined(s, a) && Reaches(Next(s, a))
    ensures Reaches(s)
  {
    hide Enabled, Next, Disciplined;
    var t := Next(s, a);
    var actions :| DisciplinedRun(t, actions) && Runs(t, actions) && After(t, actions).replaced;
    var all := [a] + actions;
    assert all[0] == a && all[1..] == actions;
    assert DisciplinedRun(s, all) && Runs(s, all) && After(s, all) == After(t, actions);
  }

  /** A disciplined step that does not replace stays among the states of fresh runs. */
  lemma Keeps(s: System, a: Action)
    requires Inv(s) && FreshInv(s) && Enabled(s, a) && Disciplined(s, a) && !Next(s, a).replaced
    ensures Inv(Next(s, a)) && FreshInv(Next(s, a))
  {
    hide Inv, FreshInv, Next, Enabled, Fresh;
    NextKeepsInv(s, a);
    NextKeepsFresh(s, a);
  }

  /** The registry holds a handle whose `close` call has returned, under a descriptor number that is free or reused. */
  ghost predicate DeadEntry(s: System, h: nat) {
    && Inv(s) && FreshInv(s) && !s.replaced && s.lock == None
    && Registered(s, h) && h in s.closeBegun && h !in s.closing
  }

  /** The number is free: the kernel gives it to a new handle, and its registration finds the dead entry. */
  lemma FreeNumberReaches(s: System, h: nat)
    requires DeadEntry(s, h) && s.info[h].fd !in s.open
    ensures Reaches(s)
  {
    var fd := s.info[h].fd;
    var n := UnusedNumber(s.info.Keys);
    hide InterestInv, RawInv, WatchInv, Mask;
    var s1 := Next(s, Create(n, fd, Socket));
    assert n !in s.known && n !in s.closeBegun;
    assert Disciplined(s1, RegisterBegin(n)) && Enabled(s1, RegisterBegin(n));
    var s2 := Next(s1, RegisterBegin(n));
    assert Enabled(s2, RegisterLock(n));
    ReachesNow(Next(s2, RegisterLock(n)));
    ReachesAfter(s2, RegisterLock(n));
    ReachesAfter(s1, RegisterBegin(n));
    ReachesAfter(s, Create(n, fd, Socket));
  }

  /** The entry is still there after a step that is not about its handle. */
  lemma StaysDead(s: System, h: nat, a: Action)
    requires DeadEntry(s, h) && Enabled(s, a) && Disciplined(s, a)
    requires a.CloseBegin? || a.CloseCheck? || a.CloseDeregister? || a.CloseDescriptor?
    requires a.h != h && s.info[a.h].fd == s.info[h].fd
    ensures DeadEntry(Next(s, a), h) && Next(s, a).info == s.info
  {
    Keeps(s, a);
    hide Inv, FreshInv, Disciplined;
  }

  /** The number is in use by `k`, whose `close` call can be completed: one lemma for each stage it may be at. */
  lemma AtDescriptorReaches(s: System, h: nat, k: nat)
    requires DeadEntry(s, h) && k in s.closing && s.closing[k] == Descriptor
    requires k in s.info && s.info[k].fd == s.info[h].fd
    ensures Reaches(s)
  {
    hide Inv, FreshInv;
    StaysDead(s, h, CloseDescriptor(k));
    FreeNumberReaches(Next(s, CloseDescriptor(k)), h);
    ReachesAfter(s, CloseDescriptor(k));
  }

  lemma WaitingReaches(s: System, h: nat, k: nat)
    requires DeadEntry(s, h) && k in s.waiting && k in s.info && s.info[k].fd == s.info[h].fd
    ensures Reaches(s)
  {
    hide Inv, FreshInv;
    ReachesNow(Next(s, RegisterLock(k)));
    ReachesAfter(s, RegisterLock(k));
  }

  lemma AtDeregistrationReaches(s: System, h: nat, k: nat)
    requires DeadEntry(s, h) && k in s.closing && s.closing[k] == Deregistering
    requires k in s.info && s.info[k].fd == s.info[h].fd
    ensures Reaches(s)
  {
    hide Inv, FreshInv;
    if k in s.waiting {
      WaitingReaches(s, h, k);
    } else {
      StaysDead(s, h, CloseDeregister(k));
      AtDescriptorReaches(Next(s, CloseDeregister(k)), h, k);
      ReachesAfter(s, CloseDeregister(k));
    }
  }

  lemma AtCheckReaches(s: System, h: nat, k: nat)
    requires DeadEntry(s, h) && k in s.closing && s.closing[k] == Checking
    requires k in s.info && s.info[k].fd == s.info[h].fd
    ensures Reaches(s)
  {
    hide Inv, FreshInv;
    StaysDead(s, h, CloseCheck(k));
    var t := Next(s, CloseCheck(k));
    if t.closing[k] == Descriptor {
      AtDescriptorReaches(t, h, k);
    } else {
      AtDeregistrationReaches(t, h, k);
    }
    ReachesAfter(s, CloseCheck(k));
  }

  lemma UnclosedReaches(s: System, h: nat, k: nat)
    requires DeadEntry(s, h) && Unclosed(s, k) && s.info[k].fd == s.info[h].fd
    ensures Reaches(s)
  {
    hide Inv, FreshInv;
    if k in s.closing {
      match s.closing[k] {
        case Checking => AtCheckReaches(s, h, k);
        case Deregistering => AtDeregistrationReaches(s, h, k);
        case Descriptor => AtDescriptorReaches(s, h, k);
      }
    } else {
      StaysDead(s, h, CloseBegin(k));
      AtCheckReaches(Next(s, CloseBegin(k)), h, k);
      ReachesAfter(s, CloseBegin(k));
    }
  }

  lemma DeadEntryReaches(s: System, h: nat)
    requires DeadEntry(s, h)
    ensures Reaches(s)
  {
    var fd := s.info[h].fd;
    if fd in s.open {
      UnclosedReaches(s, h, s.open[fd]);
    } else {
      FreeNumberReaches(s, h);
    }
  }

  /** Towards a dead entry: the lost handle's `close` call returns, and its registration ends. */
  lemma LostEntryReaches(s: System, h: nat)
    requires Inv(s) && FreshInv(s) && !s.replaced && s.lock == None && Registered(s, h) && PastDeregistration(s, h)
    ensures Reaches(s)
  {
    hide Inv, FreshInv;
    if h in s.closing {
      var t := Next(s, CloseDescriptor(h));
      Keeps(s, CloseDescriptor(h));
      DeadEntryReaches(t, h);
      ReachesAfter(s, CloseDescriptor(h));
    } else {
      DeadEntryReaches(s, h);
    }
  }

  lemma LostAtLockReaches(s: System, h: nat)
    requires Inv(s) && FreshInv(s) && !s.replaced && s.lock == Some(h) && h in s.info && PastDeregistration(s, h)
    ensures Reaches(s)
  {
    hide Inv, FreshInv;
    Keeps(s, RegisterInsert(h));
    LostEntryReaches(Next(s, RegisterInsert(h)), h);
    ReachesAfter(s, RegisterInsert(h));
  }

  lemma LostWaitingReaches(s: System, h: nat)
    requires Inv(s) && FreshInv(s) && !s.replaced && s.lock == None
    requires h in s.waiting && h in s.info && PastDeregistration(s, h)
    ensures Reaches(s)
  {
    hide Inv, FreshInv;
    var t := Next(s, RegisterLock(h));
    if t.replaced {
      ReachesNow(t);
    } else {
      Keeps(s, RegisterLock(h));
      LostAtLockReaches(t, h);
    }
    ReachesAfter(s, RegisterLock(h));
  }

  lemma LostHandleReaches(s: System, h: nat)
    requires Inv(s) && FreshInv(s) && !s.replaced && LostHandle(s, h)
    ensures Reaches(s)
  {
    assert h in s.info;
    hide Inv, FreshInv;
    if s.lock == Some(h) {
      LostAtLockReaches(s, h);
    } else if s.lock.Some? {
      UnlockReaches(s, s.lock.value, h);
    } else if h in s.waiting {
      LostWaitingReaches(s, h);
    } else {
      LostEntryReaches(s, h);
    }
  }

  /** Another registration holds the mutex: it ends first. */
  lemma UnlockReaches(s: System, k: nat, h: nat)
    requires Inv(s) && FreshInv(s) && !s.replaced && s.lock == Some(k) && k != h && h in s.info && LostHandle(s, h)
    ensures Reaches(s)
  {
    var t := Next(s, RegisterInsert(k));
    assert Registered(s, h) ==> Registered(t, h);
    Keeps(s, RegisterInsert(k));
    hide Inv, FreshInv;
    if h in t.waiting {
      LostWaitingReaches(t, h);
    } else {
      LostEntryReaches(t, h);
    }
    ReachesAfter(s, RegisterInsert(k));
  }

  /** After any fresh run, disciplined steps reach the replace branch if and only if a handle has been lost. */
  lemma ReplaceBranchExactly(actions: seq<Action>)
    requires FreshRun(Initial, actions) && Runs(Initial, actions) && !After(Initial, actions).replaced
    ensures Reaches(After(Initial, actions)) <==> exists h :: LostHandle(After(Initial, actions), h)
  {
    InitialIsFresh();
    RunKeepsFresh(Initial, actions);
    var s := After(Initial, actions);
    hide Inv, FreshInv, LostHandle, Runs, After, DisciplinedRun;
    if h :| LostHandle(s, h) {
      LostHandleReaches(s, h);
    } else {
      forall more | DisciplinedRun(s, more) && Runs(s, more) ensures !After(s, more).replaced {
        RunLosesNone(s, more);
      }
    }
  }

  lemma {:induction false} Extend(s: System, actions: seq<Action>, a: Action)
    requires FreshRun(s, actions) && Runs(s, actions) && Enabled(After(s, actions), a) && Fresh(After(s, actions), a)
    ensures FreshRun(s, actions + [a]) && Runs(s, actions + [a])
    ensures After(s, actions + [a]) == Next(After(s, actions), a)
    decreases |actions|
  {
    hide Enabled, Next, Fresh;
    var all := actions + [a];
    if actions == [] {
      assert all[1..] == [];
    } else {
      assert all[0] == actions[0] && all[1..] == actions[1..] + [a];
      Extend(Next(s, actions[0]), actions[1..], a);
    }
  }

  /** A socket is closed while its registration waits for the mutex ... */
  lemma EarlyClose() returns (actions: seq<Action>)
    ensures FreshRun(Initial, actions) && Runs(Initial, actions)
    ensures
      var s := After(Initial, actions);
      && s.info == map[1 := Info(5, Socket)] && s.waiting == {1} && s.closeBegun == {1} && s.closing == map[]
      && s.open == map[] && s.reg == Empty() && s.lock == None && s.returning == {} && !s.replaced
  {
    actions := [];
    Extend(Initial, actions, Create(1, 5, Socket));
    actions := actions + [Create(1, 5, Socket)];
    Extend(Initial, actions, RegisterBegin(1));
    actions := actions + [RegisterBegin(1)];
    Extend(Initial, actions, CloseBegin(1));
    actions := actions + [CloseBegin(1)];
    Extend(Initial, actions, CloseCheck(1));
    actions := actions + [CloseCheck(1)];
    Extend(Initial, actions, CloseDeregister(1));
    actions := actions + [CloseDeregister(1)];
    Extend(Initial, actions, CloseDescriptor(1));
    actions := actions + [CloseDescriptor(1)];
  }

  /** ... and is registered with a dead descriptor, which nobody watches. */
  lemma EarlyCloseLeavesDeadEntry() returns (actions: seq<Action>)
    ensures FreshRun(Initial, actions) && Runs(Initial, actions)
    ensures
      var s := After(Initial, actions);
      && s.lock == None && s.reg.handles == map[5 := 1] && s.open == map[] && 2 !in s.info
      && s.waiting == {} && s.returning == {1} && s.reg.interest == map[]
  {
    actions := EarlyClose();
    Extend(Initial, actions, RegisterLock(1));
    actions := actions + [RegisterLock(1)];
    Extend(Initial, actions, RegisterInsert(1));
    actions := actions + [RegisterInsert(1)];
  }

  lemma {:induction false} RunsJoin(s: System, actions: seq<Action>, more: seq<Action>)
    requires Runs(s, actions) && Runs(After(s, actions), more)
    ensures Runs(s, actions + more) && After(s, actions + more) == After(After(s, actions), more)
    decreases |actions|
  {
    hide Enabled, Next;
    var all := actions + more;
    if actions == [] {
      assert all == more;
    } else {
      assert all[0] == actions[0] && all[1..] == actions[1..] + more;
      RunsJoin(Next(s, actions[0]), actions[1..], more);
    }
  }

  /** So the replace branch is reachable: the run above has lost a handle. */
  lemma ReplaceBranchReachableByEarlyClose() returns (actions: seq<Action>)
    ensures Runs(Initial, actions) && After(Initial, actions).replaced
  {
    var early := EarlyClose();
    var s := After(Initial, early);
    hide Runs, After, FreshRun, DisciplinedRun, Inv, FreshInv, Reaches;
    assert LostHandle(s, 1);
    ReplaceBranchExactly(early);
    var more := ReachingRun(s);
    RunsJoin(Initial, early, more);
    actions := early + more;
  }

  lemma ReachingRun(s: System) returns (actions: seq<Action>)
    requires Reaches(s)
    ensures Runs(s, actions) && After(s, actions).replaced
  {
    actions :| DisciplinedRun(s, actions) && Runs(s, actions) && After(s, actions).replaced;
  }
}
