/**
  How the repository uses the runtime: a socket is handed out, to a callback or to the caller, after its registration
  has returned, so that no thread can close it before; and acceptors are closed by the event loop only.
 */
module RuntimeUsage {
  import opened HandleRegistry
  import opened RuntimeSystem
  import opened RuntimeSafety
  import opened RuntimeDescriptors
  import opened Options

  ghost predicate Used(s: System, a: Action) {
    match a
    case RegisterBegin(h) => h !in s.known && h !in s.closeBegun
    case CloseBegin(h) => IsSocket(s, h) && h !in s.waiting && s.lock != Some(h)
    case _ => true
  }

  ghost predicate UsedRun(s: System, actions: seq<Action>)
    decreases |actions|
  {
    actions == [] || (Enabled(s, actions[0]) && Used(s, actions[0]) && UsedRun(Next(s, actions[0]), actions[1..]))
  }

  ghost predicate Batched(s: System, h: nat) {
    s.pc.Dispatching? && h in s.pc.batch
  }

  /** Acceptors have no flag, but only the head of the batch can be one that has been asked to close. */
  ghost predicate AcceptorInv(s: System) {
    && (s.pc.Dispatching? ==> Distinct(s.pc.batch) && (s.pc.busy ==> s.pc.batch != []))
    && forall h :: h in s.closeBegun && h in s.info && s.info[h].kind == Acceptor ==>
         && (Batched(s, h) ==> s.pc.busy && s.pc.batch[0] == h)
         && (h in s.closing ==> Batched(s, h))
  }

  ghost predicate UsedInv(s: System) {
    AcceptorInv(s) && forall h :: h in s.waiting ==> h !in s.closeBegun
  }

  lemma UsedIsDisciplined(s: System, a: Action)
    requires FreshInv(s) && UsedInv(s) && Enabled(s, a) && Used(s, a)
    ensures Disciplined(s, a)
  {
    hide WatchInv, RegistrationInv;
    if a.ExecClose? {
      assert Batched(s, s.pc.batch[0]);
    }
  }

  lemma PollStep(s: System, batch: seq<nat>)
    requires Inv(s) && FreshInv(s) && NoneLost(s) && UsedInv(s) && Enabled(s, EpollWait(batch))
    ensures UsedInv(Next(s, EpollWait(batch)))
  {
    hide WatchInv, RegistrationInv, DescriptorsInv, RawInv, Agreement;
    var t := Next(s, EpollWait(batch));
    forall h | Batched(t, h) && IsAcceptor(s, h) ensures h !in s.closeBegun {
      var i :| 0 <= i < |batch| && batch[i] == h;
      var fd :| fd in s.reg.interest && s.reg.interest[fd].handle == h;
      assert !LostHandle(s, h);
    }
  }

  ghost predicate IsAcceptor(s: System, h: nat) {
    h in s.info && s.info[h].kind == Acceptor
  }

  lemma CloseStepKeepsUse(s: System, a: Action)
    requires Inv(s) && FreshInv(s) && UsedInv(s) && Enabled(s, a) && Used(s, a)
    requires a.CloseBegin? || a.CloseCheck? || a.CloseDeregister? || a.CloseDescriptor?
    ensures UsedInv(Next(s, a))
  {
    hide WatchInv, RegistrationInv, RawInv, InterestInv;
    var t := Next(s, a);
    assert forall k :: Batched(t, k) <==> Batched(s, k);
  }

  lemma ExecCloseKeepsUse(s: System)
    requires Inv(s) && FreshInv(s) && UsedInv(s) && Enabled(s, ExecClose)
    ensures UsedInv(Next(s, ExecClose))
  {
    hide WatchInv, Agreement, InterestInv;
    var h, t := s.pc.batch[0], Next(s, ExecClose);
    assert h in Raw(s);
    assert forall k :: Batched(t, k) <==> Batched(s, k);
  }

  lemma DispatchKeepsUse(s: System)
    requires UsedInv(s) && Enabled(s, DispatchDone)
    ensures UsedInv(Next(s, DispatchDone))
  {
    var t := Next(s, DispatchDone);
    assert forall k :: Batched(t, k) <==> Batched(s, k) && k != s.pc.batch[0];
  }

  lemma OtherKeepsUse(s: System, a: Action)
    requires FreshInv(s) && UsedInv(s) && Enabled(s, a) && Used(s, a)
    requires a.Create? || a.RegisterBegin? || a.RegisterLock? || a.RegisterInsert? || a.RegisterReturn?
          || a.Snapshot? || a.SweepOne? || a.Clear? || a.Release? || a.Restart?
    requires a.RegisterLock? ==> s.info[a.h].fd !in s.reg.handles
    ensures UsedInv(Next(s, a))
  {
    hide WatchInv, RegistrationInv;
    var t := Next(s, a);
    assert forall k :: Batched(t, k) ==> Batched(s, k);
  }

  lemma NextKeepsUse(s: System, a: Action)
    requires Inv(s) && FreshInv(s) && NoneLost(s) && UsedInv(s) && Enabled(s, a) && Used(s, a)
    ensures UsedInv(Next(s, a))
  {
    hide Inv, FreshInv, NoneLost, UsedInv, Next, Used;
    match a {
      case EpollWait(batch) => PollStep(s, batch);
      case CloseBegin(_) => CloseStepKeepsUse(s, a);
      case CloseCheck(_) => CloseStepKeepsUse(s, a);
      case CloseDeregister(_) => CloseStepKeepsUse(s, a);
      case CloseDescriptor(_) => CloseStepKeepsUse(s, a);
      case ExecClose => ExecCloseKeepsUse(s);
      case DispatchDone => DispatchKeepsUse(s);
      case RegisterLock(h) =>
        LockFindsNothing(s, h);
        OtherKeepsUse(s, a);
      case _ => OtherKeepsUse(s, a);
    }
  }

  /** The repository's use is disciplined: no acceptor is closed twice, no handle deregistered before its insertion. */
  lemma {:induction false} UsedRunIsDisciplined(s: System, actions: seq<Action>)
    requires Inv(s) && FreshInv(s) && NoneLost(s) && !s.replaced && UsedInv(s) && UsedRun(s, actions)
    ensures DisciplinedRun(s, actions)
    decreases |actions|
  {
    hide Inv, FreshInv, NoneLost, UsedInv, Next, Enabled, Used, Disciplined;
    if actions != [] {
      var t := Next(s, actions[0]);
      UsedIsDisciplined(s, actions[0]);
      DisciplinedNeverReplaces(s, actions[0]);
      NextKeepsInv(s, actions[0]);
      NextKeepsFreshIfDisciplined(s, actions[0]);
      NextKeepsUse(s, actions[0]);
      UsedRunIsDisciplined(t, actions[1..]);
    }
  }

  lemma NextKeepsFreshIfDisciplined(s: System, a: Action)
    requires Inv(s) && FreshInv(s) && NoneLost(s) && Enabled(s, a) && Disciplined(s, a) && !Next(s, a).replaced
    ensures FreshInv(Next(s, a)) && NoneLost(Next(s, a))
  {
    hide Inv, FreshInv, NoneLost, Next, Enabled, Fresh;
    NextKeepsFresh(s, a);
  }

  /** So the replace branch is dead code as the repository uses the runtime. */
  lemma UseNeverReplaces(actions: seq<Action>)
    requires UsedRun(Initial, actions)
    ensures DisciplinedRun(Initial, actions) && Runs(Initial, actions) && !After(Initial, actions).replaced
  {
    InitialIsFresh();
    UsedRunIsDisciplined(Initial, actions);
    ReplaceBranchUnreachable(actions);
  }
}
