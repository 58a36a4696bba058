/** The timer thread interleaved with callers of `async_wait_until` and `stop`, over whole runs. */
module TimerSystem {
  import opened Timer

  /** Where `exec` is. `signalled` says that the condition variable has been notified since the thread blocked. */
  datatype Pc =
    | Idle
    | LoopTest
    | Firing(operations: seq<WaitOperation>, now: int)
    | Blocked(signalled: bool)
    | Sleeping

  datatype Firing = Fired(operation: WaitOperation, now: int)

  datatype System = System(
    stopped: bool,
    waiters: multiset<WaitOperation>,
    pc: Pc,
    accepted: seq<WaitOperation>,
    fired: seq<Firing>,
    discarded: multiset<WaitOperation>)

  /** `Take` is given what the round takes, since the order of equal deadlines is the queue's choice. */
  datatype Action =
    | Start
    | WaitUntil(timePoint: int)
    | Take(now: int, operations: seq<WaitOperation>)
    | Fire
    | CheckQueue
    | Wake
    | SleepDone
    | Stop
    | Exit

  const Initial := System(true, multiset{}, Idle, [], [], multiset{})

  ghost predicate Enabled(s: System, a: Action) {
    match a
    case Start => s.pc == Idle
    case WaitUntil(_) => true
    case Take(now, operations) => s.pc == LoopTest && !s.stopped && IsRound(s.waiters, now, operations)
    case Fire => s.pc.Firing? && s.pc.operations != []
    case CheckQueue => s.pc.Firing? && s.pc.operations == []
    case Wake => s.pc.Blocked?
    case SleepDone => s.pc == Sleeping
    case Stop => true
    case Exit => s.pc == LoopTest && s.stopped
  }

  /** Clearing the queue at the end of `exec`. */
  function Leave(s: System): System {
    s.(pc := Idle, waiters := multiset{}, discarded := s.discarded + s.waiters)
  }

  ghost function Next(s: System, a: Action): System
    requires Enabled(s, a)
  {
    match a
    case Start => s.(pc := LoopTest, stopped := false)
    case WaitUntil(timePoint) =>
      var operation := WaitOperation(timePoint, |s.accepted|);
      s.(waiters := s.waiters + multiset{operation},
         accepted := s.accepted + [operation],
         pc := if s.pc.Blocked? && s.waiters == multiset{} then Blocked(true) else s.pc)
    case Take(now, operations) => s.(waiters := s.waiters - multiset(operations), pc := Firing(operations, now))
    case Fire =>
      s.(fired := s.fired + [Fired(s.pc.operations[0], s.pc.now)], pc := s.pc.(operations := s.pc.operations[1..]))
    case CheckQueue => s.(pc := if s.waiters == multiset{} then Blocked(false) else Sleeping)
    case Wake => if s.stopped then Leave(s) else s.(pc := Sleeping)
    case SleepDone => s.(pc := LoopTest)
    case Stop => s.(stopped := true, pc := if s.pc.Blocked? then Blocked(true) else s.pc)
    case Exit => Leave(s)
  }

  ghost predicate Runs(s: System, actions: seq<Action>)
    decreases |actions|
  {
    actions == [] || (Enabled(s, actions[0]) && Runs(Next(s, actions[0]), actions[1..]))
  }

  ghost function After(s: System, actions: seq<Action>): System
    requires Runs(s, actions)
    decreases |actions|
  {
    if actions == [] then s else After(Next(s, actions[0]), actions[1..])
  }

  /** The operations taken by the current round whose callbacks have not run yet. */
  function Due(s: System): seq<WaitOperation> {
    if s.pc.Firing? then s.pc.operations else []
  }

  function CountFired(fired: seq<Firing>, x: WaitOperation): nat {
    if fired == [] then 0
    else CountFired(fired[..|fired| - 1], x) + if fired[|fired| - 1].operation == x then 1 else 0
  }

  /** How often an operation is queued, taken, fired or discarded. */
  function Count(s: System, x: WaitOperation): nat {
    s.waiters[x] + multiset(Due(s))[x] + CountFired(s.fired, x) + s.discarded[x]
  }

  ghost predicate CountInv(s: System) {
    forall x :: Count(s, x) == multiset(s.accepted)[x]
  }

  ghost predicate TimeInv(s: System) {
    && (forall i :: 0 <= i < |s.accepted| ==> s.accepted[i].id == i)
    && (s.pc.Firing? ==> forall x :: x in s.pc.operations ==> x.timePoint <= s.pc.now)
    && (forall i :: 0 <= i < |s.fired| ==> s.fired[i].operation.timePoint <= s.fired[i].now)
    && (s.pc == Blocked(false) ==> s.waiters == multiset{})
  }

  ghost predicate Inv(s: System) {
    CountInv(s) && TimeInv(s)
  }

  lemma FireCounts(s: System)
    requires CountInv(s) && Enabled(s, Fire)
    ensures CountInv(Next(s, Fire))
  {
    var t := Next(s, Fire);
    assert s.pc.operations == [s.pc.operations[0]] + t.pc.operations;
    assert t.fired[..|t.fired| - 1] == s.fired;
    forall x ensures Count(t, x) == Count(s, x) {}
  }

  lemma WaitCounts(s: System, timePoint: int)
    requires CountInv(s)
    ensures CountInv(Next(s, WaitUntil(timePoint)))
  {
    hide CountFired;
    var t := Next(s, WaitUntil(timePoint));
    forall x ensures Count(t, x) == multiset(t.accepted)[x] {
      assert Count(s, x) == multiset(s.accepted)[x];
    }
  }

  lemma TakeCounts(s: System, now: int, operations: seq<WaitOperation>)
    requires CountInv(s) && Enabled(s, Take(now, operations))
    ensures CountInv(Next(s, Take(now, operations)))
  {
    hide CountFired, LatestFirst;
    var t := Next(s, Take(now, operations));
    forall x ensures Count(t, x) == Count(s, x) {
      assert multiset(operations)[x] <= s.waiters[x];
    }
  }

  lemma OtherCounts(s: System, a: Action)
    requires CountInv(s) && Enabled(s, a) && !a.Fire? && !a.WaitUntil? && !a.Take?
    ensures CountInv(Next(s, a))
  {
    hide CountFired, IsRound;
    forall x ensures Count(Next(s, a), x) == Count(s, x) {}
  }

  lemma TakenAreDue(waiters: multiset<WaitOperation>, now: int, operations: seq<WaitOperation>)
    requires IsRound(waiters, now, operations)
    ensures forall x :: x in operations ==> x.timePoint <= now
  {
    assert forall x :: x in operations ==> x in multiset(operations);
  }

  lemma NextKeepsTimes(s: System, a: Action)
    requires TimeInv(s) && Enabled(s, a)
    ensures TimeInv(Next(s, a))
  {
    hide IsRound;
    if a.Take? {
      TakenAreDue(s.waiters, a.now, a.operations);
    }
  }

  lemma NextKeepsInv(s: System, a: Action)
    requires Inv(s) && Enabled(s, a)
    ensures Inv(Next(s, a))
  {
    hide CountInv, TimeInv, IsRound, Next;
    NextKeepsTimes(s, a);
    match a {
      case Fire => FireCounts(s);
      case WaitUntil(timePoint) => WaitCounts(s, timePoint);
      case Take(now, operations) => TakeCounts(s, now, operations);
      case _ => OtherCounts(s, a);
    }
  }

  lemma {:induction false} RunKeepsInv(s: System, actions: seq<Action>)
    requires Inv(s) && Runs(s, actions)
    ensures Inv(After(s, actions))
    decreases |actions|
  {
    hide Inv;
    if actions != [] {
      NextKeepsInv(s, actions[0]);
      RunKeepsInv(Next(s, actions[0]), actions[1..]);
    }
  }

  /** Over every run: no callback has run before its deadline. */
  lemma NothingFiresEarly(actions: seq<Action>, i: nat)
    requires Runs(Initial, actions) && i < |After(Initial, actions).fired|
    ensures var f := After(Initial, actions).fired[i]; f.operation.timePoint <= f.now
  {
    RunKeepsInv(Initial, actions);
  }

  lemma {:induction false} OnceAmongNumbered(operations: seq<WaitOperation>, id: nat)
    requires id < |operations| && forall i :: 0 <= i < |operations| ==> operations[i].id == i
    ensures multiset(operations)[operations[id]] == 1
    decreases |operations|
  {
    var n := |operations| - 1;
    var front := operations[..n];
    assert operations == front + [operations[n]];
    if id < n {
      OnceAmongNumbered(front, id);
    } else {
      assert operations[n] !in front;
    }
  }

  /** Over every run: each accepted operation is queued, taken, fired or discarded at stop, in one place and once. */
  lemma EachOperationIsInOnePlace(actions: seq<Action>, id: nat)
    requires Runs(Initial, actions) && id < |After(Initial, actions).accepted|
    ensures
      var s := After(Initial, actions);
      var x := s.accepted[id];
      s.waiters[x] + multiset(Due(s))[x] + CountFired(s.fired, x) + s.discarded[x] == 1
  {
    RunKeepsInv(Initial, actions);
    var s := After(Initial, actions);
    OnceAmongNumbered(s.accepted, id);
    hide Runs, After, CountFired;
    assert Count(s, s.accepted[id]) == 1;
  }

  /** Over every run: the thread is never blocked, without a notification under way, while operations are queued. */
  lemma NeverBlockedWithWork(actions: seq<Action>)
    requires Runs(Initial, actions)
    ensures var s := After(Initial, actions); s.pc == Blocked(false) ==> s.waiters == multiset{}
  {
    RunKeepsInv(Initial, actions);
  }

  lemma {:induction false} Extend(s: System, actions: seq<Action>, a: Action)
    requires Runs(s, actions) && Enabled(After(s, actions), a)
    ensures Runs(s, actions + [a]) && After(s, actions + [a]) == Next(After(s, actions), a)
    decreases |actions|
  {
    hide Enabled, Next;
    var all := actions + [a];
    if actions == [] {
      assert all[1..] == [];
    } else {
      assert all[0] == actions[0] && all[1..] == actions[1..] + [a];
      Extend(Next(s, actions[0]), actions[1..], a);
    }
  }

  /** How many rounds found the operation due. */
  function RoundsDue(actions: seq<Action>, timePoint: int): nat {
    if actions == [] then 0
    else (if actions[0].Take? && timePoint <= actions[0].now then 1 else 0) + RoundsDue(actions[1..], timePoint)
  }

  lemma {:induction false} RoundsDueJoin(actions: seq<Action>, more: seq<Action>, timePoint: int)
    ensures RoundsDue(actions + more, timePoint) == RoundsDue(actions, timePoint) + RoundsDue(more, timePoint)
    decreases |actions|
  {
    if actions == [] {
      assert actions + more == more;
    } else {
      assert (actions + more)[0] == actions[0] && (actions + more)[1..] == actions[1..] + more;
      RoundsDueJoin(actions[1..], more, timePoint);
    }
  }

  /** Two operations are queued, one due at 0 and one later, and the thread is about to begin a round. */
  predicate Starving(s: System, later: int) {
    && s.pc == LoopTest && !s.stopped && s.fired == []
    && s.waiters == multiset{WaitOperation(0, 0), WaitOperation(later, 1)}
  }

  lemma StarvingRound(s: System, later: int, now: int)
    requires Starving(s, later) && now < later
    ensures Enabled(s, Take(now, [])) && Enabled(Next(s, Take(now, [])), CheckQueue)
    ensures Enabled(Next(Next(s, Take(now, [])), CheckQueue), SleepDone)
    ensures Starving(Next(Next(Next(s, Take(now, [])), CheckQueue), SleepDone), later)
  {
    assert WaitOperation(later, 1) in s.waiters;
  }

  lemma StarvingStart(later: int) returns (actions: seq<Action>)
    ensures Runs(Initial, actions) && Starving(After(Initial, actions), later) && RoundsDue(actions, 0) == 0
  {
    actions := [];
    Extend(Initial, actions, Start);
    actions := actions + [Start];
    Extend(Initial, actions, WaitUntil(0));
    actions := actions + [WaitUntil(0)];
    Extend(Initial, actions, WaitUntil(later));
    actions := actions + [WaitUntil(later)];
    RoundsDueJoin([Start, WaitUntil(0)], [WaitUntil(later)], 0);
    RoundsDueJoin([Start], [WaitUntil(0)], 0);
    assert actions == [Start] + [WaitUntil(0)] + [WaitUntil(later)];
    assert [Start, WaitUntil(0)] == [Start] + [WaitUntil(0)];
    assert forall a: Action :: [a][1..] == [];
  }

  lemma {:induction false} StarvingRounds(n: nat, later: int) returns (actions: seq<Action>)
    requires n < later
    ensures Runs(Initial, actions) && Starving(After(Initial, actions), later) && RoundsDue(actions, 0) == n
    decreases n
  {
    if n == 0 {
      actions := StarvingStart(later);
    } else {
      actions := StarvingRounds(n - 1, later);
      hide Enabled, Next, Starving, Runs, After;
      StarvingRound(After(Initial, actions), later, n);
      Extend(Initial, actions, Take(n, []));
      Extend(Initial, actions + [Take(n, [])], CheckQueue);
      Extend(Initial, actions + [Take(n, [])] + [CheckQueue], SleepDone);
      var round := [Take(n, []), CheckQueue, SleepDone];
      assert actions + [Take(n, [])] + [CheckQueue] + [SleepDone] == actions + round;
      RoundIsDue(n);
      RoundsDueJoin(actions, round, 0);
      actions := actions + round;
    }
  }

  lemma RoundIsDue(n: nat)
    ensures RoundsDue([Take(n, []), CheckQueue, SleepDone], 0) == 1
  {
    assert RoundsDue([SleepDone], 0) == 0;
    assert RoundsDue([CheckQueue, SleepDone], 0) == 0;
  }

  /** A due operation can be passed over in any number of rounds, at ever later times, while a later one is queued. */
  lemma DueOperationCanStarve(n: nat) returns (actions: seq<Action>)
    ensures Runs(Initial, actions) && RoundsDue(actions, 0) == n
    ensures
      var s := After(Initial, actions);
      |s.accepted| > 0 && s.accepted[0] == WaitOperation(0, 0) && s.accepted[0] in s.waiters && s.fired == []
  {
    actions := StarvingRounds(n, n + 1);
    RunKeepsInv(Initial, actions);
    hide Runs, After, Enabled;
    var s := After(Initial, actions);
    var x := WaitOperation(0, 0);
    assert Count(s, x) == multiset(s.accepted)[x];
    assert x in s.waiters && Count(s, x) >= 1;
    assert x in multiset(s.accepted);
    var i :| 0 <= i < |s.accepted| && s.accepted[i] == x;
  }

  predicate NoStop(actions: seq<Action>) {
    Stop !in actions
  }

  /** The thread runs: it has been started and nobody has asked it to stop. */
  predicate Running(s: System) {
    s.pc != Idle && !s.stopped
  }

  lemma RunningGoesOn(s: System, a: Action)
    requires Running(s) && Enabled(s, a) && a != Stop
    ensures Running(Next(s, a)) && Next(s, a).discarded == s.discarded
  {
    hide IsRound;
  }

  lemma {:induction false} RunningStays(s: System, actions: seq<Action>)
    requires Running(s) && Runs(s, actions) && NoStop(actions)
    ensures Running(After(s, actions)) && After(s, actions).discarded == s.discarded
    decreases |actions|
  {
    hide Enabled, Next, Running;
    if actions != [] {
      assert actions[0] in actions && forall a :: a in actions[1..] ==> a in actions;
      RunningGoesOn(s, actions[0]);
      RunningStays(Next(s, actions[0]), actions[1..]);
    }
  }

  /** Over every run: from a start on, the thread does not end and nothing is discarded before somebody calls `stop`. */
  lemma OnlyStopEnds(before: seq<Action>, more: seq<Action>)
    requires Runs(Initial, before) && Enabled(After(Initial, before), Start)
    requires Runs(Next(After(Initial, before), Start), more) && NoStop(more)
    ensures
      var s := After(Next(After(Initial, before), Start), more);
      s.pc != Idle && !s.stopped && s.discarded == After(Initial, before).discarded
  {
    hide Runs, After;
    RunningStays(Next(After(Initial, before), Start), more);
  }

  lemma NotYetStopped(s: System, a: Action)
    requires (s.pc == Idle || !s.stopped) && s.discarded == multiset{} && Enabled(s, a) && a != Stop
    ensures
      var t := Next(s, a);
      (t.pc == Idle || !t.stopped) && t.discarded == multiset{}
  {
    hide IsRound;
  }

  lemma {:induction false} NeverStopped(s: System, actions: seq<Action>)
    requires (s.pc == Idle || !s.stopped) && s.discarded == multiset{} && Runs(s, actions) && NoStop(actions)
    ensures After(s, actions).discarded == multiset{}
    decreases |actions|
  {
    hide Enabled, Next;
    if actions != [] {
      assert actions[0] in actions && forall a :: a in actions[1..] ==> a in actions;
      NotYetStopped(s, actions[0]);
      NeverStopped(Next(s, actions[0]), actions[1..]);
    }
  }

  /** So in a run without `stop` each accepted operation is queued, taken or fired. */
  lemma NothingIsDiscardedWithoutStop(actions: seq<Action>, id: nat)
    requires Runs(Initial, actions) && NoStop(actions) && id < |After(Initial, actions).accepted|
    ensures
      var s := After(Initial, actions);
      var x := s.accepted[id];
      s.waiters[x] + multiset(Due(s))[x] + CountFired(s.fired, x) == 1
  {
    NeverStopped(Initial, actions);
    EachOperationIsInOnePlace(actions, id);
  }

  /** What a round's callbacks are told: the operations in the order in which they were taken. */
  function Firings(operations: seq<WaitOperation>, now: int): seq<Firing> {
    seq(|operations|, i requires 0 <= i < |operations| => Fired(operations[i], now))
  }

  function FireAll(n: nat): seq<Action> {
    if n == 0 then [] else [Fire] + FireAll(n - 1)
  }

  /** A round that has taken operations can fire them all, in that order, and goes on to look at the queue. */
  lemma {:induction false} RoundFiresInOrder(s: System, operations: seq<WaitOperation>, now: int)
    requires s.pc == Firing(operations, now)
    ensures Runs(s, FireAll(|operations|))
    ensures After(s, FireAll(|operations|)) == s.(pc := Firing([], now), fired := s.fired + Firings(operations, now))
    ensures Enabled(After(s, FireAll(|operations|)), CheckQueue)
    decreases |operations|
  {
    if operations == [] {
      assert s.fired + [] == s.fired;
    } else {
      var t := Next(s, Fire);
      assert Enabled(s, Fire) && t.pc == Firing(operations[1..], now);
      RoundFiresInOrder(t, operations[1..], now);
      assert FireAll(|operations|)[1..] == FireAll(|operations[1..]|);
      assert s.fired + [Fired(operations[0], now)] + Firings(operations[1..], now) ==
             s.fired + Firings(operations, now);
    }
  }

  lemma BlockedStays(s: System, a: Action)
    requires s.pc.Blocked? && Enabled(s, a) && !a.Wake?
    ensures Next(s, a).pc.Blocked?
  {
    hide IsRound;
  }

  lemma {:induction false} BlockedBeforeWake(s: System, actions: seq<Action>)
    requires s.pc.Blocked? && Runs(s, actions) && Wake !in actions
    ensures After(s, actions).pc.Blocked?
    decreases |actions|
  {
    if actions != [] {
      hide Enabled, Next;
      assert actions[0] in actions && forall a :: a in actions[1..] ==> a in actions;
      BlockedStays(s, actions[0]);
      BlockedBeforeWake(Next(s, actions[0]), actions[1..]);
    }
  }

  /** A thread that finds the queue empty begins no round before it has been woken. */
  lemma NoRoundBeforeWake(s: System, actions: seq<Action>)
    requires Enabled(s, CheckQueue) && s.waiters == multiset{}
    requires Runs(Next(s, CheckQueue), actions) && Wake !in actions
    ensures
      var t := After(Next(s, CheckQueue), actions);
      forall now, operations :: !Enabled(t, Take(now, operations))
  {
    BlockedBeforeWake(Next(s, CheckQueue), actions);
    hide Runs, After;
  }

  lemma {:induction false} RoundExists(waiters: multiset<WaitOperation>) returns (operations: seq<WaitOperation>)
    ensures multiset(operations) == waiters && LatestFirst(operations)
    decreases |waiters|
  {
    operations := [];
    if waiters != multiset{} {
      var top := TopExists(waiters);
      var rest := RoundExists(waiters - multiset{top});
      operations := [top] + rest;
      LatestInFront(top, rest, waiters);
    }
  }

  lemma LatestInFront(top: WaitOperation, rest: seq<WaitOperation>, waiters: multiset<WaitOperation>)
    requires IsTop(top, waiters) && multiset(rest) == waiters - multiset{top} && LatestFirst(rest)
    ensures LatestFirst([top] + rest) && multiset([top] + rest) == waiters
  {
    forall i | 0 <= i < |rest| ensures rest[i].timePoint <= top.timePoint {
      assert rest[i] in multiset(rest);
      assert rest[i] in waiters;
    }
  }

  /** Whatever the state, the thread is not stuck: each of its states has a step that is not another thread's. */
  lemma ThreadGoesOn(s: System, now: int) returns (a: Action)
    requires s.pc != Idle
    ensures Enabled(s, a) && !a.Start? && !a.WaitUntil? && !a.Stop? && (a.Take? ==> a.now == now)
  {
    match s.pc {
      case LoopTest =>
        if s.stopped {
          a := Exit;
        } else {
          var operations := RoundExists(s.waiters);
          a := Take(now, if AllDue(s.waiters, now) then operations else []);
        }
      case Firing(operations, _) => a := if operations == [] then CheckQueue else Fire;
      case Blocked(_) => a := Wake;
      case Sleeping => a := SleepDone;
    }
  }

  /** A woken thread that has not been stopped comes to its next round with the queue as it is. */
  lemma WokenThreadLooksAgain(s: System)
    requires s.pc.Blocked? && !s.stopped
    ensures Enabled(s, Wake) && Enabled(Next(s, Wake), SleepDone)
    ensures Next(Next(s, Wake), SleepDone) == s.(pc := LoopTest)
  {
  }

  lemma StoppedStays(s: System, a: Action)
    requires s.stopped && Enabled(s, a) && !a.Start?
    ensures Next(s, a).stopped && !a.Take?
  {
    hide IsRound;
  }

  lemma {:induction false} NoRoundWhileStopped(s: System, actions: seq<Action>)
    requires s.stopped && Runs(s, actions) && Start !in actions
    ensures forall now, operations :: Take(now, operations) !in actions
    decreases |actions|
  {
    hide Enabled, Next;
    if actions != [] {
      assert actions[0] in actions && forall a :: a in actions[1..] ==> a in actions;
      StoppedStays(s, actions[0]);
      NoRoundWhileStopped(Next(s, actions[0]), actions[1..]);
      assert forall a :: a in actions ==> a == actions[0] || a in actions[1..];
    }
  }

  /** After `stop` no round begins before the thread is started again, and a blocked thread has been notified. */
  lemma NoRoundAfterStop(s: System, actions: seq<Action>)
    requires Enabled(s, Stop) && Runs(Next(s, Stop), actions) && Start !in actions
    ensures forall now, operations :: Take(now, operations) !in actions
    ensures s.pc.Blocked? ==> Next(s, Stop).pc == Blocked(true)
  {
    NoRoundWhileStopped(Next(s, Stop), actions);
  }

  lemma OneStep(s: System, a: Action)
    requires Enabled(s, a)
    ensures Runs(s, [a]) && After(s, [a]) == Next(s, a)
  {
    hide Enabled, Next;
    assert [a][1..] == [];
  }

  lemma RunsCons(s: System, a: Action, rest: seq<Action>)
    requires Enabled(s, a) && Runs(Next(s, a), rest)
    ensures Runs(s, [a] + rest) && After(s, [a] + rest) == After(Next(s, a), rest)
  {
    hide Enabled, Next;
    assert ([a] + rest)[1..] == rest;
  }

  lemma {:induction false} RunsJoin(s: System, actions: seq<Action>, more: seq<Action>)
    requires Runs(s, actions) && Runs(After(s, actions), more)
    ensures Runs(s, actions + more) && After(s, actions + more) == After(After(s, actions), more)
    decreases |actions|
  {
    hide Enabled, Next;
    var all := actions + more;
    if actions == [] {
      assert all == more;
    } else {
      assert all[0] == actions[0] && all[1..] == actions[1..] + more;
      RunsJoin(Next(s, actions[0]), actions[1..], more);
    }
  }

  /** The thread has ended: what was queued is discarded, what was taken has fired. */
  ghost predicate Ended(s: System, t: System, fired: seq<Firing>) {
    t == s.(pc := Idle, waiters := multiset{}, discarded := s.discarded + s.waiters, fired := fired)
  }

  lemma EndFromTest(s: System) returns (actions: seq<Action>)
    requires s.stopped && s.pc == LoopTest
    ensures Runs(s, actions) && Ended(s, After(s, actions), s.fired)
  {
    actions := [Exit];
    OneStep(s, Exit);
  }

  lemma EndFromSleep(s: System) returns (actions: seq<Action>)
    requires s.stopped && s.pc == Sleeping
    ensures Runs(s, actions) && Ended(s, After(s, actions), s.fired)
  {
    var rest := EndFromTest(s.(pc := LoopTest));
    RunsCons(s, SleepDone, rest);
    actions := [SleepDone] + rest;
  }

  lemma EndFromBlock(s: System) returns (actions: seq<Action>)
    requires s.stopped && s.pc.Blocked?
    ensures Runs(s, actions) && Ended(s, After(s, actions), s.fired)
  {
    actions := [Wake];
    OneStep(s, Wake);
  }

  lemma EndFromCheck(s: System, now: int) returns (actions: seq<Action>)
    requires s.stopped && s.pc == Firing([], now)
    ensures Runs(s, actions) && Ended(s, After(s, actions), s.fired)
  {
    assert Enabled(s, CheckQueue);
    var t := Next(s, CheckQueue);
    var rest;
    if s.waiters == multiset{} {
      rest := EndFromBlock(t);
    } else {
      rest := EndFromSleep(t);
    }
    RunsCons(s, CheckQueue, rest);
    actions := [CheckQueue] + rest;
  }

  /** A thread that has been stopped can end by itself: it fires what it has taken, and discards what is queued. */
  lemma StoppedThreadCanEnd(s: System) returns (actions: seq<Action>)
    requires s.stopped && s.pc != Idle
    ensures Runs(s, actions)
    ensures Ended(s, After(s, actions),
                  s.fired + if s.pc.Firing? then Firings(s.pc.operations, s.pc.now) else [])
  {
    hide Runs, After, Enabled, Next;
    assert s.fired + [] == s.fired;
    match s.pc {
      case LoopTest => actions := EndFromTest(s);
      case Sleeping => actions := EndFromSleep(s);
      case Blocked(_) => actions := EndFromBlock(s);
      case Firing(operations, now) =>
        RoundFiresInOrder(s, operations, now);
        var rest := EndFromCheck(s.(pc := Firing([], now), fired := s.fired + Firings(operations, now)), now);
        RunsJoin(s, FireAll(|operations|), rest);
        actions := FireAll(|operations|) + rest;
    }
  }
}
