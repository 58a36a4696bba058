/** The timer of timer.cpp: one round of its loop as an object's method, and the loop as a system of steps. */
module Timer {

  /** A deadline and the callback that waits for it; `id` numbers the accepted operations. */
  datatype WaitOperation = WaitOperation(timePoint: int, id: nat)

  /** `operator<` */
  predicate Before(x: WaitOperation, y: WaitOperation) {
    x.timePoint < y.timePoint
  }

  /** What `top()` of a priority queue returns: an element that is before no other, so one with the latest deadline. */
  ghost predicate IsTop(x: WaitOperation, waiters: multiset<WaitOperation>) {
    x in waiters && forall y :: y in waiters ==> !Before(x, y)
  }

  lemma {:induction false} TopExists(waiters: multiset<WaitOperation>) returns (x: WaitOperation)
    requires waiters != multiset{}
    ensures IsTop(x, waiters)
    decreases |waiters|
  {
    x :| x in waiters;
    var rest := waiters - multiset{x};
    assert forall z :: z in waiters ==> z == x || z in rest;
    if rest != multiset{} {
      var y := TopExists(rest);
      if Before(x, y) {
        x := y;
      }
    }
  }

  ghost predicate AllDue(waiters: multiset<WaitOperation>, now: int) {
    forall x :: x in waiters ==> x.timePoint <= now
  }

  predicate LatestFirst(operations: seq<WaitOperation>) {
    forall i, j :: 0 <= i < j < |operations| ==> operations[j].timePoint <= operations[i].timePoint
  }

  ghost predicate NoLaterThan(waiters: multiset<WaitOperation>, operations: seq<WaitOperation>) {
    forall x, i :: x in waiters && 0 <= i < |operations| ==> x.timePoint <= operations[i].timePoint
  }

  /** What a round takes out of the queue: everything, latest deadline first, or nothing at all. */
  ghost predicate IsRound(waiters: multiset<WaitOperation>, now: int, operations: seq<WaitOperation>) {
    if AllDue(waiters, now) then multiset(operations) == waiters && LatestFirst(operations)
    else operations == []
  }

  /** So a due operation waits for as long as a later one is queued. */
  lemma DueOperationWaitsForLaterOne(
      waiters: multiset<WaitOperation>, now: int, due: WaitOperation, operations: seq<WaitOperation>)
    requires due in waiters && due.timePoint <= now && IsRound(waiters, now, operations)
    ensures due in operations <==> forall x :: x in waiters ==> x.timePoint <= now
  {
    assert due in operations <==> due in multiset(operations);
  }

  lemma RoundOfAll(before: multiset<WaitOperation>, now: int, operations: seq<WaitOperation>)
    requires multiset(operations) == before && LatestFirst(operations)
    requires forall i :: 0 <= i < |operations| ==> operations[i].timePoint <= now
    ensures IsRound(before, now, operations)
  {
    forall x | x in before ensures x.timePoint <= now {
      assert x in multiset(operations);
      assert x in operations;
    }
  }

  lemma FirstIsNoEarlier(waiters: multiset<WaitOperation>, operations: seq<WaitOperation>, x: WaitOperation)
    requires NoLaterThan(waiters, operations) && x in waiters && operations != []
    ensures x.timePoint <= operations[0].timePoint
  {
    var first := operations[0];
    assert x in waiters && operations[0] == first;
  }

  /** The collection can only stop early before it has taken anything. */
  lemma RoundOfNone(
      before: multiset<WaitOperation>, now: int, waiters: multiset<WaitOperation>, operations: seq<WaitOperation>,
      operation: WaitOperation)
    requires waiters + multiset(operations) == before && NoLaterThan(waiters, operations)
    requires forall i :: 0 <= i < |operations| ==> operations[i].timePoint <= now
    requires operation in waiters && now < operation.timePoint
    ensures operations == [] && IsRound(before, now, operations)
  {
    if operations != [] {
      FirstIsNoEarlier(waiters, operations, operation);
      assert false;
    }
    assert operation in before;
  }

  lemma NothingTaken(waiters: multiset<WaitOperation>)
    ensures LatestFirst([]) && NoLaterThan(waiters, [])
  {
  }

  /** A step of the collection: the queue's top has no later deadline than what was taken before it. */
  lemma TakenStaysLatestFirst(
      waiters: multiset<WaitOperation>, operations: seq<WaitOperation>, operation: WaitOperation)
    requires IsTop(operation, waiters) && LatestFirst(operations) && NoLaterThan(waiters, operations)
    ensures LatestFirst(operations + [operation])
    ensures NoLaterThan(waiters - multiset{operation}, operations + [operation])
    ensures waiters - multiset{operation} + multiset(operations + [operation]) == waiters + multiset(operations)
  {
    assert multiset(operations + [operation]) == multiset(operations) + multiset{operation};
  }

  class Timer {
    var waiters: multiset<WaitOperation>

    constructor ()
      ensures waiters == multiset{}
    {
      waiters := multiset{};
    }

    /** `async_wait_until`: the result says whether the condition variable is notified. */
    method AsyncWaitUntil(operation: WaitOperation) returns (notified: bool)
      modifies this
      ensures waiters == old(waiters) + multiset{operation}
      ensures notified <==> old(waiters) == multiset{}
    {
      notified := waiters == multiset{};
      waiters := waiters + multiset{operation};
    }

    /** The region of `exec` under the mutex in which due operations are collected. */
    method TakeDue(now: int) returns (operations: seq<WaitOperation>)
      modifies this
      ensures IsRound(old(waiters), now, operations)
      ensures waiters == old(waiters) - multiset(operations)
    {
      hide LatestFirst, NoLaterThan, IsRound, AllDue;
      operations := [];
      NothingTaken(waiters);
      while waiters != multiset{}
        invariant waiters + multiset(operations) == old(waiters)
        invariant LatestFirst(operations) && NoLaterThan(waiters, operations)
        invariant forall i :: 0 <= i < |operations| ==> operations[i].timePoint <= now
        decreases |waiters|
      {
        ghost var some := TopExists(waiters);
        var operation: WaitOperation :| operation in waiters && forall y :: y in waiters ==> !Before(operation, y);
        if operation.timePoint > now {
          RoundOfNone(old(waiters), now, waiters, operations, operation);
          return;
        }
        TakenStaysLatestFirst(waiters, operations, operation);
        operations := operations + [operation];
        waiters := waiters - multiset{operation};
      }
      RoundOfAll(old(waiters), now, operations);
    }

    /**
      A variant that is not in the source: with the comparison reversed, `top()` is an operation with the earliest
      deadline, and a round takes exactly the operations that are due.
     */
    method TakeDueEarliestFirst(now: int) returns (operations: seq<WaitOperation>)
      modifies this
      ensures waiters + multiset(operations) == old(waiters)
      ensures forall i :: 0 <= i < |operations| ==> operations[i].timePoint <= now
      ensures forall x :: x in waiters ==> now < x.timePoint
    {
      operations := [];
      while waiters != multiset{}
        invariant waiters + multiset(operations) == old(waiters)
        invariant forall i :: 0 <= i < |operations| ==> operations[i].timePoint <= now
        decreases |waiters|
      {
        ghost var some := BottomExists(waiters);
        var operation: WaitOperation :| operation in waiters && forall y :: y in waiters ==> !Before(y, operation);
        if operation.timePoint > now {
          assert forall x :: x in waiters ==> !Before(x, operation);
          return;
        }
        operations := operations + [operation];
        waiters := waiters - multiset{operation};
      }
    }
  }

  lemma {:induction false} BottomExists(waiters: multiset<WaitOperation>) returns (x: WaitOperation)
    requires waiters != multiset{}
    ensures x in waiters && forall y :: y in waiters ==> !Before(y, x)
    decreases |waiters|
  {
    x :| x in waiters;
    var rest := waiters - multiset{x};
    assert forall z :: z in waiters ==> z == x || z in rest;
    if rest != multiset{} {
      var y := BottomExists(rest);
      if Before(y, x) {
        x := y;
      }
    }
  }
}
