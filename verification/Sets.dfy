module Sets {

  lemma AnElement<T>(s: set<T>) returns (x: T)
    requires s != {}
    ensures x in s
  {
    x :| x in s;
  }

  lemma {:induction false} UnusedNumber(used: set<nat>) returns (n: nat)
    ensures forall i :: i in used ==> i < n
    decreases |used|
  {
    n := 0;
    if used != {} {
      var x := AnElement(used);
      var m := UnusedNumber(used - {x});
      n := if m > x then m else x + 1;
      assert forall i :: i in used ==> i == x || i in used - {x};
    }
  }
}
