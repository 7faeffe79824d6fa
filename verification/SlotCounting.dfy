/** Counting the slots of a ring that are waiting, lent or neither. */
module SlotCounting {
  function Indices(n: nat): (s: set<nat>)
    ensures |s| == n && forall i: nat :: i in s <==> i < n
  {
    if n == 0 then {} else Indices(n - 1) + {n - 1}
  }

  function Elements(order: seq<nat>): set<nat> {
    set k | k in order
  }

  lemma {:induction false} DistinctCount(order: seq<nat>)
    requires forall a, b :: 0 <= a < b < |order| ==> order[a] != order[b]
    ensures |Elements(order)| == |order|
  {
    if order == [] {
    } else {
      var last := order[|order| - 1];
      var init := order[..|order| - 1];
      DistinctCount(init);
      assert Elements(order) == Elements(init) + {last};
      assert last !in Elements(init);
    }
  }

  lemma SubsetCount(a: set<nat>, b: set<nat>)
    requires a <= b
    ensures |a| <= |b| && (|a| == |b| ==> a == b)
  {
    assert b == a + (b - a);
    assert |b| == |a| + |b - a|;
  }

  lemma Covering(s: set<nat>, n: nat)
    requires forall k :: k in s ==> k < n
    ensures s == Indices(n) <==> forall i :: 0 <= i < n ==> i in s
  {
  }

  /** Waiting and lent slots are different slots; together they are all of them exactly when no slot is
      left, and the lent ones alone exactly when nothing can be written. */
  lemma Counting(order: seq<nat>, lent: set<nat>, n: nat)
    requires forall a, b :: 0 <= a < b < |order| ==> order[a] != order[b]
    requires forall k :: k in order ==> k < n && k !in lent
    requires forall k :: k in lent ==> k < n
    ensures |order| + |lent| <= n && |lent| <= n
    ensures |order| + |lent| == n <==> forall i :: 0 <= i < n ==> i in order || i in lent
    ensures |lent| == n <==> forall i :: 0 <= i < n ==> i in lent
  {
    var waiting := Elements(order);
    var all := Indices(n);
    DistinctCount(order);
    assert waiting !! lent;
    SubsetCount(waiting + lent, all);
    SubsetCount(lent, all);
    assert |waiting + lent| == |waiting| + |lent|;
    Covering(waiting + lent, n);
    Covering(lent, n);
    assert forall i :: i in waiting + lent <==> i in order || i in lent;
  }
}
