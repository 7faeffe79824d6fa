/** The slot ring behind the audio queue.

    `order` is history: the slots that hold a waiting frame, oldest first.  The class shows that
    scanning an unordered slot array for the smallest number implements a queue. */
module AudioFrameSource {
  import opened AudioQueue
  import opened SlotCounting

  datatype Slot = Slot(valid: bool, inUse: bool, number: nat, frame: Frame)

  const NO_FRAME := Frame(0, 0, [])

  datatype History = History(order: seq<nat>, overwritten: nat, refused: nat, miscounted: nat, published: seq<Frame>, log: seq<Entry>)

  // ----- the order of the waiting slots ----------------------------------------------------

  /** `order` lists exactly the slots that hold a waiting frame, by increasing number. */
  ghost predicate Listed(order: seq<nat>, ss: seq<Slot>) {
    && (forall k :: k in order ==> k < |ss| && ss[k].valid)
    && (forall i :: 0 <= i < |ss| && ss[i].valid ==> i in order)
    && (forall a, b :: 0 <= a < b < |order| ==>
          order[a] < |ss| && order[b] < |ss| && ss[order[a]].number < ss[order[b]].number)
  }

  ghost function EntryOf(s: Slot): Entry {
    Entry(s.number, s.frame)
  }

  ghost function WaitingOf(order: seq<nat>, ss: seq<Slot>): (es: seq<Entry>)
    requires Listed(order, ss)
    ensures |es| == |order|
  {
    seq(|order|, k requires 0 <= k < |order| => assert order[k] in order; EntryOf(ss[order[k]]))
  }

  ghost function LentOf(ss: seq<Slot>): map<nat, Entry> {
    map i: nat | i < |ss| && ss[i].inUse :: EntryOf(ss[i])
  }

  lemma FirstUnlisted(order: seq<nat>, ss: seq<Slot>, slot: Slot)
    requires Listed(order, ss) && order != [] && !slot.valid
    ensures order[0] < |ss| && Listed(order[1..], ss[order[0] := slot]) && order[0] !in order[1..]
  {
    assert order[0] in order;
    var rest, w := order[1..], order[0];
    forall k | 0 <= k < |rest| ensures rest[k] in order && rest[k] != w {
      assert rest[k] == order[k + 1];
    }
    assert order == [w] + rest;
  }

  lemma FirstLeaves(order: seq<nat>, ss: seq<Slot>, slot: Slot)
    requires Listed(order, ss) && order != [] && !slot.valid
    ensures order[0] < |ss| && Listed(order[1..], ss[order[0] := slot])
    ensures WaitingOf(order, ss) == [EntryOf(ss[order[0]])] + WaitingOf(order[1..], ss[order[0] := slot])
  {
    FirstUnlisted(order, ss, slot);
    var rest, w := order[1..], order[0];
    var all, less := WaitingOf(order, ss), WaitingOf(rest, ss[w := slot]);
    forall k | 0 <= k < |less| ensures less[k] == all[k + 1] {
      assert rest[k] == order[k + 1] && rest[k] in rest;
    }
  }

  lemma LentMore(ss: seq<Slot>, i: nat, slot: Slot)
    requires i < |ss| && !ss[i].inUse && slot.inUse
    ensures LentOf(ss[i := slot]) == LentOf(ss)[i := EntryOf(slot)]
  {
  }

  lemma LentLess(order: seq<nat>, ss: seq<Slot>, i: nat)
    requires i < |ss| && Listed(order, ss)
    ensures var tt := ss[i := ss[i].(inUse := false)];
            Listed(order, tt) && LentOf(tt) == LentOf(ss) - {i} && WaitingOf(order, tt) == WaitingOf(order, ss)
  {
    var tt := ss[i := ss[i].(inUse := false)];
    assert forall k :: 0 <= k < |tt| ==> tt[k] == ss[k].(inUse := tt[k].inUse);
    forall a, b | 0 <= a < b < |order|
      ensures order[a] < |tt| && order[b] < |tt| && tt[order[a]].number < tt[order[b]].number
    {
      assert order[a] in order && order[b] in order;
    }
    forall k | k in order ensures k < |tt| && tt[k].valid {
    }
  }

  lemma LastJoins(order: seq<nat>, ss: seq<Slot>, w: nat, slot: Slot)
    requires Listed(order, ss) && w < |ss| && !ss[w].valid && slot.valid
    requires forall i :: 0 <= i < |ss| ==> ss[i].number < slot.number
    ensures Listed(order + [w], ss[w := slot])
    ensures WaitingOf(order + [w], ss[w := slot]) == WaitingOf(order, ss) + [EntryOf(slot)]
  {
    var longer, tt := order + [w], ss[w := slot];
    assert w !in order;
    forall k | k in longer ensures k < |tt| && tt[k].valid {
      assert k == w || k in order;
    }
    forall i | 0 <= i < |tt| && tt[i].valid ensures i in longer {
      assert i == w || i in order;
      assert longer[|order|] == w;
    }
    forall a, b | 0 <= a < b < |longer|
      ensures longer[a] < |tt| && longer[b] < |tt| && tt[longer[a]].number < tt[longer[b]].number
    {
      assert longer[a] in order;
      assert b < |order| ==> longer[b] in order;
    }
    forall k | 0 <= k < |order| ensures longer[k] != w {
      assert longer[k] in order;
    }
  }

  lemma LentSame(ss: seq<Slot>, w: nat, slot: Slot)
    requires w < |ss| && !slot.inUse && !ss[w].inUse
    ensures LentOf(ss[w := slot]) == LentOf(ss)
  {
  }

  lemma OverwriteFirst(order: seq<nat>, ss: seq<Slot>, slot: Slot)
    requires Listed(order, ss) && order != [] && slot.valid
    requires forall i :: 0 <= i < |ss| ==> ss[i].number < slot.number
    ensures order[0] < |ss|
    ensures Listed(order[1..] + [order[0]], ss[order[0] := slot])
    ensures WaitingOf(order[1..] + [order[0]], ss[order[0] := slot]) == WaitingOf(order, ss)[1..] + [EntryOf(slot)]
  {
    var w, empty := order[0], Slot(false, false, 0, NO_FRAME);
    FirstLeaves(order, ss, empty);
    LastJoins(order[1..], ss[w := empty], w, slot);
    assert ss[w := empty][w := slot] == ss[w := slot];
  }

  function Tail(order: seq<nat>): seq<nat> {
    if order == [] then [] else order[1..]
  }

  /** The line after a slot was written: the slot leaves its place at the head, if it had one, and joins
      the end. */
  function LineAfter(order: seq<nat>, ss: seq<Slot>, w: nat): seq<nat>
    requires w < |ss|
  {
    (if ss[w].valid then Tail(order) else order) + [w]
  }

  /** Overwriting a slot that is free or first in line. */
  lemma Overwrite(order: seq<nat>, ss: seq<Slot>, w: nat, slot: Slot)
    requires Listed(order, ss) && w < |ss| && slot.valid && !slot.inUse && !ss[w].inUse
    requires ss[w].valid ==> order != [] && w == order[0]
    requires forall i :: 0 <= i < |ss| ==> ss[i].number < slot.number
    ensures Listed(LineAfter(order, ss, w), ss[w := slot])
    ensures WaitingOf(LineAfter(order, ss, w), ss[w := slot]) ==
            (if ss[w].valid then WaitingOf(order, ss)[1..] else WaitingOf(order, ss)) + [EntryOf(slot)]
    ensures LentOf(ss[w := slot]) == LentOf(ss)
  {
    LentSame(ss, w, slot);
    if ss[w].valid {
      OverwriteFirst(order, ss, slot);
    } else {
      LastJoins(order, ss, w, slot);
    }
  }

  // ----- the queue that slots and history amount to ----------------------------------------

  /** A slot is never both waiting and in use, and its number has been given out. */
  predicate Consistent(ss: seq<Slot>, nextSeq: nat) {
    forall i :: 0 <= i < |ss| ==> !(ss[i].valid && ss[i].inUse) && ss[i].number < nextSeq
  }

  ghost function StateOf(h: History, ss: seq<Slot>, nextSeq: nat, fatal: bool, dropped: nat): Queue
    requires Listed(h.order, ss)
  {
    Queue(WaitingOf(h.order, ss), LentOf(ss), nextSeq, fatal, dropped, h.overwritten, h.refused, h.miscounted,
          h.published, h.log)
  }

  ghost function HistoryAfter(h: History, ss: seq<Slot>, w: nat, f: Frame): History
    requires w < |ss|
  {
    h.(order := LineAfter(h.order, ss, w), published := h.published + [f],
       overwritten := h.overwritten + if ss[w].valid then 1 else 0)
  }

  /** What writing a frame into a slot does to the queue. */
  lemma StoreState(h: History, ss: seq<Slot>, nextSeq: nat, fatal: bool, dropped: nat, w: nat, f: Frame)
    requires Listed(h.order, ss) && Consistent(ss, nextSeq) && w < |ss| && !ss[w].inUse
    requires ss[w].valid ==> h.order != [] && w == h.order[0]
    ensures var q := StateOf(h, ss, nextSeq, fatal, dropped);
            var tt, k := ss[w := Slot(true, false, nextSeq, f)], HistoryAfter(h, ss, w, f);
            && Listed(k.order, tt) && Consistent(tt, nextSeq + 1)
            && (ss[w].valid ==> q.waiting != [])
            && StateOf(k, tt, nextSeq + 1, fatal, dropped) == Store(q, f, ss[w].valid)
  {
    Overwrite(h.order, ss, w, Slot(true, false, nextSeq, f));
  }

  class AudioFrameSource {
    const slots: array<Slot>
    const capacity: nat
    var readSlot: int
    var nextSeq: nat
    var dropped: nat
    var fatal: bool
    ghost var history: History

    ghost predicate Ordered()
      reads this, slots
    {
      Listed(history.order, slots[..])
    }

    ghost predicate Shape()
      reads this, slots
    {
      Ordered() && Consistent(slots[..], nextSeq)
    }

    ghost function Oldest(): int
      reads this
    {
      if history.order == [] then -1 else history.order[0]
    }

    ghost predicate Valid()
      reads this, slots
    {
      Shape() && readSlot == Oldest()
    }

    ghost function State(): Queue
      requires Ordered()
      reads this, slots
    {
      StateOf(history, slots[..], nextSeq, fatal, dropped)
    }

    constructor (slotCount: nat, capacity: nat)
      requires slotCount > 0
      ensures Valid() && fresh(slots) && slots.Length == slotCount && this.capacity == capacity && Starts(State())
    {
      slots := new Slot[slotCount](_ => Slot(false, false, 0, NO_FRAME));
      this.capacity := capacity;
      readSlot, nextSeq, dropped, fatal := -1, 1, 0, false;
      history := History([], 0, 0, 0, [], []);
    }

    /** Scanning for the smallest number finds the head of the queue. */
    method OldestSlot() returns (best: int)
      requires Shape()
      ensures best == Oldest()
    {
      best := -1;
      for i := 0 to slots.Length
        invariant best == -1 ==> forall k :: 0 <= k < i ==> !slots[k].valid
        invariant best != -1 ==> 0 <= best < slots.Length && slots[best].valid
        invariant best != -1 ==> forall k :: 0 <= k < i && slots[k].valid ==> slots[best].number <= slots[k].number
      {
        if !slots[i].valid || slots[i].inUse {
          continue;
        }
        if best < 0 || slots[i].number < slots[best].number {
          best := i;
        }
      }
      assert history.order != [] ==> history.order[0] in history.order;
      assert best != -1 ==> best in history.order;
    }

    /** The oldest slot is waiting and so not lent; if there is none, no slot is waiting. */
    lemma OldestIsListed()
      requires Shape()
      ensures Oldest() >= 0 ==> Oldest() < slots.Length && slots[Oldest()].valid && !slots[Oldest()].inUse
      ensures Oldest() < 0 ==> forall i :: 0 <= i < slots.Length ==> !slots[i].valid
    {
      if history.order != [] {
        assert history.order[0] in history.order;
      }
    }

    /** The first free slot if there is one, else the oldest waiting one. */
    method FindWriteSlot() returns (w: int)
      requires Shape()
      modifies this`dropped
      ensures -1 <= w < slots.Length && (w >= 0 ==> !slots[w].inUse)
      ensures w == -1 <==> forall i :: 0 <= i < slots.Length ==> slots[i].inUse
      ensures w >= 0 && slots[w].valid ==> w == Oldest()
      ensures w >= 0 ==> forall i :: 0 <= i < (if slots[w].valid then slots.Length else w) ==> slots[i].valid || slots[i].inUse
      ensures dropped == old(dropped) + if w >= 0 && slots[w].valid then 1 else 0
    {
      for i := 0 to slots.Length
        invariant forall k :: 0 <= k < i ==> slots[k].valid || slots[k].inUse
      {
        if !slots[i].valid && !slots[i].inUse {
          return i;
        }
      }
      w := OldestSlot();
      OldestIsListed();
      if w >= 0 {
        dropped := dropped + 1;
      }
    }

    method UpdateReadSlot()
      requires Shape()
      modifies this`readSlot
      ensures Valid()
    {
      readSlot := OldestSlot();
    }

    lemma Counts()
      requires Shape()
      ensures |history.order| + |LentOf(slots[..])| <= slots.Length
      ensures |history.order| + |LentOf(slots[..])| == slots.Length <==> forall i :: 0 <= i < slots.Length ==> slots[i].valid || slots[i].inUse
      ensures |LentOf(slots[..])| == slots.Length <==> forall i :: 0 <= i < slots.Length ==> slots[i].inUse
    {
      var lent := set i: nat | i < slots.Length && slots[i].inUse;
      assert LentOf(slots[..]).Keys == lent;
      assert |LentOf(slots[..])| == |lent|;
      Counting(history.order, lent, slots.Length);
    }
  
    method WriteSlot(w: nat, f: Frame)
      requires w < slots.Length
      modifies this`nextSeq, slots
      ensures nextSeq == old(nextSeq) + 1
      ensures slots[..] == old(slots[..])[w := Slot(true, false, old(nextSeq), f)]
    {
      slots[w] := Slot(true, false, nextSeq, f);
      nextSeq := nextSeq + 1;
    }

    /** Copies the frame into a slot that is free or holds the oldest waiting frame. */
    method StoreAt(w: nat, f: Frame)
      requires Shape() && w < slots.Length && !slots[w].inUse && (slots[w].valid ==> w == Oldest())
      modifies this`nextSeq, this`history, slots
      ensures Shape() && slots[..] == old(slots[..])[w := Slot(true, false, old(nextSeq), f)]
      ensures old(slots[w].valid) ==> old(State()).waiting != []
      ensures State() == Store(old(State()), f, old(slots[w].valid))
    {
      StoreState(history, slots[..], nextSeq, fatal, dropped, w, f);
      ghost var h := HistoryAfter(history, slots[..], w, f);
      WriteSlot(w, f);
      history := h;
    }

    method ChooseSlot() returns (w: int)
      requires Shape()
      modifies this`dropped
      ensures -1 <= w < slots.Length && (w >= 0 ==> !slots[w].inUse && (slots[w].valid ==> w == Oldest()))
      ensures w == -1 <==> |State().lent| >= slots.Length
      ensures w >= 0 ==>
                (slots[w].valid <==> State().waiting != [] && |State().waiting| + |State().lent| >= slots.Length)
      ensures State() == old(State()).(dropped := old(dropped) + if w >= 0 && slots[w].valid then 1 else 0)
    {
      Counts();
      w := FindWriteSlot();
    }

    method Write(w: nat, f: Frame) returns (r: Published)
      requires Valid() && w < slots.Length && !slots[w].inUse && (slots[w].valid ==> w == Oldest())
      modifies this, slots
      ensures Valid() && dropped == old(dropped)
      ensures old(slots[w].valid) ==> old(State()).waiting != []
      ensures (State(), r) == AudioQueue.Write(capacity, old(State()), f, old(slots[w].valid))
      ensures forall i :: 0 <= i < slots.Length && i != w ==> slots[i] == old(slots[i])
    {
      if |f.bytes| > capacity {
        fatal := true;
        history := history.(miscounted := history.miscounted + if slots[w].valid then 1 else 0);
        return TooLarge;
      }
      StoreAt(w, f);
      UpdateReadSlot();
      return Stored;
    }

    method Publish(f: Frame) returns (r: Published)
      requires Valid()
      modifies this, slots
      ensures Valid()
      ensures (State(), r) == AudioQueue.Publish(slots.Length, capacity, old(State()), f)
      ensures forall i :: 0 <= i < slots.Length && old(slots[i].inUse) ==> slots[i] == old(slots[i])
    {
      if f.bytes == [] {
        return Invalid;
      }
      var w := ChooseSlot();
      if w < 0 {
        dropped := dropped + 1;
        history := history.(refused := history.refused + 1);
        return Refused;
      }
      r := Write(w, f);
    }

    method LendAt(r: nat)
      requires Shape() && r == Oldest() && CanAcquire(State())
      modifies slots, this`history
      ensures Shape() && r !in old(State()).lent && State() == AudioQueue.Acquire(old(State()), r)
    {
      var taken := slots[r].(valid := false, inUse := true);
      FirstLeaves(history.order, slots[..], taken);
      LentMore(slots[..], r, taken);
      ghost var ss := slots[..];
      slots[r] := taken;
      assert slots[..] == ss[r := taken];
      history := history.(order := history.order[1..], log := history.log + [EntryOf(taken)]);
    }

    /** Hands out the oldest waiting frame; its slot stays untouched until it is released. */
    method Acquire() returns (r: int)
      requires Valid()
      modifies this, slots
      ensures Valid()
      ensures r == -1 <==> !CanAcquire(old(State()))
      ensures r == -1 ==> State() == old(State())
      ensures r != -1 ==>
                && 0 <= r < slots.Length && r !in old(State()).lent
                && State() == AudioQueue.Acquire(old(State()), r)
    {
      UpdateReadSlot();
      if fatal || readSlot < 0 {
        return -1;
      }
      r := readSlot;
      LendAt(r);
      UpdateReadSlot();
    }

    method Release(i: int)
      requires Valid()
      modifies slots
      ensures Valid()
      ensures State() == if 0 <= i < slots.Length then AudioQueue.Release(old(State()), i) else old(State())
    {
      if i < 0 || i >= slots.Length {
        return;
      }
      LentLess(history.order, slots[..], i);
      ghost var ss := slots[..];
      slots[i] := slots[i].(inUse := false);
      assert slots[..] == ss[i := slots[i]];
    }
  }
}
