/** The four slots behind the mailbox.  The class shows that scanning them implements it, and that the
    last of the three scans for a slot to write never finds one. */
module FrameCache {
  import opened Options
  import opened SlotCounting
  import opened LatestFrame

  datatype Slot = Slot(valid: bool, inUse: bool, number: nat, frame: Frame)

  datatype History = History(frames: seq<Frame>, log: seq<Entry>, spoiled: bool)

  ghost function EntryOf(s: Slot): Entry {
    Entry(s.number, s.frame)
  }

  ghost function LentOf(ss: seq<Slot>): map<nat, Entry> {
    map i: nat | i < |ss| && ss[i].inUse :: EntryOf(ss[i])
  }

  lemma LentCount(ss: seq<Slot>)
    ensures |LentOf(ss)| <= |ss|
    ensures |LentOf(ss)| == |ss| <==> forall i :: 0 <= i < |ss| ==> ss[i].inUse
  {
    var lent := LentOf(ss).Keys;
    assert |LentOf(ss)| == |lent|;
    Counting([], lent, |ss|);
    assert forall i :: 0 <= i < |ss| ==> (i in lent <==> ss[i].inUse);
  }

  lemma LentMore(ss: seq<Slot>, i: nat, slot: Slot)
    requires i < |ss| && !ss[i].inUse && slot.inUse
    ensures LentOf(ss[i := slot]) == LentOf(ss)[i := EntryOf(slot)]
  {
  }

  lemma LentLess(ss: seq<Slot>, i: nat, slot: Slot)
    requires i < |ss| && !slot.inUse
    ensures LentOf(ss[i := slot]) == LentOf(ss) - {i}
  {
  }

  /** Slots not in use, before or after a change, do not matter. */
  lemma LentSame(ss: seq<Slot>, tt: seq<Slot>)
    requires |ss| == |tt| && forall i :: 0 <= i < |ss| ==> ss[i] == tt[i] || (!ss[i].inUse && !tt[i].inUse)
    ensures LentOf(ss) == LentOf(tt)
  {
  }

  class FrameCache {
    const slots: array<Slot>
    var latest: int
    var nextSeq: nat
    var consumed: nat
    var fatal: bool
    var counters: Counters
    ghost var history: History

    /** At most one slot holds a frame nobody has taken: the latest one, which nobody uses. */
    ghost predicate Valid()
      reads this, slots
    {
      && slots.Length == SLOTS && -1 <= latest < SLOTS
      && (forall i :: 0 <= i < SLOTS ==> (slots[i].valid <==> i == latest))
      && (latest >= 0 ==> !slots[latest].inUse)
    }

    ghost function Pending(): Option<Entry>
      requires Valid()
      reads this, slots
    {
      if latest < 0 then None else Some(EntryOf(slots[latest]))
    }

    ghost function State(): Mailbox
      requires Valid()
      reads this, slots
    {
      Mailbox(Pending(), LentOf(slots[..]), nextSeq, consumed, counters, history.frames, history.log, history.spoiled)
    }

    constructor ()
      ensures Valid() && fresh(slots) && Starts(State()) && !fatal
    {
      slots := new Slot[SLOTS](_ => Slot(false, false, 0, CLEARED));
      latest, nextSeq, consumed, fatal := -1, 1, 0, false;
      counters, history := Counters(0, 0, 0, 0, 0), History([], [], false);
    }

    /** Any slot that is not in use.  Called only when the others have failed, it finds none. */
    method LastScan() returns (w: int)
      requires slots.Length == SLOTS
      modifies this`counters
      ensures -1 <= w < SLOTS
      ensures w == -1 <==> forall k :: 0 <= k < SLOTS ==> slots[k].inUse
      ensures w == -1 ==> counters == old(counters)
    {
      for i := 0 to SLOTS
        invariant forall k :: 0 <= k < i ==> slots[k].inUse
      {
        if !slots[i].inUse {
          if slots[i].valid {
            counters := Overwritten(counters);
          }
          return i;
        }
      }
      return -1;
    }

    /** The first free slot; else the latest one if nobody uses it; else whatever the last scan finds. */
    method FindWriteSlot() returns (w: int)
      requires Valid()
      modifies this`counters
      ensures -1 <= w < SLOTS && (w >= 0 ==> !slots[w].inUse && (slots[w].valid ==> w == latest))
      ensures w == -1 <==> |LentOf(slots[..])| >= SLOTS
      ensures w >= 0 && slots[w].valid ==> forall k :: 0 <= k < SLOTS ==> slots[k].valid || slots[k].inUse
      ensures w >= 0 && !slots[w].valid ==> forall k :: 0 <= k < w ==> slots[k].valid || slots[k].inUse
      ensures counters == if w >= 0 && slots[w].valid then Overwritten(old(counters)) else old(counters)
    {
      LentCount(slots[..]);
      for i := 0 to SLOTS
        invariant forall k :: 0 <= k < i ==> slots[k].valid || slots[k].inUse
      {
        if !slots[i].inUse && !slots[i].valid {
          assert !slots[..][i].inUse;
          return i;
        }
      }
      if latest >= 0 && latest < SLOTS && !slots[latest].inUse {
        assert !slots[..][latest].inUse;
        counters := Overwritten(counters);
        return latest;
      }
      assert forall k :: 0 <= k < SLOTS ==> slots[k].inUse;
      w := LastScan();
    }

    /** Clears every frame that is waiting in another slot than `keep`; `stale` is the only one. */
    method DropStale(keep: nat, ghost stale: int)
      requires slots.Length == SLOTS && keep < SLOTS && -1 <= stale < SLOTS && stale != keep
      requires forall i :: 0 <= i < SLOTS && i != keep ==> (slots[i].valid && !slots[i].inUse <==> i == stale)
      modifies slots, this`counters
      ensures forall i :: 0 <= i < SLOTS && i != stale ==> slots[i] == old(slots[i])
      ensures stale >= 0 ==> slots[stale] == old(slots[stale]).(valid := false, frame := CLEARED)
      ensures counters == if stale >= 0 then Overwritten(old(counters)) else old(counters)
    {
      for i := 0 to SLOTS
        invariant forall k :: 0 <= k < SLOTS && (k != stale || k >= i) ==> slots[k] == old(slots[k])
        invariant 0 <= stale < i ==> slots[stale] == old(slots[stale]).(valid := false, frame := CLEARED)
        invariant counters == if 0 <= stale < i then Overwritten(old(counters)) else old(counters)
      {
        if i == keep {
          continue;
        }
        if !slots[i].inUse && slots[i].valid {
          slots[i] := slots[i].(valid := false, frame := CLEARED);
          counters := Overwritten(counters);
        }
      }
    }

    method StoreAt(w: nat, f: Frame)
      requires Valid() && w < SLOTS && !slots[w].inUse && (slots[w].valid ==> w == latest)
      modifies this, slots
      ensures Valid() && Pending() == Some(Entry(old(nextSeq), f)) && LentOf(slots[..]) == old(LentOf(slots[..]))
      ensures nextSeq == old(nextSeq) + 1 && consumed == old(consumed) && fatal == old(fatal)
      ensures history == old(history).(frames := old(history.frames) + [f], spoiled := false)
      ensures var c := if old(latest) >= 0 && old(latest) != w then Overwritten(old(counters)) else old(counters);
              counters == c.(published := c.published + 1)
      ensures forall i :: 0 <= i < SLOTS && old(slots[i].inUse) ==> slots[i] == old(slots[i])
    {
      ghost var stale := if latest == w then -1 else latest;
      slots[w] := slots[w].(frame := f, number := nextSeq, valid := true);
      nextSeq := nextSeq + 1;
      latest := w;
      DropStale(w, stale);
      counters := counters.(published := counters.published + 1);
      history := history.(frames := history.frames + [f], spoiled := false);
      LentSame(old(slots[..]), slots[..]);
    }

    method Publish(f: Frame, notified: bool) returns (r: Published)
      requires Valid()
      modifies this, slots
      ensures Valid()
      ensures (State(), r) == LatestFrame.Publish(old(State()), f, notified)
      ensures forall i :: 0 <= i < SLOTS && old(slots[i].inUse) ==> slots[i] == old(slots[i])
    {
      if !(f.hasData && f.length > 0 && f.hasBuffer) {
        return Invalid;
      }
      var w := FindWriteSlot();
      if w < 0 {
        counters := counters.(dropped := counters.dropped + 1, noSlot := counters.noSlot + 1);
        return Refused;
      }
      StoreAt(w, f);
      r := if notified then Stored else NotifyFailed;
    }

    /** Hands out the latest frame; its slot stays untouched until it is released. */
    method TryAcquire() returns (r: int)
      requires Valid()
      modifies this, slots
      ensures Valid()
      ensures r == -1 <==> fatal || old(State()).pending.None?
      ensures r == -1 ==> State() == old(State())
      ensures r != -1 ==>
                && 0 <= r < SLOTS && r !in old(State()).lent
                && State() == LatestFrame.Acquire(old(State()), r)
    {
      if fatal || latest < 0 || !slots[latest].valid {
        return -1;
      }
      r := latest;
      DropStale(r, -1);
      ghost var ss := slots[..];
      assert ss == old(slots[..]);
      slots[r] := slots[r].(inUse := true, valid := false);
      assert slots[..] == ss[r := slots[r]];
      LentMore(ss, r, slots[r]);
      consumed := slots[r].number;
      latest := -1;
      counters := counters.(acquired := counters.acquired + 1);
      history := history.(log := history.log + [EntryOf(slots[r])], spoiled := false);
    }

    /** Clears the slot whoever asks.  If it holds the frame nobody has taken yet, that frame is lost
        while the slot stays the latest one. */
    method Release(i: int)
      requires Valid()
      modifies slots, this`history
      ensures Valid()
      ensures State() == if 0 <= i < SLOTS then LatestFrame.Release(old(State()), i, i == old(latest)) else old(State())
    {
      if i < 0 || i >= SLOTS {
        return;
      }
      ghost var ss := slots[..];
      slots[i] := slots[i].(inUse := false, frame := CLEARED);
      history := history.(spoiled := history.spoiled || i == latest);
      assert slots[..] == ss[i := slots[i]];
      LentLess(ss, i, slots[i]);
    }
  }
}
