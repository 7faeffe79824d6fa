/** Packets that share a payload buffer, and the in-place ring that queues them. */
module MediaPackets {
  import opened Options
  import opened MediaBuffers

  datatype FrameType = Video | Audio

  datatype Packet = Packet(frameType: FrameType, isKey: bool, pts: nat, frameId: nat, buffer: MediaBuffer?)

  /** What clearing a packet's memory leaves. */
  const EMPTY := Packet(Video, false, 0, 0, null)

  ghost function BufferOf(p: Packet): multiset<MediaBuffer> {
    if p.buffer == null then multiset{} else multiset{p.buffer}
  }

  /** One entry for each packet of the sequence that holds a buffer. */
  ghost function Buffers(ps: seq<Packet>): multiset<MediaBuffer> {
    if ps == [] then multiset{} else Buffers(ps[..|ps| - 1]) + BufferOf(ps[|ps| - 1])
  }

  lemma BuffersPush(ps: seq<Packet>, p: Packet)
    ensures Buffers(ps + [p]) == Buffers(ps) + BufferOf(p)
  {
    assert (ps + [p])[..|ps|] == ps;
  }

  lemma UnionAssociates<T>(a: multiset<T>, b: multiset<T>, c: multiset<T>)
    ensures (a + b) + c == a + (b + c)
  {
  }

  lemma {:induction false} BuffersConcat(a: seq<Packet>, b: seq<Packet>)
    ensures Buffers(a + b) == Buffers(a) + Buffers(b)
  {
    if b == [] {
      assert a + b == a;
    } else {
      var init, last := b[..|b| - 1], b[|b| - 1];
      calc {
        Buffers(a + b);
        { assert a + b == (a + init) + [last]; }
        Buffers((a + init) + [last]);
        { BuffersPush(a + init, last); }
        Buffers(a + init) + BufferOf(last);
        { BuffersConcat(a, init); }
        (Buffers(a) + Buffers(init)) + BufferOf(last);
        { UnionAssociates(Buffers(a), Buffers(init), BufferOf(last)); }
        Buffers(a) + (Buffers(init) + BufferOf(last));
        Buffers(a) + Buffers(b);
      }
    }
  }

  lemma BuffersPop(p: Packet, ps: seq<Packet>)
    ensures Buffers([p] + ps) == BufferOf(p) + Buffers(ps)
  {
    BuffersConcat([p], ps);
    BuffersPush([], p);
    assert [] + [p] == [p];
  }

  class PacketQueue {
    const items: array<Packet>
    var head: nat
    var size: nat

    ghost function Slot(i: nat): nat
      reads this
    {
      if head + i < items.Length then head + i else head + i - items.Length
    }

    ghost predicate Inside(k: nat)
      reads this
    {
      if k >= head then k - head < size else k + items.Length - head < size
    }

    /** Slots outside the window hold nothing, so they keep no buffer alive. */
    ghost predicate Valid()
      reads this, items
    {
      && head < items.Length && size <= items.Length
      && (forall k :: 0 <= k < items.Length && !Inside(k) ==> items[k] == EMPTY)
    }

    ghost function Contents(): (c: seq<Packet>)
      requires Valid()
      reads this, items
      ensures |c| == size
    {
      seq(size, i requires 0 <= i < size && head < items.Length && size <= items.Length reads this, items => items[Slot(i)])
    }

    constructor (capacity: nat)
      requires capacity > 0
      ensures Valid() && fresh(items) && items.Length == capacity && Contents() == []
    {
      items := new Packet[capacity](_ => EMPTY);
      head, size := 0, 0;
    }

    lemma Wraps(i: nat)
      requires head < items.Length && i <= items.Length
      ensures (head + i) % items.Length == Slot(i) < items.Length
    {
    }

    method Pop() returns (r: Option<Packet>)
      requires Valid()
      modifies this, items
      ensures Valid()
      ensures old(size) == 0 ==> r == None && Contents() == []
      ensures old(size) > 0 ==> r.Some? && [r.value] + Contents() == old(Contents())
    {
      if size == 0 {
        return None;
      }
      Wraps(1);
      r := Some(items[head]);
      items[head] := EMPTY;
      head := (head + 1) % items.Length;
      size := size - 1;
    }

    method Push(p: Packet) returns (ok: bool)
      requires Valid()
      modifies this, items
      ensures Valid() && ok == (old(size) < items.Length)
      ensures Contents() == old(Contents()) + if ok then [p] else []
    {
      ok := size < items.Length;
      if ok {
        Wraps(size);
        items[(head + size) % items.Length] := p;
        size := size + 1;
      }
    }
  }
}
