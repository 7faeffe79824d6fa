/** Reference-counted payload buffers and the intrusive free list they are recycled through.

    The list is only touched under the pool lock and counters change atomically.  `CreateCopy` takes a
    buffer off the list and fills it afterwards, and the last `Release` lets go of the counter before it
    returns the buffer; in between the buffer is on no list and held by no packet, so nobody else can
    reach it and each method may be read as one atomic step.

    `free` and `holds` are history: the buffers on the list from its head, and every buffer once for
    each packet that holds it. */
module MediaBuffers {
  const PREALLOC: nat := 128
  const MAX_FREE: nat := 256
  const MAX_CACHED_CAPACITY: nat := 2 * 1024 * 1024

  class MediaBuffer {
    var data: seq<bv8>
    var size: nat
    var capacity: nat
    var refCount: int
    var poolNext: MediaBuffer?

    constructor ()
      ensures data == [] && size == 0 && capacity == 0 && refCount == 0 && poolNext == null
    {
      data, size, capacity, refCount, poolNext := [], 0, 0, 0, null;
    }

    ghost predicate Sized()
      reads this
    {
      |data| == capacity && size <= capacity
    }

    ghost function Payload(): seq<bv8>
      requires Sized()
      reads this
    {
      data[..size]
    }

    /** Enlarges the allocation where needed and fills it. */
    method Write(bytes: seq<bv8>)
      requires Sized()
      modifies this
      ensures Sized() && Payload() == bytes && refCount == 1 && poolNext == null
    {
      if capacity < |bytes| {
        data := data + seq(|bytes| - capacity, _ => 0);
        capacity := |bytes|;
      }
      data := bytes + data[|bytes|..];
      size, refCount, poolNext := |bytes|, 1, null;
    }
  }

  /** What the allocator will answer: how many empty buffers it can prepare for the pool, whether it
      has one more, and whether it can enlarge a payload. */
  datatype Allocator = Allocator(prealloc: nat, structOk: bool, payloadOk: bool)

  ghost function From(list: seq<MediaBuffer>, i: nat): MediaBuffer? {
    if i < |list| then list[i] else null
  }

  ghost predicate Distinct<T>(s: seq<T>) {
    forall i, j :: 0 <= i < j < |s| ==> s[i] != s[j]
  }

  /** `rest` is `list` without the element at one place. */
  ghost predicate Removed(list: seq<MediaBuffer>, at: nat, rest: seq<MediaBuffer>) {
    && at < |list| && |rest| == |list| - 1
    && (forall i :: 0 <= i < |rest| ==> rest[i] == list[if i < at then i else i + 1])
  }

  lemma Remove(list: seq<MediaBuffer>, at: nat) returns (rest: seq<MediaBuffer>)
    requires Distinct(list) && at < |list|
    ensures Removed(list, at, rest) && Distinct(rest)
    ensures list[at] !in rest && forall b :: b in rest ==> b in list
  {
    rest := list[..at] + list[at + 1..];
  }

  class BufferPool {
    var head: MediaBuffer?
    var count: int
    var inited: bool
    ghost var free: seq<MediaBuffer>
    ghost var holds: multiset<MediaBuffer>

    ghost function Live(): set<MediaBuffer>
      reads this
    {
      set b | b in holds
    }

    ghost predicate Linked()
      reads this, free
    {
      && head == From(free, 0)
      && (forall i :: 0 <= i < |free| ==> free[i].poolNext == From(free, i + 1))
    }

    /** The pool accounts for every buffer: the list holds each free buffer once and nothing that any
        packet holds, and a held buffer counts exactly the packets that hold it. */
    ghost predicate Valid()
      reads this, free, Live()
    {
      && Linked() && Distinct(free)
      && count == |free| <= MAX_FREE
      && (!inited ==> free == [] && holds == multiset{})
      && (forall b :: b in free ==> b.refCount == 0 && b !in holds && b.Sized() && b.capacity <= MAX_CACHED_CAPACITY)
      && (forall b :: b in holds ==> b.refCount == holds[b] && b.Sized())
    }

    /** Buffers that were held and still are have kept their payload. */
    twostate predicate Intact()
      reads this, Live()
    {
      forall b :: b in old(holds) && b in holds ==> b.data == old(b.data) && b.size == old(b.size)
    }

    constructor ()
      ensures Valid() && free == [] && holds == multiset{}
    {
      head, count, inited, free, holds := null, 0, false, [], multiset{};
    }

    method PushFront(b: MediaBuffer)
      requires Valid() && inited && count < MAX_FREE
      requires b !in free && b !in holds && b.refCount == 0 && b.Sized() && b.capacity <= MAX_CACHED_CAPACITY
      modifies this, b`poolNext
      ensures Valid() && inited && free == [b] + old(free) && holds == old(holds)
    {
      b.poolNext := head;
      head := b;
      count := count + 1;
      free := [b] + free;
    }

    /** The first use fills the list with empty buffers, as many as can be allocated. */
    method Prealloc(available: nat)
      requires Valid()
      modifies this
      ensures Valid() && inited && holds == old(holds)
      ensures old(inited) ==> free == old(free)
      ensures !old(inited) ==> |free| == if available < PREALLOC then available else PREALLOC
      ensures forall b :: b in free && b !in old(free) ==> fresh(b)
    {
      if inited {
        return;
      }
      inited := true;
      for i := 0 to PREALLOC
        invariant Valid() && inited && holds == old(holds) && |free| == i && i <= available
        invariant forall b :: b in free ==> fresh(b)
      {
        if i >= available {
          break;
        }
        var b := new MediaBuffer();
        PushFront(b);
      }
    }

    /** Makes the list skip one buffer. */
    method Bypass(prev: MediaBuffer?, cur: MediaBuffer, ghost at: nat, ghost rest: seq<MediaBuffer>)
      requires Linked() && Distinct(free) && Removed(free, at, rest) && cur == free[at]
      requires prev == if at > 0 then free[at - 1] else null
      modifies this`head, free`poolNext
      ensures head == From(rest, 0) && cur.poolNext == null
      ensures forall i :: 0 <= i < |rest| ==> rest[i].poolNext == From(rest, i + 1)
    {
      if prev != null {
        prev.poolNext := cur.poolNext;
      } else {
        head := cur.poolNext;
      }
      cur.poolNext := null;
      forall i | 0 <= i < |rest| ensures rest[i].poolNext == From(rest, i + 1) {
        var k := if i < at then i else i + 1;
        assert rest[i] == free[k] != cur;
        assert k + 1 != at ==> free[k] != prev;
        assert From(rest, i + 1) == From(free, if k + 1 == at then k + 2 else k + 1);
      }
    }

    method Shorten(ghost rest: seq<MediaBuffer>)
      requires Distinct(rest) && |rest| == |free| - 1 && count == |free| <= MAX_FREE && inited
      requires head == From(rest, 0) && forall i :: 0 <= i < |rest| ==> rest[i].poolNext == From(rest, i + 1)
      requires forall b :: b in rest ==> b.refCount == 0 && b !in holds && b.Sized() && b.capacity <= MAX_CACHED_CAPACITY
      requires forall b :: b in holds ==> b.refCount == holds[b] && b.Sized()
      modifies this`count, this`free
      ensures Valid() && free == rest
    {
      count := count - 1;
      free := rest;
    }

    method Unlink(prev: MediaBuffer?, cur: MediaBuffer, ghost at: nat)
      requires Valid() && at < |free| && cur == free[at]
      requires prev == if at > 0 then free[at - 1] else null
      modifies this, free`poolNext
      ensures Valid() && inited == old(inited) && holds == old(holds)
      ensures Removed(old(free), at, free)
      ensures cur !in free && cur !in holds && cur.poolNext == null
      ensures forall b :: b in free ==> b in old(free)
    {
      ghost var rest := Remove(free, at);
      assert cur in free;
      Bypass(prev, cur, at, rest);
      Shorten(rest);
    }

    /** First fit: the buffer nearest the head that is large enough, else the head. */
    method Take(need: nat) returns (b: MediaBuffer?, ghost at: nat)
      requires Valid()
      modifies this, free
      ensures Valid() && inited == old(inited) && holds == old(holds)
      ensures b == null <==> old(free) == []
      ensures b == null ==> free == []
      ensures b != null ==>
                && at < |old(free)| && b == old(free)[at]
                && Removed(old(free), at, free)
                && b.refCount == 0 && b !in holds && b !in free && b.Sized() && b.poolNext == null
                && (forall f :: f in free ==> f in old(free))
                && b.capacity == old(b.capacity)
                && (forall j :: 0 <= j < at ==> old(free[j].capacity) < need)
                && (b.capacity < need ==> at == 0 && forall f :: f in old(free) ==> old(f.capacity) < need)
    {
      var prev: MediaBuffer?, cur := null, head;
      at := 0;
      while cur != null
        invariant at <= |free|
        invariant cur == (if at < |free| then free[at] else null)
        invariant prev == (if at > 0 then free[at - 1] else null)
        invariant forall j :: 0 <= j < at ==> free[j].capacity < need
        decreases |free| - at
      {
        if cur.capacity >= need {
          b := cur;
          Unlink(prev, cur, at);
          return;
        }
        prev, cur, at := cur, cur.poolNext, at + 1;
      }
      b, at := head, 0;
      if b != null {
        Unlink(null, b, 0);
      }
    }

    method Acquire(need: nat, alloc: Allocator) returns (b: MediaBuffer?)
      requires Valid()
      modifies this, free
      ensures Valid() && inited && holds == old(holds)
      ensures b == null ==> !alloc.structOk && old(free) == []
      ensures b != null ==>
                && (b in old(free) || fresh(b)) && b !in free && b !in holds
                && b.refCount == 0 && b.Sized() && b.poolNext == null
      ensures forall f :: f in free ==> f in old(free) || fresh(f)
    {
      Prealloc(alloc.prealloc);
      assert forall i :: 0 <= i < |free| ==> free[i] in old(free) || fresh(free[i]);
      var taken, _ := Take(need);
      b := taken;
      if b == null && alloc.structOk {
        b := new MediaBuffer();
      }
    }

    method Fill(b: MediaBuffer, bytes: seq<bv8>)
      requires Valid() && inited && b !in free && b !in holds && b.Sized()
      modifies this`holds, b
      ensures Valid() && holds == old(holds) + multiset{b}
      ensures b.Sized() && b.Payload() == bytes
    {
      b.Write(bytes);
      holds := holds + multiset{b};
    }

    /** A buffer with a copy of the bytes and one holder, or nothing.  No buffer that a packet holds is
        touched: only buffers of the free list and new ones may change. */
    method CreateCopy(bytes: seq<bv8>, alloc: Allocator) returns (r: MediaBuffer?)
      requires Valid()
      modifies this, free
      ensures Valid()
      ensures r == null ==> holds == old(holds)
      ensures r != null ==>
                && (r in old(free) || fresh(r)) && r !in old(holds)
                && holds == old(holds) + multiset{r} && r.Sized() && r.Payload() == bytes
      ensures bytes == [] ==> r == null && free == old(free)
      ensures bytes != [] && alloc.structOk && alloc.payloadOk ==> r != null
      ensures forall f :: f in free ==> f in old(free) || fresh(f)
    {
      if bytes == [] {
        return null;
      }
      r := Acquire(|bytes|, alloc);
      if r == null {
        return;
      }
      if r.capacity < |bytes| && !alloc.payloadOk {
        return null;
      }
      Fill(r, bytes);
    }

    method Retain(b: MediaBuffer)
      requires Valid() && b in holds
      modifies this`holds, b`refCount
      ensures Valid() && holds == old(holds) + multiset{b}
    {
      b.refCount := b.refCount + 1;
      holds := holds + multiset{b};
    }

    method Drop(b: MediaBuffer)
      requires Valid() && b in holds
      modifies this`holds, b`refCount
      ensures Valid() && holds == old(holds) - multiset{b} && b.refCount == holds[b] && b !in free
    {
      b.refCount := b.refCount - 1;
      holds := holds - multiset{b};
    }

    method ReturnToPool(b: MediaBuffer)
      requires Valid() && inited && b !in holds && b !in free && b.Sized()
      modifies this, b
      ensures Valid() && inited && holds == old(holds)
      ensures b.capacity == old(b.capacity) && b.Sized() && b.size == 0 && (b !in free ==> b.poolNext == null)
      ensures free == (if b.capacity > MAX_CACHED_CAPACITY || |old(free)| >= MAX_FREE then old(free) else [b] + old(free))
    {
      b.size := 0;
      b.refCount := 0;
      b.poolNext := null;
      if b.capacity > MAX_CACHED_CAPACITY {
        return;
      }
      Prealloc(0);
      if count >= MAX_FREE {
        return;
      }
      PushFront(b);
    }

    /** The last holder recycles the buffer, unless it is too large to keep or the list is full. */
    method Release(b: MediaBuffer)
      requires Valid() && b in holds
      modifies this, b
      ensures Valid() && inited == old(inited) && holds == old(holds) - multiset{b}
      ensures b in holds ==> free == old(free) && b.data == old(b.data) && b.size == old(b.size)
      ensures Intact()
      ensures b !in holds ==>
                free == (if b.capacity > MAX_CACHED_CAPACITY || |old(free)| >= MAX_FREE then old(free) else [b] + old(free))
      ensures b.capacity == old(b.capacity) && b.Sized()
    {
      Drop(b);
      if b.refCount != 0 {
        return;
      }
      ReturnToPool(b);
    }
  }
}
