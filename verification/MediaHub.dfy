/** The pool, the channels and the producers' packets as objects: every method refines a ledger step,
    so the ledger's law is the law of the heap. */
module MediaHub {
  import opened Options
  import opened MediaBuffers
  import opened MediaPackets
  import opened OutputPolicy
  import opened MediaOutput
  import opened MediaFlow

  ghost function Footprint(o: MediaOutput): set<object> {
    {o, o.video, o.audio, o.video.items, o.audio.items}
  }

  /** The channels share no object. */
  ghost predicate Separate(outputs: seq<MediaOutput>, repr: set<object>) {
    && (forall i :: 0 <= i < |outputs| ==> Footprint(outputs[i]) <= repr && outputs[i].cfg.capacity > 0)
    && (forall i, j :: 0 <= i < j < |outputs| ==> Footprint(outputs[i]) !! Footprint(outputs[j]))
  }

  ghost predicate AllReady(outputs: seq<MediaOutput>, repr: set<object>)
    reads repr
  {
    Separate(outputs, repr) && forall i :: 0 <= i < |outputs| ==> outputs[i].Rings()
  }

  class Hub {
    const pool: BufferPool
    const outputs: seq<MediaOutput>
    ghost const repr: set<object>
    var producers: seq<Packet>

    ghost predicate Ready()
      reads repr
    {
      AllReady(outputs, repr)
    }

    ghost function Configs(): (cs: seq<Config>)
      ensures |cs| == |outputs|
    {
      seq(|outputs|, i requires 0 <= i < |outputs| => outputs[i].cfg)
    }

    ghost function States(): (ss: seq<Output>)
      requires Ready()
      reads repr
      ensures |ss| == |outputs|
    {
      seq(|outputs|, i requires 0 <= i < |outputs| && Ready() reads repr => outputs[i].State())
    }

    ghost function Account(): Ledger
      requires Ready()
      reads this, repr, pool
    {
      Ledger(pool.holds, producers, States())
    }

    ghost predicate Sound()
      reads this, repr, pool, pool.free, pool.Live()
    {
      Ready() && pool.Valid()
    }

    ghost predicate Valid()
      reads this, repr, pool, pool.free, pool.Live()
    {
      Sound() && Law(Configs(), Account())
    }

    constructor (pool: BufferPool, outputs: seq<MediaOutput>, ghost repr: set<object>)
      requires pool.Valid() && AllReady(outputs, repr)
      ensures Sound() && this.pool == pool && this.outputs == outputs && producers == []
    {
      this.pool, this.outputs, this.repr, producers := pool, outputs, repr, [];
    }

    /** The law holds at the start. */
    lemma StartsValid()
      requires Sound() && pool.holds == multiset{} && producers == []
      requires forall i :: 0 <= i < |outputs| ==> outputs[i].State() == OutputPolicy.Fresh(outputs[i].cfg)
      ensures Valid()
    {
      FreshLedger(Configs(), States());
      assert Account() == Ledger(multiset{}, [], States());
    }

    /** What one channel does leaves the others alone. */
    twostate lemma Others(i: nat)
      requires i < |outputs| && old(Ready())
      requires forall j :: 0 <= j < |outputs| && j != i ==> forall x :: x in Footprint(outputs[j]) ==> unchanged(x)
      requires outputs[i].Rings()
      ensures Ready() && States() == old(States())[i := outputs[i].State()]
    {
    }

    method EnqueueOn(i: nat, p: Packet)
      requires Sound() && i < |outputs| && OldestHasBuffer(QueueOf(outputs[i].State(), p.frameType))
      requires Touched(outputs[i].cfg, outputs[i].State(), p) <= pool.holds
      modifies Footprint(outputs[i]), pool, pool.Live()
      ensures Sound()
      ensures States() == old(States())[i := OutputPolicy.Enqueue(outputs[i].cfg, old(outputs[i].State()), p).0]
      ensures pool.holds == AccountAfter(outputs[i].cfg, old(outputs[i].State()), p, old(pool.holds))
      ensures pool.Intact()
    {
      var o := outputs[i];
      var _ := o.Enqueue(pool, p);
      Others(i);
    }

    method TakeOn(i: nat)
      requires Sound() && i < |outputs| && CanTake(outputs[i].State())
      modifies Footprint(outputs[i])
      ensures Sound() && States() == old(States())[i := OutputPolicy.TakeNext(old(outputs[i].State()))]
    {
      outputs[i].TakeNext();
      Others(i);
    }

    method ConnectOn(i: nat, ok: bool)
      requires Sound() && i < |outputs| && !outputs[i].ready
      requires outputs[i].inFlight.buffer != null && BufferOf(outputs[i].inFlight) <= pool.holds
      modifies outputs[i], pool, outputs[i].inFlight.buffer
      ensures Sound() && States() == old(States())[i := ConnectFirst(outputs[i].cfg, old(outputs[i].State()), ok)]
      ensures pool.holds == old(pool.holds) - if ok then multiset{} else BufferOf(old(outputs[i].inFlight))
      ensures pool.Intact()
    {
      outputs[i].Connected(pool, ok);
      Others(i);
    }

    method SendOn(i: nat, ok: bool)
      requires Sound() && i < |outputs| && outputs[i].ready
      requires outputs[i].inFlight.buffer != null && BufferOf(outputs[i].inFlight) <= pool.holds
      modifies outputs[i], pool, outputs[i].inFlight.buffer
      ensures Sound()
      ensures States() == old(States())[i := SendOrDrop(outputs[i].cfg, old(outputs[i].State()), ok, old(outputs[i].inFlight.buffer.size))]
      ensures pool.holds == old(pool.holds) - BufferOf(old(outputs[i].inFlight))
      ensures pool.Intact()
    {
      outputs[i].SendTaken(pool, ok);
      Others(i);
    }
  
    method CopyIn(bytes: seq<bv8>, alloc: Allocator) returns (b: MediaBuffer?)
      requires Sound()
      modifies pool, pool.free
      ensures Sound() && States() == old(States())
      ensures b == null ==> pool.holds == old(pool.holds)
      ensures b != null ==>
                && b !in old(pool.holds) && pool.holds == old(pool.holds) + multiset{b}
                && b.Sized() && b.Payload() == bytes
      ensures pool.Intact()
    {
      b := pool.CreateCopy(bytes, alloc);
    }

    method Reset(p: Packet)
      requires Sound() && BufferOf(p) <= pool.holds
      modifies pool, p.buffer
      ensures Sound() && States() == old(States())
      ensures pool.holds == old(pool.holds) - BufferOf(p)
      ensures pool.Intact()
    {
      if p.buffer != null {
        pool.Release(p.buffer);
      }
    }

    /** A buffer that a queued packet refers to is not on the free list, and its counter is the number
        of packets that hold it. */
    lemma QueuedIsLive(i: nat, t: FrameType, k: nat)
      requires Valid() && i < |outputs| && k < |QueueOf(States()[i], t)|
      requires QueueOf(States()[i], t)[k].buffer != null
      ensures var b := QueueOf(States()[i], t)[k].buffer;
              && b !in pool.free
              && b.refCount == (Buffers(producers) + Sum(Holdings(States())))[b] > 0
    {
      QueuedIsHeld(Configs(), Account(), i, t, k);
      var b := QueueOf(States()[i], t)[k].buffer;
      assert b in pool.holds && b.refCount == pool.holds[b];
      OpenLaw(Configs(), Account());
    }

    /** A packet with a buffer that is already on the account joins the producers. */
    method Adopt(p: Packet, ghost l: Ledger)
      requires Sound() && Law(Configs(), l) && Fits(Configs(), l)
      requires p.buffer != null && p.buffer !in l.holds
      requires Account() == Ledger(l.holds + BufferOf(p), l.producers, l.outputs)
      modifies this`producers
      ensures Valid() && producers == l.producers + [p]
      ensures CanMove(Configs(), l, Produced(p)) && Account() == After(Configs(), l, Produced(p))
    {
      ProducedLaw(Configs(), l, p);
      producers := producers + [p];
      assert Account() == After(Configs(), l, Produced(p));
    }

    // ----- the operations --------------------------------------------------------------------

    /** An encoder hands over a frame; the packet holds the first reference to a copy of it. */
    method Produce(bytes: seq<bv8>, header: Packet, alloc: Allocator) returns (ok: bool)
      requires Valid()
      modifies this`producers, pool, pool.free
      ensures Valid()
      ensures !ok ==> Account() == old(Account())
      ensures ok ==>
                && |producers| == |old(producers)| + 1
                && var p := producers[|old(producers)|];
                   && p.buffer != null && p.buffer.Sized() && p.buffer.Payload() == bytes
                   && p == header.(buffer := p.buffer)
                   && CanMove(Configs(), old(Account()), Produced(p))
                   && Account() == After(Configs(), old(Account()), Produced(p))
      ensures pool.Intact()
    {
      var b := CopyIn(bytes, alloc);
      ok := b != null;
      if ok {
        Adopt(header.(buffer := b), old(Account()));
      } else {
        assert Account() == old(Account());
      }
    }

    method Discard(k: nat)
      requires Valid() && k < |producers|
      modifies this`producers, pool, producers[k].buffer
      ensures Valid() && Account() == After(Configs(), old(Account()), Move.Discard(k))
      ensures pool.Intact()
    {
      DiscardLaw(Configs(), Account(), k);
      var p := producers[k];
      producers := WithoutProducer(producers, k);
      Reset(p);
      assert Account() == After(Configs(), old(Account()), Move.Discard(k));
    }

    method Offer(i: nat, k: nat)
      requires Valid() && i < |outputs| && k < |producers|
      modifies Footprint(outputs[i]), pool, pool.Live()
      ensures Valid() && Account() == After(Configs(), old(Account()), Hand(i, k))
      ensures pool.Intact()
    {
      HandLaw(Configs(), Account(), i, k);
      EnqueueOn(i, producers[k]);
      assert Account() == After(Configs(), old(Account()), Hand(i, k));
    }

    method Fetch(i: nat)
      requires Valid() && i < |outputs| && CanTake(outputs[i].State())
      modifies Footprint(outputs[i])
      ensures Valid() && Account() == After(Configs(), old(Account()), Move.Fetch(i))
    {
      EveryMoveKeepsTheLaw(Configs(), Account(), Move.Fetch(i));
      TakeOn(i);
      assert Account() == After(Configs(), old(Account()), Move.Fetch(i));
    }

    method Connect(i: nat, ok: bool)
      requires Valid() && i < |outputs| && outputs[i].inFlight != EMPTY && !outputs[i].ready
      modifies outputs[i], pool, pool.Live()
      ensures Valid() && Account() == After(Configs(), old(Account()), Link(i, ok))
      ensures pool.Intact()
    {
      EveryMoveKeepsTheLaw(Configs(), Account(), Link(i, ok));
      LawfulQueues(Configs(), Account(), i);
      ConnectOn(i, ok);
      assert Account() == After(Configs(), old(Account()), Link(i, ok));
    }

    method Send(i: nat, ok: bool)
      requires Valid() && i < |outputs| && outputs[i].inFlight != EMPTY && outputs[i].ready
      modifies outputs[i], pool, pool.Live()
      ensures Valid() && exists bytes :: Account() == After(Configs(), old(Account()), Deliver(i, ok, bytes))
      ensures pool.Intact()
    {
      EveryMoveKeepsTheLaw(Configs(), Account(), Deliver(i, ok, 0));
      LawfulQueues(Configs(), Account(), i);
      ghost var bytes := outputs[i].inFlight.buffer.size;
      EveryMoveKeepsTheLaw(Configs(), Account(), Deliver(i, ok, bytes));
      SendOn(i, ok);
      assert Account() == After(Configs(), old(Account()), Deliver(i, ok, bytes));
    }
  }
}
