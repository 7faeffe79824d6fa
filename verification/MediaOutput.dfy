/** The channel's code over the two rings and the shared pool.

    Each method states what it does to the pool's account of holders; that this always equals what
    the channel and everybody else hold is proved about those changes afterwards. */
module MediaOutput {
  import opened Options
  import opened MediaBuffers
  import opened MediaPackets
  import opened OutputPolicy

  /** Does the packet push the oldest one out? */
  predicate Displaces(cfg: Config, s: Output, p: Packet) {
    p.buffer != null && |QueueOf(s, p.frameType)| >= cfg.capacity && (p.frameType == Audio || p.isKey)
  }

  /** The packets whose references an enqueue depends on: the new one and the one it displaces. */
  ghost function Touched(cfg: Config, s: Output, p: Packet): multiset<MediaBuffer>
    requires cfg.capacity > 0
  {
    if Displaces(cfg, s, p) then BufferOf(QueueOf(s, p.frameType)[0]) + BufferOf(p) else BufferOf(p)
  }

  /** The pool's account after an enqueue. */
  ghost function AccountAfter(cfg: Config, s: Output, p: Packet, holds: multiset<MediaBuffer>): multiset<MediaBuffer>
    requires cfg.capacity > 0
  {
    if p.buffer == null then holds
    else if |QueueOf(s, p.frameType)| < cfg.capacity then holds + BufferOf(p)
    else if Displaces(cfg, s, p) then holds - BufferOf(QueueOf(s, p.frameType)[0]) + BufferOf(p)
    else holds
  }

  predicate OldestHasBuffer(q: seq<Packet>) {
    q != [] ==> q[0].buffer != null
  }

  class MediaOutput {
    const cfg: Config
    const video: PacketQueue
    const audio: PacketQueue
    var ready: bool
    var waiting: bool
    var inFlight: Packet
    var stats: Stats
    ghost var history: History

    ghost predicate Rings()
      reads this, video, audio, video.items, audio.items
    {
      && video != audio && video.items != audio.items
      && video.Valid() && audio.Valid()
      && video.items.Length == audio.items.Length == cfg.capacity
    }

    ghost function State(): Output
      requires Rings()
      reads this, video, audio, video.items, audio.items
    {
      Output(video.Contents(), audio.Contents(), ready, waiting, inFlight, stats, history)
    }

    constructor (cfg: Config)
      requires cfg.capacity > 0
      ensures this.cfg == cfg && Rings() && State() == OutputPolicy.Fresh(cfg)
      ensures fresh(video) && fresh(audio) && fresh(video.items) && fresh(audio.items)
    {
      this.cfg := cfg;
      video := new PacketQueue(cfg.capacity);
      audio := new PacketQueue(cfg.capacity);
      ready, waiting, inFlight := false, cfg.gate, EMPTY;
      stats, history := Stats(0, 0, 0, 0, 0), History(0, 0, []);
    }

    method PopFrom(t: FrameType) returns (p: Packet)
      requires Rings() && QueueOf(State(), t) != []
      modifies video, audio, video.items, audio.items
      ensures Rings() && p == QueueOf(old(State()), t)[0]
      ensures State() == WithQueue(old(State()), t, QueueOf(old(State()), t)[1..])
    {
      var r := Some(EMPTY);
      if t == Audio {
        r := audio.Pop();
      } else {
        r := video.Pop();
      }
      p := r.value;
    }

    method CountDrop()
      requires Rings()
      modifies this`stats
      ensures Rings()
      ensures State() == old(State()).(stats := old(stats).(dropped := old(stats.dropped) + 1))
    {
      stats := stats.(dropped := stats.dropped + 1);
    }

    method LetGo(pool: BufferPool, b: MediaBuffer)
      requires Rings() && pool.Valid() && b in pool.holds
      modifies pool, b
      ensures Rings() && State() == old(State())
      ensures pool.Valid() && pool.holds == old(pool.holds) - multiset{b}
      ensures pool.Intact()
    {
      pool.Release(b);
    }

    method DropOldest(pool: BufferPool, t: FrameType)
      requires Rings() && pool.Valid() && QueueOf(State(), t) != []
      requires QueueOf(State(), t)[0].buffer != null && QueueOf(State(), t)[0].buffer in pool.holds
      modifies this`stats, video, audio, video.items, audio.items, pool, QueueOf(State(), t)[0].buffer
      ensures Rings() && State() == OutputPolicy.DropOldest(old(State()), t)
      ensures pool.Valid() && pool.holds == old(pool.holds) - BufferOf(QueueOf(old(State()), t)[0])
      ensures pool.Intact()
    {
      var p := PopFrom(t);
      CountDrop();
      LetGo(pool, p.buffer);
    }

    method PushOn(p: Packet)
      requires Rings() && |QueueOf(State(), p.frameType)| < cfg.capacity
      modifies video, audio, video.items, audio.items
      ensures Rings() && State() == Append(old(State()), p)
    {
      if p.frameType == Audio {
        var _ := audio.Push(p);
      } else {
        var _ := video.Push(p);
      }
    }

    method PushRef(pool: BufferPool, p: Packet)
      requires Rings() && pool.Valid() && p.buffer != null && p.buffer in pool.holds
      requires |QueueOf(State(), p.frameType)| < cfg.capacity
      modifies video, audio, video.items, audio.items, pool`holds, p.buffer`refCount
      ensures Rings() && State() == Append(old(State()), p)
      ensures pool.Valid() && pool.holds == old(pool.holds) + BufferOf(p)
      ensures pool.Intact()
    {
      PushOn(p);
      pool.Retain(p.buffer);
    }

    method Replace(pool: BufferPool, p: Packet)
      requires Rings() && pool.Valid() && p.buffer != null && cfg.capacity > 0
      requires |QueueOf(State(), p.frameType)| == cfg.capacity && QueueOf(State(), p.frameType)[0].buffer != null
      requires BufferOf(QueueOf(State(), p.frameType)[0]) + BufferOf(p) <= pool.holds
      modifies this`stats, video, audio, video.items, audio.items, pool, pool.Live()
      ensures Rings() && State() == Append(OutputPolicy.DropOldest(old(State()), p.frameType), p)
      ensures pool.Valid()
      ensures pool.holds == old(pool.holds) - BufferOf(QueueOf(old(State()), p.frameType)[0]) + BufferOf(p)
      ensures pool.Intact()
    {
      ghost var oldest := QueueOf(State(), p.frameType)[0];
      assert pool.holds[oldest.buffer] > 0 && p.buffer in pool.holds - BufferOf(oldest);
      DropOldest(pool, p.frameType);
      PushRef(pool, p);
    }

    ghost method CountOffer()
      requires Rings()
      modifies this`history
      ensures Rings() && State() == Offered(old(State()))
    {
      history := history.(offered := history.offered + 1);
    }

    /** The producer keeps its own reference; the queue takes one more. */
    method Enqueue(pool: BufferPool, p: Packet) returns (status: Status)
      requires Rings() && pool.Valid() && OldestHasBuffer(QueueOf(State(), p.frameType))
      requires Touched(cfg, State(), p) <= pool.holds
      modifies this`stats, this`history, video, audio, video.items, audio.items, pool, pool.Live()
      ensures Rings() && (State(), status) == OutputPolicy.Enqueue(cfg, old(State()), p)
      ensures pool.Valid() && pool.holds == AccountAfter(cfg, old(State()), p, old(pool.holds))
      ensures pool.Intact()
    {
      if p.buffer == null {
        return InvalidParam;
      }
      var size := if p.frameType == Audio then audio.size else video.size;
      assert size == |QueueOf(State(), p.frameType)|;
      CountOffer();
      if size < cfg.capacity {
        PushRef(pool, p);
      } else if p.frameType == Video && !p.isKey {
        stats := stats.(dropped := stats.dropped + 1);
      } else {
        Replace(pool, p);
      }
      return Ok;
    }

    /** The lock-held part of the thread's loop. */
    method TakeNext()
      requires Rings() && CanTake(State())
      modifies this, video, audio, video.items, audio.items
      ensures Rings() && State() == OutputPolicy.TakeNext(old(State()))
    {
      var fromAudio :=
        if waiting && video.size > 0 then false
        else if video.size == 0 then true
        else if audio.size == 0 then false
        else audio.items[audio.head].pts < video.items[video.head].pts;
      inFlight := PopFrom(if fromAudio then Audio else Video);
    }

    method Reset(pool: BufferPool)
      requires Rings() && pool.Valid() && inFlight.buffer != null && inFlight.buffer in pool.holds
      modifies this`inFlight, pool, inFlight.buffer
      ensures Rings() && State() == old(State()).(inFlight := EMPTY)
      ensures pool.Valid() && pool.holds == old(pool.holds) - BufferOf(old(inFlight))
      ensures pool.Intact()
    {
      LetGo(pool, inFlight.buffer);
      inFlight := EMPTY;
    }

    method MarkConnection(ok: bool)
      requires Rings()
      modifies this`ready, this`waiting, this`stats, this`history
      ensures Rings()
      ensures inFlight != EMPTY && !old(ready) ==>
                State() == ConnectFirst(cfg, old(State()), ok).(inFlight := inFlight)
    {
      history := Log(history, Connect(ok));
      if ok {
        ready, waiting := true, cfg.gate;
        stats := stats.(readyCount := stats.readyCount + 1);
      } else {
        history := history.(discarded := history.discarded + 1);
      }
    }

    method Connected(pool: BufferPool, ok: bool)
      requires Rings() && pool.Valid() && inFlight.buffer != null && inFlight.buffer in pool.holds && !ready
      modifies this, pool, inFlight.buffer
      ensures Rings() && State() == ConnectFirst(cfg, old(State()), ok)
      ensures pool.Valid() && pool.holds == old(pool.holds) - if ok then multiset{} else BufferOf(old(inFlight))
      ensures pool.Intact()
    {
      MarkConnection(ok);
      if !ok {
        Reset(pool);
      }
    }

    method MarkSend(ok: bool, bytes: nat)
      requires Rings()
      modifies this`ready, this`waiting, this`stats, this`history
      ensures Rings()
      ensures inFlight != EMPTY && old(ready) ==>
                State() == SendOrDrop(cfg, old(State()), ok, bytes).(inFlight := inFlight)
    {
      if waiting && !inFlight.isKey {
        stats := stats.(dropped := stats.dropped + 1);
        return;
      }
      waiting := false;
      history := Log(history, Send(inFlight, ok));
      if !ok {
        ready, waiting := false, cfg.gate;
        stats := stats.(failures := stats.failures + 1);
      } else {
        stats := stats.(sent := stats.sent + 1, sentBytes := stats.sentBytes + bytes);
      }
    }

    method SendTaken(pool: BufferPool, ok: bool)
      requires Rings() && pool.Valid() && inFlight.buffer != null && inFlight.buffer in pool.holds && ready
      modifies this, pool, inFlight.buffer
      ensures Rings() && State() == SendOrDrop(cfg, old(State()), ok, old(inFlight.buffer.size))
      ensures pool.Valid() && pool.holds == old(pool.holds) - BufferOf(old(inFlight))
      ensures pool.Intact()
    {
      MarkSend(ok, inFlight.buffer.size);
      Reset(pool);
    }
  }
}
