/** One output channel as a value: two bounded queues, the sending thread between two of its actions,
    and the counters.

    The producer enqueues under the channel's lock; the thread takes a packet under the lock and then
    connects, discards or sends outside it.  Each of these is one operation here, so producers may
    run between any two of them.  `History` records what happened; no operation reads it. */
module OutputPolicy {
  import opened MediaBuffers
  import opened MediaPackets

  datatype Config = Config(capacity: nat, gate: bool)

  datatype Event = Connect(ok: bool) | Send(packet: Packet, ok: bool)

  datatype Stats = Stats(dropped: nat, sent: nat, sentBytes: nat, failures: nat, readyCount: nat)

  datatype History = History(offered: nat, discarded: nat, log: seq<Event>)

  /** `inFlight` is EMPTY while the thread holds no packet. */
  datatype Output = Output(
    video: seq<Packet>,
    audio: seq<Packet>,
    ready: bool,
    waiting: bool,
    inFlight: Packet,
    stats: Stats,
    history: History)

  datatype Status = Ok | InvalidParam

  function Fresh(cfg: Config): Output {
    Output([], [], false, cfg.gate, EMPTY, Stats(0, 0, 0, 0, 0), History(0, 0, []))
  }

  function QueueOf(s: Output, t: FrameType): seq<Packet> {
    if t == Audio then s.audio else s.video
  }

  function WithQueue(s: Output, t: FrameType, q: seq<Packet>): Output {
    if t == Audio then s.(audio := q) else s.(video := q)
  }

  function Offered(s: Output): Output {
    s.(history := s.history.(offered := s.history.offered + 1))
  }

  function DropOldest(s: Output, t: FrameType): Output
    requires QueueOf(s, t) != []
  {
    WithQueue(s, t, QueueOf(s, t)[1..]).(stats := s.stats.(dropped := s.stats.dropped + 1))
  }

  function Append(s: Output, p: Packet): Output {
    WithQueue(s, p.frameType, QueueOf(s, p.frameType) + [p])
  }

  /** A full queue makes room for audio and for key frames, and refuses any other video frame. */
  function Enqueue(cfg: Config, s: Output, p: Packet): (Output, Status)
    requires cfg.capacity > 0
  {
    if p.buffer == null then (s, InvalidParam)
    else
      var o := Offered(s);
      if |QueueOf(s, p.frameType)| < cfg.capacity then (Append(o, p), Ok)
      else if p.frameType == Audio || p.isKey then (Append(DropOldest(o, p.frameType), p), Ok)
      else (o.(stats := s.stats.(dropped := s.stats.dropped + 1)), Ok)
  }

  /** Which queue the thread takes from. */
  function Choose(video: seq<Packet>, audio: seq<Packet>, waiting: bool): FrameType
    requires video != [] || audio != []
  {
    if waiting && video != [] then Video
    else if video == [] then Audio
    else if audio == [] then Video
    else if audio[0].pts < video[0].pts then Audio
    else Video
  }

  predicate CanTake(s: Output) {
    s.inFlight == EMPTY && (s.video != [] || s.audio != [])
  }

  function TakeNext(s: Output): Output
    requires CanTake(s)
  {
    var t := Choose(s.video, s.audio, s.waiting);
    WithQueue(s, t, QueueOf(s, t)[1..]).(inFlight := QueueOf(s, t)[0])
  }

  function Log(h: History, e: Event): History {
    h.(log := h.log + [e])
  }

  /** The backend is asked to become ready; a packet that meets a failure is given up uncounted. */
  function ConnectFirst(cfg: Config, s: Output, ok: bool): Output
    requires s.inFlight != EMPTY && !s.ready
  {
    if ok then
      s.(ready := true, waiting := cfg.gate, stats := s.stats.(readyCount := s.stats.readyCount + 1),
         history := Log(s.history, Connect(true)))
    else
      s.(inFlight := EMPTY, history := Log(s.history, Connect(false)).(discarded := s.history.discarded + 1))
  }

  function SendOrDrop(cfg: Config, s: Output, ok: bool, bytes: nat): Output
    requires s.inFlight != EMPTY && s.ready
  {
    var p := s.inFlight;
    if s.waiting && !p.isKey then
      s.(inFlight := EMPTY, stats := s.stats.(dropped := s.stats.dropped + 1))
    else if ok then
      s.(inFlight := EMPTY, waiting := false,
         stats := s.stats.(sent := s.stats.sent + 1, sentBytes := s.stats.sentBytes + bytes),
         history := Log(s.history, Send(p, true)))
    else
      s.(inFlight := EMPTY, ready := false, waiting := cfg.gate,
         stats := s.stats.(failures := s.stats.failures + 1),
         history := Log(s.history, Send(p, false)))
  }

  ghost function Held(s: Output): multiset<MediaBuffer> {
    Buffers(s.video) + Buffers(s.audio) + BufferOf(s.inFlight)
  }

  // ----- whole runs ------------------------------------------------------------------------

  datatype Step =
    | Offer(packet: Packet)
    | Take
    | TryConnect(ok: bool)
    | TrySend(ok: bool, bytes: nat)

  function Next(cfg: Config, s: Output, step: Step): Output
    requires cfg.capacity > 0
  {
    match step
    case Offer(p) => Enqueue(cfg, s, p).0
    case Take => if CanTake(s) then TakeNext(s) else s
    case TryConnect(ok) => if s.inFlight != EMPTY && !s.ready then ConnectFirst(cfg, s, ok) else s
    case TrySend(ok, bytes) => if s.inFlight != EMPTY && s.ready then SendOrDrop(cfg, s, ok, bytes) else s
  }

  function Run(cfg: Config, s: Output, steps: seq<Step>): Output
    requires cfg.capacity > 0
    decreases |steps|
  {
    if steps == [] then s else Run(cfg, Next(cfg, s, steps[0]), steps[1..])
  }

  ghost predicate QueueOk(cfg: Config, q: seq<Packet>, t: FrameType) {
    |q| <= cfg.capacity && forall p :: p in q ==> p.frameType == t && p.buffer != null
  }

  /** Queues hold packets of their own kind with a payload, and no more than they have room for. */
  ghost predicate QueuesOk(cfg: Config, s: Output) {
    && QueueOk(cfg, s.video, Video)
    && QueueOk(cfg, s.audio, Audio)
    && (s.inFlight != EMPTY ==> s.inFlight.buffer != null)
  }

  /** Every packet offered so far was sent, failed, was dropped, was given up at a failed connection,
      or is still held. */
  predicate Conserved(s: Output) {
    s.history.offered == s.stats.sent + s.stats.failures + s.stats.dropped + s.history.discarded
                         + |s.video| + |s.audio| + if s.inFlight == EMPTY then 0 else 1
  }

  predicate ReadyAfter(log: seq<Event>) {
    log != [] && (log[|log| - 1] == Connect(true) || (log[|log| - 1].Send? && log[|log| - 1].ok))
  }

  /** Each send directly follows a successful connection or a successful send; with the gate on, the
      send after a connection is a key frame. */
  predicate Gated(cfg: Config, log: seq<Event>) {
    forall i :: 0 <= i < |log| && log[i].Send? ==>
      && ReadyAfter(log[..i])
      && (cfg.gate && log[i - 1].Connect? ==> log[i].packet.isKey)
  }

  predicate GateInv(cfg: Config, s: Output) {
    && Gated(cfg, s.history.log)
    && s.ready == ReadyAfter(s.history.log)
    && (s.ready ==> s.waiting == (cfg.gate && s.history.log[|s.history.log| - 1].Connect?))
    && (!s.ready ==> s.waiting == cfg.gate)
  }

  ghost predicate Inv(cfg: Config, s: Output) {
    QueuesOk(cfg, s) && Conserved(s) && GateInv(cfg, s)
  }

  lemma GateAppend(cfg: Config, log: seq<Event>, e: Event)
    requires Gated(cfg, log)
    requires e.Send? ==> ReadyAfter(log) && (cfg.gate && log[|log| - 1].Connect? ==> e.packet.isKey)
    ensures Gated(cfg, log + [e])
  {
    var t := log + [e];
    forall i | 0 <= i < |t| && t[i].Send?
      ensures ReadyAfter(t[..i]) && (cfg.gate && t[i - 1].Connect? ==> t[i].packet.isKey)
    {
      assert t[..i] == log[..i];
    }
  }

  lemma GateConnect(cfg: Config, s: Output, ok: bool)
    requires GateInv(cfg, s) && s.inFlight != EMPTY && !s.ready
    ensures GateInv(cfg, ConnectFirst(cfg, s, ok))
  {
    GateAppend(cfg, s.history.log, Connect(ok));
  }

  lemma GateSend(cfg: Config, s: Output, ok: bool, bytes: nat)
    requires GateInv(cfg, s) && s.inFlight != EMPTY && s.ready
    ensures GateInv(cfg, SendOrDrop(cfg, s, ok, bytes))
  {
    if !(s.waiting && !s.inFlight.isKey) {
      GateAppend(cfg, s.history.log, Send(s.inFlight, ok));
    }
  }

  lemma GateStep(cfg: Config, s: Output, step: Step)
    requires cfg.capacity > 0 && GateInv(cfg, s)
    ensures GateInv(cfg, Next(cfg, s, step))
  {
    match step
    case TryConnect(ok) =>
      if s.inFlight != EMPTY && !s.ready {
        GateConnect(cfg, s, ok);
      }
    case TrySend(ok, bytes) =>
      if s.inFlight != EMPTY && s.ready {
        GateSend(cfg, s, ok, bytes);
      }
    case _ =>
  }

  lemma AppendOk(cfg: Config, q: seq<Packet>, p: Packet)
    requires QueueOk(cfg, q, p.frameType) && cfg.capacity > 0 && p.buffer != null
    ensures |q| < cfg.capacity ==> QueueOk(cfg, q + [p], p.frameType)
    ensures q != [] ==> QueueOk(cfg, q[1..] + [p], p.frameType)
  {
  }

  lemma OfferKeeps(cfg: Config, s: Output, p: Packet)
    requires cfg.capacity > 0 && QueuesOk(cfg, s)
    ensures QueuesOk(cfg, Enqueue(cfg, s, p).0)
  {
    if p.buffer != null {
      AppendOk(cfg, QueueOf(s, p.frameType), p);
    }
  }

  lemma OfferConserves(cfg: Config, s: Output, p: Packet)
    requires cfg.capacity > 0 && Conserved(s)
    ensures Conserved(Enqueue(cfg, s, p).0)
  {
  }

  lemma TakeKeeps(cfg: Config, s: Output)
    requires QueuesOk(cfg, s) && CanTake(s)
    ensures QueuesOk(cfg, TakeNext(s)) && (Conserved(s) ==> Conserved(TakeNext(s)))
  {
  }

  lemma QueuesStep(cfg: Config, s: Output, step: Step)
    requires cfg.capacity > 0 && QueuesOk(cfg, s) && Conserved(s)
    ensures QueuesOk(cfg, Next(cfg, s, step)) && Conserved(Next(cfg, s, step))
  {
    match step
    case Offer(p) =>
      OfferKeeps(cfg, s, p);
      OfferConserves(cfg, s, p);
    case Take =>
      if CanTake(s) {
        TakeKeeps(cfg, s);
      }
    case _ =>
  }

  lemma {:induction false} InvRun(cfg: Config, s: Output, steps: seq<Step>)
    requires cfg.capacity > 0 && Inv(cfg, s)
    ensures Inv(cfg, Run(cfg, s, steps))
    decreases |steps|
  {
    if steps == [] {
    } else {
      GateStep(cfg, s, steps[0]);
      QueuesStep(cfg, s, steps[0]);
      InvRun(cfg, Next(cfg, s, steps[0]), steps[1..]);
    }
  }

  /** The key-frame gate: between a send and the latest connection or failed send before it there is
      always a connection that succeeded, and the first send after that connection is a key frame. */
  lemma {:induction false} KeyFrameGate(cfg: Config, steps: seq<Step>, i: nat, j: nat)
    requires cfg.capacity > 0 && cfg.gate
    requires var log := Run(cfg, Fresh(cfg), steps).history.log;
             && i < j < |log| && log[j].Send? && (log[i] == Connect(true) || (log[i].Send? && !log[i].ok))
             && (forall k :: i < k < j ==> !log[k].Send?)
    ensures Run(cfg, Fresh(cfg), steps).history.log[j].packet.isKey
  {
    InvRun(cfg, Fresh(cfg), steps);
    var log := Run(cfg, Fresh(cfg), steps).history.log;
    assert log[..j][j - 1] == log[j - 1];
  }

  lemma {:induction false} LastConnection(cfg: Config, log: seq<Event>, j: nat)
    requires Gated(cfg, log) && j < |log| && log[j].Send?
    ensures exists i :: 0 <= i < j && log[i] == Connect(true) && forall k :: i < k < j ==> log[k].Send? && log[k].ok
    decreases j
  {
    assert log[..j][j - 1] == log[j - 1];
    if log[j - 1].Send? {
      LastConnection(cfg, log, j - 1);
    }
  }

  /** Nothing is sent before the first connection, and nothing after a failed connection or a failed
      send until a connection succeeds. */
  lemma {:induction false} NeverSentUnready(cfg: Config, steps: seq<Step>, j: nat)
    requires cfg.capacity > 0
    requires var log := Run(cfg, Fresh(cfg), steps).history.log; j < |log| && log[j].Send?
    ensures var log := Run(cfg, Fresh(cfg), steps).history.log;
            exists i :: 0 <= i < j && log[i] == Connect(true) && forall k :: i < k < j ==> log[k].Send? && log[k].ok
  {
    InvRun(cfg, Fresh(cfg), steps);
    LastConnection(cfg, Run(cfg, Fresh(cfg), steps).history.log, j);
  }

  lemma {:induction false} Conservation(cfg: Config, steps: seq<Step>)
    requires cfg.capacity > 0
    ensures Conserved(Run(cfg, Fresh(cfg), steps))
  {
    InvRun(cfg, Fresh(cfg), steps);
  }

  predicate DiscardsCounted(s: Output) {
    s.history.discarded == 0 <==> Connect(false) !in s.history.log
  }

  lemma {:induction false} DiscardsAreFailures(cfg: Config, s: Output, steps: seq<Step>)
    requires cfg.capacity > 0 && DiscardsCounted(s)
    ensures DiscardsCounted(Run(cfg, s, steps))
    decreases |steps|
  {
    if steps == [] {
    } else {
      var n := Next(cfg, s, steps[0]);
      assert n.history.log != s.history.log ==> n.history.log[|n.history.log| - 1] in n.history.log;
      DiscardsAreFailures(cfg, n, steps[1..]);
    }
  }

  /** The counters the program keeps account for every packet exactly when no connection ever failed. */
  lemma {:induction false} CountersAccountForAllIffNoConnectFailed(cfg: Config, steps: seq<Step>)
    requires cfg.capacity > 0
    ensures var s := Run(cfg, Fresh(cfg), steps);
            (s.history.offered == s.stats.sent + s.stats.failures + s.stats.dropped
                                  + |s.video| + |s.audio| + if s.inFlight == EMPTY then 0 else 1)
            <==> Connect(false) !in s.history.log
  {
    InvRun(cfg, Fresh(cfg), steps);
    DiscardsAreFailures(cfg, Fresh(cfg), steps);
  }

  // ----- the enqueue policy ----------------------------------------------------------------

  /** A bounded first-in first-out queue: the newest `capacity` of what it held and what arrives. */
  function Newest(q: seq<Packet>, capacity: nat): seq<Packet> {
    if |q| <= capacity then q else q[|q| - capacity..]
  }

  /** Audio and key frames always get in, at the cost of the oldest packet of their queue; the other
      queue is never affected. */
  lemma EnqueueRefinesBoundedFifo(cfg: Config, s: Output, p: Packet)
    requires cfg.capacity > 0 && QueuesOk(cfg, s) && p.buffer != null
    ensures var n := Enqueue(cfg, s, p).0;
            && QueueOf(n, p.frameType) ==
               (if p.frameType == Video && !p.isKey && |s.video| == cfg.capacity then s.video
                else Newest(QueueOf(s, p.frameType) + [p], cfg.capacity))
            && (forall t :: t != p.frameType ==> QueueOf(n, t) == QueueOf(s, t))
            && (n.stats.dropped == s.stats.dropped + if |QueueOf(s, p.frameType)| == cfg.capacity then 1 else 0)
  {
  }

  // ----- draining --------------------------------------------------------------------------

  /** What the thread takes, in order, when nothing arrives and no key frame is awaited. */
  function Drain(video: seq<Packet>, audio: seq<Packet>): seq<Packet>
    decreases |video| + |audio|
  {
    if video == [] && audio == [] then []
    else if Choose(video, audio, false) == Video then [video[0]] + Drain(video[1..], audio)
    else [audio[0]] + Drain(video, audio[1..])
  }

  function Only(ps: seq<Packet>, t: FrameType): seq<Packet> {
    if ps == [] then []
    else if ps[0].frameType == t then [ps[0]] + Only(ps[1..], t)
    else Only(ps[1..], t)
  }

  predicate Before(a: Packet, b: Packet) {
    a.pts < b.pts || (a.pts == b.pts && (a.frameType == Video || b.frameType == Audio))
  }

  predicate InOrder(ps: seq<Packet>) {
    forall i, j :: 0 <= i < j < |ps| ==> Before(ps[i], ps[j])
  }

  predicate AllOf(ps: seq<Packet>, t: FrameType) {
    forall i :: 0 <= i < |ps| ==> ps[i].frameType == t
  }

  /** Draining interleaves the queues without reordering or losing anything, whatever the time stamps. */
  lemma {:induction false} DrainKeepsQueues(video: seq<Packet>, audio: seq<Packet>)
    requires AllOf(video, Video) && AllOf(audio, Audio)
    ensures Only(Drain(video, audio), Video) == video && Only(Drain(video, audio), Audio) == audio
    decreases |video| + |audio|
  {
    if video == [] && audio == [] {
    } else {
      if Choose(video, audio, false) == Video {
        DrainKeepsQueues(video[1..], audio);
      } else {
        DrainKeepsQueues(video, audio[1..]);
      }
    }
  }

  lemma {:induction false} DrainElements(video: seq<Packet>, audio: seq<Packet>, p: Packet)
    ensures p in Drain(video, audio) <==> p in video || p in audio
    decreases |video| + |audio|
  {
    if video == [] && audio == [] {
    } else {
      if Choose(video, audio, false) == Video {
        DrainElements(video[1..], audio, p);
        assert video == [video[0]] + video[1..];
      } else {
        DrainElements(video, audio[1..], p);
        assert audio == [audio[0]] + audio[1..];
      }
    }
  }

  lemma FirstBefore(video: seq<Packet>, audio: seq<Packet>, p: Packet)
    requires AllOf(video, Video) && AllOf(audio, Audio) && InOrder(video) && InOrder(audio)
    requires video != [] || audio != []
    requires if Choose(video, audio, false) == Video then p in video[1..] || p in audio else p in video || p in audio[1..]
    ensures Before(if Choose(video, audio, false) == Video then video[0] else audio[0], p)
  {
    if p in video {
      var i :| 0 <= i < |video| && video[i] == p;
    } else {
      var i :| 0 <= i < |audio| && audio[i] == p;
    }
  }

  /** Queues in presentation order drain in presentation order, video first where times are equal. */
  lemma {:induction false} DrainIsSorted(video: seq<Packet>, audio: seq<Packet>)
    requires AllOf(video, Video) && AllOf(audio, Audio) && InOrder(video) && InOrder(audio)
    ensures InOrder(Drain(video, audio))
    decreases |video| + |audio|
  {
    if video == [] && audio == [] {
    } else {
      var takeVideo := Choose(video, audio, false) == Video;
      var first := if takeVideo then video[0] else audio[0];
      var v, a := if takeVideo then video[1..] else video, if takeVideo then audio else audio[1..];
      DrainIsSorted(v, a);
      var rest := Drain(v, a);
      forall j | 0 <= j < |rest| ensures Before(first, rest[j]) {
        DrainElements(v, a, rest[j]);
        FirstBefore(video, audio, rest[j]);
      }
    }
  }

  predicate SameKinds(ps: seq<Packet>, qs: seq<Packet>) {
    Only(ps, Video) == Only(qs, Video) && Only(ps, Audio) == Only(qs, Audio)
  }

  lemma {:induction false} OnlyIsPart(ps: seq<Packet>, t: FrameType)
    ensures forall p :: p in Only(ps, t) ==> p in ps && p.frameType == t
  {
    if ps == [] {
    } else {
      OnlyIsPart(ps[1..], t);
    }
  }

  /** The first packet of one sequence is in the other, and first among its kind there. */
  lemma HeadIsIn(ps: seq<Packet>, qs: seq<Packet>)
    requires ps != [] && SameKinds(ps, qs)
    ensures ps[0] in qs
    ensures qs != [] && qs[0].frameType == ps[0].frameType ==> qs[0] == ps[0]
  {
    var t := ps[0].frameType;
    assert Only(ps, t) == Only(qs, t);
    assert Only(ps, t)[0] == ps[0];
    assert ps[0] in Only(qs, t);
    OnlyIsPart(qs, t);
  }

  lemma HeadBefore(ps: seq<Packet>, p: Packet)
    requires InOrder(ps) && p in ps && p != ps[0]
    ensures Before(ps[0], p)
  {
  }

  lemma TailKinds(ps: seq<Packet>, qs: seq<Packet>, t: FrameType)
    requires ps != [] && qs != [] && ps[0] == qs[0] && Only(ps, t) == Only(qs, t)
    ensures Only(ps[1..], t) == Only(qs[1..], t)
  {
    if ps[0].frameType == t {
      assert Only(ps, t)[1..] == Only(ps[1..], t);
      assert Only(qs, t)[1..] == Only(qs[1..], t);
    }
  }

  /** There is only one such order, so the drain is the merge of the two queues. */
  lemma {:induction false} MergeIsUnique(ps: seq<Packet>, qs: seq<Packet>)
    requires InOrder(ps) && InOrder(qs)
    requires SameKinds(ps, qs)
    ensures ps == qs
  {
    if ps != [] {
      HeadIsIn(ps, qs);
    }
    if qs != [] {
      HeadIsIn(qs, ps);
    }
    if ps != [] && qs != [] {
      if ps[0].frameType != qs[0].frameType {
        HeadBefore(ps, qs[0]);
        HeadBefore(qs, ps[0]);
      } else {
        TailKinds(ps, qs, Video);
        TailKinds(ps, qs, Audio);
        MergeIsUnique(ps[1..], qs[1..]);
      }
    }
  }

  // ----- draining through the channel ------------------------------------------------------

  /** The thread takes and successfully sends one packet for each of the given sizes. */
  function Rounds(sizes: seq<nat>): seq<Step> {
    if sizes == [] then [] else [Take, TrySend(true, sizes[0])] + Rounds(sizes[1..])
  }

  function Sends(ps: seq<Packet>): seq<Event> {
    if ps == [] then [] else [Send(ps[0], true)] + Sends(ps[1..])
  }

  lemma TakenIsPacket(cfg: Config, s: Output)
    requires QueuesOk(cfg, s) && CanTake(s)
    ensures TakeNext(s).inFlight != EMPTY
  {
    var t := Choose(s.video, s.audio, s.waiting);
    assert QueueOf(s, t)[0] in QueueOf(s, t);
  }

  lemma OneRound(cfg: Config, s: Output, bytes: nat, rest: seq<Step>)
    requires cfg.capacity > 0 && QueuesOk(cfg, s) && CanTake(s) && s.ready && !s.waiting
    ensures var n := SendOrDrop(cfg, TakeNext(s), true, bytes);
            && Run(cfg, s, [Take, TrySend(true, bytes)] + rest) == Run(cfg, n, rest)
            && n.history.log == s.history.log + [Send(TakeNext(s).inFlight, true)]
  {
    var steps := [Take, TrySend(true, bytes)] + rest;
    assert steps[1..][1..] == rest && steps[1..][0] == TrySend(true, bytes);
    assert Run(cfg, s, steps) == Run(cfg, TakeNext(s), steps[1..]);
    TakenIsPacket(cfg, s);
  }

  ghost predicate Flowing(cfg: Config, s: Output) {
    QueuesOk(cfg, s) && s.inFlight == EMPTY && s.ready && !s.waiting
  }

  lemma RoundTakesHead(cfg: Config, s: Output, bytes: nat)
    requires Flowing(cfg, s) && CanTake(s)
    ensures TakeNext(s).inFlight != EMPTY
    ensures var n := SendOrDrop(cfg, TakeNext(s), true, bytes);
            && Flowing(cfg, n) && |n.video| + |n.audio| == |s.video| + |s.audio| - 1
            && Drain(s.video, s.audio) == [TakeNext(s).inFlight] + Drain(n.video, n.audio)
  {
    TakenIsPacket(cfg, s);
  }

  lemma SendsHead(log: seq<Event>, p: Packet, ps: seq<Packet>)
    ensures log + Sends([p] + ps) == log + [Send(p, true)] + Sends(ps)
  {
    assert ([p] + ps)[1..] == ps;
  }

  /** A ready channel that awaits no key frame and whose sends succeed sends the merge of its queues. */
  lemma {:induction false} SendsTheMerge(cfg: Config, s: Output, sizes: seq<nat>)
    requires cfg.capacity > 0 && Flowing(cfg, s) && |sizes| == |s.video| + |s.audio|
    ensures var n := Run(cfg, s, Rounds(sizes));
            n.video == [] && n.audio == [] && n.history.log == s.history.log + Sends(Drain(s.video, s.audio))
    decreases |sizes|
  {
    if sizes == [] {
    } else {
      RoundTakesHead(cfg, s, sizes[0]);
      OneRound(cfg, s, sizes[0], Rounds(sizes[1..]));
      var n := SendOrDrop(cfg, TakeNext(s), true, sizes[0]);
      SendsTheMerge(cfg, n, sizes[1..]);
      SendsHead(s.history.log, TakeNext(s).inFlight, Drain(n.video, n.audio));
    }
  }

  // ----- a channel that waits for a key frame ----------------------------------------------

  /** What a waiting channel takes: the oldest video packet if there is one, whatever the time stamps. */
  lemma WaitingTakesVideo(cfg: Config, s: Output)
    requires cfg.capacity > 0 && CanTake(s) && s.waiting
    ensures var n := Next(cfg, s, Take);
            if s.video != [] then n.inFlight == s.video[0] && n.video == s.video[1..] && n.audio == s.audio
            else n.inFlight == s.audio[0] && n.audio == s.audio[1..] && n.video == s.video
  {
  }

  ghost predicate Waiting(cfg: Config, s: Output) {
    QueuesOk(cfg, s) && s.inFlight == EMPTY && s.ready && s.waiting
  }

  lemma TwoSteps(cfg: Config, s: Output, a: Step, b: Step, rest: seq<Step>)
    requires cfg.capacity > 0
    ensures Run(cfg, s, [a, b] + rest) == Run(cfg, Next(cfg, Next(cfg, s, a), b), rest)
  {
    assert ([a, b] + rest)[1..] == [b] + rest && ([b] + rest)[1..] == rest;
  }

  /** One round of a waiting channel: a key frame is sent and ends the waiting, any other video packet is
      dropped. */
  lemma WaitingRound(cfg: Config, s: Output, bytes: nat)
    requires cfg.capacity > 0 && Waiting(cfg, s) && s.video != []
    ensures var n := Next(cfg, Next(cfg, s, Take), TrySend(true, bytes));
            && n.video == s.video[1..] && n.audio == s.audio && n.inFlight == EMPTY && n.ready
            && (if s.video[0].isKey
                then !n.waiting && n.stats.dropped == s.stats.dropped && n.history.log == s.history.log + [Send(s.video[0], true)]
                else n.waiting && n.stats.dropped == s.stats.dropped + 1 && n.history.log == s.history.log)
  {
    WaitingTakesVideo(cfg, s);
    assert s.video[0] in s.video;
  }

  /** The channel drops the video packets before the first key frame and sends that one first; no audio
      packet is lost meanwhile. */
  lemma {:induction false} WaitingLosesNoAudio(cfg: Config, s: Output, sizes: seq<nat>, key: nat)
    requires cfg.capacity > 0 && Waiting(cfg, s) && key < |s.video| && |sizes| == key + 1
    requires s.video[key].isKey && forall i :: 0 <= i < key ==> !s.video[i].isKey
    ensures var n := Run(cfg, s, Rounds(sizes));
            && n.video == s.video[key + 1..] && n.audio == s.audio && !n.waiting
            && n.stats.dropped == s.stats.dropped + key && n.history.log == s.history.log + [Send(s.video[key], true)]
    decreases |sizes|
  {
    var n := Next(cfg, Next(cfg, s, Take), TrySend(true, sizes[0]));
    WaitingRound(cfg, s, sizes[0]);
    TwoSteps(cfg, s, Take, TrySend(true, sizes[0]), Rounds(sizes[1..]));
    if key > 0 {
      assert QueuesOk(cfg, n);
      assert forall i :: 0 <= i < |n.video| ==> n.video[i] == s.video[i + 1];
      WaitingLosesNoAudio(cfg, n, sizes[1..], key - 1);
      assert n.video[key..] == s.video[key + 1..];
    }
  }

  // ----- the channel's counters ------------------------------------------------------------

  /** How many sends of a log succeeded or failed, and how many connections succeeded. */
  function SendsIn(log: seq<Event>, ok: bool): nat {
    if log == [] then 0
    else SendsIn(log[..|log| - 1], ok) + match log[|log| - 1] { case Send(_, o) => if o == ok then 1 else 0 case _ => 0 }
  }

  function ConnectionsIn(log: seq<Event>): nat {
    if log == [] then 0
    else ConnectionsIn(log[..|log| - 1]) + match log[|log| - 1] { case Connect(ok) => if ok then 1 else 0 case _ => 0 }
  }

  predicate Tallied(s: Output) {
    && s.stats.sent == SendsIn(s.history.log, true)
    && s.stats.failures == SendsIn(s.history.log, false)
    && s.stats.readyCount == ConnectionsIn(s.history.log)
  }

  lemma TallyAppend(log: seq<Event>, e: Event)
    ensures SendsIn(log + [e], true) == SendsIn(log, true) + if e.Send? && e.ok then 1 else 0
    ensures SendsIn(log + [e], false) == SendsIn(log, false) + if e.Send? && !e.ok then 1 else 0
    ensures ConnectionsIn(log + [e]) == ConnectionsIn(log) + if e.Connect? && e.ok then 1 else 0
  {
    assert (log + [e])[..|log|] == log;
  }

  lemma TallyConnect(cfg: Config, s: Output, ok: bool)
    requires Tallied(s) && s.inFlight != EMPTY && !s.ready
    ensures Tallied(ConnectFirst(cfg, s, ok))
  {
    TallyAppend(s.history.log, Connect(ok));
  }

  lemma TallySend(cfg: Config, s: Output, ok: bool, bytes: nat)
    requires Tallied(s) && s.inFlight != EMPTY && s.ready
    ensures Tallied(SendOrDrop(cfg, s, ok, bytes))
  {
    TallyAppend(s.history.log, Send(s.inFlight, ok));
  }

  lemma TallyStep(cfg: Config, s: Output, step: Step)
    requires cfg.capacity > 0 && Tallied(s)
    ensures Tallied(Next(cfg, s, step))
  {
    match step
    case TryConnect(ok) =>
      if s.inFlight != EMPTY && !s.ready {
        TallyConnect(cfg, s, ok);
      }
    case TrySend(ok, bytes) =>
      if s.inFlight != EMPTY && s.ready {
        TallySend(cfg, s, ok, bytes);
      }
    case _ =>
  }

  lemma {:induction false} TallyRun(cfg: Config, s: Output, steps: seq<Step>)
    requires cfg.capacity > 0 && Tallied(s)
    ensures Tallied(Run(cfg, s, steps))
    decreases |steps|
  {
    if steps == [] {
    } else {
      TallyStep(cfg, s, steps[0]);
      TallyRun(cfg, Next(cfg, s, steps[0]), steps[1..]);
    }
  }

  /** The counters of sent packets, failed sends and connections are those of what happened. */
  lemma CountersMatchTheLog(cfg: Config, steps: seq<Step>)
    requires cfg.capacity > 0
    ensures Tallied(Run(cfg, Fresh(cfg), steps))
  {
    TallyRun(cfg, Fresh(cfg), steps);
  }

  /** The bytes of the sends that succeed in a run. */
  function BytesSent(cfg: Config, s: Output, steps: seq<Step>): nat
    requires cfg.capacity > 0
    decreases |steps|
  {
    if steps == [] then 0
    else
      var n := Next(cfg, s, steps[0]);
      (if steps[0].TrySend? && |n.history.log| > |s.history.log| && steps[0].ok then steps[0].bytes else 0)
      + BytesSent(cfg, n, steps[1..])
  }

  /** The byte counter is the sum over the successful sends. */
  lemma {:induction false} SentBytesAddUp(cfg: Config, s: Output, steps: seq<Step>)
    requires cfg.capacity > 0
    ensures Run(cfg, s, steps).stats.sentBytes == s.stats.sentBytes + BytesSent(cfg, s, steps)
    decreases |steps|
  {
    if steps == [] {
    } else {
      SentBytesAddUp(cfg, Next(cfg, s, steps[0]), steps[1..]);
    }
  }
}
