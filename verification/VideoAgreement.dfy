/** Commit agreement and transaction bookkeeping, for every run the environment faults are excluded
    from.

    The invariant looks at each endpoint on its own: its command queue, the result its worker is
    about to push, and the results on the way that carry the current request id. */
module VideoAgreement {
  import opened Options
  import opened VideoControl
  import opened VideoTargets
  import opened VideoWorkers
  import opened VideoProtocol
  import opened VideoCapacity

  /** `asked` is what the endpoint was last sent, `applied` whether it does that and runs at the target. */
  datatype Channel = Channel(queue: seq<Command>, out: Option<Message>, asked: Payload, applied: bool)

  /** What the transaction says about an endpoint. */
  datatype Status = Unconstrained | Clear | Pending | Settled

  predicate ValidEndpoint(ep: Endpoint) {
    ep.Encoder? ==> ep.index < MAX_STREAMS
  }

  ghost function ChannelOf(s: System, ep: Endpoint): Channel
    requires Shape(s) && ValidEndpoint(ep)
  {
    match ep
    case Capture => Channel(s.g.sensorQueue, s.sensorOut, SetFps(s.g.tx.targetFps), s.sensorFps == s.g.tx.targetFps)
    case Encoder(i) =>
      Channel(s.g.encoderQueues[i], s.encoderOut[i], s.asked[i],
              RunsAt(s.encoders[i], s.g.tx.targetFps) && Obeys(s.encoders[i].config, s.asked[i]))
  }

  function StatusOf(s: System, ep: Endpoint): Status {
    var tx := s.g.tx;
    match tx.phase
    case Idle => Unconstrained
    case SensorPending => if ep == Capture then Pending else Clear
    case EncodersPending =>
      if ep == Capture then (if s.viaSensor then Settled else Clear)
      else if ep.index in tx.pending then Pending
      else if ep.index in tx.success then Settled
      else if ep.index in s.loose then Unconstrained
      else Clear
  }

  /** The number of results of endpoint `ep` for request `rid`. */
  function Count(ms: seq<Message>, ep: Endpoint, rid: nat): nat {
    if ms == [] then 0
    else (if ms[0].endpoint == ep && ms[0].requestId == rid then 1 else 0) + Count(ms[1..], ep, rid)
  }

  lemma {:induction false} CountAppend(ms: seq<Message>, m: Message, ep: Endpoint, rid: nat)
    ensures Count(ms + [m], ep, rid) == Count(ms, ep, rid) + (if m.endpoint == ep && m.requestId == rid then 1 else 0)
  {
    if ms == [] {
      assert ms + [m] == [m];
    } else {
      assert (ms + [m])[1..] == ms[1..] + [m];
      CountAppend(ms[1..], m, ep, rid);
    }
  }

  lemma {:induction false} CountZero(ms: seq<Message>, ep: Endpoint, rid: nat)
    requires forall k :: 0 <= k < |ms| ==> ms[k].requestId < rid
    ensures Count(ms, ep, rid) == 0
  {
    if ms == [] {
    } else {
      CountZero(ms[1..], ep, rid);
    }
  }

  lemma {:induction false} NoneCounted(ms: seq<Message>, ep: Endpoint, rid: nat)
    requires forall k :: 0 <= k < |ms| ==> ms[k].endpoint != ep || ms[k].requestId != rid
    ensures Count(ms, ep, rid) == 0
  {
    if ms == [] {
    } else {
      NoneCounted(ms[1..], ep, rid);
    }
  }

  predicate Older(q: seq<Command>, rid: nat) {
    forall k :: 0 <= k < |q| ==> q[k].requestId < rid
  }

  predicate OlderOut(m: Option<Message>, rid: nat) {
    m.Some? ==> m.value.requestId < rid
  }

  /** Still in the queue, as its last command. */
  predicate InQueue(c: Channel, n: nat, rid: nat, target: int) {
    && |c.queue| > 0
    && c.queue[|c.queue| - 1].requestId == rid
    && c.queue[|c.queue| - 1].payload == c.asked && c.asked.Fps() == target
    && Older(c.queue[..|c.queue| - 1], rid)
    && OlderOut(c.out, rid)
    && n == 0
  }

  /** Executed, nothing behind it, its result not pushed yet. */
  predicate Executed(c: Channel, n: nat, rid: nat) {
    && c.queue == []
    && c.out.Some? && c.out.value.requestId == rid && (c.out.value.ok ==> c.applied)
    && n == 0
  }

  /** Its one result is in the shared queue. */
  predicate Reported(c: Channel, ms: seq<Message>, ep: Endpoint, rid: nat) {
    && c.queue == [] && c.out == None
    && Count(ms, ep, rid) == 1
    && (forall k :: 0 <= k < |ms| && ms[k].endpoint == ep && ms[k].requestId == rid && ms[k].ok ==> c.applied)
  }

  predicate Matches(st: Status, c: Channel, ms: seq<Message>, ep: Endpoint, rid: nat, target: int) {
    match st
    case Unconstrained => true
    case Clear => Older(c.queue, rid) && OlderOut(c.out, rid) && Count(ms, ep, rid) == 0
    case Pending => InQueue(c, Count(ms, ep, rid), rid, target) || Executed(c, Count(ms, ep, rid), rid) || Reported(c, ms, ep, rid)
    case Settled => c.queue == [] && c.out == None && Count(ms, ep, rid) == 0 && c.applied
  }

  ghost predicate EndpointOk(s: System, ep: Endpoint)
    requires Shape(s) && ValidEndpoint(ep)
  {
    Matches(StatusOf(s, ep), ChannelOf(s, ep), s.g.results, ep, s.g.tx.requestId, s.g.tx.targetFps)
  }

  ghost predicate ChannelSigned(c: Channel, ep: Endpoint, rid: nat) {
    && Older(c.queue, rid + 1)
    && (c.out.Some? ==> c.out.value.requestId <= rid && c.out.value.kind != OtherResult && c.out.value.endpoint == ep)
  }

  /** No message is newer than the current request, and workers sign their messages. */
  ghost predicate Signed(s: System)
    requires Shape(s)
  {
    && s.g.tx.requestId == s.g.tx.nextRequestId
    && (forall k :: 0 <= k < |s.g.results| ==>
          s.g.results[k].requestId <= s.g.tx.requestId && s.g.results[k].kind != OtherResult
          && ValidEndpoint(s.g.results[k].endpoint))
    && (forall ep :: ValidEndpoint(ep) ==> ChannelSigned(ChannelOf(s, ep), ep, s.g.tx.requestId))
  }

  /** While encoders are pending the masks are disjoint and every eligible encoder is in one of them;
      otherwise they are empty. */
  predicate MasksOk(g: Gateway) {
    var tx := g.tx;
    if tx.phase == EncodersPending then
      && g.eligible <= Asked(tx)
      && tx.pending !! tx.success && tx.pending !! tx.failed && tx.success !! tx.failed
    else Asked(tx) == {}
  }

  ghost predicate TargetOk(s: System) {
    && (s.g.tx.phase != Idle ==> s.g.tx.targetFps > 0)
    && (s.g.tx.phase != Idle && s.position != Top ==> s.g.tx.targetFps == s.g.policyTarget)
    && (s.g.tx.phase == SensorPending ==> s.viaSensor)
  }

  ghost predicate Inv(s: System) {
    && CapacityInv(s)
    && Signed(s)
    && MasksOk(s.g)
    && TargetOk(s)
    && ParamsCarry(s.g.policyTarget, s.g.useParams, s.g.params)
    && (forall ep :: ValidEndpoint(ep) ==> EndpointOk(s, ep))
  }

  // ----- worker steps ----------------------------------------------------------------------

  /** A worker that executes its oldest command keeps its endpoint's status. */
  lemma ExecuteKeeps(st: Status, c: Channel, d: Channel, ms: seq<Message>, ep: Endpoint, rid: nat, target: int, m: Message)
    requires Matches(st, c, ms, ep, rid, target) && ChannelSigned(c, ep, rid)
    requires |c.queue| > 0 && c.out == None
    requires d.queue == c.queue[1..] && d.out == Some(m) && d.asked == c.asked
    requires m.requestId == c.queue[0].requestId && m.kind != OtherResult && m.endpoint == ep
    requires m.ok && c.queue[0].payload == c.asked && c.asked.Fps() == target ==> d.applied
    ensures Matches(st, d, ms, ep, rid, target) && ChannelSigned(d, ep, rid)
  {
    if st == Pending {
      if |c.queue| > 1 {
        assert c.queue[..|c.queue| - 1][0] == c.queue[0];
        assert d.queue[..|d.queue| - 1] == c.queue[1..][..|c.queue| - 2] == c.queue[..|c.queue| - 1][1..];
      }
    }
  }

  lemma {:induction false} CountPositive(ms: seq<Message>, k: nat, ep: Endpoint, rid: nat)
    requires k < |ms| && ms[k].endpoint == ep && ms[k].requestId == rid
    ensures Count(ms, ep, rid) > 0
  {
    if k == 0 {
    } else {
      CountPositive(ms[1..], k - 1, ep, rid);
    }
  }

  /** Pushing the result that `ep` holds keeps every endpoint's status. */
  lemma PublishKeeps(st: Status, c: Channel, d: Channel, ms: seq<Message>, m: Message, ep: Endpoint, rid: nat, target: int)
    requires Matches(st, c, ms, ep, rid, target) && ChannelSigned(c, ep, rid)
    requires c.out == Some(m) && d == c.(out := None)
    ensures Matches(st, d, ms + [m], ep, rid, target) && ChannelSigned(d, ep, rid)
  {
    CountAppend(ms, m, ep, rid);
    if st == Pending && Executed(c, Count(ms, ep, rid), rid) {
      forall k | 0 <= k < |ms + [m]| && (ms + [m])[k].endpoint == ep && (ms + [m])[k].requestId == rid && (ms + [m])[k].ok
        ensures d.applied
      {
        if k < |ms| {
          CountPositive(ms, k, ep, rid);
        }
      }
    }
  }

  lemma PublishElsewhere(st: Status, c: Channel, ms: seq<Message>, m: Message, ep: Endpoint, rid: nat, target: int)
    requires Matches(st, c, ms, ep, rid, target) && m.endpoint != ep
    ensures Matches(st, c, ms + [m], ep, rid, target)
  {
    CountAppend(ms, m, ep, rid);
    forall k | 0 <= k < |ms + [m]| && (ms + [m])[k].endpoint == ep ensures k < |ms| && (ms + [m])[k] == ms[k] {
    }
  }

  lemma ExecuteStep(s: System, step: Step)
    requires Inv(s) && Enabled(s, step) && (step.ExecuteSensor? || step.ExecuteEncoder?)
    ensures Inv(Next(s, step))
  {
    var r := Next(s, step);
    CapacityStep(s, step);
    var at := if step.ExecuteSensor? then Capture else Encoder(step.stream);
    assert ValidEndpoint(at);
    forall ep | ValidEndpoint(ep)
      ensures EndpointOk(r, ep) && ChannelSigned(ChannelOf(r, ep), ep, r.g.tx.requestId)
    {
      assert EndpointOk(s, ep) && ChannelSigned(ChannelOf(s, ep), ep, s.g.tx.requestId);
      assert StatusOf(r, ep) == StatusOf(s, ep);
      if ep == at {
        ExecuteKeeps(StatusOf(s, ep), ChannelOf(s, ep), ChannelOf(r, ep), s.g.results, ep,
                     s.g.tx.requestId, s.g.tx.targetFps, ChannelOf(r, ep).out.value);
      } else {
        assert ChannelOf(r, ep) == ChannelOf(s, ep);
      }
    }
  }

  lemma PublishEndpoint(s: System, r: System, at: Endpoint, m: Message, ep: Endpoint)
    requires Shape(s) && Shape(r) && ValidEndpoint(ep) && ValidEndpoint(at) && StatusOf(r, ep) == StatusOf(s, ep)
    requires EndpointOk(s, ep) && ChannelSigned(ChannelOf(s, ep), ep, s.g.tx.requestId)
    requires ChannelOf(s, at).out == Some(m) && m.endpoint == at && r.g == s.g.(results := s.g.results + [m])
    requires ChannelOf(r, ep) == if ep == at then ChannelOf(s, ep).(out := None) else ChannelOf(s, ep)
    ensures EndpointOk(r, ep) && ChannelSigned(ChannelOf(r, ep), ep, r.g.tx.requestId)
  {
    var rid, target := s.g.tx.requestId, s.g.tx.targetFps;
    if ep == at {
      PublishKeeps(StatusOf(s, ep), ChannelOf(s, ep), ChannelOf(r, ep), s.g.results, m, ep, rid, target);
    } else {
      PublishElsewhere(StatusOf(s, ep), ChannelOf(s, ep), s.g.results, m, ep, rid, target);
    }
  }

  /** What pushing a result changes: the queue of results and what its endpoint holds. */
  lemma PublishEffect(s: System, step: Step, at: Endpoint, m: Message, ep: Endpoint)
    requires Shape(s) && Enabled(s, step) && (step.PublishSensor? || step.PublishEncoder?) && |s.g.results| < RESULT_CAPACITY
    requires at == if step.PublishSensor? then Capture else Encoder(step.stream)
    requires ValidEndpoint(at) && ValidEndpoint(ep) && ChannelOf(s, at).out == Some(m)
    ensures var r := Next(s, step);
            && r.g == s.g.(results := s.g.results + [m]) && StatusOf(r, ep) == StatusOf(s, ep)
            && ChannelOf(r, ep) == if ep == at then ChannelOf(s, ep).(out := None) else ChannelOf(s, ep)
  {
  }

  lemma PublishStep(s: System, step: Step)
    requires Inv(s) && Enabled(s, step) && (step.PublishSensor? || step.PublishEncoder?)
    ensures Inv(Next(s, step))
  {
    var r := Next(s, step);
    CapacityStep(s, step);
    var at := if step.PublishSensor? then Capture else Encoder(step.stream);
    assert ValidEndpoint(at);
    var m := ChannelOf(s, at).out.value;
    assert ChannelSigned(ChannelOf(s, at), at, s.g.tx.requestId);
    PublishEffect(s, step, at, m, at);
    forall ep | ValidEndpoint(ep)
      ensures EndpointOk(r, ep) && ChannelSigned(ChannelOf(r, ep), ep, r.g.tx.requestId)
    {
      assert EndpointOk(s, ep) && ChannelSigned(ChannelOf(s, ep), ep, s.g.tx.requestId);
      PublishEffect(s, step, at, m, ep);
      PublishEndpoint(s, r, at, m, ep);
    }
  }

  // ----- coordinator steps -----------------------------------------------------------------

  /** A submission round makes a clear endpoint pending, or leaves it clear, or loses track of it. */
  lemma SubmitKeeps(g: Gateway, retry: set<nat>, x: seq<Submission>, now: nat, i: nat, c: Channel, d: Channel, ms: seq<Message>)
    requires WellFormed(g) && |x| == MAX_STREAMS && i < MAX_STREAMS
    requires ParamsCarry(g.tx.targetFps, g.useParams, g.params)
    requires c.queue == g.encoderQueues[i]
    requires Matches(Clear, c, ms, Encoder(i), g.tx.requestId, g.tx.targetFps)
    requires var q := SubmitEncoders(g, retry, x, now).encoderQueues[i];
             d == c.(queue := q, asked := if |q| > |c.queue| then q[|q| - 1].payload else c.asked, applied := d.applied)
             && (|q| == |c.queue| ==> d.applied == c.applied)
    ensures var r := SubmitEncoders(g, retry, x, now);
            && (i in r.tx.pending ==> Matches(Pending, d, ms, Encoder(i), g.tx.requestId, g.tx.targetFps))
            && (|d.queue| == |c.queue| ==> Matches(Clear, d, ms, Encoder(i), g.tx.requestId, g.tx.targetFps))
  {
    var r := SubmitEncoders(g, retry, x, now);
    assert r.encoderQueues[i] == QueueAfterSubmit(g, retry, x, i);
    if i in r.tx.pending {
      assert d.queue[..|d.queue| - 1] == c.queue;
      assert InQueue(d, Count(ms, Encoder(i), g.tx.requestId), g.tx.requestId, g.tx.targetFps);
    }
  }

  /** What a submission round does to the masks. */
  lemma SubmitMasks(g: Gateway, retry: set<nat>, x: seq<Submission>, now: nat)
    requires WellFormed(g) && |x| == MAX_STREAMS
    ensures var r := SubmitEncoders(g, retry, x, now);
            && r.tx.pending + r.tx.failed == (set i | i in g.eligible && Requested(g, retry, i))
            && r.tx.pending !! r.tx.failed
            && r.tx.success == g.tx.success
  {
  }

  /** The state after a round that was sent from `b`. */
  ghost predicate AfterRound(s: System, b: Gateway, retry: set<nat>, x: seq<Submission>, now: nat, r: System) {
    && Shape(s) && WellFormed(b) && |x| == MAX_STREAMS && Shape(r)
    && r == s.(g := SubmitEncoders(b, retry, x, now), position := r.position, clock := r.clock,
               viaSensor := r.viaSensor, loose := r.loose, asked := AskedAfter(s.asked, b.encoderQueues, r.g.encoderQueues))
  }

  /** Whoever has succeeded is not asked again and stays settled; whoever is asked was clear before, and is
      pending, clear or loose afterwards. */
  lemma SubmittedEndpoint(s: System, b: Gateway, retry: set<nat>, x: seq<Submission>, now: nat, r: System, i: nat)
    requires AfterRound(s, b, retry, x, now, r) && i < MAX_STREAMS
    requires b.tx.phase == EncodersPending && ParamsCarry(b.tx.targetFps, b.useParams, b.params)
    requires i in b.eligible && Requested(b, retry, i) ==> i !in b.tx.success
    requires i in Sent(b, r.g) && i !in r.g.tx.pending ==> i in r.loose
    requires i !in b.tx.success && (i in Sent(b, r.g) || i !in r.loose) ==>
               Matches(Clear, ChannelOf(s.(g := b), Encoder(i)), b.results, Encoder(i), b.tx.requestId, b.tx.targetFps)
    requires i in b.tx.success ==>
               Matches(Settled, ChannelOf(s.(g := b), Encoder(i)), b.results, Encoder(i), b.tx.requestId, b.tx.targetFps)
    ensures EndpointOk(r, Encoder(i))
  {
    var ep := Encoder(i);
    assert ValidEndpoint(ep);
    assert r.g.encoderQueues[i] == QueueAfterSubmit(b, retry, x, i);
    if i in b.tx.success {
      assert ChannelOf(r, ep) == ChannelOf(s.(g := b), ep);
    } else if i in Sent(b, r.g) || i !in r.loose {
      SubmitKeeps(b, retry, x, now, i, ChannelOf(s.(g := b), ep), ChannelOf(r, ep), b.results);
    }
  }

  lemma SubmittedSigned(s: System, b: Gateway, retry: set<nat>, x: seq<Submission>, now: nat, r: System, ep: Endpoint)
    requires AfterRound(s, b, retry, x, now, r) && ValidEndpoint(ep)
    requires ChannelSigned(ChannelOf(s.(g := b), ep), ep, b.tx.requestId)
    ensures ChannelSigned(ChannelOf(r, ep), ep, r.g.tx.requestId)
  {
    if ep.Encoder? {
      assert r.g.encoderQueues[ep.index] == QueueAfterSubmit(b, retry, x, ep.index);
    }
  }

  /** The state after the coordinator step that ends in `SubmitEncoders`: the masks are a partition and the
      endpoints are consistent with it. */
  lemma SubmitRound(s: System, b: Gateway, retry: set<nat>, x: seq<Submission>, now: nat, r: System)
    requires AfterRound(s, b, retry, x, now, r)
    requires b.tx.phase == EncodersPending && ParamsCarry(b.tx.targetFps, b.useParams, b.params)
    requires forall i :: i in b.eligible && Requested(b, retry, i) ==> i !in b.tx.success
    requires forall i :: i in b.eligible && !Requested(b, retry, i) ==> i in b.tx.success
    requires forall i :: i in Sent(b, r.g) && i !in r.g.tx.pending ==> i in r.loose
    requires forall i :: 0 <= i < MAX_STREAMS && i !in b.tx.success && (i in Sent(b, r.g) || i !in r.loose) ==>
               Matches(Clear, ChannelOf(s.(g := b), Encoder(i)), b.results, Encoder(i), b.tx.requestId, b.tx.targetFps)
    requires forall i :: 0 <= i < MAX_STREAMS && i in b.tx.success ==>
               Matches(Settled, ChannelOf(s.(g := b), Encoder(i)), b.results, Encoder(i), b.tx.requestId, b.tx.targetFps)
    requires forall ep :: ValidEndpoint(ep) ==> ChannelSigned(ChannelOf(s.(g := b), ep), ep, b.tx.requestId)
    ensures Shape(r) && MasksOk(r.g)
    ensures forall i :: 0 <= i < MAX_STREAMS ==> EndpointOk(r, Encoder(i))
    ensures forall ep :: ValidEndpoint(ep) ==> ChannelSigned(ChannelOf(r, ep), ep, r.g.tx.requestId)
  {
    SubmitMasks(b, retry, x, now);
    assert b.eligible <= Asked(r.g.tx);
    forall i | 0 <= i < MAX_STREAMS ensures EndpointOk(r, Encoder(i)) {
      SubmittedEndpoint(s, b, retry, x, now, r, i);
    }
    forall ep | ValidEndpoint(ep) ensures ChannelSigned(ChannelOf(r, ep), ep, r.g.tx.requestId) {
      SubmittedSigned(s, b, retry, x, now, r, ep);
    }
  }

  // ----- handling one result ---------------------------------------------------------------

  /** Removing a result that is stale, or belongs to another endpoint, keeps an endpoint's status. */
  lemma PopElsewhere(st: Status, c: Channel, ms: seq<Message>, ep: Endpoint, rid: nat, target: int)
    requires ms != [] && Matches(st, c, ms, ep, rid, target)
    requires ms[0].endpoint != ep || ms[0].requestId != rid
    ensures Matches(st, c, ms[1..], ep, rid, target)
  {
    assert Count(ms, ep, rid) == Count(ms[1..], ep, rid);
    forall k | 0 <= k < |ms[1..]| ensures ms[1..][k] == ms[k + 1] {
    }
  }

  /** The result at the head of the queue carries the current request: its endpoint was pending and
      is now finished. */
  lemma PopCurrent(st: Status, c: Channel, ms: seq<Message>, ep: Endpoint, rid: nat, target: int)
    requires ms != [] && Matches(st, c, ms, ep, rid, target) && st != Unconstrained
    requires ms[0].endpoint == ep && ms[0].requestId == rid
    ensures st == Pending && c.queue == [] && c.out == None && Count(ms[1..], ep, rid) == 0
    ensures ms[0].ok ==> c.applied
  {
    assert Count(ms, ep, rid) == 1 + Count(ms[1..], ep, rid);
  }

  /** Dropping a result that nobody waits for. */
  lemma PoppedEndpoint(s: System, r: System, ep: Endpoint)
    requires Shape(s) && Shape(r) && ValidEndpoint(ep) && s.g.results != []
    requires EndpointOk(s, ep) && ChannelSigned(ChannelOf(s, ep), ep, s.g.tx.requestId)
    requires s.g.results[0].requestId != s.g.tx.requestId || StatusOf(s, s.g.results[0].endpoint) == Unconstrained
    requires r.g == s.g.(results := s.g.results[1..]) && StatusOf(r, ep) == StatusOf(s, ep) && ChannelOf(r, ep) == ChannelOf(s, ep)
    ensures EndpointOk(r, ep) && ChannelSigned(ChannelOf(r, ep), ep, r.g.tx.requestId)
  {
    if StatusOf(s, ep) != Unconstrained {
      PopElsewhere(StatusOf(s, ep), ChannelOf(s, ep), s.g.results, ep, s.g.tx.requestId, s.g.tx.targetFps);
    }
  }

  lemma DrainIgnored(s: System, outcomes: seq<Submission>, now: nat)
    requires Inv(s) && Enabled(s, DrainOne(outcomes, now))
    requires s.position.handled < MAX_RESULTS_PER_LOOP && s.g.results != []
    requires s.g.results[0].requestId != s.g.tx.requestId || StatusOf(s, s.g.results[0].endpoint) == Unconstrained
    requires CapacityInv(Next(s, DrainOne(outcomes, now)))
    ensures Inv(Next(s, DrainOne(outcomes, now)))
  {
    var r := Next(s, DrainOne(outcomes, now));
    assert r.g == s.g.(results := s.g.results[1..]);
    assert r.loose == s.loose;
    forall ep | ValidEndpoint(ep)
      ensures EndpointOk(r, ep) && ChannelSigned(ChannelOf(r, ep), ep, r.g.tx.requestId)
    {
      assert EndpointOk(s, ep) && ChannelSigned(ChannelOf(s, ep), ep, s.g.tx.requestId);
      PoppedEndpoint(s, r, ep);
    }
  }

  /** The masks after a pending encoder reported. */
  function FinishedMasks(tx: Transition, i: nat, ok: bool, retryAfter: nat): Transition {
    if ok then tx.(pending := tx.pending - {i}, success := tx.success + {i}, retryAfter := retryAfter)
    else tx.(pending := tx.pending - {i}, failed := tx.failed + {i}, retryAfter := retryAfter)
  }

  /** The others do not notice that an encoder has finished. */
  lemma OthersUnfinished(s: System, r: System, ep: Endpoint)
    requires Shape(s) && Shape(r) && ValidEndpoint(ep) && EndpointOk(s, ep)
    requires s.g.tx.phase == EncodersPending && s.g.results != [] && s.g.results[0].endpoint.Encoder?
    requires var m := s.g.results[0];
             && ep != m.endpoint
             && r == s.(g := s.g.(results := s.g.results[1..],
                                  tx := FinishedMasks(s.g.tx, m.endpoint.index, m.ok, r.g.tx.retryAfter)),
                        clock := r.clock, position := r.position, loose := r.loose)
    requires s.loose <= r.loose
    ensures EndpointOk(r, ep)
  {
    assert ChannelOf(r, ep) == ChannelOf(s, ep);
    assert StatusOf(r, ep) == StatusOf(s, ep) || StatusOf(r, ep) == Unconstrained;
    PopElsewhere(StatusOf(s, ep), ChannelOf(s, ep), s.g.results, ep, s.g.tx.requestId, s.g.tx.targetFps);
  }

  /** One encoder leaves the pending mask with the result at the head of the queue. */
  lemma EncoderFinished(s: System, r: System)
    requires Inv(s) && s.g.tx.phase == EncodersPending && s.g.results != [] && s.g.results[0].endpoint.Encoder?
    requires s.g.results[0].requestId == s.g.tx.requestId && s.g.results[0].endpoint.index in s.g.tx.pending
    requires var m := s.g.results[0];
             r == s.(g := s.g.(results := s.g.results[1..],
                               tx := FinishedMasks(s.g.tx, m.endpoint.index, m.ok, r.g.tx.retryAfter)),
                     clock := r.clock, position := r.position, loose := r.loose)
    requires s.loose <= r.loose
    requires s.position != Top && CapacityInv(r)
    ensures Inv(r)
  {
    var m := s.g.results[0];
    assert EndpointOk(s, m.endpoint);
    PopCurrent(Pending, ChannelOf(s, m.endpoint), s.g.results, m.endpoint, s.g.tx.requestId, s.g.tx.targetFps);
    forall ep | ValidEndpoint(ep)
      ensures EndpointOk(r, ep) && ChannelSigned(ChannelOf(r, ep), ep, r.g.tx.requestId)
    {
      assert EndpointOk(s, ep) && ChannelOf(r, ep) == ChannelOf(s, ep);
      if ep != m.endpoint {
        OthersUnfinished(s, r, ep);
      }
    }
  }

  lemma DrainEncoder(s: System, outcomes: seq<Submission>, now: nat)
    requires Inv(s) && Enabled(s, DrainOne(outcomes, now))
    requires s.position.handled < MAX_RESULTS_PER_LOOP && s.g.results != []
    requires s.g.results[0].requestId == s.g.tx.requestId && s.g.tx.phase != Idle && s.g.results[0].endpoint.Encoder?
    requires StatusOf(s, s.g.results[0].endpoint) == Pending
    requires CapacityInv(Next(s, DrainOne(outcomes, now)))
    ensures Inv(Next(s, DrainOne(outcomes, now)))
  {
    var r := Next(s, DrainOne(outcomes, now));
    assert s.g.tx.phase == EncodersPending;
    EncoderFinished(s, r);
  }

  /** An endpoint is the capture source or one of the encoders. */
  lemma EveryEndpoint(s: System)
    requires Shape(s) && EndpointOk(s, Capture)
    requires forall i :: 0 <= i < MAX_STREAMS ==> EndpointOk(s, Encoder(i))
    ensures forall ep :: ValidEndpoint(ep) ==> EndpointOk(s, ep)
  {
    forall ep | ValidEndpoint(ep) ensures EndpointOk(s, ep) {
      if ep.Encoder? {
        assert EndpointOk(s, Encoder(ep.index));
      }
    }
  }

  lemma DrainSensor(s: System, outcomes: seq<Submission>, now: nat)
    requires Inv(s) && Enabled(s, DrainOne(outcomes, now))
    requires s.position.handled < MAX_RESULTS_PER_LOOP && s.g.results != []
    requires s.g.results[0].requestId == s.g.tx.requestId && s.g.tx.phase != Idle && s.g.results[0].endpoint == Capture
    requires StatusOf(s, Capture) == Pending
    requires CapacityInv(Next(s, DrainOne(outcomes, now)))
    ensures Inv(Next(s, DrainOne(outcomes, now)))
  {
    var r := Next(s, DrainOne(outcomes, now));
    var m := s.g.results[0];
    assert s.g.tx.phase == SensorPending;
    assert EndpointOk(s, Capture);
    PopCurrent(Pending, ChannelOf(s, Capture), s.g.results, Capture, s.g.tx.requestId, s.g.tx.targetFps);
    forall ep | ValidEndpoint(ep) ensures ChannelSigned(ChannelOf(s, ep), ep, s.g.tx.requestId) {
    }
    if !m.ok {
      forall ep | ValidEndpoint(ep)
        ensures EndpointOk(r, ep) && ChannelSigned(ChannelOf(r, ep), ep, r.g.tx.requestId)
      {
        assert ChannelOf(r, ep).queue == ChannelOf(s, ep).queue && ChannelOf(r, ep).out == ChannelOf(s, ep).out;
      }
    } else {
      var b := s.g.(results := s.g.results[1..], tx := s.g.tx.(phase := EncodersPending, success := {}));
      assert r.g == SubmitEncoders(b, {}, outcomes, Later(s, now));
      forall ep | ValidEndpoint(ep)
        ensures ChannelOf(s.(g := b), ep) == ChannelOf(s, ep)
        ensures ep != Capture ==> Matches(Clear, ChannelOf(s.(g := b), ep), b.results, ep, b.tx.requestId, b.tx.targetFps)
      {
        assert EndpointOk(s, ep);
        if ep != Capture {
          PopElsewhere(Clear, ChannelOf(s, ep), s.g.results, ep, s.g.tx.requestId, s.g.tx.targetFps);
        }
      }
      forall i | 0 <= i < MAX_STREAMS
        ensures Matches(Clear, ChannelOf(s.(g := b), Encoder(i)), b.results, Encoder(i), b.tx.requestId, b.tx.targetFps)
      {
        assert ValidEndpoint(Encoder(i));
      }
      SubmitRound(s, b, {}, outcomes, Later(s, now), r);
      assert ChannelOf(r, Capture) == ChannelOf(s, Capture);
      EveryEndpoint(r);
    }
  }

  lemma DrainStep(s: System, outcomes: seq<Submission>, now: nat)
    requires Inv(s) && Enabled(s, DrainOne(outcomes, now))
    ensures Inv(Next(s, DrainOne(outcomes, now)))
  {
    CapacityStep(s, DrainOne(outcomes, now));
    if s.position.handled < MAX_RESULTS_PER_LOOP && s.g.results != [] {
      var m := s.g.results[0];
      var r := Next(s, DrainOne(outcomes, now));
      assert EndpointOk(s, m.endpoint);
      if m.requestId != s.g.tx.requestId || StatusOf(s, m.endpoint) == Unconstrained {
        DrainIgnored(s, outcomes, now);
      } else {
        PopCurrent(StatusOf(s, m.endpoint), ChannelOf(s, m.endpoint), s.g.results, m.endpoint,
                   s.g.tx.requestId, s.g.tx.targetFps);
        if m.endpoint == Capture {
          DrainSensor(s, outcomes, now);
        } else {
          DrainEncoder(s, outcomes, now);
        }
      }
    } else {
      var r := Next(s, DrainOne(outcomes, now));
      forall ep | ValidEndpoint(ep)
        ensures EndpointOk(r, ep) && ChannelSigned(ChannelOf(r, ep), ep, r.g.tx.requestId)
      {
        assert EndpointOk(s, ep) && ChannelOf(r, ep) == ChannelOf(s, ep);
      }
    }
  }

  // ----- the decision ----------------------------------------------------------------------

  /** With a fresh request id every endpoint is clear. */
  lemma FreshIsClear(s: System)
    requires Inv(s)
    ensures forall ep :: ValidEndpoint(ep) ==>
              Matches(Clear, ChannelOf(s.(g := Begin(s.g)), ep), s.g.results, ep, s.g.tx.requestId + 1, s.g.policyTarget)
    ensures forall ep :: ValidEndpoint(ep) ==> ChannelSigned(ChannelOf(s.(g := Begin(s.g)), ep), ep, s.g.tx.requestId + 1)
  {
    forall ep | ValidEndpoint(ep)
      ensures Matches(Clear, ChannelOf(s.(g := Begin(s.g)), ep), s.g.results, ep, s.g.tx.requestId + 1, s.g.policyTarget)
      ensures ChannelSigned(ChannelOf(s.(g := Begin(s.g)), ep), ep, s.g.tx.requestId + 1)
    {
      assert ChannelSigned(ChannelOf(s, ep), ep, s.g.tx.requestId);
      assert ChannelOf(s.(g := Begin(s.g)), ep).queue == ChannelOf(s, ep).queue;
      assert ChannelOf(s.(g := Begin(s.g)), ep).out == ChannelOf(s, ep).out;
      CountZero(s.g.results, ep, s.g.tx.requestId + 1);
    }
  }

  /** An endpoint does not notice a coordinator that sends nothing. */
  lemma QuietEndpoint(s: System, r: System, ep: Endpoint)
    requires Shape(s) && Shape(r) && ValidEndpoint(ep)
    requires EndpointOk(s, ep) && ChannelSigned(ChannelOf(s, ep), ep, s.g.tx.requestId)
    requires r.g.results == s.g.results && r.g.tx.requestId == s.g.tx.requestId
    requires ChannelOf(r, ep).queue == ChannelOf(s, ep).queue && ChannelOf(r, ep).out == ChannelOf(s, ep).out
    requires r.g.tx.phase != Idle ==>
               ChannelOf(r, ep) == ChannelOf(s, ep) && StatusOf(r, ep) == StatusOf(s, ep) && r.g.tx.targetFps == s.g.tx.targetFps
    ensures EndpointOk(r, ep) && ChannelSigned(ChannelOf(r, ep), ep, r.g.tx.requestId)
  {
  }

  /** Steps of the coordinator that send nothing: they keep the transaction or end it. */
  lemma QuietStep(s: System, step: Step)
    requires Inv(s) && CapacityInv(Next(s, step))
    requires var r := Next(s, step);
             && r.g.sensorQueue == s.g.sensorQueue && r.g.encoderQueues == s.g.encoderQueues && r.g.results == s.g.results
             && r.encoders == s.encoders && r.encoderOut == s.encoderOut && r.sensorOut == s.sensorOut && r.sensorFps == s.sensorFps
             && r.g.tx.requestId == s.g.tx.requestId && r.g.tx.nextRequestId == s.g.tx.nextRequestId
             && r.viaSensor == s.viaSensor && r.loose == s.loose && r.asked == s.asked && r.g.eligible == s.g.eligible
             && ParamsCarry(r.g.policyTarget, r.g.useParams, r.g.params)
             && (r.g.tx.phase == Idle || r.g.tx == s.g.tx || r.g.tx == s.g.tx.(rejectedTargetFps := r.g.tx.rejectedTargetFps))
             && MasksOk(r.g) && TargetOk(r)
    ensures Inv(Next(s, step))
  {
    var r := Next(s, step);
    forall ep | ValidEndpoint(ep)
      ensures EndpointOk(r, ep) && ChannelSigned(ChannelOf(r, ep), ep, r.g.tx.requestId)
    {
      assert EndpointOk(s, ep) && ChannelSigned(ChannelOf(s, ep), ep, s.g.tx.requestId);
      QuietEndpoint(s, r, ep);
    }
  }

  /** An encoder with nothing of this request under way is clear. */
  lemma NothingUnderWayIsClear(s: System, i: nat)
    requires Inv(s) && i < MAX_STREAMS && NothingUnderWay(s, i)
    ensures Matches(Clear, ChannelOf(s, Encoder(i)), s.g.results, Encoder(i), s.g.tx.requestId, s.g.tx.targetFps)
  {
    assert ChannelSigned(ChannelOf(s, Encoder(i)), Encoder(i), s.g.tx.requestId);
    NoneCounted(s.g.results, Encoder(i), s.g.tx.requestId);
  }

  lemma DecideRetry(s: System, x: Inputs)
    requires Inv(s) && Enabled(s, DecideNow(x)) && Retrying(s) && Permitted(NO_FAULTS, s, DecideNow(x))
    requires CapacityInv(Next(s, DecideNow(x)))
    ensures Inv(Next(s, DecideNow(x)))
  {
    var r := Next(s, DecideNow(x));
    assert s.(g := s.g) == s;
    forall i | 0 <= i < MAX_STREAMS && (i in s.g.tx.success || i in Sent(s.g, r.g) || i !in r.loose)
      ensures Matches(if i in s.g.tx.success then Settled else Clear, ChannelOf(s, Encoder(i)), s.g.results, Encoder(i),
                      s.g.tx.requestId, s.g.tx.targetFps)
    {
      assert EndpointOk(s, Encoder(i));
      assert r.g.encoderQueues[i] == QueueAfterSubmit(s.g, s.g.tx.failed, x.encoders, i);
      if i !in s.g.tx.success && i in Sent(s.g, r.g) {
        NothingUnderWayIsClear(s, i);
      }
    }
    SubmitRound(s, s.g, s.g.tx.failed, x.encoders, Later(s, x.now), r);
    assert EndpointOk(s, Capture) && ChannelOf(r, Capture) == ChannelOf(s, Capture);
    EveryEndpoint(r);
  }

  /** A parameter-only transaction finds every endpoint clear. */
  lemma ClearForParams(s: System, b: Gateway, ep: Endpoint)
    requires Inv(s) && ValidEndpoint(ep)
    requires b == Begin(s.g).(tx := Begin(s.g).tx.(phase := EncodersPending, success := {}))
    ensures Matches(Clear, ChannelOf(s.(g := b), ep), b.results, ep, b.tx.requestId, b.tx.targetFps)
    ensures ChannelSigned(ChannelOf(s.(g := b), ep), ep, b.tx.requestId)
  {
    FreshIsClear(s);
    assert ChannelOf(s.(g := b), ep) == ChannelOf(s.(g := Begin(s.g)), ep);
  }

  lemma ParamsSubmitted(s: System, encoders: seq<Submission>, t: nat, b: Gateway, q: System)
    requires Inv(s) && |encoders| == MAX_STREAMS
    requires b == Begin(s.g).(tx := Begin(s.g).tx.(phase := EncodersPending, success := {}))
    requires s.g.tx.pending == {} && s.g.tx.success == {} && s.g.tx.failed == {}
    requires Shape(q) && q == s.(g := SubmitEncoders(b, {}, encoders, t), clock := t, position := Top, viaSensor := false,
                                 loose := q.loose, asked := AskedAfter(s.asked, s.g.encoderQueues, q.g.encoderQueues))
    requires q.loose == LooseAfter(s.loose, s.g, q.g)
    ensures Shape(q) && MasksOk(q.g)
    ensures forall ep :: ValidEndpoint(ep) ==> EndpointOk(q, ep) && ChannelSigned(ChannelOf(q, ep), ep, q.g.tx.requestId)
  {
    forall ep | ValidEndpoint(ep)
      ensures Matches(Clear, ChannelOf(s.(g := b), ep), b.results, ep, b.tx.requestId, b.tx.targetFps)
      ensures ChannelSigned(ChannelOf(s.(g := b), ep), ep, b.tx.requestId)
    {
      ClearForParams(s, b, ep);
    }
    SubmitRound(s, b, {}, encoders, t, q);
    assert ChannelOf(q, Capture) == ChannelOf(s.(g := b), Capture);
    EveryEndpoint(q);
  }

  /** With nothing to send the transaction ends at once; the endpoints do not notice. */
  lemma NothingToDo(q: System, r: System)
    requires Shape(q) && Shape(r)
    requires r == q.(g := Commit(q.g, r.clock), loose := r.loose) && q.g.tx.pending == {} && q.g.tx.failed == {}
    requires q.g.tx.phase == EncodersPending && q.g.tx.targetFps > 0
    requires forall ep :: ValidEndpoint(ep) ==> EndpointOk(q, ep) && ChannelSigned(ChannelOf(q, ep), ep, q.g.tx.requestId)
    ensures forall ep :: ValidEndpoint(ep) ==> EndpointOk(r, ep) && ChannelSigned(ChannelOf(r, ep), ep, r.g.tx.requestId)
  {
    forall ep | ValidEndpoint(ep) ensures EndpointOk(r, ep) && ChannelSigned(ChannelOf(r, ep), ep, r.g.tx.requestId) {
      assert ChannelSigned(ChannelOf(q, ep), ep, q.g.tx.requestId);
      assert ChannelOf(r, ep) == ChannelOf(q, ep);
    }
  }

  lemma DecideParams(s: System, x: Inputs)
    requires Inv(s) && Enabled(s, DecideNow(x))
    requires MayStart(s.g, x.(now := Later(s, x.now)), s.loopNow) && x.capabilityOk && s.g.policyTarget == s.g.currentFps
    requires CapacityInv(Next(s, DecideNow(x)))
    ensures Inv(Next(s, DecideNow(x)))
  {
    var r := Next(s, DecideNow(x));
    var t := Later(s, x.now);
    var b := Begin(s.g).(tx := Begin(s.g).tx.(phase := EncodersPending, success := {}));
    var h := SubmitEncoders(b, {}, x.encoders, t);
    var q := s.(g := h, clock := t, position := Top, viaSensor := false, loose := LooseAfter(s.loose, s.g, h),
                asked := AskedAfter(s.asked, s.g.encoderQueues, h.encoderQueues));
    ParamsSubmitted(s, x.encoders, t, b, q);
    if q.g.tx.pending == {} && q.g.tx.failed == {} {
      NothingToDo(q, r);
    } else {
      assert r == q;
    }
  }

  /** A clear endpoint that is sent a command of the current request waits for its answer. */
  lemma AskedIsPending(c: Channel, d: Channel, ms: seq<Message>, ep: Endpoint, rid: nat, target: int)
    requires Matches(Clear, c, ms, ep, rid, target) && ChannelSigned(c, ep, rid)
    requires d == c.(queue := c.queue + [Command(rid, SetFps(target))]) && c.asked == SetFps(target)
    ensures Matches(Pending, d, ms, ep, rid, target) && ChannelSigned(d, ep, rid)
  {
    assert d.queue[..|d.queue| - 1] == c.queue;
    assert InQueue(d, Count(ms, ep, rid), rid, target);
  }

  /** The capture worker's new command is the last in its queue; the encoders have none. */
  lemma SensorAsked(s: System, r: System, ep: Endpoint)
    requires Inv(s) && Shape(r) && ValidEndpoint(ep)
    requires r.g.tx.phase == Idle || r.g.tx.phase == SensorPending
    requires r.g.tx.requestId == s.g.tx.requestId + 1 && r.g.tx.targetFps == s.g.policyTarget && r.g.results == s.g.results
    requires var c, d := ChannelOf(s.(g := Begin(s.g)), ep), ChannelOf(r, ep);
             if ep == Capture && r.g.tx.phase == SensorPending
             then d == c.(queue := c.queue + [Command(s.g.tx.requestId + 1, SetFps(s.g.policyTarget))])
             else d == c
    ensures EndpointOk(r, ep) && ChannelSigned(ChannelOf(r, ep), ep, r.g.tx.requestId)
  {
    FreshIsClear(s);
    var c, d := ChannelOf(s.(g := Begin(s.g)), ep), ChannelOf(r, ep);
    if ep == Capture && r.g.tx.phase == SensorPending {
      AskedIsPending(c, d, s.g.results, ep, s.g.tx.requestId + 1, s.g.policyTarget);
    } else {
      assert Matches(Clear, c, s.g.results, ep, s.g.tx.requestId + 1, s.g.policyTarget);
    }
  }

  lemma DecideSensor(s: System, x: Inputs)
    requires Inv(s) && Enabled(s, DecideNow(x))
    requires MayStart(s.g, x.(now := Later(s, x.now)), s.loopNow) && x.capabilityOk && s.g.policyTarget != s.g.currentFps
    requires CapacityInv(Next(s, DecideNow(x)))
    ensures Inv(Next(s, DecideNow(x)))
  {
    var r := Next(s, DecideNow(x));
    forall ep | ValidEndpoint(ep)
      ensures EndpointOk(r, ep) && ChannelSigned(ChannelOf(r, ep), ep, r.g.tx.requestId)
    {
      SensorAsked(s, r, ep);
    }
  }

  /** Where no queue grew, nobody was asked anything new. */
  lemma AskedNothing(s: System, step: Step)
    requires Shape(s) && Next(s, step).g.encoderQueues == s.g.encoderQueues
    ensures Next(s, step).asked == s.asked
  {
  }

  lemma DecideStep(s: System, x: Inputs)
    requires Inv(s) && Enabled(s, DecideNow(x)) && Permitted(NO_FAULTS, s, DecideNow(x))
    ensures Inv(Next(s, DecideNow(x)))
  {
    CapacityStep(s, DecideNow(x));
    var y := x.(now := Later(s, x.now));
    var g := s.g;
    if g.tx.phase == EncodersPending && g.tx.pending == {} {
      if g.tx.failed != {} && s.loopNow >= g.tx.retryAfter {
        DecideRetry(s, x);
      } else {
        AskedNothing(s, DecideNow(x));
        QuietStep(s, DecideNow(x));
      }
    } else if MayStart(g, y, s.loopNow) && y.capabilityOk {
      if g.policyTarget == g.currentFps {
        DecideParams(s, x);
      } else {
        DecideSensor(s, x);
      }
    } else {
      AskedNothing(s, DecideNow(x));
      QuietStep(s, DecideNow(x));
    }
  }

  // ----- what happens to the encoders from outside -----------------------------------------

  /** Encoders may come and go, as long as none joins an encoder phase that has not asked it. */
  lemma EligibleStep(s: System, step: Step)
    requires Inv(s) && step.ChangeEligible? && Enabled(s, step) && Permitted(NO_FAULTS, s, step)
    ensures Inv(Next(s, step))
  {
    var r := Next(s, step);
    CapacityStep(s, step);
    forall ep | ValidEndpoint(ep) ensures EndpointOk(r, ep) && ChannelSigned(ChannelOf(r, ep), ep, r.g.tx.requestId) {
      assert EndpointOk(s, ep) && ChannelOf(r, ep) == ChannelOf(s, ep);
    }
  }

  /** An endpoint may come to its rate behind the transaction's back. */
  lemma AppliedAnyway(st: Status, c: Channel, d: Channel, ms: seq<Message>, ep: Endpoint, rid: nat, target: int)
    requires Matches(st, c, ms, ep, rid, target)
    requires d == c.(applied := d.applied) && (c.applied ==> d.applied)
    ensures Matches(st, d, ms, ep, rid, target)
  {
  }

  /** Rebuilding an encoder can only bring it closer to the rate its configuration names. */
  lemma RebuildStep(s: System, step: Step)
    requires Inv(s) && step.RebuildEncoder? && Enabled(s, step)
    ensures Inv(Next(s, step))
  {
    var r := Next(s, step);
    CapacityStep(s, step);
    forall ep | ValidEndpoint(ep) ensures EndpointOk(r, ep) && ChannelSigned(ChannelOf(r, ep), ep, r.g.tx.requestId) {
      assert EndpointOk(s, ep) && ChannelSigned(ChannelOf(s, ep), ep, s.g.tx.requestId);
      var c, d := ChannelOf(s, ep), ChannelOf(r, ep);
      assert StatusOf(r, ep) == StatusOf(s, ep);
      AppliedAnyway(StatusOf(s, ep), c, d, s.g.results, ep, s.g.tx.requestId, s.g.tx.targetFps);
    }
  }

  // ----- whole runs ------------------------------------------------------------------------

  lemma InvStep(s: System, step: Step)
    requires Inv(s) && Permitted(NO_FAULTS, s, step)
    ensures Inv(Next(s, step))
  {
    if Enabled(s, step) {
      match step
      case ExecuteSensor(_, _) => ExecuteStep(s, step);
      case ExecuteEncoder(_, _) => ExecuteStep(s, step);
      case PublishSensor => PublishStep(s, step);
      case PublishEncoder(_) => PublishStep(s, step);
      case DrainOne(outcomes, now) => DrainStep(s, outcomes, now);
      case DecideNow(x) => DecideStep(s, x);
      case BeginLoop(_) => CapacityStep(s, step); QuietStep(s, step);
      case Refresh(_, _, _) => CapacityStep(s, step); QuietStep(s, step);
      case ChangeEligible(_) => EligibleStep(s, step);
      case RebuildEncoder(_) => RebuildStep(s, step);
    }
  }

  lemma {:induction false} InvRun(s: System, steps: seq<Step>)
    requires Inv(s) && PermittedRun(NO_FAULTS, s, steps)
    ensures Inv(Run(s, steps))
    decreases |steps|
  {
    if steps == [] {
    } else {
      InvStep(s, steps[0]);
      InvRun(Next(s, steps[0]), steps[1..]);
    }
  }

  lemma InitInv(s: System)
    requires Init(s) && ParamsCarry(s.g.policyTarget, s.g.useParams, s.g.params)
    ensures Inv(s)
  {
  }

  /** Commit agreement: whenever the next decision commits, whatever stale results, failures, retries
      and cancelled transactions came before, the whole controlled chain runs at the target. */
  lemma {:induction false} CommitAgreement(s: System, steps: seq<Step>)
    requires Init(s) && ParamsCarry(s.g.policyTarget, s.g.useParams, s.g.params) && PermittedRun(NO_FAULTS, s, steps)
    ensures Committing(Run(s, steps)) ==> Agreement(Run(s, steps))
  {
    InitInv(s);
    InvRun(s, steps);
    var r := Run(s, steps);
    if Committing(r) {
      assert EndpointOk(r, Capture);
      forall i | i in r.g.eligible
        ensures RunsAt(r.encoders[i], r.g.tx.targetFps) && Obeys(r.encoders[i].config, r.asked[i])
      {
        assert EndpointOk(r, Encoder(i));
      }
    }
  }

  /** After such a commit the published rate is the one every controlled device runs at. */
  lemma {:induction false} CommittedRateIsEverywhere(s: System, steps: seq<Step>, x: Inputs)
    requires Init(s) && ParamsCarry(s.g.policyTarget, s.g.useParams, s.g.params) && PermittedRun(NO_FAULTS, s, steps)
    requires Committing(Run(s, steps)) && Enabled(Run(s, steps), DecideNow(x))
    ensures var r := Run(s, steps);
            var q := Next(r, DecideNow(x));
            && q.g.tx.phase == Idle
            && q.g.currentFps == r.g.tx.targetFps == q.g.policyTarget
            && (r.viaSensor ==> q.sensorFps == q.g.currentFps)
            && (forall i :: i in q.g.eligible ==> RunsAt(q.encoders[i], q.g.currentFps))
            && (forall i :: i in q.g.eligible ==> q.g.encoderQueues[i] == [] && q.encoderOut[i] == None)
            && (r.viaSensor ==> q.g.sensorQueue == [] && q.sensorOut == None)
  {
    CommitAgreement(s, steps);
    InitInv(s);
    InvRun(s, steps);
    var r := Run(s, steps);
    assert EndpointOk(r, Capture);
    forall i | i in r.g.eligible ensures r.g.encoderQueues[i] == [] && r.encoderOut[i] == None {
      assert EndpointOk(r, Encoder(i));
    }
  }
}
