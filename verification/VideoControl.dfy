/** The coordinator side of the asynchronous video-control transaction.

    A transaction changes the sensor rate first and the encoders second.  The coordinator only
    pushes commands into bounded queues and reads results from one shared queue; all its fields
    are updated in place by the gateway main loop.  `Gateway` is the value of that state, the
    functions give the meaning of each operation and `Coordinator` is the code that updates the
    fields. */
module VideoControl {

  const MAX_STREAMS := 2
  const COMMAND_CAPACITY := 8
  const RESULT_CAPACITY := 32
  const MAX_RESULTS_PER_LOOP := 16
  const RETRY_US := 1_000_000

  datatype Phase = Idle | SensorPending | EncodersPending

  datatype EncodeParams = EncodeParams(fps: int, bitrate: int, gop: int, rateControl: int)

  datatype Payload = SetFps(targetFps: int) | SetParams(params: EncodeParams) {
    function Fps(): int {
      if SetFps? then targetFps else params.fps
    }
  }

  datatype Command = Command(requestId: nat, payload: Payload)

  datatype Endpoint = Capture | Encoder(index: nat)

  datatype MessageKind = FpsResult | ParamsResult | OtherResult

  datatype Message = Message(kind: MessageKind, requestId: nat, endpoint: Endpoint, ok: bool)

  /** The bit masks of the transaction are sets of stream indices. */
  datatype Transition = Transition(
    phase: Phase,
    nextRequestId: nat,
    requestId: nat,
    retryAfter: nat,
    targetFps: int,
    pending: set<nat>,
    success: set<nat>,
    failed: set<nat>,
    rejectedTargetFps: int)

  datatype Gateway = Gateway(
    tx: Transition,
    currentFps: int,
    lastSwitch: nat,
    policyTarget: int,
    useParams: set<nat>,
    params: seq<EncodeParams>,
    eligible: set<nat>,
    sensorQueue: seq<Command>,
    encoderQueues: seq<seq<Command>>,
    results: seq<Message>)

  /** What pushing a command at one encoder worker does besides the capacity test: the push and the
      wake-up both succeed, nothing is queued, or the command is queued but the wake-up write fails. */
  datatype Submission = Accepted | Refused | NotifyFailed

  /** Everything one main-loop decision reads from outside the coordinator. */
  datatype Inputs = Inputs(
    now: nat,
    encoders: seq<Submission>,
    sensorAccepts: bool,
    sensorStarted: bool,
    needParams: bool,
    capabilityOk: bool,
    aeOk: bool)

  ghost predicate WellFormed(g: Gateway) {
    && |g.encoderQueues| == MAX_STREAMS
    && |g.params| == MAX_STREAMS
    && (forall i :: i in g.eligible ==> i < MAX_STREAMS)
    && g.policyTarget > 0
  }

  // ----- submitting encoder commands -------------------------------------------------------

  predicate Requested(g: Gateway, retry: set<nat>, i: nat) {
    i in g.eligible && (retry == {} || i in retry)
  }

  predicate Queued(g: Gateway, s: seq<Submission>, i: nat)
    requires |s| == MAX_STREAMS && i < MAX_STREAMS && |g.encoderQueues| == MAX_STREAMS
  {
    s[i] != Refused && |g.encoderQueues[i]| < COMMAND_CAPACITY
  }

  predicate Confirmed(g: Gateway, s: seq<Submission>, i: nat)
    requires |s| == MAX_STREAMS && i < MAX_STREAMS && |g.encoderQueues| == MAX_STREAMS
  {
    s[i] == Accepted && |g.encoderQueues[i]| < COMMAND_CAPACITY
  }

  /** Parameters that are sent as they are; any other stream gets a rate command. */
  predicate Usable(p: EncodeParams) {
    p.fps > 0 && p.bitrate > 0 && p.gop > 0
  }

  function EncoderPayload(g: Gateway, i: nat): Payload
    requires i < MAX_STREAMS && |g.params| == MAX_STREAMS
  {
    var p := g.params[i];
    if i in g.useParams && Usable(p) then SetParams(p)
    else SetFps(g.tx.targetFps)
  }

  ghost function QueueAfterSubmit(g: Gateway, retry: set<nat>, s: seq<Submission>, i: nat): seq<Command>
    requires WellFormed(g) && |s| == MAX_STREAMS && i < MAX_STREAMS
  {
    if Requested(g, retry, i) && Queued(g, s, i)
    then g.encoderQueues[i] + [Command(g.tx.requestId, EncoderPayload(g, i))]
    else g.encoderQueues[i]
  }

  /** The streams below `n` that a submission round confirms, and those it leaves to be retried. */
  ghost function ConfirmedBelow(g: Gateway, retry: set<nat>, s: seq<Submission>, n: nat): set<nat>
    requires WellFormed(g) && |s| == MAX_STREAMS
  {
    set i | i in g.eligible && i < n && Requested(g, retry, i) && Confirmed(g, s, i)
  }

  ghost function UnconfirmedBelow(g: Gateway, retry: set<nat>, s: seq<Submission>, n: nat): set<nat>
    requires WellFormed(g) && |s| == MAX_STREAMS
  {
    set i | i in g.eligible && i < n && Requested(g, retry, i) && !Confirmed(g, s, i)
  }

  ghost function QueuesBelow(g: Gateway, retry: set<nat>, s: seq<Submission>, n: nat): (r: seq<seq<Command>>)
    requires WellFormed(g) && |s| == MAX_STREAMS
    ensures |r| == MAX_STREAMS
  {
    seq(MAX_STREAMS, i requires 0 <= i < MAX_STREAMS =>
      if i < n then QueueAfterSubmit(g, retry, s, i) else g.encoderQueues[i])
  }

  lemma RoundStep(g: Gateway, retry: set<nat>, s: seq<Submission>, n: nat)
    requires WellFormed(g) && |s| == MAX_STREAMS && n < MAX_STREAMS
    ensures ConfirmedBelow(g, retry, s, n + 1)
         == ConfirmedBelow(g, retry, s, n) + (if Requested(g, retry, n) && Confirmed(g, s, n) then {n} else {})
    ensures UnconfirmedBelow(g, retry, s, n + 1)
         == UnconfirmedBelow(g, retry, s, n) + (if Requested(g, retry, n) && !Confirmed(g, s, n) then {n} else {})
    ensures QueuesBelow(g, retry, s, n + 1) == QueuesBelow(g, retry, s, n)[n := QueueAfterSubmit(g, retry, s, n)]
  {
  }

  /** One submission round: every requested encoder ends up pending or failed and a pending one has
      exactly one new command at the tail of its queue. */
  ghost function SubmitEncoders(g: Gateway, retry: set<nat>, s: seq<Submission>, now: nat): (r: Gateway)
    requires WellFormed(g) && |s| == MAX_STREAMS
    ensures WellFormed(r)
  {
    var failed := UnconfirmedBelow(g, retry, s, MAX_STREAMS);
    g.(tx := g.tx.(pending := ConfirmedBelow(g, retry, s, MAX_STREAMS),
                   failed := failed,
                   retryAfter := if failed != {} then now + RETRY_US else g.tx.retryAfter),
       encoderQueues := QueuesBelow(g, retry, s, MAX_STREAMS))
  }

  // ----- committing, cancelling, results ---------------------------------------------------

  predicate MayCommit(g: Gateway) {
    g.tx.phase == EncodersPending && g.tx.targetFps > 0 && g.tx.pending == {} && g.tx.failed == {}
  }

  function Commit(g: Gateway, now: nat): Gateway {
    if !MayCommit(g) then g
    else g.(currentFps := g.tx.targetFps,
            lastSwitch := if g.currentFps != g.tx.targetFps then now else g.lastSwitch,
            tx := g.tx.(phase := Idle, pending := {}, success := {}, failed := {}, retryAfter := 0))
  }

  function Cancel(g: Gateway): Gateway {
    if g.tx.phase == Idle || g.tx.targetFps == g.policyTarget then g
    else g.(tx := g.tx.(phase := Idle, targetFps := 0, pending := {}, success := {}, failed := {}, retryAfter := 0))
  }

  ghost function HandleResult(g: Gateway, m: Message, s: seq<Submission>, now: nat): (r: Gateway)
    requires WellFormed(g) && |s| == MAX_STREAMS
    ensures WellFormed(r) && r.results == g.results
  {
    var tx := g.tx;
    if m.requestId != tx.requestId || m.kind == OtherResult then g
    else if tx.phase == SensorPending && m.endpoint == Capture then
      if !m.ok then g.(tx := tx.(phase := Idle, retryAfter := now + RETRY_US))
      else SubmitEncoders(g.(tx := tx.(phase := EncodersPending, success := {})), {}, s, now)
    else if tx.phase != EncodersPending || !m.endpoint.Encoder? || m.endpoint.index !in tx.pending then g
    else
      var i := m.endpoint.index;
      if m.ok then g.(tx := tx.(pending := tx.pending - {i}, success := tx.success + {i}))
      else g.(tx := tx.(pending := tx.pending - {i}, failed := tx.failed + {i}, retryAfter := now + RETRY_US))
  }

  /** Handles at most `budget` results from the head of the shared queue. */
  ghost function Drain(g: Gateway, budget: nat, s: seq<Submission>, now: nat): (r: Gateway)
    requires WellFormed(g) && |s| == MAX_STREAMS
    ensures WellFormed(r)
    decreases |g.results|
  {
    if budget == 0 || g.results == [] then g
    else Drain(HandleResult(g.(results := g.results[1..]), g.results[0], s, now), budget - 1, s, now)
  }

  lemma DrainUnfold(g: Gateway, budget: nat, s: seq<Submission>, now: nat)
    requires WellFormed(g) && |s| == MAX_STREAMS && budget > 0 && g.results != []
    ensures Drain(g, budget, s, now) == Drain(HandleResult(g.(results := g.results[1..]), g.results[0], s, now), budget - 1, s, now)
  {
  }

  // ----- the decision at the end of a main-loop iteration ----------------------------------

  /** A new transaction: fresh request id, no rejection on record. */
  function Begin(g: Gateway): Gateway {
    g.(tx := g.tx.(rejectedTargetFps := 0,
                   nextRequestId := g.tx.nextRequestId + 1,
                   requestId := g.tx.nextRequestId + 1,
                   targetFps := g.policyTarget))
  }

  ghost function StartParams(g: Gateway, x: Inputs): (r: Gateway)
    requires WellFormed(g) && |x.encoders| == MAX_STREAMS
    ensures WellFormed(r)
  {
    var b := Begin(g);
    var h := SubmitEncoders(b.(tx := b.tx.(phase := EncodersPending, success := {})), {}, x.encoders, x.now);
    if h.tx.pending == {} && h.tx.failed == {} then Commit(h, x.now) else h
  }

  function StartSensor(g: Gateway, x: Inputs, loopNow: nat): Gateway {
    var b := Begin(g);
    if !x.aeOk || !x.sensorAccepts || |b.sensorQueue| >= COMMAND_CAPACITY then
      b.(tx := b.tx.(retryAfter := loopNow + RETRY_US))
    else
      b.(tx := b.tx.(phase := SensorPending),
         sensorQueue := b.sensorQueue + [Command(b.tx.requestId, SetFps(b.tx.targetFps))])
  }

  predicate MayStart(g: Gateway, x: Inputs, loopNow: nat) {
    var needSensor := g.policyTarget != g.currentFps;
    && g.tx.phase == Idle
    && (needSensor || x.needParams)
    && loopNow >= g.tx.retryAfter
    && (needSensor ==> x.sensorStarted)
    && g.tx.rejectedTargetFps != g.policyTarget
  }

  ghost function Decide(g: Gateway, x: Inputs, loopNow: nat): (r: Gateway)
    requires WellFormed(g) && |x.encoders| == MAX_STREAMS
    ensures WellFormed(r)
  {
    if g.tx.phase == EncodersPending && g.tx.pending == {} then
      if g.tx.failed == {} then Commit(g, x.now)
      else if loopNow >= g.tx.retryAfter then SubmitEncoders(g, g.tx.failed, x.encoders, x.now)
      else g
    else if !MayStart(g, x, loopNow) then g
    else if !x.capabilityOk then g.(tx := g.tx.(rejectedTargetFps := g.policyTarget))
    else if g.policyTarget == g.currentFps then StartParams(g, x)
    else StartSensor(g, x, loopNow)
  }

  // ----- the code --------------------------------------------------------------------------

  /** The coordinator's fields and the procedures of the main loop that update them. */
  class Coordinator {
    var phase: Phase
    var nextRequestId: nat
    var requestId: nat
    var retryAfter: nat
    var targetFps: int
    var pendingMask: set<nat>
    var successMask: set<nat>
    var failedMask: set<nat>
    var rejectedTargetFps: int
    var currentFps: int
    var lastSwitch: nat
    var policyTarget: int
    var useParams: set<nat>
    var params: seq<EncodeParams>
    var eligible: set<nat>
    var sensorQueue: seq<Command>
    var encoderQueues: seq<seq<Command>>
    var results: seq<Message>

    ghost function State(): Gateway
      reads this
    {
      Gateway(Transition(phase, nextRequestId, requestId, retryAfter, targetFps, pendingMask, successMask,
                         failedMask, rejectedTargetFps),
              currentFps, lastSwitch, policyTarget, useParams, params, eligible,
              sensorQueue, encoderQueues, results)
    }

    ghost predicate Valid()
      reads this
    {
      WellFormed(State())
    }

    /** Queues one command at an encoder worker; `ok` says whether the caller sees success. */
    method SubmitEncoderCommand(streamIdx: nat, command: Command, outcome: Submission) returns (ok: bool)
      requires Valid() && streamIdx < MAX_STREAMS
      modifies this`encoderQueues
      ensures Valid()
      ensures ok == (outcome == Accepted && |old(encoderQueues)[streamIdx]| < COMMAND_CAPACITY)
      ensures encoderQueues == old(encoderQueues)[streamIdx :=
                if outcome != Refused && |old(encoderQueues)[streamIdx]| < COMMAND_CAPACITY
                then old(encoderQueues)[streamIdx] + [command] else old(encoderQueues)[streamIdx]]
    {
      if outcome == Refused || |encoderQueues[streamIdx]| >= COMMAND_CAPACITY {
        return false;
      }
      encoderQueues := encoderQueues[streamIdx := encoderQueues[streamIdx] + [command]];
      ok := outcome == Accepted;
    }

    /** A parameter command where the policy asks for one and its values are usable, else a rate command. */
    method ChoosePayload(streamIdx: nat) returns (payload: Payload)
      requires Valid() && streamIdx < MAX_STREAMS
      ensures payload == EncoderPayload(State(), streamIdx)
    {
      var p := params[streamIdx];
      payload := SetFps(targetFps);
      if streamIdx in useParams && p.fps > 0 && p.bitrate > 0 && p.gop > 0 {
        payload := SetParams(p);
      }
    }

    /** The state after the streams below `n` have had their turn in a submission round. */
    ghost predicate RoundAt(g: Gateway, retryMask: set<nat>, outcomes: seq<Submission>, n: nat)
      requires WellFormed(g) && |outcomes| == MAX_STREAMS
      reads this
    {
      State() == g.(tx := g.tx.(pending := ConfirmedBelow(g, retryMask, outcomes, n),
                                failed := UnconfirmedBelow(g, retryMask, outcomes, n)),
                    encoderQueues := QueuesBelow(g, retryMask, outcomes, n))
    }

    method SubmitOne(streamIdx: nat, retryMask: set<nat>, ghost g: Gateway, outcomes: seq<Submission>)
      requires WellFormed(g) && |outcomes| == MAX_STREAMS && streamIdx < MAX_STREAMS
      requires RoundAt(g, retryMask, outcomes, streamIdx)
      modifies this`pendingMask, this`failedMask, this`encoderQueues
      ensures RoundAt(g, retryMask, outcomes, streamIdx + 1)
    {
      RoundStep(g, retryMask, outcomes, streamIdx);
      if streamIdx !in eligible || (retryMask != {} && streamIdx !in retryMask) {
        return;
      }
      var payload := ChoosePayload(streamIdx);
      var accepted := SubmitEncoderCommand(streamIdx, Command(requestId, payload), outcomes[streamIdx]);
      if accepted {
        pendingMask := pendingMask + {streamIdx};
      } else {
        failedMask := failedMask + {streamIdx};
      }
    }

    method SubmitPendingEncoderCommands(retryMask: set<nat>, outcomes: seq<Submission>, now: nat)
      requires Valid() && |outcomes| == MAX_STREAMS
      modifies this`pendingMask, this`failedMask, this`retryAfter, this`encoderQueues
      ensures Valid() && State() == SubmitEncoders(old(State()), retryMask, outcomes, now)
    {
      ghost var g := State();
      pendingMask, failedMask := {}, {};
      assert encoderQueues == QueuesBelow(g, retryMask, outcomes, 0);
      for streamIdx := 0 to MAX_STREAMS
        invariant RoundAt(g, retryMask, outcomes, streamIdx)
      {
        SubmitOne(streamIdx, retryMask, g, outcomes);
      }
      if failedMask != {} {
        retryAfter := now + RETRY_US;
      }
    }

    method EndTransition()
      modifies this`phase, this`pendingMask, this`successMask, this`failedMask, this`retryAfter
      ensures State() == old(State()).(tx := old(State()).tx.(phase := Idle, pending := {}, success := {}, failed := {}, retryAfter := 0))
    {
      phase := Idle;
      pendingMask, successMask, failedMask := {}, {}, {};
      retryAfter := 0;
    }

    method CommitTransition(now: nat)
      modifies this`currentFps, this`lastSwitch, this`phase, this`pendingMask, this`successMask, this`failedMask, this`retryAfter
      ensures State() == Commit(old(State()), now)
    {
      if phase != EncodersPending || targetFps <= 0 || pendingMask != {} || failedMask != {} {
        return;
      }
      var oldFps := currentFps;
      currentFps := targetFps;
      if oldFps != targetFps {
        lastSwitch := now;
      }
      EndTransition();
    }

    method CancelForTargetChange()
      modifies this`phase, this`targetFps, this`pendingMask, this`successMask, this`failedMask, this`retryAfter
      ensures State() == Cancel(old(State()))
    {
      if phase == Idle || targetFps == policyTarget {
        return;
      }
      targetFps := 0;
      EndTransition();
    }

    method HandleCommandResult(m: Message, outcomes: seq<Submission>, now: nat)
      requires Valid() && |outcomes| == MAX_STREAMS
      modifies this`phase, this`retryAfter, this`pendingMask, this`successMask, this`failedMask, this`encoderQueues
      ensures Valid() && State() == HandleResult(old(State()), m, outcomes, now)
    {
      if m.requestId != requestId || m.kind == OtherResult {
        return;
      }
      if phase == SensorPending && m.endpoint == Capture {
        if !m.ok {
          phase := Idle;
          retryAfter := now + RETRY_US;
          return;
        }
        phase := EncodersPending;
        successMask := {};
        SubmitPendingEncoderCommands({}, outcomes, now);
        return;
      }
      if phase != EncodersPending || !m.endpoint.Encoder? {
        return;
      }
      var i := m.endpoint.index;
      if i !in pendingMask {
        return;
      }
      pendingMask := pendingMask - {i};
      if m.ok {
        successMask := successMask + {i};
      } else {
        failedMask := failedMask + {i};
        retryAfter := now + RETRY_US;
      }
    }

    method DrainWorkerResults(outcomes: seq<Submission>, now: nat)
      requires Valid() && |outcomes| == MAX_STREAMS
      modifies this
      ensures Valid() && State() == Drain(old(State()), MAX_RESULTS_PER_LOOP, outcomes, now)
    {
      var count := 0;
      while count < MAX_RESULTS_PER_LOOP
        invariant 0 <= count <= MAX_RESULTS_PER_LOOP && Valid()
        invariant Drain(State(), MAX_RESULTS_PER_LOOP - count, outcomes, now)
               == Drain(old(State()), MAX_RESULTS_PER_LOOP, outcomes, now)
      {
        if results == [] {
          break;
        }
        DrainUnfold(State(), MAX_RESULTS_PER_LOOP - count, outcomes, now);
        var m := results[0];
        results := results[1..];
        HandleCommandResult(m, outcomes, now);
        count := count + 1;
      }
    }

    method BeginTransition()
      modifies this`rejectedTargetFps, this`nextRequestId, this`requestId, this`targetFps
      ensures State() == Begin(old(State()))
    {
      rejectedTargetFps := 0;
      nextRequestId := nextRequestId + 1;
      requestId := nextRequestId;
      targetFps := policyTarget;
    }

    /** Only encoder parameters changed: the sensor is not touched. */
    method StartParamsTransition(x: Inputs)
      requires Valid() && |x.encoders| == MAX_STREAMS
      modifies this
      ensures Valid() && State() == StartParams(old(State()), x)
    {
      BeginTransition();
      phase := EncodersPending;
      successMask := {};
      SubmitPendingEncoderCommands({}, x.encoders, x.now);
      if pendingMask == {} && failedMask == {} {
        CommitTransition(x.now);
      }
    }

    method StartSensorTransition(x: Inputs, loopNow: nat)
      requires Valid()
      modifies this
      ensures Valid() && State() == StartSensor(old(State()), x, loopNow)
    {
      BeginTransition();
      if !x.aeOk || !x.sensorAccepts || |sensorQueue| >= COMMAND_CAPACITY {
        retryAfter := loopNow + RETRY_US;
        return;
      }
      sensorQueue := sensorQueue + [Command(requestId, SetFps(targetFps))];
      phase := SensorPending;
    }

    method ApplyDecision(x: Inputs, loopNow: nat)
      requires Valid() && |x.encoders| == MAX_STREAMS
      modifies this
      ensures Valid() && State() == Decide(old(State()), x, loopNow)
    {
      if phase == EncodersPending && pendingMask == {} {
        if failedMask == {} {
          CommitTransition(x.now);
        } else if loopNow >= retryAfter {
          var retryMask := failedMask;
          SubmitPendingEncoderCommands(retryMask, x.encoders, x.now);
        }
        return;
      }
      var needSensor := policyTarget != currentFps;
      if phase != Idle || (!needSensor && !x.needParams) || loopNow < retryAfter || (needSensor && !x.sensorStarted) {
        return;
      }
      if rejectedTargetFps == policyTarget {
        return;
      }
      if !x.capabilityOk {
        rejectedTargetFps := policyTarget;
        return;
      }
      if needSensor {
        StartSensorTransition(x, loopNow);
      } else {
        StartParamsTransition(x);
      }
    }

    /** One uninterrupted main-loop pass: cancel, drain, decide. */
    method ApplyControls(drain: seq<Submission>, x: Inputs, loopNow: nat)
      requires Valid() && |drain| == MAX_STREAMS && |x.encoders| == MAX_STREAMS
      modifies this
      ensures Valid()
      ensures State() == Decide(Drain(Cancel(old(State())), MAX_RESULTS_PER_LOOP, drain, loopNow), x, loopNow)
    {
      CancelForTargetChange();
      DrainWorkerResults(drain, loopNow);
      ApplyDecision(x, loopNow);
    }
  }
}
