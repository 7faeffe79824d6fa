/** The coordinator, the capture worker and the encoder workers as one interleaved system.

    A step is one action that is atomic in the program: a policy refresh, the start of a main-loop
    pass, handling one result, the decision that ends the pass, a worker popping and executing one
    command, a worker pushing one result, an encoder becoming ready or not, a worker rebuilding its
    encoder from the stream configuration.  A run is any sequence of steps; a step that cannot be
    taken in a state leaves it unchanged. */
module VideoProtocol {
  import opened Options
  import opened VideoControl
  import opened VideoTargets
  import opened VideoWorkers

  datatype Position = Top | Draining(handled: nat) | Deciding

  /** `viaSensor`, `loose` and `asked` are history about the running transaction: whether it went through
      the sensor phase, the encoders that were last sent a command without the coordinator knowing, because
      the wake-up failed after the push, and what each encoder was last sent. */
  datatype System = System(
    g: Gateway,
    position: Position,
    loopNow: nat,
    clock: nat,
    viaSensor: bool,
    loose: set<nat>,
    asked: seq<Payload>,
    sensorFps: int,
    sensorOut: Option<Message>,
    encoders: seq<EncoderState>,
    encoderOut: seq<Option<Message>>,
    lost: nat)

  datatype Step =
    | Refresh(target: int, useParams: set<nat>, params: seq<EncodeParams>)
    | BeginLoop(now: nat)
    | DrainOne(outcomes: seq<Submission>, now: nat)
    | DecideNow(inputs: Inputs)
    | ExecuteSensor(ok: bool, hwFps: int)
    | ExecuteEncoder(stream: nat, outcome: Outcome)
    | PublishSensor
    | PublishEncoder(stream: nat)
    | ChangeEligible(eligible: set<nat>)
    | RebuildEncoder(stream: nat)

  ghost predicate Shape(s: System) {
    WellFormed(s.g) && |s.asked| == |s.encoders| == |s.encoderOut| == MAX_STREAMS
  }

  ghost predicate Init(s: System) {
    && Shape(s)
    && s.g.tx == Transition(Idle, 0, 0, 0, 0, {}, {}, {}, 0)
    && s.g.sensorQueue == [] && s.g.results == []
    && (forall i :: 0 <= i < MAX_STREAMS ==> s.g.encoderQueues[i] == [] && s.encoderOut[i] == None)
    && s.sensorOut == None
    && s.position == Top
    && s.lost == 0
    && s.loose == {}
  }

  // ----- the transition function -----------------------------------------------------------

  function Later(s: System, now: nat): nat {
    if now > s.clock then now else s.clock
  }

  /** The stream wants parameters and its configuration differs from them. */
  ghost predicate Differs(s: System, i: nat)
    requires Shape(s) && i < MAX_STREAMS
  {
    i in s.g.useParams && s.encoders[i].config != s.g.params[i]
  }

  /** Parameters are found to need applying if a stream of this source differs, and only if some stream
      does; streams of other sources are looked at too. */
  ghost predicate NeedsAgree(s: System, needParams: bool)
    requires Shape(s)
  {
    && (needParams ==> exists i :: 0 <= i < MAX_STREAMS && Differs(s, i))
    && ((exists i :: i in s.g.eligible && Differs(s, i)) ==> needParams)
  }

  ghost predicate Enabled(s: System, step: Step)
    requires Shape(s)
  {
    match step
    case Refresh(target, _, params) => s.position == Top && target > 0 && |params| == MAX_STREAMS
    case BeginLoop(_) => s.position == Top
    case DrainOne(outcomes, _) => s.position.Draining? && |outcomes| == MAX_STREAMS
    case DecideNow(x) => s.position == Deciding && |x.encoders| == MAX_STREAMS && NeedsAgree(s, x.needParams)
    case ExecuteSensor(_, _) => s.g.sensorQueue != [] && s.sensorOut == None
    case ExecuteEncoder(i, _) => i < MAX_STREAMS && s.g.encoderQueues[i] != [] && s.encoderOut[i] == None
    case PublishSensor => s.sensorOut.Some?
    case PublishEncoder(i) => i < MAX_STREAMS && s.encoderOut[i].Some?
    case ChangeEligible(e) => forall i :: i in e ==> i < MAX_STREAMS
    case RebuildEncoder(i) => i < MAX_STREAMS && s.encoderOut[i] == None
  }

  /** A full result queue drops the result that is being pushed. */
  function Push(s: System, m: Message): System {
    if |s.g.results| < RESULT_CAPACITY then s.(g := s.g.(results := s.g.results + [m]))
    else s.(lost := s.lost + 1)
  }

  /** The encoders whose queues a coordinator step made longer. */
  function Sent(g: Gateway, h: Gateway): set<nat>
    requires |g.encoderQueues| == |h.encoderQueues|
  {
    set i | 0 <= i < |g.encoderQueues| && |h.encoderQueues[i]| > |g.encoderQueues[i]|
  }

  /** Those that got a command and are not waited for are loose from then on. */
  function LooseAfter(loose: set<nat>, g: Gateway, h: Gateway): set<nat>
    requires |g.encoderQueues| == |h.encoderQueues|
  {
    (if g.tx.requestId == h.tx.requestId then loose else {}) - Sent(g, h) + (Sent(g, h) - h.tx.pending)
  }

  /** What the encoders were last sent, after some of the queues were made longer. */
  function AskedAfter(asked: seq<Payload>, before: seq<seq<Command>>, after: seq<seq<Command>>): (r: seq<Payload>)
    requires |before| == |after| == |asked|
    ensures |r| == |asked|
  {
    seq(|asked|, i requires 0 <= i < |asked| && |before| == |after| == |asked| =>
      if |after[i]| > |before[i]| then after[i][|after[i]| - 1].payload else asked[i])
  }

  ghost function StepDrain(s: System, outcomes: seq<Submission>, now: nat): (r: System)
    requires Shape(s) && Enabled(s, DrainOne(outcomes, now))
    ensures Shape(r)
  {
    if s.position.handled >= MAX_RESULTS_PER_LOOP || s.g.results == [] then s.(position := Deciding)
    else
      var t := Later(s, now);
      var h := HandleResult(s.g.(results := s.g.results[1..]), s.g.results[0], outcomes, t);
      s.(g := h,
         loose := LooseAfter(s.loose, s.g, h),
         asked := AskedAfter(s.asked, s.g.encoderQueues, h.encoderQueues),
         clock := t,
         position := Draining(s.position.handled + 1))
  }

  ghost function StepDecide(s: System, x: Inputs): (r: System)
    requires Shape(s) && Enabled(s, DecideNow(x))
    ensures Shape(r)
  {
    var t := Later(s, x.now);
    var h := Decide(s.g, x.(now := t), s.loopNow);
    s.(g := h,
       loose := LooseAfter(s.loose, s.g, h),
       asked := AskedAfter(s.asked, s.g.encoderQueues, h.encoderQueues),
       clock := t,
       position := Top,
       viaSensor := if h.tx.requestId != s.g.tx.requestId then h.tx.phase == SensorPending else s.viaSensor)
  }

  ghost function Next(s: System, step: Step): (r: System)
    requires Shape(s)
    ensures Shape(r)
  {
    if !Enabled(s, step) then s
    else match step
      case Refresh(target, useParams, params) =>
        s.(g := s.g.(policyTarget := target, useParams := useParams, params := params))
      case BeginLoop(now) =>
        s.(g := Cancel(s.g), position := Draining(0), loopNow := Later(s, now), clock := Later(s, now))
      case DrainOne(outcomes, now) => StepDrain(s, outcomes, now)
      case DecideNow(x) => StepDecide(s, x)
      case ExecuteSensor(ok, hw) =>
        var c := s.g.sensorQueue[0];
        s.(g := s.g.(sensorQueue := s.g.sensorQueue[1..]),
           sensorFps := if ok then c.payload.Fps() else hw,
           sensorOut := Some(Report(c, Capture, ok)))
      case ExecuteEncoder(i, o) =>
        var c := s.g.encoderQueues[i][0];
        s.(g := s.g.(encoderQueues := s.g.encoderQueues[i := s.g.encoderQueues[i][1..]]),
           encoders := s.encoders[i := Execute(s.encoders[i], c.payload, o)],
           encoderOut := s.encoderOut[i := Some(Report(c, Encoder(i), o == Applied))])
      case PublishSensor => Push(s, s.sensorOut.value).(sensorOut := None)
      case PublishEncoder(i) => Push(s, s.encoderOut[i].value).(encoderOut := s.encoderOut[i := None])
      case ChangeEligible(e) => s.(g := s.g.(eligible := e))
      case RebuildEncoder(i) => s.(encoders := s.encoders[i := Rebuilt(s.encoders[i])])
  }

  ghost function Run(s: System, steps: seq<Step>): (r: System)
    requires Shape(s)
    ensures Shape(r)
    decreases |steps|
  {
    if steps == [] then s else Run(Next(s, steps[0]), steps[1..])
  }

  // ----- what may go wrong outside the protocol --------------------------------------------

  /** Three things the environment may do that the protocol does not defend against: a retry asks an
      encoder again while an earlier command of the same request, pushed by a round that was told it
      had failed, is still on its way; the target builder gives up part-way; an encoder that the
      running encoder phase never asked becomes eligible. */
  datatype Faults = Faults(retryMayOverlap: bool, buildMayFail: bool, strangerMayJoin: bool)

  const NO_FAULTS := Faults(false, false, false)

  /** The encoders a transaction has asked or will ask again. */
  function Asked(tx: Transition): set<nat> {
    tx.pending + tx.success + tx.failed
  }

  /** The next decision is a retry round. */
  predicate Retrying(s: System) {
    && s.g.tx.phase == EncodersPending && s.g.tx.pending == {} && s.g.tx.failed != {}
    && s.loopNow >= s.g.tx.retryAfter
  }

  /** Nothing of the current request is queued at the encoder, held by it or reported by it. */
  ghost predicate NothingUnderWay(s: System, i: nat)
    requires Shape(s) && i < MAX_STREAMS
  {
    var rid := s.g.tx.requestId;
    && (forall k :: 0 <= k < |s.g.encoderQueues[i]| ==> s.g.encoderQueues[i][k].requestId != rid)
    && (s.encoderOut[i].Some? ==> s.encoderOut[i].value.requestId != rid)
    && (forall k :: 0 <= k < |s.g.results| ==> s.g.results[k].endpoint != Encoder(i) || s.g.results[k].requestId != rid)
  }

  ghost predicate Permitted(f: Faults, s: System, step: Step)
    requires Shape(s)
  {
    match step
    case Refresh(target, useParams, params) =>
      || ParamsCarry(target, useParams, params)
      || (f.buildMayFail && exists inputs: seq<StreamInput> ::
            |inputs| == MAX_STREAMS && params == Build(s.g.params, target, inputs))
      || (f.buildMayFail && exists inputs: seq<ManualInput> ::
            |inputs| == MAX_STREAMS && params == BuildManual(s.g.params, target, inputs))
    case DecideNow(_) =>
      f.retryMayOverlap || (Retrying(s) ==> forall i :: i in s.g.tx.failed * s.g.eligible ==> NothingUnderWay(s, i))
    case ChangeEligible(e) => f.strangerMayJoin || (s.g.tx.phase == EncodersPending ==> e <= Asked(s.g.tx))
    case _ => true
  }

  /** Every step of the run is one that the environment may take in the state it is taken in. */
  ghost predicate PermittedRun(f: Faults, s: System, steps: seq<Step>)
    requires Shape(s)
    decreases |steps|
  {
    steps == [] || (Permitted(f, s, steps[0]) && PermittedRun(f, Next(s, steps[0]), steps[1..]))
  }

  /** A refresh whose builder succeeds is permitted in every environment. */
  lemma SuccessfulRefreshIsPermitted(f: Faults, s: System, target: int, useParams: set<nat>, inputs: seq<StreamInput>)
    requires Shape(s) && |inputs| == MAX_STREAMS && Succeeds(inputs)
    ensures Permitted(f, s, Refresh(target, useParams, Build(s.g.params, target, inputs)))
  {
    SuccessCarries(s.g.params, target, inputs, useParams);
  }

  /** Everybody the transaction waited for has answered, and nobody is left to be asked again: the next
      decision commits it. */
  predicate Committing(s: System) {
    && s.position == Deciding && s.g.tx.phase == EncodersPending && s.g.tx.pending == {} && s.g.tx.failed == {}
  }

  /** Every eligible encoder, and the sensor when the transaction went through it, runs at the
      transaction's target, which is also the policy's target, and the configuration of the encoder is
      what it was last asked for. */
  ghost predicate Agreement(s: System)
    requires Shape(s)
  {
    && s.g.tx.targetFps == s.g.policyTarget
    && (s.viaSensor ==> s.sensorFps == s.g.tx.targetFps)
    && (forall i :: i in s.g.eligible ==> RunsAt(s.encoders[i], s.g.tx.targetFps))
    && (forall i :: i in s.g.eligible ==> Obeys(s.encoders[i].config, s.asked[i]))
  }

  // ----- running one step at a time --------------------------------------------------------

  lemma {:induction false} RunAppend(s: System, a: seq<Step>, step: Step)
    requires Shape(s)
    ensures Run(s, a + [step]) == Next(Run(s, a), step)
    decreases |a|
  {
    if a == [] {
      assert (a + [step])[1..] == [];
    } else {
      assert (a + [step])[0] == a[0] && (a + [step])[1..] == a[1..] + [step];
      RunAppend(Next(s, a[0]), a[1..], step);
    }
  }

  lemma {:induction false} RunConcat(s: System, a: seq<Step>, b: seq<Step>)
    requires Shape(s)
    ensures Run(s, a + b) == Run(Run(s, a), b)
    decreases |a|
  {
    if a == [] {
      assert a + b == b;
    } else {
      assert (a + b)[0] == a[0] && (a + b)[1..] == a[1..] + b;
      RunConcat(Next(s, a[0]), a[1..], b);
    }
  }

  lemma {:induction false} PermittedConcat(f: Faults, s: System, a: seq<Step>, b: seq<Step>)
    requires Shape(s) && PermittedRun(f, s, a) && PermittedRun(f, Run(s, a), b)
    ensures PermittedRun(f, s, a + b)
    decreases |a|
  {
    if a == [] {
      assert a + b == b;
    } else {
      assert (a + b)[0] == a[0] && (a + b)[1..] == a[1..] + b;
      PermittedConcat(f, Next(s, a[0]), a[1..], b);
    }
  }

  /** Steps that the environment may let happen in any state. */
  ghost predicate Ordinary(f: Faults, step: Step) {
    match step
    case Refresh(_, _, _) => false
    case ChangeEligible(_) => false
    case DecideNow(_) => f.retryMayOverlap
    case _ => true
  }

  lemma {:induction false} OrdinaryIsPermitted(f: Faults, s: System, steps: seq<Step>)
    requires Shape(s) && forall k :: 0 <= k < |steps| ==> Ordinary(f, steps[k])
    ensures PermittedRun(f, s, steps)
    decreases |steps|
  {
    if steps == [] {
    } else {
      OrdinaryIsPermitted(f, Next(s, steps[0]), steps[1..]);
    }
  }
}
