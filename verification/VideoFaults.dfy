/** Bookkeeping over whole runs, and exactly which environments keep commit agreement. */
module VideoFaults {
  import opened Options
  import opened VideoControl
  import opened VideoTargets
  import opened VideoWorkers
  import opened VideoProtocol
  import opened VideoCapacity
  import opened VideoAgreement
  import opened VideoDecisions

  // ----- bookkeeping -----------------------------------------------------------------------

  function CountCommands(q: seq<Command>, rid: nat): nat {
    if q == [] then 0 else (if q[0].requestId == rid then 1 else 0) + CountCommands(q[1..], rid)
  }

  /** Commands, held results and queued results of endpoint `ep` that carry the current request. */
  ghost function InFlight(s: System, ep: Endpoint): nat
    requires Shape(s) && ValidEndpoint(ep)
  {
    var c := ChannelOf(s, ep);
    var rid := s.g.tx.requestId;
    CountCommands(c.queue, rid)
    + (if c.out.Some? && c.out.value.requestId == rid then 1 else 0)
    + Count(s.g.results, ep, rid)
  }

  lemma {:induction false} OlderCountsZero(q: seq<Command>, rid: nat)
    requires Older(q, rid)
    ensures CountCommands(q, rid) == 0
  {
    if q == [] {
    } else {
      OlderCountsZero(q[1..], rid);
    }
  }

  lemma {:induction false} LastCountsOne(q: seq<Command>, rid: nat)
    requires |q| > 0 && q[|q| - 1].requestId == rid && Older(q[..|q| - 1], rid)
    ensures CountCommands(q, rid) == 1
  {
    if |q| > 1 {
      assert q[..|q| - 1][0] == q[0];
      assert q[1..][..|q| - 2] == q[..|q| - 1][1..];
      LastCountsOne(q[1..], rid);
    } else {
      assert CountCommands(q[1..], rid) == 0;
    }
  }

  /** The masks of the encoder phase partition the eligible encoders. */
  predicate MasksExact(g: Gateway) {
    g.tx.phase == EncodersPending ==> Asked(g.tx) == g.eligible
  }

  /** No encoder comes or goes while encoders are pending. */
  ghost predicate Undisturbed(s: System, steps: seq<Step>)
    requires Shape(s)
    decreases |steps|
  {
    steps == []
    || ((s.g.tx.phase == EncodersPending ==> !steps[0].ChangeEligible?) && Undisturbed(Next(s, steps[0]), steps[1..]))
  }

  lemma ExactDrain(s: System, outcomes: seq<Submission>, now: nat)
    requires Inv(s) && Enabled(s, DrainOne(outcomes, now)) && MasksExact(s.g)
    ensures MasksExact(StepDrain(s, outcomes, now).g)
  {
    if s.position.handled < MAX_RESULTS_PER_LOOP && s.g.results != [] {
      var g := s.g.(results := s.g.results[1..]);
      SubmitMasks(g.(tx := g.tx.(phase := EncodersPending, success := {})), {}, outcomes, Later(s, now));
    }
  }

  lemma ExactDecide(s: System, x: Inputs)
    requires Inv(s) && Enabled(s, DecideNow(x)) && MasksExact(s.g)
    ensures MasksExact(StepDecide(s, x).g)
  {
    var b := Begin(s.g);
    SubmitMasks(b.(tx := b.tx.(phase := EncodersPending, success := {})), {}, x.encoders, Later(s, x.now));
    SubmitMasks(s.g, s.g.tx.failed, x.encoders, Later(s, x.now));
  }

  lemma ExactStep(s: System, step: Step)
    requires Inv(s) && MasksExact(s.g)
    requires s.g.tx.phase == EncodersPending ==> !step.ChangeEligible?
    ensures MasksExact(Next(s, step).g)
  {
    if Enabled(s, step) {
      match step
      case DrainOne(outcomes, now) => ExactDrain(s, outcomes, now);
      case DecideNow(x) => ExactDecide(s, x);
      case _ =>
    }
  }

  lemma {:induction false} ExactRun(s: System, steps: seq<Step>)
    requires Inv(s) && MasksExact(s.g) && PermittedRun(NO_FAULTS, s, steps) && Undisturbed(s, steps)
    ensures MasksExact(Run(s, steps).g)
    decreases |steps|
  {
    if steps == [] {
    } else {
      InvStep(s, steps[0]);
      ExactStep(s, steps[0]);
      ExactRun(Next(s, steps[0]), steps[1..]);
    }
  }

  lemma OneInFlight(r: System, ep: Endpoint)
    requires Inv(r) && ValidEndpoint(ep) && StatusOf(r, ep) != Unconstrained
    ensures InFlight(r, ep) == if StatusOf(r, ep) == Pending then 1 else 0
  {
    assert EndpointOk(r, ep);
    var c := ChannelOf(r, ep);
    var rid := r.g.tx.requestId;
    if StatusOf(r, ep) == Pending && InQueue(c, Count(r.g.results, ep, rid), rid, r.g.tx.targetFps) {
      LastCountsOne(c.queue, rid);
    } else {
      OlderCountsZero(c.queue, rid);
    }
  }

  /** The coordinator is told the truth about every wake-up. */
  ghost predicate Woken(step: Step) {
    match step
    case DrainOne(outcomes, _) => forall i :: 0 <= i < |outcomes| ==> outcomes[i] != NotifyFailed
    case DecideNow(x) => forall i :: 0 <= i < |x.encoders| ==> x.encoders[i] != NotifyFailed
    case _ => true
  }

  /** A round in which no wake-up fails waits for everybody it sends to. */
  lemma SentIsPending(b: Gateway, retry: set<nat>, x: seq<Submission>, now: nat)
    requires WellFormed(b) && |x| == MAX_STREAMS && forall i :: 0 <= i < |x| ==> x[i] != NotifyFailed
    ensures var h := SubmitEncoders(b, retry, x, now); Sent(b, h) <= h.tx.pending
  {
    var h := SubmitEncoders(b, retry, x, now);
    forall i | i in Sent(b, h) ensures i in h.tx.pending {
      assert h.encoderQueues[i] == QueueAfterSubmit(b, retry, x, i);
    }
  }

  lemma NothingLooseStep(s: System, step: Step)
    requires Shape(s) && s.loose == {} && Woken(step)
    ensures Next(s, step).loose == {}
  {
    if Enabled(s, step) {
      match step
      case DrainOne(outcomes, now) =>
        if s.g.results != [] {
          var g := s.g.(results := s.g.results[1..]);
          SentIsPending(g.(tx := g.tx.(phase := EncodersPending, success := {})), {}, outcomes, Later(s, now));
        }
      case DecideNow(x) =>
        var b := Begin(s.g);
        SentIsPending(b.(tx := b.tx.(phase := EncodersPending, success := {})), {}, x.encoders, Later(s, x.now));
        SentIsPending(s.g, s.g.tx.failed, x.encoders, Later(s, x.now));
      case _ =>
    }
  }

  lemma {:induction false} NothingLoose(s: System, steps: seq<Step>)
    requires Shape(s) && s.loose == {} && forall k :: 0 <= k < |steps| ==> Woken(steps[k])
    ensures Run(s, steps).loose == {}
    decreases |steps|
  {
    if steps == [] {
    } else {
      NothingLooseStep(s, steps[0]);
      assert forall k :: 0 <= k < |steps[1..]| ==> steps[1..][k] == steps[k + 1];
      NothingLoose(Next(s, steps[0]), steps[1..]);
    }
  }

  /** While a transaction runs, the masks are disjoint and account for every eligible encoder (or are
      empty before the encoder phase); they are a partition if no encoder comes or goes meanwhile.
      Every pending endpoint has exactly one message in flight and the others none, but for encoders
      the coordinator has lost track of, and there is none of those unless a wake-up failed. */
  lemma {:induction false} Bookkeeping(s: System, steps: seq<Step>)
    requires Init(s) && ParamsCarry(s.g.policyTarget, s.g.useParams, s.g.params) && PermittedRun(NO_FAULTS, s, steps)
    ensures var r := Run(s, steps);
            && MasksOk(r.g)
            && (Undisturbed(s, steps) ==> MasksExact(r.g))
            && (forall ep :: ValidEndpoint(ep) && StatusOf(r, ep) != Unconstrained ==>
                  InFlight(r, ep) == if StatusOf(r, ep) == Pending then 1 else 0)
    ensures (forall k :: 0 <= k < |steps| ==> Woken(steps[k])) ==>
              forall ep :: Run(s, steps).g.tx.phase != Idle ==> StatusOf(Run(s, steps), ep) != Unconstrained
  {
    InitInv(s);
    InvRun(s, steps);
    if Undisturbed(s, steps) {
      ExactRun(s, steps);
    }
    var r := Run(s, steps);
    forall ep | ValidEndpoint(ep) && StatusOf(r, ep) != Unconstrained
      ensures InFlight(r, ep) == if StatusOf(r, ep) == Pending then 1 else 0
    {
      OneInFlight(r, ep);
    }
    if forall k :: 0 <= k < |steps| ==> Woken(steps[k]) {
      NothingLoose(s, steps);
    }
  }

  /** The next result either belongs to an endpoint the transaction waits for, or handling it changes
      nothing. */
  lemma {:induction false} EveryResultIsExpectedOrIgnored(s: System, steps: seq<Step>, outcomes: seq<Submission>, now: nat)
    requires Init(s) && ParamsCarry(s.g.policyTarget, s.g.useParams, s.g.params) && PermittedRun(NO_FAULTS, s, steps)
    requires |outcomes| == MAX_STREAMS && Run(s, steps).g.results != []
    ensures var r := Run(s, steps);
            var m := r.g.results[0];
            if m.requestId == r.g.tx.requestId && StatusOf(r, m.endpoint) == Pending
            then ValidEndpoint(m.endpoint) && (m.ok ==> ChannelOf(r, m.endpoint).applied)
            else HandleResult(r.g, m, outcomes, now) == r.g
  {
    InitInv(s);
    InvRun(s, steps);
    var r := Run(s, steps);
    var m := r.g.results[0];
    if m.requestId == r.g.tx.requestId && StatusOf(r, m.endpoint) != Unconstrained {
      assert EndpointOk(r, m.endpoint);
      PopCurrent(StatusOf(r, m.endpoint), ChannelOf(r, m.endpoint), r.g.results, m.endpoint,
                 r.g.tx.requestId, r.g.tx.targetFps);
    }
  }

  /** A retry round sends to the failed encoders that are still eligible and whose queue takes it, and
      to nobody else, under the same request id and at the target rate.  It keeps the encoders that
      already succeeded and waits for those it knows it has reached. */
  lemma {:induction false} RetryResendsTheFailedSet(s: System, steps: seq<Step>, x: Inputs)
    requires Init(s) && ParamsCarry(s.g.policyTarget, s.g.useParams, s.g.params) && PermittedRun(NO_FAULTS, s, steps)
    requires Enabled(Run(s, steps), DecideNow(x)) && Retrying(Run(s, steps))
    ensures var r := Run(s, steps);
            var q := Next(r, DecideNow(x));
            && Round(r.g, r.g.tx.failed * r.g.eligible, x.encoders, r.g.tx.targetFps, r.g.tx.requestId, Later(r, x.now), q.g)
            && q.g.tx.success == r.g.tx.success && q.g.tx.phase == EncodersPending
            && forall i :: 0 <= i < MAX_STREAMS ==> Asking(r.g, i, r.g.tx.targetFps).Fps() == r.g.policyTarget
  {
    InitInv(s);
    InvRun(s, steps);
    RetryAsks(Run(s, steps), x);
  }

  // ----- the environments that break agreement ---------------------------------------------

  const PLAIN := EncodeParams(30, 1000, 30, 0)
  const LEAN := EncodeParams(30, 500, 30, 0)
  const SLOW := EncodeParams(9, 500, 9, 0)

  /** Idle at 30 fps.  Encoder `e` is eligible and runs at half the bitrate the policy now wants; the
      other one was not ready when the rate last changed and still runs as it did before. */
  function Start(e: nat): System
    requires e < MAX_STREAMS
  {
    System(Gateway(Transition(Idle, 0, 0, 0, 0, {}, {}, {}, 0), 30, 0, 30, {0, 1}, [PLAIN, PLAIN], {e}, [], [[], []], []),
           Top, 0, 0, false, {}, [SetFps(30), SetFps(30)], 30, None,
           [EncoderState(9, 9, SLOW), EncoderState(9, 9, SLOW)][e := EncoderState(30, 30, LEAN)], [None, None], 0)
  }

  /** The wake-up of an encoder may fail or not. */
  function Go(first: Submission): Inputs {
    Inputs(0, [first, first], true, true, true, true, true)
  }

  const QUIET := [Accepted, Accepted]

  /** From an idle system to the point where the encoder has been asked to change its parameters. */
  function Opening(first: Submission): seq<Step> {
    [BeginLoop(0), DrainOne(QUIET, 0), DecideNow(Go(first))]
  }

  ghost function OneQueue(e: nat, queue: seq<Command>): seq<seq<Command>>
    requires e < MAX_STREAMS
  {
    [[], []][e := queue]
  }

  /** The command that the opening sends. */
  function First(g: Gateway, e: nat): Command
    requires e < MAX_STREAMS && |g.params| == MAX_STREAMS
  {
    Command(1, EncoderPayload(g.(tx := g.tx.(targetFps := 30)), e))
  }

  ghost function Opened(g: Gateway, e: nat, first: Submission): System
    requires WellFormed(g) && e < MAX_STREAMS
  {
    Start(e).(g := g.(tx := Transition(EncodersPending, 1, 1, if first == Accepted then 0 else RETRY_US, 30,
                                       if first == Accepted then {e} else {}, {},
                                       if first == Accepted then {} else {e}, 0),
                      encoderQueues := OneQueue(e, [First(g, e)])),
               loose := if first == Accepted then {} else {e},
               asked := Start(e).asked[e := First(g, e).payload])
  }

  /** A round over the one eligible encoder. */
  lemma OneEncoderRound(b: Gateway, retry: set<nat>, e: nat, first: Submission, now: nat)
    requires WellFormed(b) && e < MAX_STREAMS && b.eligible == {e} && (retry == {} || retry == {e}) && first != Refused
    requires |b.encoderQueues[e]| < COMMAND_CAPACITY
    ensures var h := SubmitEncoders(b, retry, [first, first], now);
            && h.encoderQueues == b.encoderQueues[e := b.encoderQueues[e] + [Command(b.tx.requestId, EncoderPayload(b, e))]]
            && h.tx.pending == (if first == Accepted then {e} else {})
            && h.tx.failed == (if first == Accepted then {} else {e})
  {
    var h := SubmitEncoders(b, retry, [first, first], now);
    assert Requested(b, retry, e) && e in b.eligible;
    forall i | 0 <= i < MAX_STREAMS
      ensures h.encoderQueues[i] == QueueAfterSubmit(b, retry, [first, first], i)
      ensures i in h.tx.pending <==> i == e && first == Accepted
      ensures i in h.tx.failed <==> i == e && first != Accepted
    {
    }
  }

  lemma Run1(s: System, a: Step)
    requires Shape(s)
    ensures Run(s, [a]) == Next(s, a)
  {
    assert [a][1..] == [];
  }

  lemma Run2(s: System, a: Step, b: Step)
    requires Shape(s)
    ensures Run(s, [a, b]) == Next(Next(s, a), b)
  {
    assert [a, b][1..] == [b];
    Run1(Next(s, a), b);
  }

  lemma OneQueueGrows(g: Gateway, h: Gateway, asked: seq<Payload>, e: nat, c: Command)
    requires e < MAX_STREAMS == |asked| && g.encoderQueues == [[], []] && h.encoderQueues == OneQueue(e, [c])
    ensures Sent(g, h) == {e} && AskedAfter(asked, g.encoderQueues, h.encoderQueues) == asked[e := c.payload]
  {
  }

  /** The decision that starts the parameter change. */
  lemma OpeningDecision(s: System, e: nat, first: Submission)
    requires e < MAX_STREAMS && |s.g.params| == MAX_STREAMS && first != Refused
    requires s == Start(e).(g := Start(e).g.(params := s.g.params)) && s.g.params[e] != LEAN
    ensures Next(s.(position := Deciding), DecideNow(Go(first))) == Opened(s.g, e, first)
  {
    var s2 := s.(position := Deciding);
    var b := Begin(s.g).(tx := Begin(s.g).tx.(phase := EncodersPending, success := {}));
    OneEncoderRound(b, {}, e, first, 0);
    assert EncoderPayload(b, e) == First(s.g, e).payload;
    assert b.encoderQueues[e] + [First(s.g, e)] == [First(s.g, e)];
    assert Differs(s2, e) && e in s2.g.eligible;
    OneQueueGrows(s.g, Opened(s.g, e, first).g, s.asked, e, First(s.g, e));
  }

  lemma OpeningRun(s: System, e: nat, first: Submission)
    requires e < MAX_STREAMS && |s.g.params| == MAX_STREAMS && first != Refused
    requires s == Start(e).(g := Start(e).g.(params := s.g.params)) && s.g.params[e] != LEAN
    ensures Run(s, Opening(first)) == Opened(s.g, e, first)
  {
    var steps := Opening(first);
    var s1 := Next(s, steps[0]);
    assert Next(s1, steps[1]) == s.(position := Deciding);
    OpeningDecision(s, e, first);
    assert steps[1..] == [steps[1], steps[2]];
    Run2(s1, steps[1], steps[2]);
  }

  function Work(e: nat): seq<Step> {
    [ExecuteEncoder(e, Applied), PublishEncoder(e)]
  }

  const COLLECT := [BeginLoop(RETRY_US), DrainOne(QUIET, 0), DrainOne(QUIET, 0)]

  /** The encoder executes the command at the head of its queue and holds a success report. */
  ghost function AfterExecution(s: System, e: nat): System
    requires Shape(s) && e < MAX_STREAMS && s.g.encoderQueues[e] != []
  {
    var c := s.g.encoderQueues[e][0];
    s.(g := s.g.(encoderQueues := s.g.encoderQueues[e := s.g.encoderQueues[e][1..]]),
       encoders := s.encoders[e := Execute(s.encoders[e], c.payload, Applied)],
       encoderOut := s.encoderOut[e := Some(Report(c, Encoder(e), true))])
  }

  lemma PublishesReport(s: System, e: nat, m: Message)
    requires Shape(s) && e < MAX_STREAMS && s.encoderOut[e] == Some(m) && s.g.results == []
    ensures Next(s, PublishEncoder(e)) == s.(g := s.g.(results := [m]), encoderOut := s.encoderOut[e := None])
  {
    assert s.g.results + [m] == [m];
  }

  /** The encoder executes the command at the head of its queue and reports success. */
  lemma WorkRun(s: System, e: nat)
    requires Shape(s) && e < MAX_STREAMS && s.g.encoderQueues[e] != [] && s.encoderOut[e] == None && s.g.results == []
    ensures var c := s.g.encoderQueues[e][0];
            Run(s, Work(e)) == s.(g := s.g.(encoderQueues := s.g.encoderQueues[e := s.g.encoderQueues[e][1..]],
                                            results := [Report(c, Encoder(e), true)]),
                                  encoders := s.encoders[e := Execute(s.encoders[e], c.payload, Applied)])
  {
    var s1 := AfterExecution(s, e);
    assert Next(s, ExecuteEncoder(e, Applied)) == s1;
    PublishesReport(s1, e, Report(s.g.encoderQueues[e][0], Encoder(e), true));
    assert s1.encoderOut[e := None] == s.encoderOut;
    Run2(s, ExecuteEncoder(e, Applied), PublishEncoder(e));
  }

  /** The coordinator takes that one result and is about to decide. */
  lemma CollectRun(s: System, e: nat)
    requires Shape(s) && e < MAX_STREAMS && s.position == Top && s.clock <= RETRY_US
    requires s.g.tx.phase == EncodersPending && s.g.tx.targetFps == s.g.policyTarget && s.g.tx.pending == {e}
    requires |s.g.results| == 1 && s.g.results[0].ok && s.g.results[0].kind != OtherResult
    requires s.g.results[0].endpoint == Encoder(e) && s.g.results[0].requestId == s.g.tx.requestId
    ensures Run(s, COLLECT) == s.(g := s.g.(tx := s.g.tx.(pending := {}, success := s.g.tx.success + {e}), results := []),
                                  position := Deciding, loopNow := RETRY_US, clock := RETRY_US)
  {
    var s1 := Next(s, COLLECT[0]);
    assert COLLECT[1..] == [COLLECT[1], COLLECT[2]];
    Run2(s1, COLLECT[1], COLLECT[2]);
    var s2 := Next(s1, COLLECT[1]);
    assert s2.g.tx.pending == {} && s2.g.results == [];
  }

  function Smooth(e: nat): seq<Step> {
    Opening(Accepted) + (Work(e) + COLLECT)
  }

  lemma AnswerRun(o: System, e: nat)
    requires e < MAX_STREAMS && Shape(o) && o.position == Top && o.clock <= RETRY_US
    requires o.g.tx.phase == EncodersPending && o.g.tx.targetFps == o.g.policyTarget && o.g.tx.pending == {e}
    requires |o.g.encoderQueues[e]| > 0 && o.g.encoderQueues[e][0].requestId == o.g.tx.requestId
    requires o.encoderOut[e] == None && o.g.results == []
    ensures Run(o, Work(e) + COLLECT) ==
            o.(g := o.g.(tx := o.g.tx.(pending := {}, success := o.g.tx.success + {e}),
                         encoderQueues := o.g.encoderQueues[e := o.g.encoderQueues[e][1..]]),
               encoders := o.encoders[e := Execute(o.encoders[e], o.g.encoderQueues[e][0].payload, Applied)],
               position := Deciding, loopNow := RETRY_US, clock := RETRY_US)
  {
    RunConcat(o, Work(e), COLLECT);
    WorkRun(o, e);
    CollectRun(Run(o, Work(e)), e);
  }

  /** A parameter change of one encoder that goes through, up to the committing decision. */
  lemma SmoothRun(s: System, e: nat)
    requires e < MAX_STREAMS && |s.g.params| == MAX_STREAMS
    requires s == Start(e).(g := Start(e).g.(params := s.g.params)) && s.g.params[e] != LEAN
    ensures var r := Run(s, Smooth(e));
            && Shape(r) && Committing(r) && r.g.eligible == {e} && r.g.tx.targetFps == 30 && Asked(r.g.tx) == {e}
            && r.encoders == s.encoders[e := Execute(EncoderState(30, 30, LEAN), First(s.g, e).payload, Applied)]
  {
    OpeningRun(s, e, Accepted);
    RunConcat(s, Opening(Accepted), Work(e) + COLLECT);
    AnswerRun(Opened(s.g, e, Accepted), e);
  }

  lemma OneIsPermitted(f: Faults, s: System, step: Step)
    requires Shape(s) && Permitted(f, s, step)
    ensures PermittedRun(f, s, [step])
  {
    assert [step][1..] == [];
    assert PermittedRun(f, Next(s, step), []);
  }

  lemma SmoothIsPermitted(f: Faults, s: System, e: nat)
    requires Shape(s) && s.g.tx.phase == Idle
    ensures PermittedRun(f, s, Smooth(e))
  {
    var first, decide := [BeginLoop(0), DrainOne(QUIET, 0)], DecideNow(Go(Accepted));
    OrdinaryIsPermitted(f, s, first);
    Run2(s, first[0], first[1]);
    var q := Run(s, first);
    assert q.g.tx.phase == Idle;
    OneIsPermitted(f, q, decide);
    PermittedConcat(f, s, first, [decide]);
    assert first + [decide] == Opening(Accepted);
    OrdinaryIsPermitted(f, Run(s, Opening(Accepted)), Work(e) + COLLECT);
    PermittedConcat(f, s, Opening(Accepted), Work(e) + COLLECT);
  }

  /** A run that the environment permits, with its start, that is about to commit without agreement. */
  ghost predicate Breaks(f: Faults, s: System, steps: seq<Step>) {
    && Init(s) && ParamsCarry(s.g.policyTarget, s.g.useParams, s.g.params)
    && PermittedRun(f, s, steps) && Committing(Run(s, steps)) && !Agreement(Run(s, steps))
  }

  lemma EveryoneJoins(q: System)
    requires Shape(q)
    ensures Next(q, ChangeEligible({0, 1})) == q.(g := q.g.(eligible := {0, 1}))
  {
  }

  /** Encoder 1 joins when encoder 0 has answered. */
  lemma StrangerRun(last: Step)
    requires last == ChangeEligible({0, 1})
    ensures var r := Run(Start(0), Smooth(0) + [last]);
            Shape(r) && Committing(r) && r.encoders[1] == EncoderState(9, 9, SLOW) && r.g.eligible == {0, 1} && r.g.tx.targetFps == 30
  {
    var s := Start(0);
    SmoothRun(s, 0);
    RunAppend(s, Smooth(0), last);
    var q := Run(s, Smooth(0));
    assert q.encoders[1] == s.encoders[1];
    EveryoneJoins(q);
  }

  lemma StrangerIsPermitted(f: Faults, last: Step)
    requires last == ChangeEligible({0, 1}) && f.strangerMayJoin
    ensures PermittedRun(f, Start(0), Smooth(0) + [last])
  {
    var s := Start(0);
    SmoothIsPermitted(f, s, 0);
    OneIsPermitted(f, Run(s, Smooth(0)), last);
    PermittedConcat(f, s, Smooth(0), [last]);
  }

  /** An encoder becomes ready after the round that asked the others: it was never configured. */
  lemma StrangerBreaks()
    ensures exists s, steps :: Breaks(Faults(false, false, true), s, steps)
  {
    var f, last := Faults(false, false, true), ChangeEligible({0, 1});
    StrangerRun(last);
    StrangerIsPermitted(f, last);
    assert Breaks(f, Start(0), Smooth(0) + [last]);
  }

  // ----- a builder that gives up part-way --------------------------------------------------

  const AT60 := EncodeParams(60, 2000, 60, 0)

  /** Stream 0 has no usable key frame interval at the new rate, stream 1 would have one. */
  const HALFWAY := [StreamInput(true, 1000, 1000, 0, 0), StreamInput(true, 1000, 1000, 30, 0)]

  /** Everything built for 60 fps; the policy goes back to 30 before anything was switched. */
  function StartAt60(): System {
    Start(1).(g := Start(1).g.(policyTarget := 60, params := [AT60, AT60]))
  }

  ghost function Halfway(): Step {
    Refresh(30, {0, 1}, Build([AT60, AT60], 30, HALFWAY))
  }

  lemma LeftoverRun()
    ensures var r := Run(StartAt60(), [Halfway()] + Smooth(1));
            Shape(r) && Committing(r) && r.encoders[1].hwFps == 60 && r.g.eligible == {1} && r.g.tx.targetFps == 30
  {
    var s, steps := StartAt60(), [Halfway()] + Smooth(1);
    var params := Build([AT60, AT60], 30, HALFWAY);
    assert Reached(HALFWAY) == 1;
    assert !Usable(params[0]) && params[1] == AT60;
    var q := Next(s, Halfway());
    assert q == Start(1).(g := Start(1).g.(params := params));
    SmoothRun(q, 1);
    assert steps[1..] == Smooth(1);
  }

  lemma LeftoverIsPermitted(f: Faults)
    requires f.buildMayFail
    ensures PermittedRun(f, StartAt60(), [Halfway()] + Smooth(1))
  {
    assert |HALFWAY| == MAX_STREAMS && Halfway().params == Build(StartAt60().g.params, 30, HALFWAY);
    OneIsPermitted(f, StartAt60(), Halfway());
    Run1(StartAt60(), Halfway());
    SmoothIsPermitted(f, Next(StartAt60(), Halfway()), 1);
    PermittedConcat(f, StartAt60(), [Halfway()], Smooth(1));
  }

  /** The builder stops at stream 0, after the fused rate has moved, and leaves it unusable; stream 1
      keeps its old entry, which is sent and carries the old rate. */
  lemma LeftoverBreaks()
    ensures exists s, steps :: Breaks(Faults(false, true, false), s, steps)
  {
    var f := Faults(false, true, false);
    LeftoverRun();
    LeftoverIsPermitted(f);
    assert Breaks(f, StartAt60(), [Halfway()] + Smooth(1));
  }

  // ----- a retry that overtakes the first command -----------------------------------------------

  const RETRY := [BeginLoop(RETRY_US), DrainOne(QUIET, 0), DecideNow(Go(Accepted))]

  /** The state that the retry leaves. */
  ghost function Doubled(o: System): System
    requires Shape(o)
  {
    o.(g := o.g.(tx := o.g.tx.(pending := {0}, failed := {}), encoderQueues := [o.g.encoderQueues[0] + o.g.encoderQueues[0], []]),
       loose := {}, position := Top, loopNow := RETRY_US, clock := RETRY_US)
  }

  lemma DoubledQueue(o: System)
    requires o == Opened(Start(0).g, 0, NotifyFailed)
    ensures Sent(o.g, Doubled(o).g) == {0}
    ensures AskedAfter(o.asked, o.g.encoderQueues, Doubled(o).g.encoderQueues) == o.asked
  {
    assert o.g.encoderQueues[0] == [First(Start(0).g, 0)] && o.g.encoderQueues[1] == [];
  }

  lemma RetryDecision(o: System, o2: System)
    requires o == Opened(Start(0).g, 0, NotifyFailed)
    requires o2 == o.(position := Deciding, loopNow := RETRY_US, clock := RETRY_US)
    ensures Next(o2, DecideNow(Go(Accepted))) == Doubled(o)
  {
    assert Differs(o2, 0);
    OneEncoderRound(o2.g, {0}, 0, Accepted, RETRY_US);
    DoubledQueue(o);
    assert o.g.encoderQueues[0] == [First(Start(0).g, 0)] && o.g.encoderQueues[1] == [];
  }

  /** After a failed wake-up the retry queues the same command a second time, before the worker has
      looked at the first one. */
  lemma RetryRun(o: System)
    requires o == Opened(Start(0).g, 0, NotifyFailed)
    ensures Run(o, RETRY) == Doubled(o)
  {
    var o1 := Next(o, RETRY[0]);
    assert RETRY[1..] == [RETRY[1], RETRY[2]];
    Run2(o1, RETRY[1], RETRY[2]);
    var o2 := Next(o1, RETRY[1]);
    assert o2 == o.(position := Deciding, loopNow := RETRY_US, clock := RETRY_US);
    RetryDecision(o, o2);
  }

  const DUPLICATED := Opening(NotifyFailed) + (RETRY + (Work(0) + COLLECT))

  /** The first copy succeeded and is about to be committed; the second copy is still queued. */
  lemma DuplicateRun()
    ensures var r := Run(Start(0), DUPLICATED);
            && Shape(r) && Committing(r) && r.g.eligible == {0} && r.g.tx.targetFps == 30
            && r.g.encoderQueues[0] != [] && r.encoderOut[0] == None
  {
    var s := Start(0);
    var o := Opened(s.g, 0, NotifyFailed);
    OpeningRun(s, 0, NotifyFailed);
    RunConcat(s, Opening(NotifyFailed), RETRY + (Work(0) + COLLECT));
    RunConcat(o, RETRY, Work(0) + COLLECT);
    RetryRun(o);
    var p := Run(o, RETRY);
    AnswerRun(p, 0);
  }

  /** The duplicate runs after the answer to the first copy and fails; its result is not awaited. */
  lemma OverlapBreaks()
    ensures exists s, steps :: Breaks(Faults(true, false, false), s, steps)
  {
    var f := Faults(true, false, false);
    var s, last := Start(0), ExecuteEncoder(0, ControlFailed(7));
    DuplicateRun();
    RunAppend(s, DUPLICATED, last);
    var steps := DUPLICATED + [last];
    var r := Run(s, steps);
    assert r == Next(Run(s, DUPLICATED), last);
    assert r.encoders[0].hwFps == 7 && 0 in r.g.eligible;
    OrdinaryIsPermitted(f, s, steps);
    assert Breaks(f, s, steps);
  }

  // ----- the exact condition ---------------------------------------------------------------

  ghost predicate AlwaysAgrees(f: Faults) {
    !exists s, steps :: Breaks(f, s, steps)
  }

  lemma {:induction false} MoreFaultsMorePermitted(f: Faults, h: Faults, s: System, steps: seq<Step>)
    requires Shape(s) && PermittedRun(f, s, steps)
    requires (f.retryMayOverlap ==> h.retryMayOverlap) && (f.buildMayFail ==> h.buildMayFail)
    requires f.strangerMayJoin ==> h.strangerMayJoin
    ensures PermittedRun(h, s, steps)
    decreases |steps|
  {
    if steps == [] {
    } else {
      assert Permitted(f, s, steps[0]) ==> Permitted(h, s, steps[0]);
      MoreFaultsMorePermitted(f, h, Next(s, steps[0]), steps[1..]);
    }
  }

  /** Commit agreement holds on all runs of an environment exactly when that environment has none of
      the three faults. */
  lemma {:induction false} AgreementIffNoFaults(f: Faults)
    ensures AlwaysAgrees(f) <==> f == NO_FAULTS
  {
    if f == NO_FAULTS {
      forall s, steps | Init(s) && ParamsCarry(s.g.policyTarget, s.g.useParams, s.g.params) && PermittedRun(f, s, steps)
        ensures !Breaks(f, s, steps)
      {
        CommitAgreement(s, steps);
      }
    } else {
      var one := if f.retryMayOverlap then Faults(true, false, false)
                 else if f.buildMayFail then Faults(false, true, false) else Faults(false, false, true);
      StrangerBreaks();
      LeftoverBreaks();
      OverlapBreaks();
      var s, steps :| Breaks(one, s, steps);
      MoreFaultsMorePermitted(one, f, s, steps);
      assert Breaks(f, s, steps);
    }
  }
}
