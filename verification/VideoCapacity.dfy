/** No worker result is ever lost: the shared result queue cannot fill up, whatever the schedule and
    whatever the environment does, because of how the four queue constants fit together. */
module VideoCapacity {
  import opened Options
  import opened VideoControl
  import opened VideoWorkers
  import opened VideoProtocol

  function Held(m: Option<Message>): nat {
    if m.Some? then 1 else 0
  }

  ghost function Waiting(g: Gateway): nat
    requires WellFormed(g)
  {
    |g.sensorQueue| + |g.encoderQueues[0]| + |g.encoderQueues[1]|
  }

  /** Commands, finished commands whose result is not pushed yet, and results. */
  ghost function Outstanding(s: System): nat
    requires Shape(s)
  {
    Waiting(s.g) + Held(s.sensorOut) + Held(s.encoderOut[0]) + Held(s.encoderOut[1]) + |s.g.results|
  }

  ghost predicate QueuesFit(g: Gateway)
    requires WellFormed(g)
  {
    && |g.sensorQueue| <= COMMAND_CAPACITY
    && |g.encoderQueues[0]| <= COMMAND_CAPACITY
    && |g.encoderQueues[1]| <= COMMAND_CAPACITY
  }

  function Submittable(p: Phase): nat {
    if p == EncodersPending then 2 else 0
  }

  ghost predicate CapacityInv(s: System) {
    && Shape(s)
    && s.lost == 0
    && QueuesFit(s.g)
    && match s.position
       case Top => Outstanding(s) <= 29
       case Draining(n) => n <= MAX_RESULTS_PER_LOOP && Outstanding(s) <= 29 - n + Submittable(s.g.tx.phase)
       case Deciding => Outstanding(s) <= 27
  }

  lemma SubmitGrowth(g: Gateway, retry: set<nat>, x: seq<Submission>, now: nat)
    requires WellFormed(g) && |x| == MAX_STREAMS && QueuesFit(g)
    ensures QueuesFit(SubmitEncoders(g, retry, x, now))
    ensures Waiting(SubmitEncoders(g, retry, x, now)) <= Waiting(g) + 2
    ensures SubmitEncoders(g, retry, x, now).results == g.results
    ensures SubmitEncoders(g, retry, x, now).tx.phase == g.tx.phase
  {
    var r := SubmitEncoders(g, retry, x, now);
    assert r.encoderQueues[0] == QueueAfterSubmit(g, retry, x, 0);
    assert r.encoderQueues[1] == QueueAfterSubmit(g, retry, x, 1);
  }

  lemma HandleGrowth(g: Gateway, m: Message, x: seq<Submission>, now: nat)
    requires WellFormed(g) && |x| == MAX_STREAMS && QueuesFit(g)
    ensures QueuesFit(HandleResult(g, m, x, now))
    ensures Waiting(HandleResult(g, m, x, now)) + Submittable(g.tx.phase)
         <= Waiting(g) + Submittable(HandleResult(g, m, x, now).tx.phase)
    ensures HandleResult(g, m, x, now).results == g.results
  {
    if m.requestId == g.tx.requestId && m.kind != OtherResult && g.tx.phase == SensorPending && m.endpoint == Capture && m.ok {
      SubmitGrowth(g.(tx := g.tx.(phase := EncodersPending, success := {})), {}, x, now);
    }
  }

  lemma DecideGrowth(g: Gateway, x: Inputs, loopNow: nat)
    requires WellFormed(g) && |x.encoders| == MAX_STREAMS && QueuesFit(g)
    ensures QueuesFit(Decide(g, x, loopNow))
    ensures Waiting(Decide(g, x, loopNow)) <= Waiting(g) + 2
    ensures Decide(g, x, loopNow).results == g.results
  {
    var b := Begin(g);
    SubmitGrowth(b.(tx := b.tx.(phase := EncodersPending, success := {})), {}, x.encoders, x.now);
    SubmitGrowth(g, g.tx.failed, x.encoders, x.now);
  }

  lemma CapacityDrain(s: System, outcomes: seq<Submission>, now: nat)
    requires CapacityInv(s) && Enabled(s, DrainOne(outcomes, now))
    ensures CapacityInv(StepDrain(s, outcomes, now))
  {
    if s.position.handled < MAX_RESULTS_PER_LOOP && s.g.results != [] {
      HandleGrowth(s.g.(results := s.g.results[1..]), s.g.results[0], outcomes, Later(s, now));
    }
  }

  lemma CapacityDecide(s: System, x: Inputs)
    requires CapacityInv(s) && Enabled(s, DecideNow(x))
    ensures CapacityInv(StepDecide(s, x))
  {
    DecideGrowth(s.g, x.(now := Later(s, x.now)), s.loopNow);
  }

  lemma CapacityExecute(s: System, i: nat, outcome: Outcome)
    requires CapacityInv(s) && Enabled(s, ExecuteEncoder(i, outcome))
    ensures CapacityInv(Next(s, ExecuteEncoder(i, outcome)))
  {
    assert i == 0 || i == 1;
  }

  lemma CapacityPublish(s: System, i: nat)
    requires CapacityInv(s) && Enabled(s, PublishEncoder(i))
    ensures CapacityInv(Next(s, PublishEncoder(i)))
  {
    assert i == 0 || i == 1;
  }

  lemma CapacityStep(s: System, step: Step)
    requires CapacityInv(s)
    ensures CapacityInv(Next(s, step))
  {
    if Enabled(s, step) {
      match step
      case DrainOne(outcomes, now) => CapacityDrain(s, outcomes, now);
      case DecideNow(x) => CapacityDecide(s, x);
      case ExecuteEncoder(i, outcome) => CapacityExecute(s, i, outcome);
      case PublishEncoder(i) => CapacityPublish(s, i);
      case _ =>
    }
  }

  lemma {:induction false} CapacityRun(s: System, steps: seq<Step>)
    requires CapacityInv(s)
    ensures CapacityInv(Run(s, steps))
    decreases |steps|
  {
    if steps == [] {
    } else {
      CapacityStep(s, steps[0]);
      CapacityRun(Next(s, steps[0]), steps[1..]);
    }
  }

  /** In every state of every run the next push of a result finds room, so none was ever dropped. */
  lemma {:induction false} NoResultIsEverLost(s: System, steps: seq<Step>)
    requires Init(s)
    ensures Run(s, steps).lost == 0
    ensures Run(s, steps).sensorOut.Some? || (exists i :: 0 <= i < MAX_STREAMS && Run(s, steps).encoderOut[i].Some?)
            ==> |Run(s, steps).g.results| < RESULT_CAPACITY
  {
    CapacityRun(s, steps);
  }
}
