/** What the coordinator's decisions do and when, in terms of their inputs, the queues and the request
    ids: who is asked and with what, when a transaction starts, ends or is given up, and what holds the
    next one back. */
module VideoDecisions {
  import opened Options
  import opened VideoControl
  import opened VideoWorkers
  import opened VideoProtocol

  // ----- one round of encoder commands -----------------------------------------------------

  /** The command enters a queue of this length. */
  predicate Joins(x: Submission, length: nat) {
    x != Refused && length < COMMAND_CAPACITY
  }

  /** The coordinator is told so. */
  predicate Told(x: Submission, length: nat) {
    x == Accepted && length < COMMAND_CAPACITY
  }

  /** What a stream is asked to do: everything the policy wants of it, or just the rate. */
  function Asking(g: Gateway, i: nat, target: int): Payload
    requires i < |g.params|
  {
    var p := g.params[i];
    if i in g.useParams && p.fps > 0 && p.bitrate > 0 && p.gop > 0 then SetParams(p) else SetFps(target)
  }

  /** From `g` to `h` exactly the encoders in `asked` were sent one command each, as far as their queues
      took it, and the coordinator waits for those it was told of and will ask the others again. */
  ghost predicate Round(g: Gateway, asked: set<nat>, x: seq<Submission>, target: int, rid: nat, now: nat, h: Gateway) {
    && |g.encoderQueues| == |h.encoderQueues| == |g.params| == |x| == MAX_STREAMS
    && h.tx.pending == (set i | i in asked && i < MAX_STREAMS && Told(x[i], |g.encoderQueues[i]|))
    && h.tx.failed == asked - h.tx.pending
    && (forall i :: 0 <= i < MAX_STREAMS ==>
          h.encoderQueues[i] == g.encoderQueues[i] + if i in asked && Joins(x[i], |g.encoderQueues[i]|)
                                                     then [Command(rid, Asking(g, i, target))] else [])
    && (h.tx.failed != {} ==> h.tx.retryAfter == now + RETRY_US)
    && h.tx.requestId == rid && h.tx.targetFps == target
  }

  lemma SubmitIsRound(g: Gateway, retry: set<nat>, x: seq<Submission>, now: nat, asked: set<nat>)
    requires WellFormed(g) && |x| == MAX_STREAMS
    requires asked == if retry == {} then g.eligible else g.eligible * retry
    ensures Round(g, asked, x, g.tx.targetFps, g.tx.requestId, now, SubmitEncoders(g, retry, x, now))
  {
    var h := SubmitEncoders(g, retry, x, now);
    forall i | 0 <= i < MAX_STREAMS
      ensures h.encoderQueues[i] == g.encoderQueues[i] + if i in asked && Joins(x[i], |g.encoderQueues[i]|)
                                                         then [Command(g.tx.requestId, Asking(g, i, g.tx.targetFps))] else []
    {
      assert h.encoderQueues[i] == QueueAfterSubmit(g, retry, x, i);
    }
  }

  /** Nobody is asked anything, nothing is published, and no request id is issued. */
  predicate Unasked(g: Gateway, h: Gateway) {
    && h.sensorQueue == g.sensorQueue && h.encoderQueues == g.encoderQueues && h.results == g.results
    && h.tx.requestId == g.tx.requestId && h.tx.nextRequestId == g.tx.nextRequestId
    && h.currentFps == g.currentFps && h.lastSwitch == g.lastSwitch
  }

  // ----- when a transaction starts ---------------------------------------------------------

  /** Something has changed, the waiting time is over, and a rate change finds the sensor started. */
  predicate Due(s: System, x: Inputs) {
    && s.g.tx.phase == Idle
    && (s.g.policyTarget != s.g.currentFps || x.needParams)
    && s.loopNow >= s.g.tx.retryAfter
    && (s.g.policyTarget != s.g.currentFps ==> x.sensorStarted)
  }

  ghost predicate Issues(s: System, step: Step)
    requires Shape(s)
  {
    Next(s, step).g.tx.requestId != s.g.tx.requestId
  }

  /** A decision that was due was told that the hardware cannot serve the target. */
  ghost predicate TurnsDown(s: System, step: Step)
    requires Shape(s)
  {
    step.DecideNow? && Enabled(s, step) && Due(s, step.inputs) && !step.inputs.capabilityOk
  }

  /** The target last turned down in a run, if no request id was issued since; else 0. */
  ghost function TurnedDown(s: System, steps: seq<Step>): int
    requires Shape(s)
    decreases |steps|
  {
    if steps == [] then 0
    else
      var r, last := Run(s, steps[..|steps| - 1]), steps[|steps| - 1];
      if Issues(r, last) then 0
      else if TurnsDown(r, last) then r.g.policyTarget
      else TurnedDown(s, steps[..|steps| - 1])
  }

  lemma {:induction false} RunLast(s: System, steps: seq<Step>)
    requires Shape(s) && steps != []
    ensures Run(s, steps) == Next(Run(s, steps[..|steps| - 1]), steps[|steps| - 1])
  {
    var init, last := steps[..|steps| - 1], steps[|steps| - 1];
    assert steps == init + [last];
    RunAppend(s, init, last);
  }

  lemma RejectionDecision(s: System, x: Inputs)
    requires Shape(s) && s.g.tx.requestId == s.g.tx.nextRequestId && Enabled(s, DecideNow(x))
    ensures var r := Next(s, DecideNow(x));
            && r.g.tx.requestId == r.g.tx.nextRequestId
            && (if Issues(s, DecideNow(x)) then r.g.tx.rejectedTargetFps == 0
                else if TurnsDown(s, DecideNow(x)) then r.g.tx.rejectedTargetFps == s.g.policyTarget
                else r.g.tx.rejectedTargetFps == s.g.tx.rejectedTargetFps)
  {
  }

  lemma RejectionStep(s: System, step: Step)
    requires Shape(s) && s.g.tx.requestId == s.g.tx.nextRequestId
    ensures var r := Next(s, step);
            && r.g.tx.requestId == r.g.tx.nextRequestId
            && r.g.tx.rejectedTargetFps ==
               (if Issues(s, step) then 0 else if TurnsDown(s, step) then s.g.policyTarget else s.g.tx.rejectedTargetFps)
  {
    if step.DecideNow? && Enabled(s, step) {
      RejectionDecision(s, step.inputs);
    }
  }

  lemma {:induction false} RejectionRun(s: System, steps: seq<Step>)
    requires Init(s)
    ensures var r := Run(s, steps);
            r.g.tx.rejectedTargetFps == TurnedDown(s, steps) && r.g.tx.requestId == r.g.tx.nextRequestId
    decreases |steps|
  {
    if steps == [] {
    } else {
      RunLast(s, steps);
      RejectionRun(s, steps[..|steps| - 1]);
      RejectionStep(Run(s, steps[..|steps| - 1]), steps[|steps| - 1]);
    }
  }

  lemma IdleDecision(s: System, x: Inputs)
    requires Shape(s) && Enabled(s, DecideNow(x)) && s.g.tx.phase == Idle
    ensures var q := Next(s, DecideNow(x));
            if Due(s, x) && x.capabilityOk && s.g.tx.rejectedTargetFps != s.g.policyTarget
            then q.g.tx.requestId == s.g.tx.nextRequestId + 1
            else Unasked(s.g, q.g) && q.g.tx.phase == Idle && q.g.tx.retryAfter == s.g.tx.retryAfter
  {
  }

  /** In every run an idle coordinator issues a request id exactly when a change is due, the hardware can
      serve it, and the target has not been turned down since the last request.  Otherwise it asks nobody
      anything and stays idle. */
  lemma {:induction false} StartsIff(s: System, steps: seq<Step>, x: Inputs)
    requires Init(s) && Enabled(Run(s, steps), DecideNow(x)) && Run(s, steps).g.tx.phase == Idle
    ensures var r := Run(s, steps);
            var q := Next(r, DecideNow(x));
            && (Issues(r, DecideNow(x)) <==> Due(r, x) && x.capabilityOk && TurnedDown(s, steps) != r.g.policyTarget)
            && (!Issues(r, DecideNow(x)) ==> Unasked(r.g, q.g) && q.g.tx.phase == Idle && q.g.tx.retryAfter == r.g.tx.retryAfter)
  {
    RejectionRun(s, steps);
    IdleDecision(Run(s, steps), x);
  }

  /** What a transaction starts with.  A rate change asks the sensor and nobody else, and only when the
      exposure limit is set and the sensor's queue takes the command; otherwise it waits to try again.
      A change of parameters alone asks the eligible encoders and not the sensor. */
  lemma StartAsks(s: System, x: Inputs)
    requires Shape(s) && Enabled(s, DecideNow(x)) && Issues(s, DecideNow(x))
    ensures var q := Next(s, DecideNow(x));
            && s.g.tx.phase == Idle
            && q.g.tx.requestId == q.g.tx.nextRequestId == s.g.tx.nextRequestId + 1
            && q.g.tx.targetFps == s.g.policyTarget && q.g.currentFps == s.g.currentFps && q.g.results == s.g.results
    ensures var q := Next(s, DecideNow(x));
            var sent := x.aeOk && x.sensorAccepts && |s.g.sensorQueue| < COMMAND_CAPACITY;
            s.g.policyTarget != s.g.currentFps ==>
              && q.g.encoderQueues == s.g.encoderQueues
              && q.g.sensorQueue == s.g.sensorQueue + (if sent then [Command(q.g.tx.requestId, SetFps(s.g.policyTarget))] else [])
              && q.g.tx.phase == (if sent then SensorPending else Idle)
              && (!sent ==> q.g.tx.retryAfter == s.loopNow + RETRY_US)
    ensures var q := Next(s, DecideNow(x));
            s.g.policyTarget == s.g.currentFps ==>
              && q.g.sensorQueue == s.g.sensorQueue
              && Round(s.g, s.g.eligible, x.encoders, s.g.policyTarget, q.g.tx.requestId, Later(s, x.now), q.g)
              && q.g.tx.success == {}
              && (q.g.tx.phase == if s.g.eligible == {} then Idle else EncodersPending)
  {
    var b := Begin(s.g);
    SubmitIsRound(b.(tx := b.tx.(phase := EncodersPending, success := {})), {}, x.encoders, Later(s, x.now), s.g.eligible);
  }

  /** The sensor phase is entered in no other way. */
  lemma SensorPhaseIsAsked(s: System, step: Step)
    requires Shape(s) && s.g.tx.requestId == s.g.tx.nextRequestId
    requires s.g.tx.phase != SensorPending && Next(s, step).g.tx.phase == SensorPending
    ensures step.DecideNow? && Issues(s, step) && s.g.policyTarget != s.g.currentFps
    ensures step.inputs.capabilityOk && step.inputs.aeOk && step.inputs.sensorAccepts && step.inputs.sensorStarted
  {
  }

  /** Turned down and not asked for anything else since. */
  ghost predicate Resting(s: System, target: int) {
    Shape(s) && s.g.tx.phase == Idle && s.g.policyTarget == target && s.g.tx.rejectedTargetFps == target
  }

  /** No command and no request id was added. */
  ghost predicate NothingAdded(s: System, r: System)
    requires Shape(s) && Shape(r)
  {
    && r.g.tx.requestId == s.g.tx.requestId && r.g.tx.nextRequestId == s.g.tx.nextRequestId
    && |r.g.sensorQueue| <= |s.g.sensorQueue|
    && (forall i :: 0 <= i < MAX_STREAMS ==> |r.g.encoderQueues[i]| <= |s.g.encoderQueues[i]|)
    && r.g.currentFps == s.g.currentFps
  }

  lemma RestingStep(s: System, step: Step, target: int)
    requires Resting(s, target) && (step.Refresh? ==> step.target == target)
    ensures Resting(Next(s, step), target) && NothingAdded(s, Next(s, step))
  {
  }

  lemma {:induction false} RestingRun(s: System, steps: seq<Step>, target: int)
    requires Resting(s, target) && forall k :: 0 <= k < |steps| && steps[k].Refresh? ==> steps[k].target == target
    ensures NothingAdded(s, Run(s, steps))
    decreases |steps|
  {
    if steps == [] {
    } else {
      RestingStep(s, steps[0], target);
      assert forall k :: 0 <= k < |steps[1..]| ==> steps[1..][k] == steps[k + 1];
      RestingRun(Next(s, steps[0]), steps[1..], target);
    }
  }

  lemma TurningDownRests(s: System, step: Step)
    requires Shape(s) && TurnsDown(s, step)
    ensures Resting(Next(s, step), s.g.policyTarget) && Unasked(s.g, Next(s, step).g)
  {
  }

  /** Once the hardware has turned a target down, no request id is issued and nobody is sent a command
      until the policy wants another target, whatever else happens and whatever later decisions are told. */
  lemma TurnedDownTargetRests(s: System, step: Step, steps: seq<Step>)
    requires Shape(s) && TurnsDown(s, step)
    requires forall k :: 0 <= k < |steps| && steps[k].Refresh? ==> steps[k].target == s.g.policyTarget
    ensures NothingAdded(s, Run(Next(s, step), steps))
  {
    TurningDownRests(s, step);
    RestingRun(Next(s, step), steps, s.g.policyTarget);
  }

  // ----- while a transaction runs ----------------------------------------------------------

  /** A transaction is given up exactly when the policy has moved away from its target.  Nothing is taken
      back: what was sent stays on its way. */
  lemma GivesUpIff(s: System, now: nat)
    requires Shape(s) && Enabled(s, BeginLoop(now))
    ensures var q := Next(s, BeginLoop(now));
            && Unasked(s.g, q.g)
            && (if s.g.tx.phase != Idle && s.g.tx.targetFps != s.g.policyTarget
                then q.g.tx.phase == Idle && Asked(q.g.tx) == {} && q.g.tx.retryAfter == 0
                else q.g == s.g)
  {
  }

  /** The result at the head of the queue answers what the transaction waits for. */
  predicate Awaited(g: Gateway) {
    && g.results != [] && g.results[0].requestId == g.tx.requestId && g.results[0].kind != OtherResult
    && match g.results[0].endpoint
       case Capture => g.tx.phase == SensorPending
       case Encoder(i) => g.tx.phase == EncodersPending && i in g.tx.pending
  }

  /** What an answer does: the sensor's success asks all eligible encoders, its failure ends the
      transaction for a while; an encoder moves to the successes or to the failures, and a failure is
      repeated after a while. */
  lemma AnswerCounts(s: System, outcomes: seq<Submission>, now: nat)
    requires Shape(s) && Enabled(s, DrainOne(outcomes, now)) && s.position.handled < MAX_RESULTS_PER_LOOP && Awaited(s.g)
    ensures var q, m, t := Next(s, DrainOne(outcomes, now)), s.g.results[0], Later(s, now);
            && q.g.results == s.g.results[1..] && q.g.sensorQueue == s.g.sensorQueue && q.g.currentFps == s.g.currentFps
            && (m.endpoint == Capture && m.ok ==>
                  && q.g.tx.phase == EncodersPending && q.g.tx.success == {}
                  && Round(s.g, s.g.eligible, outcomes, s.g.tx.targetFps, s.g.tx.requestId, t, q.g))
            && (m.endpoint == Capture && !m.ok ==>
                  q.g.tx == s.g.tx.(phase := Idle, retryAfter := t + RETRY_US) && q.g.encoderQueues == s.g.encoderQueues)
            && (m.endpoint.Encoder? ==>
                  && q.g.encoderQueues == s.g.encoderQueues
                  && q.g.tx == s.g.tx.(pending := s.g.tx.pending - {m.endpoint.index},
                                       success := s.g.tx.success + if m.ok then {m.endpoint.index} else {},
                                       failed := s.g.tx.failed + if m.ok then {} else {m.endpoint.index},
                                       retryAfter := if m.ok then s.g.tx.retryAfter else t + RETRY_US))
  {
    var g := s.g.(results := s.g.results[1..]);
    SubmitIsRound(g.(tx := g.tx.(phase := EncodersPending, success := {})), {}, outcomes, Later(s, now), g.eligible);
  }

  /** A result that nobody waits for changes nothing. */
  lemma StaleIsIgnored(s: System, outcomes: seq<Submission>, now: nat)
    requires Shape(s) && Enabled(s, DrainOne(outcomes, now)) && s.position.handled < MAX_RESULTS_PER_LOOP
    requires s.g.results != [] && !Awaited(s.g)
    ensures Next(s, DrainOne(outcomes, now)).g == s.g.(results := s.g.results[1..])
  {
  }

  /** A retry asks the failed encoders that are still eligible, under the same request id, and nobody else. */
  lemma RetryAsks(s: System, x: Inputs)
    requires Shape(s) && Enabled(s, DecideNow(x)) && Retrying(s)
    ensures var q := Next(s, DecideNow(x));
            && Round(s.g, s.g.tx.failed * s.g.eligible, x.encoders, s.g.tx.targetFps, s.g.tx.requestId, Later(s, x.now), q.g)
            && q.g.tx.success == s.g.tx.success && q.g.tx.phase == EncodersPending && q.g.tx.nextRequestId == s.g.tx.nextRequestId
            && q.g.sensorQueue == s.g.sensorQueue && q.g.results == s.g.results && q.g.currentFps == s.g.currentFps
  {
    SubmitIsRound(s.g, s.g.tx.failed, x.encoders, Later(s, x.now), s.g.tx.failed * s.g.eligible);
  }

  /** A decision that finds answers outstanding does nothing. */
  lemma Waits(s: System, x: Inputs)
    requires Shape(s) && Enabled(s, DecideNow(x))
    requires s.g.tx.phase == SensorPending || (s.g.tx.phase == EncodersPending && s.g.tx.pending != {})
    ensures Next(s, DecideNow(x)).g == s.g
  {
  }

  /** A decision that finds every encoder's success publishes the target, with the time if it is a new
      rate, and leaves nothing behind that would delay the next transaction. */
  lemma Publishes(s: System, x: Inputs)
    requires Shape(s) && Enabled(s, DecideNow(x)) && Committing(s) && s.g.tx.targetFps > 0
    ensures var q := Next(s, DecideNow(x));
            && q.g.currentFps == s.g.tx.targetFps
            && q.g.lastSwitch == (if s.g.currentFps == s.g.tx.targetFps then s.g.lastSwitch else Later(s, x.now))
            && q.g.tx.phase == Idle && Asked(q.g.tx) == {} && q.g.tx.retryAfter == 0
            && q.g.sensorQueue == s.g.sensorQueue && q.g.encoderQueues == s.g.encoderQueues
  {
  }

  /** Nothing else publishes a rate. */
  lemma PublishedOnlyWhenAnswered(s: System, step: Step)
    requires Shape(s) && Next(s, step).g.currentFps != s.g.currentFps
    ensures step.DecideNow? && Committing(s)
  {
  }

  // ----- what holds the coordinator back ---------------------------------------------------

  /** Something was refused or has failed and is not tried again before this time. */
  ghost predicate HeldBack(s: System, until: nat) {
    && Shape(s) && s.g.tx.retryAfter >= until
    && match s.g.tx.phase
       case Idle => true
       case SensorPending => false
       case EncodersPending => s.g.tx.failed != {} && s.g.tx.targetFps == s.g.policyTarget && s.clock + RETRY_US >= until
  }

  /** All passes start before `until`, and the policy does not change its mind. */
  ghost predicate Early(s: System, steps: seq<Step>, until: nat)
    requires Shape(s)
    decreases |steps|
  {
    && s.loopNow < until
    && (steps == [] || ((steps[0].Refresh? ==> steps[0].target == s.g.policyTarget) && Early(Next(s, steps[0]), steps[1..], until)))
  }

  lemma HeldBackStep(s: System, step: Step, until: nat)
    requires HeldBack(s, until) && s.loopNow < until && (step.Refresh? ==> step.target == s.g.policyTarget)
    ensures HeldBack(Next(s, step), until) && NothingAdded(s, Next(s, step))
  {
  }

  lemma {:induction false} HeldBackRun(s: System, steps: seq<Step>, until: nat)
    requires HeldBack(s, until) && Early(s, steps, until)
    ensures NothingAdded(s, Run(s, steps))
    decreases |steps|
  {
    if steps == [] {
    } else {
      HeldBackStep(s, steps[0], until);
      HeldBackRun(Next(s, steps[0]), steps[1..], until);
    }
  }

  /** Somebody in `asked` does not get the command, or the coordinator is not told. */
  ghost predicate Misses(s: System, asked: set<nat>, x: seq<Submission>)
    requires Shape(s) && |x| == MAX_STREAMS
  {
    exists i :: i in asked && i < MAX_STREAMS && !Told(x[i], |s.g.encoderQueues[i]|)
  }

  /** The step meets a refusal or a failure; what failed may be tried again from `until` on. */
  ghost predicate FailsUntil(s: System, step: Step, until: nat)
    requires Shape(s)
  {
    Enabled(s, step) &&
    match step
    case DrainOne(x, now) =>
      && s.position.handled < MAX_RESULTS_PER_LOOP && Awaited(s.g) && until == Later(s, now) + RETRY_US
      && (!s.g.results[0].ok || (s.g.results[0].endpoint == Capture && Misses(s, s.g.eligible, x)))
    case DecideNow(x) =>
      || (Retrying(s) && until == Later(s, x.now) + RETRY_US && Misses(s, s.g.tx.failed * s.g.eligible, x.encoders))
      || (Issues(s, step) && s.g.policyTarget == s.g.currentFps && until == Later(s, x.now) + RETRY_US
          && Misses(s, s.g.eligible, x.encoders))
      || (Issues(s, step) && s.g.policyTarget != s.g.currentFps && until == s.loopNow + RETRY_US
          && !(x.aeOk && x.sensorAccepts && |s.g.sensorQueue| < COMMAND_CAPACITY))
    case _ => false
  }

  /** A transaction on its way aims at the policy's target while a pass is under way. */
  ghost predicate OnTarget(s: System) {
    s.g.tx.phase != Idle && s.position != Top ==> s.g.tx.targetFps == s.g.policyTarget
  }

  lemma MissedIsFailed(s: System, asked: set<nat>, x: seq<Submission>, target: int, rid: nat, now: nat, h: Gateway)
    requires Shape(s) && Round(s.g, asked, x, target, rid, now, h) && Misses(s, asked, x)
    ensures h.tx.failed != {} && h.tx.retryAfter == now + RETRY_US
  {
    var i :| i in asked && i < MAX_STREAMS && !Told(x[i], |s.g.encoderQueues[i]|);
    assert i in h.tx.failed;
  }

  lemma FailureIsHeldBack(s: System, step: Step, until: nat)
    requires Shape(s) && OnTarget(s) && FailsUntil(s, step, until)
    ensures HeldBack(Next(s, step), until)
  {
    var q := Next(s, step).g;
    match step
    case DrainOne(x, now) =>
      AnswerCounts(s, x, now);
      if s.g.results[0].ok {
        MissedIsFailed(s, s.g.eligible, x, s.g.tx.targetFps, s.g.tx.requestId, Later(s, now), q);
      }
    case DecideNow(x) =>
      if Retrying(s) {
        RetryAsks(s, x);
        MissedIsFailed(s, s.g.tx.failed * s.g.eligible, x.encoders, s.g.tx.targetFps, s.g.tx.requestId, Later(s, x.now), q);
      } else {
        StartAsks(s, x);
        if s.g.policyTarget == s.g.currentFps {
          MissedIsFailed(s, s.g.eligible, x.encoders, s.g.policyTarget, q.tx.requestId, Later(s, x.now), q);
        }
      }
  }

  /** After a refusal or a failure, of the sensor, of its queue or of an encoder, no command is queued
      and no request id is issued by any pass that starts within the waiting time, unless the policy
      changes its target. */
  lemma FailureHoldsBack(s: System, step: Step, until: nat, steps: seq<Step>)
    requires Shape(s) && OnTarget(s) && FailsUntil(s, step, until) && Early(Next(s, step), steps, until)
    ensures NothingAdded(Next(s, step), Run(Next(s, step), steps))
  {
    FailureIsHeldBack(s, step, until);
    HeldBackRun(Next(s, step), steps, until);
  }
}
