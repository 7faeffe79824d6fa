/** What a committed transaction leaves in the stream configurations, and that there is nothing to do
    afterwards until the policy changes its mind. */
module VideoSettling {
  import opened Options
  import opened VideoControl
  import opened VideoTargets
  import opened VideoWorkers
  import opened VideoProtocol
  import opened VideoAgreement
  import opened VideoDecisions

  // ----- one command -----------------------------------------------------------------------

  /** What a command leaves, according to how far it got.  A parameter command that gets as far as the
      configuration leaves exactly its parameters there; a rate command leaves the rest of the
      configuration alone; one that is stopped before leaves all of it alone. */
  lemma CommandLeaves(s: System, i: nat, o: Outcome)
    requires Shape(s) && Enabled(s, ExecuteEncoder(i, o))
    ensures var c, e, n := s.g.encoderQueues[i][0], s.encoders[i], Next(s, ExecuteEncoder(i, o)).encoders[i];
            && (o.Applied? || o.IdrFailed? ==>
                  && n.hwFps == n.gateFps == n.config.fps
                  && match c.payload
                     case SetParams(params) => n.config == params
                     case SetFps(fps) => n.config == EncodeParams(fps, e.config.bitrate, e.config.gop, e.config.rateControl))
            && (o.GateFailed? || o.ControlFailed? ==> n.config == e.config && n.gateFps == e.gateFps)
    ensures var c, n := s.g.encoderQueues[i][0], Next(s, ExecuteEncoder(i, o));
            && n.encoderOut[i].Some? && n.g.encoderQueues[i] == s.g.encoderQueues[i][1..]
            && n.encoderOut[i].value.requestId == c.requestId && n.encoderOut[i].value.endpoint == Encoder(i)
            && (n.encoderOut[i].value.ok <==> o.Applied?)
            && n.encoderOut[i].value.kind == match c.payload { case SetFps(_) => FpsResult case SetParams(_) => ParamsResult }
  {
  }

  /** Bitrate, key frame interval and rate control of a stream change only to what a parameter command
      carried. */
  lemma OnlyParametersChangeTheRest(s: System, step: Step, i: nat)
    requires Shape(s) && i < MAX_STREAMS
    requires var a, b := s.encoders[i].config, Next(s, step).encoders[i].config;
             a.bitrate != b.bitrate || a.gop != b.gop || a.rateControl != b.rateControl
    ensures step.ExecuteEncoder? && step.stream == i && s.g.encoderQueues[i] != []
    ensures s.g.encoderQueues[i][0].payload == SetParams(Next(s, step).encoders[i].config)
  {
    if step.ExecuteEncoder? && Enabled(s, step) {
      CommandLeaves(s, step.stream, step.outcome);
    }
  }

  // ----- a whole transaction ---------------------------------------------------------------

  /** In every run without the three faults: when a transaction is about to commit, every eligible stream
      has exactly what it was last sent in its configuration. */
  lemma {:induction false} CommittedConfigurations(s: System, steps: seq<Step>, i: nat)
    requires Init(s) && ParamsCarry(s.g.policyTarget, s.g.useParams, s.g.params) && PermittedRun(NO_FAULTS, s, steps)
    requires Committing(Run(s, steps)) && i in Run(s, steps).g.eligible
    ensures var r := Run(s, steps);
            match r.asked[i]
            case SetParams(params) => r.encoders[i].config == params && params.fps == r.g.policyTarget
            case SetFps(fps) => r.encoders[i].config.fps == fps == r.g.policyTarget
  {
    CommitAgreement(s, steps);
  }

  /** No refresh changes the policy's mind. */
  predicate Steady(g: Gateway, steps: seq<Step>) {
    forall k :: 0 <= k < |steps| && steps[k].Refresh? ==>
      steps[k].target == g.policyTarget && steps[k].useParams == g.useParams && steps[k].params == g.params
  }

  /** Encoders that are waited for, or that have succeeded, were last sent what the policy wants. */
  ghost predicate AskedAsWanted(s: System)
    requires Shape(s)
  {
    s.g.tx.phase == EncodersPending ==>
      forall i :: i in s.g.tx.pending + s.g.tx.success && i < MAX_STREAMS ==> s.asked[i] == Asking(s.g, i, s.g.tx.targetFps)
  }

  lemma RoundAsksAsWanted(s: System, asked: set<nat>, x: seq<Submission>, target: int, rid: nat, now: nat, r: System)
    requires Shape(s) && Shape(r) && Round(s.g, asked, x, target, rid, now, r.g)
    requires r.asked == AskedAfter(s.asked, s.g.encoderQueues, r.g.encoderQueues)
    requires r.g.useParams == s.g.useParams && r.g.params == s.g.params
    requires forall i :: i in r.g.tx.success && i < MAX_STREAMS ==> i !in asked && s.asked[i] == Asking(s.g, i, target)
    ensures AskedAsWanted(r)
  {
  }

  lemma AskedStep(s: System, step: Step)
    requires Inv(s) && AskedAsWanted(s) && Steady(s.g, [step])
    ensures AskedAsWanted(Next(s, step))
  {
    var r := Next(s, step);
    if Enabled(s, step) {
      match step
      case DrainOne(x, now) =>
        if s.position.handled < MAX_RESULTS_PER_LOOP && s.g.results != [] {
          AskedDrain(s, x, now);
        }
      case DecideNow(x) =>
        AskedDecide(s, x);
      case Refresh(_, _, _) =>
        assert [step][0] == step;
      case _ =>
    }
  }

  lemma AskedDrain(s: System, x: seq<Submission>, now: nat)
    requires Inv(s) && AskedAsWanted(s) && Enabled(s, DrainOne(x, now))
    requires s.position.handled < MAX_RESULTS_PER_LOOP && s.g.results != []
    ensures AskedAsWanted(Next(s, DrainOne(x, now)))
  {
    var r := Next(s, DrainOne(x, now));
    if !Awaited(s.g) {
      StaleIsIgnored(s, x, now);
      assert r.asked == s.asked;
    } else {
      AnswerCounts(s, x, now);
      if s.g.results[0].endpoint == Capture {
        if s.g.results[0].ok {
          RoundAsksAsWanted(s, s.g.eligible, x, s.g.tx.targetFps, s.g.tx.requestId, Later(s, now), r);
        }
      } else {
        assert r.asked == s.asked;
      }
    }
  }

  lemma AskedDecide(s: System, x: Inputs)
    requires Inv(s) && AskedAsWanted(s) && Enabled(s, DecideNow(x))
    ensures AskedAsWanted(Next(s, DecideNow(x)))
  {
    var r := Next(s, DecideNow(x));
    if Issues(s, DecideNow(x)) {
      StartAsks(s, x);
      if s.g.policyTarget == s.g.currentFps {
        RoundAsksAsWanted(s, s.g.eligible, x.encoders, s.g.policyTarget, r.g.tx.requestId, Later(s, x.now), r);
      }
    } else if Retrying(s) {
      RetryAsks(s, x);
      RoundAsksAsWanted(s, s.g.tx.failed * s.g.eligible, x.encoders, s.g.tx.targetFps, s.g.tx.requestId, Later(s, x.now), r);
    } else if r.g.tx.phase == EncodersPending {
      assert r.asked == s.asked;
    }
  }

  lemma SteadyStep(s: System, steps: seq<Step>)
    requires Shape(s) && steps != [] && Steady(s.g, steps)
    ensures Steady(s.g, [steps[0]]) && Steady(Next(s, steps[0]).g, steps[1..])
    ensures var g, h := s.g, Next(s, steps[0]).g;
            h.policyTarget == g.policyTarget && h.useParams == g.useParams && h.params == g.params
  {
    assert [steps[0]][0] == steps[0];
    assert forall k :: 0 <= k < |steps[1..]| ==> steps[1..][k] == steps[k + 1];
  }

  lemma {:induction false} AskedRun(s: System, steps: seq<Step>)
    requires Inv(s) && AskedAsWanted(s) && Steady(s.g, steps) && PermittedRun(NO_FAULTS, s, steps)
    ensures Inv(Run(s, steps)) && AskedAsWanted(Run(s, steps))
    ensures Run(s, steps).g.useParams == s.g.useParams && Run(s, steps).g.params == s.g.params
    decreases |steps|
  {
    if steps == [] {
    } else {
      SteadyStep(s, steps);
      InvStep(s, steps[0]);
      AskedStep(s, steps[0]);
      AskedRun(Next(s, steps[0]), steps[1..]);
    }
  }

  /** A transaction that commits while the policy has kept its mind since before it asked the encoders has
      carried the policy out: every eligible stream for which it has usable parameters is configured
      with exactly those, so it is not found to differ again. */
  lemma {:induction false} PolicyIsCarriedOut(s: System, steps: seq<Step>, more: seq<Step>, i: nat)
    requires Init(s) && ParamsCarry(s.g.policyTarget, s.g.useParams, s.g.params) && PermittedRun(NO_FAULTS, s, steps)
    requires var r := Run(s, steps);
             r.g.tx.phase != EncodersPending && Steady(r.g, more) && PermittedRun(NO_FAULTS, r, more)
    requires var r := Run(s, steps);
             Committing(Run(r, more)) && i in Run(r, more).g.eligible && i in r.g.useParams && i < MAX_STREAMS
             && r.g.params[i].fps > 0 && r.g.params[i].bitrate > 0 && r.g.params[i].gop > 0
    ensures var r := Run(s, steps);
            Run(r, more).encoders[i].config == r.g.params[i] && !Differs(Run(r, more), i)
  {
    var r := Run(s, steps);
    InitInv(s);
    InvRun(s, steps);
    AskedRun(r, more);
    var q := Run(r, more);
    assert EndpointOk(q, Encoder(i));
    assert q.asked[i] == Asking(q.g, i, q.g.tx.targetFps);
  }

  // ----- afterwards ------------------------------------------------------------------------

  /** Nothing is left to be done for stream `i`, nor is anything on its way there. */
  ghost predicate Settled(s: System, i: nat)
    requires Shape(s) && i < MAX_STREAMS
  {
    !Differs(s, i) && s.g.encoderQueues[i] == []
  }

  /** Idle, at the rate the policy wants, with every stream it has parameters for settled. */
  ghost predicate AtRest(s: System) {
    && Shape(s) && s.g.tx.phase == Idle && s.g.policyTarget == s.g.currentFps
    && forall i :: i in s.g.useParams && i < MAX_STREAMS ==> Settled(s, i)
  }

  lemma RestStep(s: System, step: Step)
    requires AtRest(s) && Steady(s.g, [step])
    ensures AtRest(Next(s, step)) && NothingAdded(s, Next(s, step))
  {
    assert [step][0] == step;
    var r := Next(s, step);
    forall i | i in r.g.useParams && i < MAX_STREAMS ensures Settled(r, i) {
      assert Settled(s, i);
    }
  }

  lemma {:induction false} RestRun(s: System, steps: seq<Step>)
    requires AtRest(s) && Steady(s.g, steps)
    ensures NothingAdded(s, Run(s, steps))
    decreases |steps|
  {
    if steps == [] {
    } else {
      SteadyStep(s, steps);
      RestStep(s, steps[0]);
      RestRun(Next(s, steps[0]), steps[1..]);
    }
  }

  /** So the same transaction is not started over: after the commit no command is queued and no request
      id is issued for as long as the policy keeps its mind, if the streams it has parameters for are
      eligible and the parameters usable. */
  lemma {:induction false} CommittedForGood(s: System, steps: seq<Step>, more: seq<Step>, x: Inputs, later: seq<Step>)
    requires Init(s) && ParamsCarry(s.g.policyTarget, s.g.useParams, s.g.params) && PermittedRun(NO_FAULTS, s, steps)
    requires var r := Run(s, steps);
             r.g.tx.phase != EncodersPending && Steady(r.g, more) && PermittedRun(NO_FAULTS, r, more)
    requires var r := Run(s, steps);
             var q := Run(r, more);
             Committing(q) && Enabled(q, DecideNow(x)) && Steady(q.g, later)
             && forall i :: i in q.g.useParams && i < MAX_STREAMS ==>
                  i in q.g.eligible && q.g.params[i].fps > 0 && q.g.params[i].bitrate > 0 && q.g.params[i].gop > 0
    ensures var done := Next(Run(Run(s, steps), more), DecideNow(x));
            NothingAdded(done, Run(done, later))
  {
    var r := Run(s, steps);
    var q := Run(r, more);
    InitInv(s);
    InvRun(s, steps);
    AskedRun(r, more);
    forall i | i in q.g.useParams && i < MAX_STREAMS ensures Settled(q, i) {
      PolicyIsCarriedOut(s, steps, more, i);
      assert EndpointOk(q, Encoder(i));
    }
    var done := Next(q, DecideNow(x));
    Publishes(q, x);
    forall i | i in done.g.useParams && i < MAX_STREAMS ensures Settled(done, i) {
      assert Settled(q, i);
    }
    RestRun(done, later);
  }
}
