/** The scene-driven rate policy: a candidate has to last for its confirmation time, and the target
    may move only when the last committed switch is old enough. */
module LightFpsPolicy {

  datatype Config = Config(
    lowLightFps: int, normalFps: int, brightFps: int,
    evaluateIntervalUs: nat, minSwitchIntervalUs: nat,
    lowLightConfirmUs: nat, normalConfirmUs: nat, brightConfirmUs: nat)

  /** What one query of the exposure status shows. */
  datatype Scene = Scene(available: bool, lowLight: bool, bright: bool)

  datatype LightState = LightState(targetFps: int, pendingFps: int, pendingSince: nat, lastEvaluate: nat)

  /** Low light wins over bright; without exposure data the scene counts as normal. */
  function Candidate(cfg: Config, scene: Scene): int {
    if !scene.available then cfg.normalFps
    else if scene.lowLight then cfg.lowLightFps
    else if scene.bright then cfg.brightFps
    else cfg.normalFps
  }

  function ConfirmUs(cfg: Config, fps: int): nat {
    if fps == cfg.brightFps then cfg.brightConfirmUs
    else if fps == cfg.lowLightFps then cfg.lowLightConfirmUs
    else cfg.normalConfirmUs
  }

  predicate Due(cfg: Config, s: LightState, now: nat) {
    s.lastEvaluate == 0 || now - s.lastEvaluate >= cfg.evaluateIntervalUs
  }

  predicate Confirmed(cfg: Config, s: LightState, now: nat, fps: int) {
    ConfirmUs(cfg, fps) > 0 && (now < s.pendingSince || now - s.pendingSince >= ConfirmUs(cfg, fps))
  }

  predicate SwitchAllowed(cfg: Config, now: nat, lastSwitch: nat) {
    lastSwitch == 0 || now < lastSwitch || now - lastSwitch >= cfg.minSwitchIntervalUs
  }

  function Update(cfg: Config, s: LightState, now: nat, scene: Scene, lastSwitch: nat): LightState {
    if !Due(cfg, s, now) then s
    else
      var fps := Candidate(cfg, scene);
      var e := s.(lastEvaluate := now);
      if fps != s.pendingFps then e.(pendingFps := fps, pendingSince := now)
      else if fps != s.targetFps && Confirmed(cfg, s, now, fps) && SwitchAllowed(cfg, now, lastSwitch)
      then e.(targetFps := fps)
      else e
  }

  class LightPolicy {
    const cfg: Config
    var targetFps: int
    var pendingFps: int
    var pendingSince: nat
    var lastEvaluate: nat

    constructor (cfg: Config, fps: int)
      ensures this.cfg == cfg && State() == LightState(fps, 0, 0, 0)
    {
      this.cfg, targetFps := cfg, fps;
      pendingFps, pendingSince, lastEvaluate := 0, 0, 0;
    }

    ghost function State(): LightState
      reads this
    {
      LightState(targetFps, pendingFps, pendingSince, lastEvaluate)
    }

    /** Returns false where the confirmation time that is needed is missing from the configuration. */
    method Evaluate(now: nat, scene: Scene, lastSwitch: nat) returns (ok: bool)
      modifies this
      ensures State() == Update(cfg, old(State()), now, scene, lastSwitch)
      ensures !ok <==> Due(cfg, old(State()), now) && Asks(cfg, scene, old(pendingFps)) && old(pendingFps != targetFps)
                       && ConfirmUs(cfg, old(pendingFps)) == 0
    {
      if lastEvaluate > 0 && now - lastEvaluate < cfg.evaluateIntervalUs {
        return true;
      }
      lastEvaluate := now;
      var fps := cfg.normalFps;
      if scene.available {
        if scene.lowLight {
          fps := cfg.lowLightFps;
        } else if scene.bright {
          fps := cfg.brightFps;
        }
      }
      if fps != pendingFps {
        pendingFps := fps;
        pendingSince := now;
        return true;
      }
      if fps != targetFps {
        var confirm := ConfirmUs(cfg, fps);
        if confirm == 0 {
          return false;
        }
        if now >= pendingSince && now - pendingSince < confirm {
          return true;
        }
        if lastSwitch > 0 && now >= lastSwitch && now - lastSwitch < cfg.minSwitchIntervalUs {
          return true;
        }
        targetFps := fps;
      }
      ok := true;
    }
  }

  // ----- what the scenes ask for -----------------------------------------------------------

  /** One refresh: its time and what the exposure status shows. */
  datatype Observation = Observation(at: nat, scene: Scene)

  /** The rate a scene asks for: in the dark the low rate, in bright light the high one, else, or when
      nothing is known, the normal one. */
  predicate Asks(cfg: Config, scene: Scene, f: int) {
    || (scene.available && scene.lowLight && f == cfg.lowLightFps)
    || (scene.available && !scene.lowLight && scene.bright && f == cfg.brightFps)
    || ((!scene.available || (!scene.lowLight && !scene.bright)) && f == cfg.normalFps)
  }

  /** So long is enough for `f`; a rate without a confirmation time is never confirmed. */
  predicate LongEnough(cfg: Config, f: int, us: int) {
    if f == cfg.brightFps then 0 < cfg.brightConfirmUs <= us
    else if f == cfg.lowLightFps then 0 < cfg.lowLightConfirmUs <= us
    else 0 < cfg.normalConfirmUs <= us
  }

  /** The refreshes that are evaluated: those at least one period after the one evaluated before. */
  function Sampled(cfg: Config, obs: seq<Observation>): (h: seq<Observation>)
    ensures h == [] <==> obs == []
  {
    if obs == [] then []
    else
      var h, o := Sampled(cfg, obs[..|obs| - 1]), obs[|obs| - 1];
      if h == [] || o.at - h[|h| - 1].at >= cfg.evaluateIntervalUs then h + [o] else h
  }

  /** Where the unbroken stretch of scenes that ask for `f`, up to the last one, begins. */
  function StretchStart(cfg: Config, h: seq<Observation>, f: int): (k: nat)
    ensures k <= |h|
    ensures forall i :: k <= i < |h| ==> Asks(cfg, h[i].scene, f)
    ensures k > 0 ==> !Asks(cfg, h[k - 1].scene, f)
  {
    if h == [] || !Asks(cfg, h[|h| - 1].scene, f) then |h| else StretchStart(cfg, h[..|h| - 1], f)
  }

  predicate InTime(h: seq<Observation>) {
    |h| > 1 ==> h[|h| - 2].at <= h[|h| - 1].at && InTime(h[..|h| - 1])
  }

  lemma {:induction false} EarlierInTime(h: seq<Observation>, i: nat, j: nat)
    requires InTime(h) && i <= j < |h|
    ensures h[i].at <= h[j].at
  {
    if j < |h| - 1 {
      EarlierInTime(h[..|h| - 1], i, j);
    } else if i < j {
      EarlierInTime(h[..|h| - 1], i, j - 1);
    }
  }

  /** The policy's fields remember the last evaluation and where the stretch began that it belongs to. */
  predicate Remembers(cfg: Config, s: LightState, obs: seq<Observation>) {
    var h := Sampled(cfg, obs);
    if h == [] then s.pendingFps == 0 && s.lastEvaluate == 0
    else
      && 0 < s.lastEvaluate == h[|h| - 1].at
      && Asks(cfg, h[|h| - 1].scene, s.pendingFps)
      && StretchStart(cfg, h, s.pendingFps) < |h|
      && s.pendingSince == h[StretchStart(cfg, h, s.pendingFps)].at
  }

  predicate PositiveRates(cfg: Config) {
    cfg.lowLightFps > 0 && cfg.normalFps > 0 && cfg.brightFps > 0
  }

  lemma StretchGrows(cfg: Config, h: seq<Observation>, o: Observation, f: int)
    requires Asks(cfg, o.scene, f)
    ensures StretchStart(cfg, h + [o], f) == StretchStart(cfg, h, f)
    ensures h == [] || !Asks(cfg, h[|h| - 1].scene, f) ==> StretchStart(cfg, h, f) == |h|
  {
    assert (h + [o])[..|h|] == h;
  }

  /** Between the evaluations `before` and `h` the target moves to `f`: there is a new one, `f` is another
      rate, the scenes have asked for `f` without a break, up to the new one, for the confirmation time of
      `f`, and the last switch is old enough. */
  predicate Moves(cfg: Config, target: int, before: seq<Observation>, h: seq<Observation>, lastSwitch: nat, f: int) {
    && |h| > |before| && f != target
    && var from, now := StretchStart(cfg, h, f), h[|h| - 1].at;
       from < |h| && LongEnough(cfg, f, now - h[from].at) && (lastSwitch == 0 || now - lastSwitch >= cfg.minSwitchIntervalUs)
  }

  /** From `from` to the last one all scenes asked for `f`, and that is long enough. */
  predicate AskedSince(cfg: Config, h: seq<Observation>, f: int, from: nat) {
    && from < |h| && LongEnough(cfg, f, h[|h| - 1].at - h[from].at)
    && forall k :: from <= k < |h| ==> Asks(cfg, h[k].scene, f)
  }

  lemma MovesWhenAsked(cfg: Config, target: int, before: seq<Observation>, h: seq<Observation>, lastSwitch: nat, f: int)
    requires Moves(cfg, target, before, h, lastSwitch, f)
    ensures exists from :: AskedSince(cfg, h, f, from)
  {
    assert AskedSince(cfg, h, f, StretchStart(cfg, h, f));
  }

  /** Every scene asks for one rate. */
  lemma AsksForOne(cfg: Config, scene: Scene, f: int)
    ensures Asks(cfg, scene, f) <==> f == Candidate(cfg, scene)
  {
  }

  /** The refreshes that are due are those that are sampled. */
  lemma DueIsSampled(cfg: Config, s: LightState, obs: seq<Observation>, o: Observation)
    requires Remembers(cfg, s, obs) && o.at >= s.lastEvaluate
    ensures Sampled(cfg, obs + [o]) == if Due(cfg, s, o.at) then Sampled(cfg, obs) + [o] else Sampled(cfg, obs)
  {
    assert (obs + [o])[..|obs|] == obs;
  }

  lemma UpdateRemembers(cfg: Config, s: LightState, obs: seq<Observation>, o: Observation, lastSwitch: nat)
    requires PositiveRates(cfg) && Remembers(cfg, s, obs) && o.at > 0 && o.at >= s.lastEvaluate
    ensures Remembers(cfg, Update(cfg, s, o.at, o.scene, lastSwitch), obs + [o])
  {
    DueIsSampled(cfg, s, obs, o);
    if Due(cfg, s, o.at) {
      var h, f := Sampled(cfg, obs), Candidate(cfg, o.scene);
      AsksForOne(cfg, o.scene, f);
      StretchGrows(cfg, h, o, f);
      if h != [] {
        AsksForOne(cfg, h[|h| - 1].scene, s.pendingFps);
        AsksForOne(cfg, h[|h| - 1].scene, f);
      }
    }
  }

  /** What an evaluation that is due compares with: the pending rate's stretch. */
  lemma DueMoves(cfg: Config, s: LightState, h: seq<Observation>, o: Observation, f: int)
    requires h != [] && Asks(cfg, h[|h| - 1].scene, s.pendingFps) && StretchStart(cfg, h, s.pendingFps) < |h|
    requires s.pendingSince == h[StretchStart(cfg, h, s.pendingFps)].at && o.at >= s.pendingSince
    requires Asks(cfg, o.scene, f)
    ensures StretchStart(cfg, h + [o], f) <= |h|
    ensures LongEnough(cfg, f, o.at - (h + [o])[StretchStart(cfg, h + [o], f)].at)
       <==> f == s.pendingFps && Confirmed(cfg, s, o.at, f)
  {
    StretchGrows(cfg, h, o, f);
    AsksForOne(cfg, h[|h| - 1].scene, f);
    AsksForOne(cfg, h[|h| - 1].scene, s.pendingFps);
  }

  /** What the code compares when an evaluation is due and the scene asks for another rate than the target. */
  lemma DueUpdate(cfg: Config, s: LightState, o: Observation, lastSwitch: nat, f: int)
    requires Due(cfg, s, o.at) && Asks(cfg, o.scene, f) && f != s.targetFps
    ensures Update(cfg, s, o.at, o.scene, lastSwitch).targetFps == f
       <==> f == s.pendingFps && Confirmed(cfg, s, o.at, f) && SwitchAllowed(cfg, o.at, lastSwitch)
  {
    AsksForOne(cfg, o.scene, f);
  }

  lemma FirstStretch(cfg: Config, o: Observation, f: int)
    requires Asks(cfg, o.scene, f)
    ensures StretchStart(cfg, [o], f) == 0 && !LongEnough(cfg, f, o.at - [o][StretchStart(cfg, [o], f)].at)
  {
    assert [o][..0] == [];
  }

  lemma UnaskedStays(cfg: Config, s: LightState, now: nat, scene: Scene, lastSwitch: nat, f: int)
    requires f != s.targetFps && (!Due(cfg, s, now) || !Asks(cfg, scene, f))
    ensures Update(cfg, s, now, scene, lastSwitch).targetFps != f
  {
    AsksForOne(cfg, scene, f);
  }

  lemma DueUpdateMoves(cfg: Config, s: LightState, h: seq<Observation>, o: Observation, lastSwitch: nat, f: int)
    requires Due(cfg, s, o.at) && Asks(cfg, o.scene, f) && f != s.targetFps
    requires o.at >= s.pendingSince && o.at >= lastSwitch
    requires if h == [] then s.pendingFps == 0 < f
             else Asks(cfg, h[|h| - 1].scene, s.pendingFps) && StretchStart(cfg, h, s.pendingFps) < |h|
                  && s.pendingSince == h[StretchStart(cfg, h, s.pendingFps)].at
    ensures StretchStart(cfg, h + [o], f) <= |h|
    ensures Update(cfg, s, o.at, o.scene, lastSwitch).targetFps == f
       <==> LongEnough(cfg, f, o.at - (h + [o])[StretchStart(cfg, h + [o], f)].at)
            && (lastSwitch == 0 || o.at - lastSwitch >= cfg.minSwitchIntervalUs)
  {
    DueUpdate(cfg, s, o, lastSwitch, f);
    if h == [] {
      assert h + [o] == [o];
      FirstStretch(cfg, o, f);
    } else {
      DueMoves(cfg, s, h, o, f);
    }
  }

  /** The code moves the target exactly then. */
  lemma UpdateMoves(cfg: Config, s: LightState, obs: seq<Observation>, o: Observation, lastSwitch: nat, f: int)
    requires PositiveRates(cfg) && Remembers(cfg, s, obs)
    requires o.at > 0 && o.at >= s.pendingSince && o.at >= lastSwitch && o.at >= s.lastEvaluate
    requires f != s.targetFps
    ensures Update(cfg, s, o.at, o.scene, lastSwitch).targetFps == f
       <==> Moves(cfg, s.targetFps, Sampled(cfg, obs), Sampled(cfg, obs + [o]), lastSwitch, f)
  {
    DueIsSampled(cfg, s, obs, o);
    var h := Sampled(cfg, obs);
    if !Due(cfg, s, o.at) {
      UnaskedStays(cfg, s, o.at, o.scene, lastSwitch, f);
    } else if Asks(cfg, o.scene, f) {
      DueUpdateMoves(cfg, s, h, o, lastSwitch, f);
    } else {
      UnaskedStays(cfg, s, o.at, o.scene, lastSwitch, f);
      assert (h + [o])[|h|] == o;
    }
  }

  /** A stretch that asks for `f` up to the last scene is part of the longest one. */
  lemma StretchCovers(cfg: Config, h: seq<Observation>, f: int, from: nat)
    requires from < |h| && InTime(h) && forall i :: from <= i < |h| ==> Asks(cfg, h[i].scene, f)
    ensures StretchStart(cfg, h, f) <= from && h[StretchStart(cfg, h, f)].at <= h[from].at
  {
    EarlierInTime(h, StretchStart(cfg, h, f), from);
  }

  lemma InTimeAppend(h: seq<Observation>, o: Observation)
    requires InTime(h) && (h != [] ==> o.at >= h[|h| - 1].at)
    ensures InTime(h + [o])
  {
    assert (h + [o])[..|h|] == h;
  }

  /** The policy's memory at time `now`. */
  predicate LightInv(cfg: Config, s: LightState, obs: seq<Observation>, now: nat) {
    && s.targetFps > 0
    && Remembers(cfg, s, obs) && InTime(Sampled(cfg, obs))
    && s.pendingSince <= now && s.lastEvaluate <= now
  }

  lemma LaterInv(cfg: Config, s: LightState, obs: seq<Observation>, now: nat, end: nat)
    requires LightInv(cfg, s, obs, now) && now <= end
    ensures LightInv(cfg, s, obs, end)
  {
  }

  lemma UpdateKeeps(cfg: Config, s: LightState, obs: seq<Observation>, o: Observation, lastSwitch: nat)
    requires PositiveRates(cfg) && LightInv(cfg, s, obs, o.at) && o.at > 0
    ensures LightInv(cfg, Update(cfg, s, o.at, o.scene, lastSwitch), obs + [o], o.at)
  {
    DueIsSampled(cfg, s, obs, o);
    UpdateRemembers(cfg, s, obs, o, lastSwitch);
    InTimeAppend(Sampled(cfg, obs), o);
  }

  /** The target moves only when the last switch is old enough. */
  lemma UpdateIsSpaced(cfg: Config, s: LightState, now: nat, scene: Scene, lastSwitch: nat)
    requires now >= lastSwitch && Update(cfg, s, now, scene, lastSwitch).targetFps != s.targetFps
    ensures lastSwitch == 0 || now - lastSwitch >= cfg.minSwitchIntervalUs
  {
  }

  /** Once the scenes have asked for `f` for long enough, `f` is the target. */
  lemma SteadyMoves(cfg: Config, s: LightState, obs: seq<Observation>, o: Observation, lastSwitch: nat, f: int, from: nat)
    requires PositiveRates(cfg) && LightInv(cfg, s, obs, o.at) && o.at > 0 && o.at >= lastSwitch
    requires var h := Sampled(cfg, obs + [o]);
             |h| > |Sampled(cfg, obs)| && AskedSince(cfg, h, f, from)
    requires lastSwitch == 0 || o.at - lastSwitch >= cfg.minSwitchIntervalUs
    ensures Update(cfg, s, o.at, o.scene, lastSwitch).targetFps == f
  {
    var h := Sampled(cfg, obs + [o]);
    DueIsSampled(cfg, s, obs, o);
    assert h[|h| - 1] == o;
    InTimeAppend(Sampled(cfg, obs), o);
    StretchCovers(cfg, h, f, from);
    if f != s.targetFps {
      UpdateMoves(cfg, s, obs, o, lastSwitch, f);
    } else {
      AsksForOne(cfg, o.scene, f);
    }
  }
}
