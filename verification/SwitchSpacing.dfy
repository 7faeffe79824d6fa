/** The scene policy and the control transaction together: how far apart committed switches are. */
module SwitchSpacing {
  import opened VideoControl
  import opened VideoProtocol
  import L = LightFpsPolicy

  /** `switches` are the times of the commits that changed the committed rate, `history` the refreshes with
      the scenes they found. */
  datatype Combined = Combined(sys: System, light: L.LightState, history: seq<L.Observation>, switches: seq<nat>)

  /** With the network policy off and scene rates below the global cap, the fused target is the
      scene target. */
  datatype Action =
    | RefreshScene(now: nat, scene: L.Scene, useParams: set<nat>, params: seq<EncodeParams>)
    | Protocol(step: Step)

  ghost predicate Possible(c: Combined, a: Action)
    requires Shape(c.sys)
  {
    match a
    case RefreshScene(_, _, _, params) => c.sys.position == Top && |params| == MAX_STREAMS
    case Protocol(step) => !step.Refresh? && Enabled(c.sys, step)
  }

  function NoteSwitch(switches: seq<nat>, before: System, after: System): seq<nat> {
    if before.g.currentFps != after.g.currentFps then switches + [after.clock] else switches
  }

  ghost function Act(cfg: L.Config, c: Combined, a: Action): (r: Combined)
    requires Shape(c.sys)
    ensures Shape(r.sys)
  {
    if !Possible(c, a) then c
    else match a
      case RefreshScene(now, scene, useParams, params) =>
        var t := Later(c.sys, now);
        var light := L.Update(cfg, c.light, t, scene, c.sys.g.lastSwitch);
        Combined(Next(c.sys.(clock := t), Refresh(light.targetFps, useParams, params)), light,
                 c.history + [L.Observation(t, scene)], c.switches)
      case Protocol(step) =>
        var sys := Next(c.sys, step);
        c.(sys := sys, switches := NoteSwitch(c.switches, c.sys, sys))
  }

  ghost function ActAll(cfg: L.Config, c: Combined, actions: seq<Action>): (r: Combined)
    requires Shape(c.sys)
    ensures Shape(r.sys)
    decreases |actions|
  {
    if actions == [] then c else ActAll(cfg, Act(cfg, c, actions[0]), actions[1..])
  }

  predicate Spaced(switches: seq<nat>, gap: nat) {
    forall i :: 0 < i < |switches| ==> switches[i] - switches[i - 1] >= gap
  }

  ghost predicate InitCombined(cfg: L.Config, c: Combined) {
    && Init(c.sys) && c.sys.clock > 0 && c.sys.g.lastSwitch == 0
    && c.light == L.LightState(c.sys.g.policyTarget, 0, 0, 0)
    && c.history == [] && c.switches == []
    && L.PositiveRates(cfg)
  }

  /** While a pass is under way a running transaction aims at the policy's target. */
  predicate Aimed(s: System) {
    s.g.tx.phase != Idle && s.position != Top ==> s.g.tx.targetFps == s.g.policyTarget
  }

  /** The switches so far are spaced, and there is room for another one if the target has moved. */
  predicate SwitchesOk(switches: seq<nat>, gap: nat, lastSwitch: nat, clock: nat, moved: bool) {
    && Spaced(switches, gap)
    && (if switches == [] then lastSwitch == 0 else 0 < switches[|switches| - 1] == lastSwitch <= clock)
    && (switches != [] && moved ==> clock - lastSwitch >= gap)
  }

  ghost predicate SpacingInv(cfg: L.Config, c: Combined) {
    && Shape(c.sys) && Aimed(c.sys)
    && c.sys.clock > 0
    && c.sys.g.policyTarget == c.light.targetFps
    && L.PositiveRates(cfg)
    && L.LightInv(cfg, c.light, c.history, c.sys.clock)
    && SwitchesOk(c.switches, cfg.minSwitchIntervalUs, c.sys.g.lastSwitch, c.sys.clock, c.sys.g.policyTarget != c.sys.g.currentFps)
  }

  /** Only a decision changes the committed rate, it changes it to the policy's target and stamps the
      current time. */
  lemma OnlyCommitsSwitch(s: System, step: Step)
    requires Shape(s) && Aimed(s) && !step.Refresh?
    ensures var r := Next(s, step);
            && Aimed(r) && r.g.policyTarget == s.g.policyTarget && r.clock >= s.clock
            && (r.g.currentFps == s.g.currentFps ==> r.g.lastSwitch == s.g.lastSwitch)
            && (r.g.currentFps != s.g.currentFps ==>
                  r.g.currentFps == s.g.policyTarget && r.g.lastSwitch == r.clock && s.position == Deciding)
  {
  }

  lemma RefreshKeepsLight(cfg: L.Config, c: Combined, now: nat, scene: L.Scene)
    requires L.PositiveRates(cfg) && L.LightInv(cfg, c.light, c.history, c.sys.clock) && c.sys.clock > 0
    ensures var t := Later(c.sys, now);
            L.LightInv(cfg, L.Update(cfg, c.light, t, scene, c.sys.g.lastSwitch), c.history + [L.Observation(t, scene)], t)
  {
    var t := Later(c.sys, now);
    L.LaterInv(cfg, c.light, c.history, c.sys.clock, t);
    L.UpdateKeeps(cfg, c.light, c.history, L.Observation(t, scene), c.sys.g.lastSwitch);
  }

  lemma RefreshKeepsSwitches(cfg: L.Config, switches: seq<nat>, s: L.LightState, lastSwitch: nat, current: int,
                             clock: nat, t: nat, scene: L.Scene)
    requires SwitchesOk(switches, cfg.minSwitchIntervalUs, lastSwitch, clock, s.targetFps != current) && clock <= t
    ensures SwitchesOk(switches, cfg.minSwitchIntervalUs, lastSwitch, t,
                       L.Update(cfg, s, t, scene, lastSwitch).targetFps != current)
  {
    if L.Update(cfg, s, t, scene, lastSwitch).targetFps != s.targetFps {
      L.UpdateIsSpaced(cfg, s, t, scene, lastSwitch);
    }
  }

  lemma RefreshKeepsSpacing(cfg: L.Config, c: Combined, now: nat, scene: L.Scene, useParams: set<nat>, params: seq<EncodeParams>)
    requires SpacingInv(cfg, c) && Possible(c, RefreshScene(now, scene, useParams, params))
    ensures SpacingInv(cfg, Act(cfg, c, RefreshScene(now, scene, useParams, params)))
  {
    RefreshKeepsLight(cfg, c, now, scene);
    RefreshKeepsSwitches(cfg, c.switches, c.light, c.sys.g.lastSwitch, c.sys.g.currentFps, c.sys.clock, Later(c.sys, now), scene);
  }

  lemma SwitchIsSpaced(switches: seq<nat>, gap: nat, lastSwitch: nat, clock: nat, now: nat)
    requires SwitchesOk(switches, gap, lastSwitch, clock, true) && 0 < clock <= now
    ensures SwitchesOk(switches + [now], gap, now, now, false)
  {
  }

  lemma ProtocolKeepsSpacing(cfg: L.Config, c: Combined, step: Step)
    requires SpacingInv(cfg, c) && Possible(c, Protocol(step))
    ensures SpacingInv(cfg, Act(cfg, c, Protocol(step)))
  {
    OnlyCommitsSwitch(c.sys, step);
    var r := Next(c.sys, step);
    L.LaterInv(cfg, c.light, c.history, c.sys.clock, r.clock);
    if r.g.currentFps != c.sys.g.currentFps {
      SwitchIsSpaced(c.switches, cfg.minSwitchIntervalUs, c.sys.g.lastSwitch, c.sys.clock, r.clock);
    }
  }

  lemma SpacingStep(cfg: L.Config, c: Combined, a: Action)
    requires SpacingInv(cfg, c)
    ensures SpacingInv(cfg, Act(cfg, c, a))
  {
    if Possible(c, a) {
      match a
      case RefreshScene(now, scene, useParams, params) => RefreshKeepsSpacing(cfg, c, now, scene, useParams, params);
      case Protocol(step) => ProtocolKeepsSpacing(cfg, c, step);
    }
  }

  /** Any two consecutive commits that change the rate are at least the minimum interval apart. */
  lemma {:induction false} SpacingRun(cfg: L.Config, c: Combined, actions: seq<Action>)
    requires SpacingInv(cfg, c)
    ensures SpacingInv(cfg, ActAll(cfg, c, actions))
    decreases |actions|
  {
    if actions == [] {
    } else {
      SpacingStep(cfg, c, actions[0]);
      SpacingRun(cfg, Act(cfg, c, actions[0]), actions[1..]);
    }
  }

  lemma SwitchesAreSpaced(cfg: L.Config, c: Combined, actions: seq<Action>)
    requires InitCombined(cfg, c)
    ensures Spaced(ActAll(cfg, c, actions).switches, cfg.minSwitchIntervalUs)
  {
    SpacingRun(cfg, c, actions);
  }

  /** When the last commit changed the rate; 0 if none has. */
  function LastSwitch(switches: seq<nat>): nat {
    if switches == [] then 0 else switches[|switches| - 1]
  }

  /** In every run a refresh moves the target to `f` exactly when it is evaluated, the scenes have asked
      for `f` without a break for the confirmation time of `f`, and the last switch is old enough. */
  lemma {:induction false} TargetFollowsTheScenes(cfg: L.Config, c: Combined, actions: seq<Action>, a: Action, f: int)
    requires InitCombined(cfg, c) && a.RefreshScene? && Possible(ActAll(cfg, c, actions), a)
    ensures var r := ActAll(cfg, c, actions);
            var q := Act(cfg, r, a);
            f != r.sys.g.policyTarget ==>
              (q.sys.g.policyTarget == f
               <==> L.Moves(cfg, r.sys.g.policyTarget, L.Sampled(cfg, r.history), L.Sampled(cfg, q.history),
                            LastSwitch(r.switches), f))
  {
    SpacingRun(cfg, c, actions);
    var r := ActAll(cfg, c, actions);
    if f != r.sys.g.policyTarget {
      L.UpdateMoves(cfg, r.light, r.history, L.Observation(Later(r.sys, a.now), a.scene), r.sys.g.lastSwitch, f);
    }
  }

  /** Nothing else moves the target. */
  lemma OnlyRefreshesMove(cfg: L.Config, c: Combined, step: Step)
    requires Shape(c.sys)
    ensures Act(cfg, c, Protocol(step)).sys.g.policyTarget == c.sys.g.policyTarget
  {
  }

  /** In particular the target moves to `f` only after a stretch of evaluations, at least as long as the
      confirmation time of `f`, whose scenes all asked for `f`. */
  lemma {:induction false} TargetIsConfirmed(cfg: L.Config, c: Combined, actions: seq<Action>, a: Action)
    requires InitCombined(cfg, c)
    ensures var r := ActAll(cfg, c, actions);
            var q := Act(cfg, r, a);
            q.sys.g.policyTarget != r.sys.g.policyTarget ==>
              exists from :: L.AskedSince(cfg, L.Sampled(cfg, q.history), q.sys.g.policyTarget, from)
  {
    var r := ActAll(cfg, c, actions);
    var q := Act(cfg, r, a);
    if q.sys.g.policyTarget != r.sys.g.policyTarget {
      if a.Protocol? {
        OnlyRefreshesMove(cfg, r, a.step);
      }
      TargetFollowsTheScenes(cfg, c, actions, a, q.sys.g.policyTarget);
      L.MovesWhenAsked(cfg, r.sys.g.policyTarget, L.Sampled(cfg, r.history), L.Sampled(cfg, q.history),
                       LastSwitch(r.switches), q.sys.g.policyTarget);
    }
  }

  /** So the target follows the scene: once every scene evaluated for the confirmation time of `f`, up to
      this one, asks for `f`, and the last switch is old enough, `f` is the target. */
  lemma {:induction false} SteadySceneIsFollowed(cfg: L.Config, c: Combined, actions: seq<Action>, a: Action, f: int, from: nat)
    requires InitCombined(cfg, c) && a.RefreshScene? && Possible(ActAll(cfg, c, actions), a)
    requires var r := ActAll(cfg, c, actions);
             var h := L.Sampled(cfg, Act(cfg, r, a).history);
             var t := Later(r.sys, a.now);
             && |h| > |L.Sampled(cfg, r.history)| && L.AskedSince(cfg, h, f, from)
             && (r.switches == [] || t - LastSwitch(r.switches) >= cfg.minSwitchIntervalUs)
    ensures Act(cfg, ActAll(cfg, c, actions), a).sys.g.policyTarget == f
  {
    SpacingRun(cfg, c, actions);
    var r := ActAll(cfg, c, actions);
    L.LaterInv(cfg, r.light, r.history, r.sys.clock, Later(r.sys, a.now));
    L.SteadyMoves(cfg, r.light, r.history, L.Observation(Later(r.sys, a.now), a.scene), r.sys.g.lastSwitch, f, from);
  }
}
