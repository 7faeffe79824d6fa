/** The network-feedback policy: classification of one measurement, hysteresis over candidate states,
    and the aggregate over all streams. */
module NetworkPolicy {

  datatype NetworkState = Good | Normal | Bad | VeryBad {
    function Rank(): nat {
      match this
      case Good => 0
      case Normal => 1
      case Bad => 2
      case VeryBad => 3
    }
  }

  // ----- classification --------------------------------------------------------------------

  datatype Metrics = Metrics(fractionLost: nat, rttMs: nat, jitterTicks: nat, queueDepth: int)

  /** A threshold that is not positive is switched off. */
  datatype Detector = Detector(minLost: int, minRtt: int, minJitter: int, minQueue: int)

  datatype Detectors = Detectors(normal: Detector, bad: Detector, veryBad: Detector)

  const UINT32_MAX := 0xFFFF_FFFF

  function JitterMs(ticks: nat): nat {
    var ms := ticks * 1000 / 90000;
    if ms > UINT32_MAX then UINT32_MAX else ms
  }

  predicate Matched(d: Detector, m: Metrics) {
    || (d.minLost > 0 && m.fractionLost >= d.minLost)
    || (d.minRtt > 0 && m.rttMs >= d.minRtt)
    || (d.minJitter > 0 && JitterMs(m.jitterTicks) >= d.minJitter)
    || (d.minQueue > 0 && m.queueDepth >= d.minQueue)
  }

  function Classify(d: Detectors, m: Metrics): NetworkState {
    if Matched(d.veryBad, m) then VeryBad
    else if Matched(d.bad, m) then Bad
    else if Matched(d.normal, m) then Normal
    else Good
  }

  /** The thresholds of a detector and the measured values they are compared with. */
  function Thresholds(d: Detector): seq<int> {
    [d.minLost, d.minRtt, d.minJitter, d.minQueue]
  }

  function Measured(m: Metrics): (v: seq<int>)
    ensures |v| == 4
  {
    [m.fractionLost, m.rttMs, JitterMs(m.jitterTicks), m.queueDepth]
  }

  /** Some threshold that is switched on is reached. */
  predicate Reaches(d: Detector, m: Metrics) {
    exists i :: 0 <= i < 4 && Thresholds(d)[i] > 0 && Measured(m)[i] >= Thresholds(d)[i]
  }

  lemma MatchedIsReached(d: Detector, m: Metrics)
    ensures Matched(d, m) <==> Reaches(d, m)
  {
    var t, v := Thresholds(d), Measured(m);
    assert t[0] == d.minLost && t[1] == d.minRtt && t[2] == d.minJitter && t[3] == d.minQueue;
  }

  /** The candidate is the worst state one of whose thresholds is reached, or good. */
  lemma CandidateIsTheWorstReached(d: Detectors, m: Metrics)
    ensures Classify(d, m) == VeryBad <==> Reaches(d.veryBad, m)
    ensures Classify(d, m) == Bad <==> !Reaches(d.veryBad, m) && Reaches(d.bad, m)
    ensures Classify(d, m) == Good <==> !Reaches(d.veryBad, m) && !Reaches(d.bad, m) && !Reaches(d.normal, m)
  {
    MatchedIsReached(d.veryBad, m);
    MatchedIsReached(d.bad, m);
    MatchedIsReached(d.normal, m);
  }

  /** Jitter is measured in ticks of 90 kHz and compared in whole milliseconds, rounded down, up to what 32
      bits hold. */
  lemma JitterInMilliseconds(ticks: nat)
    ensures JitterMs(ticks) <= UINT32_MAX
    ensures JitterMs(ticks) < UINT32_MAX ==> JitterMs(ticks) * 90 <= ticks < (JitterMs(ticks) + 1) * 90
    ensures ticks < UINT32_MAX * 90 ==> JitterMs(ticks) * 90 <= ticks < (JitterMs(ticks) + 1) * 90
  {
  }

  predicate NoBetter(a: Metrics, b: Metrics) {
    a.fractionLost >= b.fractionLost && a.rttMs >= b.rttMs && a.jitterTicks >= b.jitterTicks && a.queueDepth >= b.queueDepth
  }

  lemma JitterMonotone(a: nat, b: nat)
    requires a >= b
    ensures JitterMs(a) >= JitterMs(b)
  {
  }

  /** Measurements that are pointwise no better never yield a better candidate, whatever thresholds
      are configured, in whatever order. */
  lemma WorseMetricsNeverLookBetter(d: Detectors, a: Metrics, b: Metrics)
    requires NoBetter(a, b)
    ensures Classify(d, a).Rank() >= Classify(d, b).Rank()
  {
    JitterMonotone(a.jitterTicks, b.jitterTicks);
  }

  // ----- hysteresis ------------------------------------------------------------------------

  datatype Tracker = Tracker(state: NetworkState, pending: NetworkState, count: int)

  datatype Counts = Counts(downgrade: int, upgrade: int)

  function Required(state: NetworkState, candidate: NetworkState, n: Counts): int {
    if candidate.Rank() > state.Rank() then n.downgrade else n.upgrade
  }

  function Confirm(t: Tracker, c: NetworkState, n: Counts): Tracker {
    if c == t.state then Tracker(t.state, c, 0)
    else if Required(t.state, c, n) <= 1 then Tracker(c, c, 0)
    else
      var count := if t.pending == c then t.count + 1 else 1;
      if count >= Required(t.state, c, n) then Tracker(c, c, 0) else Tracker(t.state, c, count)
  }

  function ConfirmAll(t: Tracker, h: seq<NetworkState>, n: Counts): Tracker {
    if h == [] then t else Confirm(ConfirmAll(t, h[..|h| - 1], n), h[|h| - 1], n)
  }

  const FRESH := Tracker(Good, Good, 0)

  /** The length of the longest suffix of `h` in which every candidate is `c`. */
  function Trailing(h: seq<NetworkState>, c: NetworkState): (k: nat)
    ensures k <= |h|
    ensures forall i :: |h| - k <= i < |h| ==> h[i] == c
    ensures k < |h| ==> h[|h| - k - 1] != c
  {
    if h == [] || h[|h| - 1] != c then 0 else 1 + Trailing(h[..|h| - 1], c)
  }

  /** The reference: the confirmed state and all candidates since it was confirmed; no counter. */
  datatype Reference = Reference(state: NetworkState, since: seq<NetworkState>, changes: nat)

  /** How long a stretch must be: as long as the count for getting worse or better says, and at least one. */
  function Needed(state: NetworkState, c: NetworkState, n: Counts): nat {
    var count := if state.Rank() < c.Rank() then n.downgrade else n.upgrade;
    if count <= 1 then 1 else count
  }

  predicate Changes(r: Reference, c: NetworkState, n: Counts) {
    c != r.state && Trailing(r.since + [c], c) >= Needed(r.state, c, n)
  }

  function RefStep(r: Reference, c: NetworkState, n: Counts): Reference {
    if Changes(r, c, n) then Reference(c, [], r.changes + 1) else r.(since := r.since + [c])
  }

  function RefAll(h: seq<NetworkState>, n: Counts): Reference {
    if h == [] then Reference(Good, [], 0) else RefStep(RefAll(h[..|h| - 1], n), h[|h| - 1], n)
  }

  /** How the counter relates to the history since the last change. */
  predicate Tracks(t: Tracker, r: Reference) {
    && t.state == r.state
    && (if r.since == [] || r.since[|r.since| - 1] == r.state then t.pending == t.state && t.count == 0
        else t.pending == r.since[|r.since| - 1] && t.count == Trailing(r.since, t.pending))
  }

  lemma TrailingAppend(h: seq<NetworkState>, c: NetworkState)
    ensures Trailing(h + [c], c) == 1 + Trailing(h, c)
    ensures h == [] || h[|h| - 1] != c ==> Trailing(h, c) == 0
  {
    assert (h + [c])[..|h|] == h;
  }

  /** The counter a differing candidate reaches is the length of its stretch. */
  lemma CountIsStretch(t: Tracker, r: Reference, c: NetworkState)
    requires Tracks(t, r) && c != r.state
    ensures (if t.pending == c then t.count + 1 else 1) == Trailing(r.since + [c], c)
  {
    TrailingAppend(r.since, c);
  }

  lemma TracksStep(t: Tracker, r: Reference, c: NetworkState, n: Counts)
    requires Tracks(t, r)
    ensures Tracks(Confirm(t, c, n), RefStep(r, c, n))
  {
    if c != r.state {
      CountIsStretch(t, r, c);
    }
  }

  lemma {:induction false} TracksRun(h: seq<NetworkState>, n: Counts)
    ensures Tracks(ConfirmAll(FRESH, h, n), RefAll(h, n))
  {
    if h == [] {
    } else {
      TracksRun(h[..|h| - 1], n);
      TracksStep(ConfirmAll(FRESH, h[..|h| - 1], n), RefAll(h[..|h| - 1], n), h[|h| - 1], n);
    }
  }

  /** Over any candidate history the confirmed state moves at a step exactly when the new candidate
      differs from it and the last so many candidates, all since the previous change, equal it. */
  lemma ChangesExactlyAfterStretch(h: seq<NetworkState>, c: NetworkState, n: Counts)
    ensures ConfirmAll(FRESH, h + [c], n).state != ConfirmAll(FRESH, h, n).state
        <==> Changes(RefAll(h, n), c, n)
    ensures Changes(RefAll(h, n), c, n) ==> ConfirmAll(FRESH, h + [c], n).state == c
    ensures ConfirmAll(FRESH, h, n).state == RefAll(h, n).state
  {
    assert (h + [c])[..|h|] == h;
    TracksRun(h, n);
    TracksRun(h + [c], n);
  }

  function Slower(n: Counts): nat {
    var d := if n.downgrade <= 1 then 1 else n.downgrade;
    var u := if n.upgrade <= 1 then 1 else n.upgrade;
    if d < u then d else u
  }

  lemma OneMoreTime(k: nat, d: nat)
    ensures (k + 1) * d == k * d + d
  {
  }

  /** A change uses up as many candidates as it needs, and only those since the change before. */
  lemma ChangeUsesCandidates(r: Reference, c: NetworkState, n: Counts)
    requires Changes(r, c, n)
    ensures |r.since| + 1 >= Slower(n)
  {
    assert Trailing(r.since + [c], c) >= Needed(r.state, c, n) >= Slower(n);
  }

  /** At most one change per `Slower` candidates: every candidate is used for one change at most. */
  lemma {:induction false} FewChanges(h: seq<NetworkState>, n: Counts)
    ensures RefAll(h, n).changes * Slower(n) + |RefAll(h, n).since| <= |h|
  {
    if h == [] {
    } else {
      FewChanges(h[..|h| - 1], n);
      var r, c := RefAll(h[..|h| - 1], n), h[|h| - 1];
      if Changes(r, c, n) {
        ChangeUsesCandidates(r, c, n);
        OneMoreTime(r.changes, Slower(n));
      }
    }
  }

  /** Alternating between two bad candidates is never confirmed once two in a row are needed: the
      state stays good although no candidate was. */
  lemma {:induction false} AlternatingIsNeverConfirmed(h: seq<NetworkState>, n: Counts)
    requires n.downgrade >= 2
    requires forall i :: 0 <= i < |h| ==> h[i] == if i % 2 == 0 then Bad else VeryBad
    ensures ConfirmAll(FRESH, h, n).state == Good
    ensures h != [] ==> ConfirmAll(FRESH, h, n).pending == h[|h| - 1] && ConfirmAll(FRESH, h, n).count == 1
  {
    if h == [] {
    } else {
      AlternatingIsNeverConfirmed(h[..|h| - 1], n);
    }
  }

  // ----- all streams -----------------------------------------------------------------------

  datatype Level = Level(maxFps: int, bitratePercent: int)

  datatype Policy = Policy(detectors: Detectors, counts: Counts, good: Level, normal: Level, bad: Level, veryBad: Level, baseFps: int)

  function LevelOf(p: Policy, s: NetworkState): Level {
    match s
    case Good => p.good
    case Normal => p.normal
    case Bad => p.bad
    case VeryBad => p.veryBad
  }

  /** The cap of one stream; a missing cap falls back to the base rate. */
  function Cap(p: Policy, s: NetworkState): int {
    if LevelOf(p, s).maxFps <= 0 then p.baseFps else LevelOf(p, s).maxFps
  }

  /** The cap configured for a state; without one the base rate. */
  lemma CapIsConfigured(p: Policy, level: Level, s: NetworkState)
    requires level == match s { case Good => p.good case Normal => p.normal case Bad => p.bad case VeryBad => p.veryBad }
    ensures Cap(p, s) == if level.maxFps > 0 then level.maxFps else p.baseFps
  {
  }

  datatype Aggregate = Aggregate(state: NetworkState, maxFps: int)

  function TrackStream(p: Policy, t: Tracker, enabled: bool, m: Metrics): Tracker {
    if enabled then Confirm(t, Classify(p.detectors, m), p.counts) else FRESH
  }

  class NetworkConstraint {
    const policy: Policy
    var trackers: seq<Tracker>
    var aggregate: Aggregate

    constructor (policy: Policy, streams: nat)
      ensures this.policy == policy && trackers == seq(streams, _ => FRESH) && aggregate == Aggregate(Good, policy.baseFps)
    {
      this.policy := policy;
      trackers := seq(streams, _ => FRESH);
      aggregate := Aggregate(Good, policy.baseFps);
    }

    /** Confirms the state of one stream. */
    method ConfirmState(i: nat, candidate: NetworkState)
      requires i < |trackers|
      modifies this`trackers
      ensures trackers == old(trackers)[i := Confirm(old(trackers)[i], candidate, policy.counts)]
    {
      var t := trackers[i];
      if candidate == t.state {
        trackers := trackers[i := Tracker(t.state, candidate, 0)];
        return;
      }
      var required := if candidate.Rank() > t.state.Rank() then policy.counts.downgrade else policy.counts.upgrade;
      if required <= 1 {
        trackers := trackers[i := Tracker(candidate, candidate, 0)];
        return;
      }
      var count := 1;
      if t.pending == candidate {
        count := t.count + 1;
      }
      if count >= required {
        trackers := trackers[i := Tracker(candidate, candidate, 0)];
      } else {
        trackers := trackers[i := Tracker(t.state, candidate, count)];
      }
    }

    method CapOf(state: NetworkState) returns (cap: int)
      ensures cap == Cap(policy, state)
    {
      cap := LevelOf(policy, state).maxFps;
      if cap <= 0 {
        cap := policy.baseFps;
      }
    }

    /** One evaluation of all streams.  The aggregate takes the worst state and the lowest cap of the
        enabled streams. */
    method Update(enabled: seq<bool>, metrics: seq<Metrics>)
      requires |enabled| == |metrics| == |trackers|
      modifies this
      ensures |trackers| == |old(trackers)|
      ensures forall i :: 0 <= i < |trackers| ==> trackers[i] == TrackStream(policy, old(trackers)[i], enabled[i], metrics[i])
      ensures forall i :: 0 <= i < |trackers| && !enabled[i] ==> trackers[i] == Tracker(Good, Good, 0)
      ensures forall i :: 0 <= i < |trackers| && enabled[i] ==> aggregate.state.Rank() >= trackers[i].state.Rank()
      ensures aggregate.state != Good ==> exists i :: 0 <= i < |trackers| && enabled[i] && aggregate.state == trackers[i].state
      ensures policy.baseFps > 0 ==> forall i :: 0 <= i < |trackers| && enabled[i] ==> aggregate.maxFps <= Cap(policy, trackers[i].state)
      ensures (forall i :: 0 <= i < |trackers| ==> !enabled[i]) ==> aggregate == Aggregate(Good, policy.baseFps)
      ensures policy.baseFps > 0 && (exists i :: 0 <= i < |trackers| && enabled[i]) ==>
                exists i :: 0 <= i < |trackers| && enabled[i] && aggregate.maxFps == Cap(policy, trackers[i].state)
      ensures policy.baseFps > 0 ==> aggregate.maxFps > 0
    {
      var maxFps, worst, active := policy.good.maxFps, Good, 0;
      if maxFps <= 0 {
        maxFps := policy.baseFps;
      }
      for i := 0 to |trackers|
        invariant |trackers| == |old(trackers)|
        invariant forall j :: 0 <= j < i ==> trackers[j] == TrackStream(policy, old(trackers)[j], enabled[j], metrics[j])
        invariant forall j :: i <= j < |trackers| ==> trackers[j] == old(trackers)[j]
        invariant forall j :: 0 <= j < i && enabled[j] ==> worst.Rank() >= trackers[j].state.Rank()
        invariant worst != Good ==> exists j :: 0 <= j < i && enabled[j] && worst == trackers[j].state
        invariant active == 0 <==> forall j :: 0 <= j < i ==> !enabled[j]
        invariant active == 0 ==> worst == Good
        invariant 0 <= active
        invariant forall j :: 0 <= j < i && enabled[j] ==> maxFps <= Cap(policy, trackers[j].state)
        invariant active > 0 ==> exists j :: 0 <= j < i && enabled[j] && maxFps == Cap(policy, trackers[j].state)
      {
        if !enabled[i] {
          trackers := trackers[i := FRESH];
          continue;
        }
        ConfirmState(i, Classify(policy.detectors, metrics[i]));
        var state := trackers[i].state;
        var cap := CapOf(state);
        if active == 0 || cap < maxFps {
          maxFps := cap;
        }
        if state.Rank() > worst.Rank() {
          worst := state;
        }
        active := active + 1;
      }
      if active == 0 || maxFps <= 0 {
        maxFps := policy.baseFps;
      }
      aggregate := Aggregate(worst, maxFps);
    }
  }
}
