/** What one policy refresh leaves for the coordinator: the fused rate and the parameters of each
    stream.  The builder writes the entries in place and stops at the first stream it cannot serve,
    after the fused rate has moved. */
module VideoTargets {
  import opened VideoControl

  const CLEARED := EncodeParams(0, 0, 0, 0)

  /** What the builder reads for one stream: `bitrate` is the scaled and clamped rate or the manual
      one, `gop` what the key frame interval amounts to at the target rate. */
  datatype StreamInput = StreamInput(enabled: bool, baseBitrate: int, bitrate: int, gop: int, rateControl: int)

  /** The builder gives up at this stream. */
  predicate Fails(x: StreamInput) {
    x.enabled && (x.baseBitrate <= 0 || x.gop <= 0)
  }

  /** The entry as the builder leaves it, finished or not. */
  function Entry(target: int, x: StreamInput): EncodeParams {
    if !x.enabled || x.baseBitrate <= 0 then CLEARED
    else if x.gop <= 0 then EncodeParams(target, x.bitrate, 0, 0)
    else EncodeParams(target, x.bitrate, x.gop, x.rateControl)
  }

  /** How many entries the builder touches. */
  function Reached(inputs: seq<StreamInput>): (n: nat)
    ensures n <= |inputs|
    ensures forall i :: 0 <= i < n - 1 ==> !Fails(inputs[i])
    ensures n < |inputs| ==> n > 0 && Fails(inputs[n - 1])
  {
    if inputs == [] then 0
    else if Fails(inputs[0]) then 1
    else 1 + Reached(inputs[1..])
  }

  predicate Succeeds(inputs: seq<StreamInput>) {
    forall i :: 0 <= i < |inputs| ==> !Fails(inputs[i])
  }

  /** The entries after the builder ran: new up to where it stopped, old beyond. */
  function Build(previous: seq<EncodeParams>, target: int, inputs: seq<StreamInput>): (r: seq<EncodeParams>)
    requires |previous| == |inputs|
    ensures |r| == |previous|
  {
    seq(|previous|, i requires 0 <= i < |previous| && |previous| == |inputs| =>
      if i < Reached(inputs) then Entry(target, inputs[i]) else previous[i])
  }

  /** The builder cannot serve this stream: it has no base bitrate or no key frame interval at the rate. */
  predicate Unserved(x: StreamInput) {
    x.enabled && !(x.baseBitrate > 0 && x.gop > 0)
  }

  /** What the builder leaves.  Streams before the first one it cannot serve get exactly what the policy
      wants, or an empty entry if they are off; that one gets no entry that could be sent; those after it
      keep theirs.  Here `k` is the first stream that cannot be served, or the number of streams. */
  lemma BuiltAsWanted(previous: seq<EncodeParams>, target: int, inputs: seq<StreamInput>, k: nat)
    requires |previous| == |inputs| && k <= |inputs|
    requires (forall i :: 0 <= i < k ==> !Unserved(inputs[i])) && (k < |inputs| ==> Unserved(inputs[k]))
    ensures var r := Build(previous, target, inputs);
            && (forall i :: 0 <= i < k ==>
                  r[i] == if inputs[i].enabled then EncodeParams(target, inputs[i].bitrate, inputs[i].gop, inputs[i].rateControl)
                          else EncodeParams(0, 0, 0, 0))
            && (k < |inputs| ==>
                  r[k] == if inputs[k].baseBitrate > 0 then EncodeParams(target, inputs[k].bitrate, 0, 0) else EncodeParams(0, 0, 0, 0))
            && (forall i :: k < i < |inputs| ==> r[i] == previous[i])
  {
    ReachesFirst(inputs, k);
  }

  lemma {:induction false} ReachesFirst(inputs: seq<StreamInput>, k: nat)
    requires k <= |inputs|
    requires (forall i :: 0 <= i < k ==> !Unserved(inputs[i])) && (k < |inputs| ==> Unserved(inputs[k]))
    ensures Reached(inputs) == if k < |inputs| then k + 1 else k
    decreases |inputs|
  {
    if k > 0 {
      ReachesFirst(inputs[1..], k - 1);
    }
  }

  /** Every entry that would be sent as a parameter command carries the target rate. */
  predicate ParamsCarry(target: int, useParams: set<nat>, params: seq<EncodeParams>) {
    forall i :: 0 <= i < |params| && i in useParams && Usable(params[i]) ==> params[i].fps == target
  }

  /** The entries carry the target exactly when none beyond the point where the builder stopped is a
      usable leftover with another rate. */
  lemma CarriesIffNoLeftover(previous: seq<EncodeParams>, target: int, inputs: seq<StreamInput>, useParams: set<nat>)
    requires |previous| == |inputs|
    ensures ParamsCarry(target, useParams, Build(previous, target, inputs))
       <==> forall i :: Reached(inputs) <= i < |previous| && i in useParams && Usable(previous[i]) ==> previous[i].fps == target
  {
    var r := Build(previous, target, inputs);
    assert forall i :: 0 <= i < |r| ==> r[i] == if i < Reached(inputs) then Entry(target, inputs[i]) else previous[i];
  }

  /** So a refresh that succeeds always carries its target. */
  lemma SuccessCarries(previous: seq<EncodeParams>, target: int, inputs: seq<StreamInput>, useParams: set<nat>)
    requires |previous| == |inputs| && Succeeds(inputs)
    ensures ParamsCarry(target, useParams, Build(previous, target, inputs))
  {
    CarriesIffNoLeftover(previous, target, inputs, useParams);
  }

  // ----- manual bitrates with the network policy off ---------------------------------------

  /** What the manual builder reads for one stream: whether a manual request is in force or has just been
      withdrawn, the committed configuration, and the bitrates to choose from.  `controlled` streams
      are fed by the capture source whose rate the policy moves. */
  datatype ManualInput = ManualInput(
    requested: bool, withdrawn: bool, enabled: bool, controlled: bool, current: EncodeParams, bitrate: int, baseBitrate: int)

  predicate Wanted(x: ManualInput) {
    (x.requested || x.withdrawn) && x.enabled
  }

  predicate ManualFails(x: ManualInput) {
    Wanted(x) && x.requested && x.bitrate <= 0
  }

  /** The committed parameters with the target rate and the wanted bitrate; a request that cannot be
      met leaves the committed bitrate. */
  function ManualEntry(target: int, x: ManualInput): EncodeParams {
    x.current.(fps := if x.controlled && target > 0 then target else x.current.fps,
               bitrate := if !x.requested then x.baseBitrate else if x.bitrate <= 0 then x.current.bitrate else x.bitrate)
  }

  function ManualReached(inputs: seq<ManualInput>): (n: nat)
    ensures n <= |inputs|
    ensures forall i :: 0 <= i < n - 1 ==> !ManualFails(inputs[i])
    ensures n < |inputs| ==> n > 0 && ManualFails(inputs[n - 1])
  {
    if inputs == [] then 0
    else if ManualFails(inputs[0]) then 1
    else 1 + ManualReached(inputs[1..])
  }

  predicate ManualSucceeds(inputs: seq<ManualInput>) {
    forall i :: 0 <= i < |inputs| ==> !ManualFails(inputs[i])
  }

  /** Entries of streams without a manual request are left alone. */
  function BuildManual(previous: seq<EncodeParams>, target: int, inputs: seq<ManualInput>): (r: seq<EncodeParams>)
    requires |previous| == |inputs|
    ensures |r| == |previous|
  {
    seq(|previous|, i requires 0 <= i < |previous| && |previous| == |inputs| =>
      if i < ManualReached(inputs) && Wanted(inputs[i]) then ManualEntry(target, inputs[i]) else previous[i])
  }

  /** A manual request that cannot be met. */
  predicate Unmet(x: ManualInput) {
    x.requested && x.enabled && x.bitrate <= 0
  }

  /** What the manual builder leaves, up to the first request it cannot meet, here `k`: the committed
      configuration with the bitrate asked for, or with the base bitrate once the request is withdrawn, at
      the target rate where the policy moves the rate.  Other entries are left alone. */
  lemma ManualBuiltAsWanted(previous: seq<EncodeParams>, target: int, inputs: seq<ManualInput>, k: nat)
    requires |previous| == |inputs| && k <= |inputs| && target > 0
    requires (forall i :: 0 <= i < k ==> !Unmet(inputs[i])) && (k < |inputs| ==> Unmet(inputs[k]))
    ensures var r := BuildManual(previous, target, inputs);
            && (forall i :: 0 <= i < k ==>
                  var x := inputs[i];
                  r[i] == if x.enabled && (x.requested || x.withdrawn)
                          then EncodeParams(if x.controlled then target else x.current.fps,
                                            if x.requested then x.bitrate else x.baseBitrate, x.current.gop, x.current.rateControl)
                          else previous[i])
            && (k < |inputs| ==> r[k] == inputs[k].current.(fps := if inputs[k].controlled then target else inputs[k].current.fps))
            && (forall i :: k < i < |inputs| ==> r[i] == previous[i])
  {
    ManualReachesFirst(inputs, k);
  }

  lemma {:induction false} ManualReachesFirst(inputs: seq<ManualInput>, k: nat)
    requires k <= |inputs|
    requires (forall i :: 0 <= i < k ==> !Unmet(inputs[i])) && (k < |inputs| ==> Unmet(inputs[k]))
    ensures ManualReached(inputs) == if k < |inputs| then k + 1 else k
    decreases |inputs|
  {
    if k > 0 {
      ManualReachesFirst(inputs[1..], k - 1);
    }
  }

  /** The same exact condition, for the controlled streams that want parameters. */
  lemma ManualCarriesIffNoLeftover(previous: seq<EncodeParams>, target: int, inputs: seq<ManualInput>, useParams: set<nat>)
    requires |previous| == |inputs| && target > 0
    requires forall i :: i in useParams && i < |inputs| ==> Wanted(inputs[i]) && inputs[i].controlled
    ensures ParamsCarry(target, useParams, BuildManual(previous, target, inputs))
       <==> forall i :: ManualReached(inputs) <= i < |previous| && i in useParams && Usable(previous[i]) ==> previous[i].fps == target
  {
    var r := BuildManual(previous, target, inputs);
    assert forall i :: 0 <= i < |r| && i in useParams ==>
             r[i] == if i < ManualReached(inputs) then ManualEntry(target, inputs[i]) else previous[i];
  }

  // ----- the code --------------------------------------------------------------------------

  class RuntimeTargets {
    var targetFps: int
    var params: seq<EncodeParams>

    constructor (params: seq<EncodeParams>)
      ensures this.params == params && targetFps == 0
    {
      this.params, targetFps := params, 0;
    }

    method BuildTargets(inputs: seq<StreamInput>) returns (ok: bool)
      requires |inputs| == |params|
      modifies this`params
      ensures ok <==> Succeeds(inputs)
      ensures params == Build(old(params), targetFps, inputs)
      ensures ok ==> forall useParams :: ParamsCarry(targetFps, useParams, params)
    {
      ghost var before := params;
      for i := 0 to |params|
        invariant |params| == |before| && i <= Reached(inputs)
        invariant forall j :: 0 <= j < i ==> !Fails(inputs[j])
        invariant forall j :: 0 <= j < |params| ==> params[j] == if j < i then Entry(targetFps, inputs[j]) else before[j]
      {
        var x := inputs[i];
        params := params[i := CLEARED];
        if !x.enabled {
          continue;
        }
        if x.baseBitrate <= 0 {
          return false;
        }
        params := params[i := params[i].(fps := targetFps, bitrate := x.bitrate)];
        if x.gop <= 0 {
          return false;
        }
        params := params[i := params[i].(gop := x.gop, rateControl := x.rateControl)];
      }
      ok := true;
      forall useParams ensures ParamsCarry(targetFps, useParams, params) {
        SuccessCarries(before, targetFps, inputs, useParams);
      }
    }

    method BuildManualTargets(inputs: seq<ManualInput>) returns (ok: bool)
      requires |inputs| == |params|
      modifies this`params
      ensures ok <==> ManualSucceeds(inputs)
      ensures params == BuildManual(old(params), targetFps, inputs)
    {
      ghost var before := params;
      for i := 0 to |params|
        invariant |params| == |before| && i <= ManualReached(inputs)
        invariant forall j :: 0 <= j < i ==> !ManualFails(inputs[j])
        invariant forall j :: 0 <= j < |params| ==>
                    params[j] == if j < i && Wanted(inputs[j]) then ManualEntry(targetFps, inputs[j]) else before[j]
      {
        var x := inputs[i];
        if (!x.requested && !x.withdrawn) || !x.enabled {
          continue;
        }
        params := params[i := x.current];
        if x.controlled && targetFps > 0 {
          params := params[i := params[i].(fps := targetFps)];
        }
        if !x.requested {
          params := params[i := params[i].(bitrate := x.baseBitrate)];
          continue;
        }
        if x.bitrate <= 0 {
          return false;
        }
        params := params[i := params[i].(bitrate := x.bitrate)];
      }
      ok := true;
    }

    /** Takes the lower of the two caps and rebuilds the entries: all of them with the network policy
        on, those with a manual request otherwise.  A refusal may come after the rate and some entries
        have changed. */
    method Fuse(sceneMaxFps: int, networkMaxFps: int, network: bool, inputs: seq<StreamInput>, manual: seq<ManualInput>)
      returns (ok: bool)
      requires |inputs| == |manual| == |params|
      modifies this
      ensures targetFps <= sceneMaxFps && targetFps <= networkMaxFps
      ensures targetFps == sceneMaxFps || targetFps == networkMaxFps
      ensures ok <==> targetFps > 0 && if network then Succeeds(inputs) else ManualSucceeds(manual)
      ensures params == if targetFps <= 0 then old(params)
                        else if network then Build(old(params), targetFps, inputs)
                        else BuildManual(old(params), targetFps, manual)
      ensures ok && network ==> forall useParams :: ParamsCarry(targetFps, useParams, params)
    {
      targetFps := if sceneMaxFps < networkMaxFps then sceneMaxFps else networkMaxFps;
      if targetFps <= 0 {
        return false;
      }
      if network {
        ok := BuildTargets(inputs);
      } else {
        ok := BuildManualTargets(manual);
      }
    }
  }
}
