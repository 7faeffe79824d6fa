/** Counting the frames that the camera lost, from sequence numbers that wrap at 32 bits. */
module CaptureStats {
  const UINT32: nat := 0x1_0000_0000
  const HALF: nat := 0x7FFF_FFFF

  datatype Totals = Totals(started: bool, last: nat, captured: nat, gapEvents: nat, gapFrames: nat)

  const ZERO := Totals(false, 0, 0, 0, 0)

  /** The lost frames between two recorded numbers, as unsigned subtraction sees them. */
  function Gap(last: nat, sequence: nat): nat {
    var delta := (sequence - last) % UINT32;
    if 1 < delta < HALF then delta - 1 else 0
  }

  function Record(t: Totals, sequence: nat): Totals {
    var gap := if t.started then Gap(t.last, sequence) else 0;
    Totals(true, sequence, t.captured + 1, t.gapEvents + (if gap > 0 then 1 else 0), t.gapFrames + gap)
  }

  class Tracker {
    var started: bool
    var last: nat
    var captured: nat
    var gapEvents: nat
    var gapFrames: nat

    ghost function State(): Totals
      reads this
    {
      Totals(started, last, captured, gapEvents, gapFrames)
    }

    constructor ()
      ensures State() == ZERO
    {
      started, last, captured, gapEvents, gapFrames := false, 0, 0, 0, 0;
    }

    method RecordCapture(sequence: nat)
      requires sequence < UINT32
      modifies this
      ensures State() == Record(old(State()), sequence)
    {
      if started {
        var delta := (sequence - last) % UINT32;
        if delta > 1 && delta < HALF {
          gapEvents := gapEvents + 1;
          gapFrames := gapFrames + delta - 1;
        }
      } else {
        started := true;
      }
      captured := captured + 1;
      last := sequence;
    }
  }

  // ----- whole captures --------------------------------------------------------------------

  /** The totals after the camera produced frames with these true numbers. */
  function RecordAll(frames: seq<nat>): (t: Totals)
    ensures t.started == (frames != []) && (frames != [] ==> t.last == frames[|frames| - 1] % UINT32)
  {
    if frames == [] then ZERO else Record(RecordAll(frames[..|frames| - 1]), frames[|frames| - 1] % UINT32)
  }

  predicate Increasing(frames: seq<nat>) {
    forall i :: 0 < i < |frames| ==> frames[i - 1] < frames[i]
  }

  predicate SmallSteps(frames: seq<nat>) {
    forall i :: 0 < i < |frames| ==> frames[i] - frames[i - 1] < HALF
  }

  lemma ModShift(y: int, k: int)
    ensures (k * UINT32 + y) % UINT32 == y % UINT32
  {
    var q, r := y / UINT32, y % UINT32;
    assert k * UINT32 + y == (k + q) * UINT32 + r;
  }

  lemma DifferenceWraps(a: nat, b: nat)
    requires a < b
    ensures (b % UINT32 - a % UINT32) % UINT32 == (b - a) % UINT32
  {
    var x := b - a;
    assert b == a + x;
    assert a == (a / UINT32) * UINT32 + a % UINT32;
    assert b == (b / UINT32) * UINT32 + b % UINT32;
    var y := b % UINT32 - a % UINT32;
    var k := b / UINT32 - a / UINT32;
    assert x == k * UINT32 + y;
    ModShift(y, k);
  }

  /** A step is counted in full exactly when it is small; a larger one is always undercounted. */
  lemma GapOfStep(a: nat, b: nat)
    requires a < b
    ensures Gap(a % UINT32, b % UINT32) <= b - a - 1
    ensures Gap(a % UINT32, b % UINT32) == b - a - 1 <==> b - a < HALF
  {
    DifferenceWraps(a, b);
    var x := b - a;
    if x < HALF {
      assert x % UINT32 == x;
    }
  }

  predicate Exact(frames: seq<nat>)
    requires frames != []
  {
    var t := RecordAll(frames);
    frames[0] + t.captured + t.gapFrames == frames[|frames| - 1] + 1
  }

  /** Captured and lost frames add up to the span of the true numbers exactly when every step is below
      half the number space, however often the numbers wrapped. */
  lemma {:induction false} ExactIffSmallSteps(frames: seq<nat>)
    requires frames != [] && Increasing(frames)
    ensures frames[0] + RecordAll(frames).captured + RecordAll(frames).gapFrames <= frames[|frames| - 1] + 1
    ensures Exact(frames) <==> SmallSteps(frames)
  {
    if |frames| > 1 {
      var init := frames[..|frames| - 1];
      ExactIffSmallSteps(init);
      var a, b := frames[|frames| - 2], frames[|frames| - 1];
      GapOfStep(a, b);
      assert SmallSteps(frames) <==> SmallSteps(init) && b - a < HALF;
    } else {
      assert RecordAll(frames[..0]) == ZERO;
    }
  }

  /** How many of the steps skip a frame. */
  function Skips(frames: seq<nat>): nat {
    if |frames| < 2 then 0
    else Skips(frames[..|frames| - 1]) + if frames[|frames| - 1] > frames[|frames| - 2] + 1 then 1 else 0
  }

  /** Every capture is counted, and as long as the steps are small the gaps are those that are there. */
  lemma {:induction false} EveryGapIsCounted(frames: seq<nat>)
    requires Increasing(frames) && SmallSteps(frames)
    ensures RecordAll(frames).captured == |frames| && RecordAll(frames).gapEvents == Skips(frames)
  {
    if frames != [] {
      var init := frames[..|frames| - 1];
      EveryGapIsCounted(init);
      if |frames| > 1 {
        var a, b := frames[|frames| - 2], frames[|frames| - 1];
        assert init[|init| - 1] == a;
        GapOfStep(a, b);
      } else {
        assert RecordAll(frames[..0]) == ZERO;
      }
    }
  }
}
