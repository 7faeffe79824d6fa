/** Extension of 16-bit RTP sequence numbers (section 5.1 and Appendix A.1 of RFC 3550). */
module RtpSequence {

  const CYCLE := 0x1_0000
  const UINT32 := 0x1_0000_0000

  /** The number in the reference's cycle with the given low half, moved by one cycle when it is more
      than half a cycle away, clamped at zero and stored in 32 bits. */
  function Extend(sequence: nat, reference: nat): nat
    requires sequence < CYCLE
  {
    var candidate := reference - reference % CYCLE + sequence;
    var distance := candidate - reference;
    var moved := if distance > 32767 then candidate - CYCLE
                 else if distance < -32768 then candidate + CYCLE
                 else candidate;
    (if moved < 0 then 0 else moved) % UINT32
  }

  predicate InWindow(index: int, reference: int) {
    -32768 <= index - reference <= 32767
  }

  lemma SameResidue(a: int, b: int)
    requires a % CYCLE == b % CYCLE && -CYCLE < a - b < CYCLE
    ensures a == b
  {
  }

  /** Extension recovers a true index exactly when it lies in the half-open half-cycle window around
      the reference. */
  lemma ExtendRecoversIffInWindow(index: nat, reference: nat)
    requires index < UINT32 - CYCLE && reference < UINT32 - CYCLE
    ensures Extend(index % CYCLE, reference) == index <==> InWindow(index, reference)
  {
    var sequence := index % CYCLE;
    var candidate := reference - reference % CYCLE + sequence;
    var distance := candidate - reference;
    assert candidate % CYCLE == sequence;
    var moved := if distance > 32767 then candidate - CYCLE
                 else if distance < -32768 then candidate + CYCLE
                 else candidate;
    assert moved % CYCLE == index % CYCLE;
    assert InWindow(moved, reference);
    if InWindow(index, reference) {
      SameResidue(moved, index);
    }
  }

  // ----- streams ---------------------------------------------------------------------------

  function Max(a: nat, b: nat): nat {
    if a > b then a else b
  }

  function Highest(ts: seq<nat>): nat
    requires ts != []
  {
    if |ts| == 1 then ts[0] else Max(Highest(ts[..|ts| - 1]), ts[|ts| - 1])
  }

  /** What the receiver computes for a whole stream: the first number is taken as it is, each later
      one is extended against the highest number computed so far. */
  function Reconstruct(ts: seq<nat>): (r: seq<nat>)
    ensures |r| == |ts|
  {
    if ts == [] then []
    else
      var before := Reconstruct(ts[..|ts| - 1]);
      var sequence := ts[|ts| - 1] % CYCLE;
      before + [if before == [] then sequence else Extend(sequence, Highest(before))]
  }

  predicate FollowsWindow(ts: seq<nat>) {
    && (ts != [] ==> ts[0] < CYCLE)
    && forall i :: 0 < i < |ts| ==> InWindow(ts[i], Highest(ts[..i]))
  }

  lemma {:induction false} HighestIsMember(ts: seq<nat>)
    requires ts != []
    ensures Highest(ts) in ts
    ensures forall i :: 0 <= i < |ts| ==> ts[i] <= Highest(ts)
  {
    if |ts| == 1 {
    } else {
      HighestIsMember(ts[..|ts| - 1]);
    }
  }

  predicate LastFits(before: seq<nat>, last: nat) {
    if before == [] then last < CYCLE else InWindow(last, Highest(before))
  }

  lemma WindowedAppend(before: seq<nat>, last: nat)
    ensures FollowsWindow(before + [last]) <==> FollowsWindow(before) && LastFits(before, last)
  {
    var ts := before + [last];
    assert ts[..|before|] == before;
    forall i | 0 < i < |before| ensures before[..i] == ts[..i] {
    }
  }

  lemma AppendEqual(a: seq<nat>, b: seq<nat>, x: nat, y: nat)
    requires |a| == |b|
    ensures a + [x] == b + [y] <==> a == b && x == y
  {
    if a + [x] == b + [y] {
      assert a == (a + [x])[..|a|] == (b + [y])[..|b|] == b;
      assert x == (a + [x])[|a|] == y;
    }
  }

  /** The number computed for the last packet is right exactly when the packet fits. */
  lemma LastNumber(before: seq<nat>, last: nat)
    requires last < UINT32 - CYCLE && forall i :: 0 <= i < |before| ==> before[i] < UINT32 - CYCLE
    ensures (if before == [] then last % CYCLE else Extend(last % CYCLE, Highest(before))) == last <==> LastFits(before, last)
  {
    if before != [] {
      HighestIsMember(before);
      ExtendRecoversIffInWindow(last, Highest(before));
    }
  }

  lemma ReconstructAppend(before: seq<nat>, last: nat)
    requires last < UINT32 - CYCLE && forall i :: 0 <= i < |before| ==> before[i] < UINT32 - CYCLE
    ensures Reconstruct(before + [last]) == before + [last] <==> Reconstruct(before) == before && LastFits(before, last)
  {
    var ts := before + [last];
    var r := Reconstruct(before);
    assert ts[..|before|] == before && ts[|before|] == last;
    var x := if r == [] then last % CYCLE else Extend(last % CYCLE, Highest(r));
    assert Reconstruct(ts) == r + [x];
    AppendEqual(r, before, x, last);
    LastNumber(before, last);
  }

  /** A reordered stream of true indices is reconstructed without error, across any number of 16-bit
      wraps, exactly when it starts in the first cycle and every index stays within the window of the
      highest before it. */
  lemma {:induction false} ReconstructsIffWindowed(ts: seq<nat>)
    requires forall i :: 0 <= i < |ts| ==> ts[i] < UINT32 - CYCLE
    ensures Reconstruct(ts) == ts <==> FollowsWindow(ts)
  {
    if ts == [] {
    } else {
      var before, last := ts[..|ts| - 1], ts[|ts| - 1];
      assert ts == before + [last];
      ReconstructsIffWindowed(before);
      WindowedAppend(before, last);
      ReconstructAppend(before, last);
    }
  }
}
