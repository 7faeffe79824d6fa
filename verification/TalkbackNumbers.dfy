/** The numbers that submitted packets are judged and stored under, compared with their true indices,
    over any interleaving of submissions and worker sections. */
module TalkbackNumbers {
  import opened Options
  import opened RtpSequence
  import opened Talkback
  import opened TalkbackProperties

  /** The packet gets as far as being numbered. */
  predicate Numbered(cfg: Config, s: Talkback, step: Step) {
    step.Offer? && step.packet.sequence < CYCLE && !Refused(cfg, s, step.packet)
  }

  /** The packet jumps ahead of the whole buffer and is taken for a restarted stream. */
  predicate Restarts(cfg: Config, s: Talkback, p: Incoming)
    requires p.sequence < CYCLE
  {
    var active := Select(s, p);
    Discontinuous(cfg, Number(active, p), NumberOf(active, p))
  }

  /** The numbers given in a run, in order. */
  function Numbers(cfg: Config, s: Talkback, steps: seq<Step>): seq<nat>
    requires ValidConfig(cfg)
    decreases |steps|
  {
    if steps == [] then []
    else (if Numbered(cfg, s, steps[0]) then [Prepare(cfg, s, steps[0].packet).number] else [])
         + Numbers(cfg, Next(cfg, s, steps[0]), steps[1..])
  }

  /** The true indices of the same packets; `truth` has one entry for each step. */
  function Labels(cfg: Config, s: Talkback, steps: seq<Step>, truth: seq<nat>): seq<nat>
    requires ValidConfig(cfg) && |truth| == |steps|
    decreases |steps|
  {
    if steps == [] then []
    else (if Numbered(cfg, s, steps[0]) then [truth[0]] else [])
         + Labels(cfg, Next(cfg, s, steps[0]), steps[1..], truth[1..])
  }

  /** Packets carry the low half of their true index. */
  predicate Carried(steps: seq<Step>, truth: seq<nat>) {
    && |truth| == |steps|
    && forall k :: 0 <= k < |steps| ==>
         truth[k] < UINT32 - CYCLE && (steps[k].Offer? ==> steps[k].packet.sequence == truth[k] % CYCLE)
  }

  // ----- one packet ------------------------------------------------------------------------

  /** Where the true index must lie: in the first cycle when numbering starts over, else in the window
      of the highest number so far. */
  predicate Fits(cfg: Config, s: Talkback, p: Incoming, t: nat)
    requires p.sequence < CYCLE
  {
    var active := Select(s, p);
    if !active.timing.hasHighest || Restarts(cfg, s, p) then t < CYCLE else InWindow(t, active.timing.highest)
  }

  lemma NumberIsTrueIff(cfg: Config, s: Talkback, p: Incoming, t: nat)
    requires p.sequence == t % CYCLE && t < UINT32 - CYCLE && s.timing.highest < UINT32 - CYCLE
    ensures Prepare(cfg, s, p).number == t <==> Fits(cfg, s, p, t)
  {
    var active := Select(s, p);
    if active.timing.hasHighest {
      ExtendRecoversIffInWindow(t, active.timing.highest);
    }
  }

  /** The highest number after a step is the one before, a new one, or the number just given. */
  lemma HighestAfter(cfg: Config, s: Talkback, step: Step)
    requires ValidConfig(cfg)
    ensures var n := Next(cfg, s, step);
            || n.timing.highest <= s.timing.highest
            || (Numbered(cfg, s, step) && n.timing.highest == Prepare(cfg, s, step.packet).number)
  {
    if step.Offer? && step.packet.sequence < CYCLE {
      SubmitSameStream(cfg, s, step.packet);
    }
  }

  // ----- runs ------------------------------------------------------------------------------

  predicate AllFit(cfg: Config, s: Talkback, steps: seq<Step>, truth: seq<nat>)
    requires ValidConfig(cfg) && |truth| == |steps|
    decreases |steps|
  {
    steps == []
    || ((Numbered(cfg, s, steps[0]) ==> Fits(cfg, s, steps[0].packet, truth[0]))
        && AllFit(cfg, Next(cfg, s, steps[0]), steps[1..], truth[1..]))
  }

  lemma SameHead(x: nat, y: nat, a: seq<nat>, b: seq<nat>)
    ensures [x] + a == [y] + b <==> x == y && a == b
  {
    if [x] + a == [y] + b {
      assert x == ([x] + a)[0] == ([y] + b)[0] == y;
      assert a == ([x] + a)[1..] == ([y] + b)[1..] == b;
    }
  }

  /** In every run, with any talkers and any work of the player in between, all packets are numbered by
      their true indices exactly when each of them fits where it arrives. */
  lemma {:induction false} NumbersAreTrueIff(cfg: Config, s: Talkback, steps: seq<Step>, truth: seq<nat>)
    requires ValidConfig(cfg) && Carried(steps, truth) && s.timing.highest < UINT32 - CYCLE
    ensures Numbers(cfg, s, steps) == Labels(cfg, s, steps, truth) <==> AllFit(cfg, s, steps, truth)
    decreases |steps|
  {
    if steps == [] {
    } else {
      var n := Next(cfg, s, steps[0]);
      HighestAfter(cfg, s, steps[0]);
      if Numbered(cfg, s, steps[0]) {
        var number := Prepare(cfg, s, steps[0].packet).number;
        NumberIsTrueIff(cfg, s, steps[0].packet, truth[0]);
        SameHead(number, truth[0], Numbers(cfg, n, steps[1..]), Labels(cfg, n, steps[1..], truth[1..]));
        if number == truth[0] {
          NumbersAreTrueIff(cfg, n, steps[1..], truth[1..]);
        }
      } else {
        NumbersAreTrueIff(cfg, n, steps[1..], truth[1..]);
        assert Numbers(cfg, s, steps) == Numbers(cfg, n, steps[1..]);
        assert Labels(cfg, s, steps, truth) == Labels(cfg, n, steps[1..], truth[1..]);
      }
    }
  }

  // ----- one stream that is never taken for a restarted one --------------------------------

  predicate Stays(cfg: Config, s: Talkback, step: Step, session: string, ssrc: nat)
    requires ValidConfig(cfg)
  {
    match step
    case Offer(p) => Numbered(cfg, s, step) && p.session == session && p.ssrc == ssrc && !Restarts(cfg, s, p)
    case AtDeadline(now, _) => !(s.worker == Timed && s.running && !s.resetPending && TimedOut(cfg, s, now))
    case RequestStop => false
    case FinishStop => false
    case _ => true
  }

  /** The run submits packets of one stream only, nobody else holds the player, and the stream neither
      times out nor is stopped, nor is any packet taken for a restart. */
  predicate OneStream(cfg: Config, s: Talkback, steps: seq<Step>, session: string, ssrc: nat)
    requires ValidConfig(cfg)
    decreases |steps|
  {
    steps == [] || (Stays(cfg, s, steps[0], session, ssrc) && OneStream(cfg, Next(cfg, s, steps[0]), steps[1..], session, ssrc))
  }

  predicate Playing(s: Talkback, session: string, ssrc: nat, seen: seq<nat>) {
    && s.talker.active && s.talker.session == session && s.talker.ssrc == ssrc
    && seen != [] && s.timing.hasHighest && s.timing.highest == Highest(seen)
  }

  /** Reconstruction continued from the numbers computed so far. */
  function Continue(seen: seq<nat>, ts: seq<nat>): seq<nat>
    requires seen != []
    decreases |ts|
  {
    if ts == [] then seen else Continue(seen + [Extend(ts[0] % CYCLE, Highest(seen))], ts[1..])
  }

  lemma {:induction false} ContinueIsReconstruct(a: seq<nat>, b: seq<nat>)
    requires a != []
    ensures Continue(Reconstruct(a), b) == Reconstruct(a + b)
    decreases |b|
  {
    if b == [] {
      assert a + b == a;
    } else {
      var more := a + [b[0]];
      assert more[..|a|] == a;
      assert a + b == more + b[1..];
      ContinueIsReconstruct(more, b[1..]);
    }
  }

  lemma HighestAppend(seen: seq<nat>, x: nat)
    requires seen != []
    ensures Highest(seen + [x]) == Max(Highest(seen), x)
  {
    assert (seen + [x])[..|seen|] == seen;
  }

  /** A packet of the stream is extended against the highest number so far, which it may raise. */
  lemma OfferContinues(cfg: Config, s: Talkback, p: Incoming, session: string, ssrc: nat, seen: seq<nat>)
    requires ValidConfig(cfg) && Playing(s, session, ssrc, seen) && Stays(cfg, s, Offer(p), session, ssrc)
    ensures var number := Extend(p.sequence, Highest(seen));
            Prepare(cfg, s, p).number == number && Playing(Next(cfg, s, Offer(p)), session, ssrc, seen + [number])
  {
    SubmitSameStream(cfg, s, p);
    HighestAppend(seen, Extend(p.sequence, Highest(seen)));
  }

  lemma WorkerKeepsStream(cfg: Config, s: Talkback, step: Step, session: string, ssrc: nat, seen: seq<nat>)
    requires ValidConfig(cfg) && Playing(s, session, ssrc, seen) && Stays(cfg, s, step, session, ssrc) && !step.Offer?
    ensures Playing(Next(cfg, s, step), session, ssrc, seen)
  {
  }

  lemma ContinueWith(seen: seq<nat>, number: nat, rest: seq<nat>, t: nat, ts: seq<nat>)
    requires seen != [] && number == Extend(t % CYCLE, Highest(seen))
    ensures seen + ([number] + rest) == (seen + [number]) + rest
    ensures Continue(seen, [t] + ts) == Continue(seen + [number], ts)
  {
    assert ([t] + ts)[1..] == ts;
  }

  lemma {:induction false} NumbersContinue(cfg: Config, s: Talkback, steps: seq<Step>, truth: seq<nat>,
                                           session: string, ssrc: nat, seen: seq<nat>)
    requires ValidConfig(cfg) && Carried(steps, truth) && Playing(s, session, ssrc, seen)
    requires OneStream(cfg, s, steps, session, ssrc)
    ensures seen + Numbers(cfg, s, steps) == Continue(seen, Labels(cfg, s, steps, truth))
    decreases |steps|
  {
    if steps == [] {
      assert seen + [] == seen;
    } else {
      var n := Next(cfg, s, steps[0]);
      if steps[0].Offer? {
        OfferContinues(cfg, s, steps[0].packet, session, ssrc, seen);
        var number := Extend(steps[0].packet.sequence, Highest(seen));
        NumbersContinue(cfg, n, steps[1..], truth[1..], session, ssrc, seen + [number]);
        ContinueWith(seen, number, Numbers(cfg, n, steps[1..]), truth[0], Labels(cfg, n, steps[1..], truth[1..]));
      } else {
        WorkerKeepsStream(cfg, s, steps[0], session, ssrc, seen);
        assert Numbers(cfg, s, steps) == Numbers(cfg, n, steps[1..]);
        assert Labels(cfg, s, steps, truth) == Labels(cfg, n, steps[1..], truth[1..]);
        NumbersContinue(cfg, n, steps[1..], truth[1..], session, ssrc, seen);
      }
    }
  }

  lemma FirstIsItself(t: nat)
    ensures Reconstruct([t]) == [t % CYCLE]
  {
    assert [t][..0] == [];
  }

  /** A stream that is selected by its first packet is numbered as the reconstruction numbers it. */
  lemma {:induction false} NumbersAreReconstructed(cfg: Config, s: Talkback, first: Incoming, steps: seq<Step>, truth: seq<nat>)
    requires ValidConfig(cfg) && Carried([Offer(first)] + steps, truth)
    requires !(s.talker.active && s.talker.session == first.session && s.talker.ssrc == first.ssrc)
    requires OneStream(cfg, s, [Offer(first)] + steps, first.session, first.ssrc)
    ensures Numbers(cfg, s, [Offer(first)] + steps) == Reconstruct(Labels(cfg, s, [Offer(first)] + steps, truth))
  {
    var all := [Offer(first)] + steps;
    assert all[1..] == steps;
    assert Carried(steps, truth[1..]) by {
      assert forall k :: 0 <= k < |steps| ==> steps[k] == all[k + 1];
    }
    var n := Next(cfg, s, Offer(first));
    SubmitSameStream(cfg, s, first);
    assert Playing(n, first.session, first.ssrc, [first.sequence]);
    NumbersContinue(cfg, n, steps, truth[1..], first.session, first.ssrc, [first.sequence]);
    var rest := Labels(cfg, n, steps, truth[1..]);
    FirstIsItself(truth[0]);
    ContinueIsReconstruct([truth[0]], rest);
    assert Prepare(cfg, s, first).number == first.sequence;
    assert Labels(cfg, s, all, truth) == [truth[0]] + rest;
  }

  lemma {:induction false} LabelsBounded(cfg: Config, s: Talkback, steps: seq<Step>, truth: seq<nat>)
    requires ValidConfig(cfg) && Carried(steps, truth)
    ensures forall i :: 0 <= i < |Labels(cfg, s, steps, truth)| ==> Labels(cfg, s, steps, truth)[i] < UINT32 - CYCLE
    decreases |steps|
  {
    if steps == [] {
    } else {
      LabelsBounded(cfg, Next(cfg, s, steps[0]), steps[1..], truth[1..]);
    }
  }

  /** So such a stream is numbered by its true indices, across any number of wraps, exactly when it
      starts in the first cycle and every index stays in the window of the highest before it. */
  lemma {:induction false} OneStreamIsTrueIffWindowed(cfg: Config, s: Talkback, first: Incoming, steps: seq<Step>, truth: seq<nat>)
    requires ValidConfig(cfg) && Carried([Offer(first)] + steps, truth)
    requires !(s.talker.active && s.talker.session == first.session && s.talker.ssrc == first.ssrc)
    requires OneStream(cfg, s, [Offer(first)] + steps, first.session, first.ssrc)
    ensures var ts := Labels(cfg, s, [Offer(first)] + steps, truth);
            Numbers(cfg, s, [Offer(first)] + steps) == ts <==> FollowsWindow(ts)
  {
    var all := [Offer(first)] + steps;
    NumbersAreReconstructed(cfg, s, first, steps, truth);
    LabelsBounded(cfg, s, all, truth);
    ReconstructsIffWindowed(Labels(cfg, s, all, truth));
  }

  // ----- a packet that is taken for a restart ----------------------------------------------

  const SMALL := Config(2, 2, 1000, 20)

  function Packet(t: nat): Incoming {
    Incoming("a", true, 1, t % CYCLE, 1, [0], true)
  }

  /** Two packets, the decoder reset they ask for, and the start of playout. */
  const STARTED := [Offer(Packet(65530)), Offer(Packet(65531)), AtTop, Outside(true), AtTop]

  function TwoOffered(): Talkback {
    Next(SMALL, Next(SMALL, Fresh(), STARTED[0]), STARTED[1])
  }

  lemma TwoOfferedState()
    ensures var s := TwoOffered();
            && s.running && s.resetPending && s.worker == Top && s.talker == Talker(true, "a", 1, 1)
            && s.timing.hasHighest && s.timing.highest == 65531 && !s.timing.started && s.buffer.Keys == {65530, 65531}
  {
    var s1 := Next(SMALL, Fresh(), STARTED[0]);
    assert s1.buffer.Keys == {65530};
    assert |s1.buffer[65531 := Buffered(65531, 1, [0], 1)].Keys| == 2;
  }

  const START := [AtTop, Outside(true), AtTop]

  lemma StartsPlaying(s: Talkback)
    requires s.running && s.resetPending && s.worker == Top && !s.timing.started && |s.buffer| >= 2
    ensures var n := Run(SMALL, s, START);
            && n.running && n.talker == s.talker
            && n.timing == s.timing.(expected := n.timing.expected, nextPts := n.timing.nextPts, started := true)
            && n.timing.expected in s.buffer && forall k :: k in s.buffer ==> n.timing.expected <= k
  {
    assert START[1..] == [Outside(true), AtTop] && [Outside(true), AtTop][1..] == [AtTop] && [AtTop][1..] == [];
    assert |s.buffer.Keys| > 0;
    var s3 := Next(SMALL, Next(SMALL, s, AtTop), Outside(true));
    assert s3.buffer == s.buffer && s3.worker == Top && !s3.resetPending;
  }

  predicate JustStarted(s: Talkback) {
    && s.running && s.talker == Talker(true, "a", 1, 1)
    && s.timing.hasHighest && s.timing.highest == 65531 && s.timing.started && s.timing.expected == 65530
  }

  lemma StartedRun()
    ensures JustStarted(Run(SMALL, Fresh(), STARTED))
  {
    TwoOfferedState();
    var s := TwoOffered();
    assert |s.buffer| == |s.buffer.Keys| == 2;
    StartsPlaying(s);
    assert STARTED[1..] == [STARTED[1]] + START;
    assert ([STARTED[1]] + START)[1..] == START;
  }

  lemma RestartPrepares(s: Talkback)
    requires JustStarted(s)
    ensures Restarts(SMALL, s, Packet(65540)) && !Refused(SMALL, s, Packet(65540))
    ensures var r := Prepare(SMALL, s, Packet(65540));
            r.number == 4 && r.state.buffer == map[] && !r.state.timing.started
  {
    assert Extend(4, 65531) == 65540;
  }

  lemma StoresAlone(s: Talkback, p: Incoming, number: nat)
    requires s.buffer == map[] && !s.timing.started && p.memory
    ensures Store(SMALL, s, p, number).0.buffer.Keys == {number}
  {
  }

  /** After those, true index 65540 lies well inside the window, and yet the packet is stored under 4:
      it is ahead of the buffer and its stream is taken for a new one. */
  lemma RestartRenumbers()
    ensures var s := Run(SMALL, Fresh(), STARTED);
            && InWindow(65540, s.timing.highest) && Restarts(SMALL, s, Packet(65540))
            && Prepare(SMALL, s, Packet(65540)).number == 4
            && Next(SMALL, s, Offer(Packet(65540))).buffer.Keys == {4}
  {
    StartedRun();
    var s := Run(SMALL, Fresh(), STARTED);
    RestartPrepares(s);
    SubmitIsStore(SMALL, s, Packet(65540));
    StoresAlone(Prepare(SMALL, s, Packet(65540)).state, Packet(65540), 4);
  }
}
