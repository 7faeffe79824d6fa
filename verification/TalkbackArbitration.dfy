/** Who holds the player, what becomes of each submitted packet, and when the worker starts, plays, resets
    and gives a stream up: in terms of the packets, their times and the fields of the player. */
module TalkbackArbitration {
  import opened Options
  import opened RtpSequence
  import opened Talkback
  import opened TalkbackProperties

  // ----- when a packet was last stored -----------------------------------------------------

  /** The arrival of the packet that was last stored, whether or not it stayed; 0 once a stream has been
      given up. */
  function HeardAfter(s: Talkback, step: Step, n: Talkback, heard: nat): nat {
    if step.Offer? && n.stats.submitted > s.stats.submitted then step.packet.arrival
    else if s.talker.active && !n.talker.active then 0
    else heard
  }

  function Heard(cfg: Config, s: Talkback, steps: seq<Step>, heard: nat): nat
    requires ValidConfig(cfg)
    decreases |steps|
  {
    if steps == [] then heard
    else
      var n := Next(cfg, s, steps[0]);
      Heard(cfg, n, steps[1..], HeardAfter(s, steps[0], n, heard))
  }

  predicate HeardInv(s: Talkback, heard: nat) {
    s.talker.lastArrival == heard && (!s.talker.active ==> heard == 0)
  }

  /** Storing a packet counts it and notes its arrival. */
  lemma StoreNotes(cfg: Config, s: Talkback, p: Incoming, number: nat)
    ensures var (n, status) := Store(cfg, s, p, number);
            && SameStream(s, n) && status != Foreign
            && n.stats.resets == s.stats.resets && n.stats.foreign == s.stats.foreign
            && if n.stats.submitted > s.stats.submitted then n.talker.lastArrival == p.arrival
               else n.talker == s.talker && n.stats.submitted == s.stats.submitted
  {
  }

  lemma PrepareNotes(cfg: Config, s: Talkback, p: Incoming)
    requires p.sequence < CYCLE
    ensures var r := Prepare(cfg, s, p).state;
            && r.talker == s.talker.(active := true, session := p.session, ssrc := p.ssrc)
            && r.stats.submitted == s.stats.submitted && r.stats.foreign == s.stats.foreign
  {
  }

  lemma OfferNotes(cfg: Config, s: Talkback, p: Incoming, heard: nat)
    requires ValidConfig(cfg) && HeardInv(s, heard) && p.sequence < CYCLE
    ensures var n := Submit(cfg, s, p).0; HeardInv(n, HeardAfter(s, Offer(p), n, heard))
  {
    SubmitIsStore(cfg, s, p);
    if !Refused(cfg, s, p) {
      var r := Prepare(cfg, s, p);
      PrepareNotes(cfg, s, p);
      StoreNotes(cfg, r.state, p, r.number);
    }
  }

  lemma HeardStep(cfg: Config, s: Talkback, step: Step, heard: nat)
    requires ValidConfig(cfg) && HeardInv(s, heard)
    ensures var n := Next(cfg, s, step); HeardInv(n, HeardAfter(s, step, n, heard))
  {
    if step.Offer? && step.packet.sequence < CYCLE {
      OfferNotes(cfg, s, step.packet, heard);
    }
  }

  lemma {:induction false} HeardRun(cfg: Config, s: Talkback, steps: seq<Step>, heard: nat)
    requires ValidConfig(cfg) && HeardInv(s, heard)
    ensures HeardInv(Run(cfg, s, steps), Heard(cfg, s, steps, heard))
    decreases |steps|
  {
    if steps == [] {
    } else {
      var n := Next(cfg, s, steps[0]);
      HeardStep(cfg, s, steps[0], heard);
      HeardRun(cfg, n, steps[1..], HeardAfter(s, steps[0], n, heard));
    }
  }

  // ----- who holds the player --------------------------------------------------------------

  /** The packet can be played at all. */
  predicate Playable(p: Incoming) {
    p.session != "" && p.isOpus && p.payload != [] && p.sequence < CYCLE
  }

  lemma Takeover(cfg: Config, s: Talkback, p: Incoming)
    requires p.sequence < CYCLE && s.talker.active && s.talker.session != p.session
    ensures var r := Prepare(cfg, s, p).state;
            && r.selection == s.selection + 1 && r.resetPending && !r.timing.started
            && r.stats.resets == s.stats.resets + 1
  {
  }

  /** The packet's session holds the player from now on, and its stream starts anew. */
  predicate TakesOver(s: Talkback, p: Incoming, n: Talkback) {
    && n.talker.active && n.talker.session == p.session && n.talker.ssrc == p.ssrc
    && n.selection == s.selection + 1 && n.resetPending && !n.timing.started
    && n.stats.resets == s.stats.resets + 1 && n.stats.foreign == s.stats.foreign
  }

  lemma TakeoverStored(cfg: Config, s: Talkback, p: Incoming)
    requires ValidConfig(cfg) && p.sequence < CYCLE && s.talker.active && s.talker.session != p.session && !Refused(cfg, s, p)
    ensures TakesOver(s, p, Next(cfg, s, Offer(p))) && Submit(cfg, s, p).1 != Foreign
  {
    SubmitIsStore(cfg, s, p);
    var r := Prepare(cfg, s, p);
    PrepareNotes(cfg, s, p);
    Takeover(cfg, s, p);
    StoreNotes(cfg, r.state, p, r.number);
  }

  lemma ForeignRefused(cfg: Config, s: Talkback, p: Incoming)
    requires ValidConfig(cfg) && Playable(p) && s.running && s.talker.active && s.talker.session != p.session
    requires Refused(cfg, s, p)
    ensures Next(cfg, s, Offer(p)) == s.(stats := s.stats.(foreign := s.stats.foreign + 1)) && Submit(cfg, s, p).1 == Foreign
  {
  }

  lemma ForeignIsRefused(cfg: Config, s: Talkback, p: Incoming)
    requires Playable(p) && s.running && s.talker.active && s.talker.session != p.session
    ensures Refused(cfg, s, p) <==> (p.arrival - s.talker.lastArrival) % 0x1_0000_0000_0000_0000 < cfg.timeoutUs
  {
  }

  /** If at least the timeout has passed since `heard`, by unsigned 64-bit subtraction, the packet takes the
      player over.  If not, it is counted and changes nothing else. */
  predicate TakesOverIfSilent(cfg: Config, s: Talkback, p: Incoming, heard: nat)
    requires ValidConfig(cfg) && p.sequence < CYCLE
  {
    var n, status := Next(cfg, s, Offer(p)), Submit(cfg, s, p).1;
    if (p.arrival - heard) % 0x1_0000_0000_0000_0000 >= cfg.timeoutUs
    then TakesOver(s, p, n) && status != Foreign
    else n == s.(stats := s.stats.(foreign := s.stats.foreign + 1)) && status == Foreign
  }

  lemma ForeignOffer(cfg: Config, s: Talkback, p: Incoming, heard: nat)
    requires ValidConfig(cfg) && Playable(p) && s.running && s.talker.active && s.talker.session != p.session
    requires HeardInv(s, heard)
    ensures TakesOverIfSilent(cfg, s, p, heard)
  {
    ForeignIsRefused(cfg, s, p);
    if Refused(cfg, s, p) {
      ForeignRefused(cfg, s, p);
    } else {
      TakeoverStored(cfg, s, p);
    }
  }

  /** Over any run: a packet of another session takes the player over exactly when the timeout has passed
      since a packet was last stored. */
  lemma {:induction false} ForeignPacket(cfg: Config, steps: seq<Step>, p: Incoming)
    requires ValidConfig(cfg) && Playable(p)
    requires var s := Run(cfg, Fresh(), steps); s.running && s.talker.active && s.talker.session != p.session
    ensures TakesOverIfSilent(cfg, Run(cfg, Fresh(), steps), p, Heard(cfg, Fresh(), steps, 0))
  {
    HeardRun(cfg, Fresh(), steps, 0);
    ForeignOffer(cfg, Run(cfg, Fresh(), steps), p, Heard(cfg, Fresh(), steps, 0));
  }

  /** A packet that cannot be played, or comes while the player is stopped, changes nothing. */
  lemma NotTaken(cfg: Config, s: Talkback, p: Incoming)
    requires ValidConfig(cfg) && (!Playable(p) || !s.running)
    ensures Next(cfg, s, Offer(p)) == s
    ensures p.sequence < CYCLE ==> Submit(cfg, s, p).1 == if Playable(p) then NotReady else InvalidParam
  {
  }

  /** A packet that selects its stream starts from nothing: it alone can be in the buffer, under its own
      16-bit number, and the decoder is to be reset. */
  ghost predicate StartsOver(s: Talkback, p: Incoming, n: Talkback) {
    && n.talker.active && n.talker.session == p.session && n.talker.ssrc == p.ssrc
    && n.selection == s.selection + 1 && n.resetPending && !n.timing.started
    && n.timing.hasHighest && n.timing.highest == p.sequence && n.timing.expected == 0
    && n.buffer.Keys == (if p.memory then {p.sequence} else {})
    && n.stats.resets == s.stats.resets + if s.talker.active then 1 else 0
  }

  /** The number of a packet of the stream that holds the player. */
  function OwnNumber(s: Talkback, p: Incoming): nat
    requires p.sequence < CYCLE
  {
    if s.timing.hasHighest then Extend(p.sequence, s.timing.highest) else p.sequence
  }

  /** The packet is ahead of everything the buffer could hold. */
  predicate Jumps(cfg: Config, s: Talkback, p: Incoming)
    requires p.sequence < CYCLE
  {
    s.timing.started && OwnNumber(s, p) > s.timing.expected + cfg.maxPackets
  }

  lemma FreshStore(cfg: Config, s: Talkback, p: Incoming, number: nat)
    requires ValidConfig(cfg) && s.buffer == map[] && !s.timing.started
    ensures var n := Store(cfg, s, p, number).0; n.buffer.Keys == if p.memory then {number} else {}
  {
    assert |map[number := Buffered(number, p.arrival, p.payload, s.selection)].Keys| == 1;
  }

  lemma FreshPrepared(cfg: Config, s: Talkback, p: Incoming)
    requires p.sequence < CYCLE && !Refused(cfg, s, p)
    requires !s.talker.active || s.talker.session != p.session || s.talker.ssrc != p.ssrc || Jumps(cfg, s, p)
    ensures var r := Prepare(cfg, s, p);
            && r.number == p.sequence && r.state.buffer == map[] && StartsOver(s, p.(memory := false), r.state)
  {
  }

  /** A stream is selected by the first packet of a talker, by another synchronization source of the same
      session, and by a packet that jumps ahead of the buffer. */
  lemma SelectingPacket(cfg: Config, s: Talkback, p: Incoming)
    requires ValidConfig(cfg) && Playable(p) && s.running
    requires !s.talker.active || (s.talker.session == p.session && (s.talker.ssrc != p.ssrc || Jumps(cfg, s, p)))
    ensures StartsOver(s, p, Next(cfg, s, Offer(p)))
  {
    SubmitIsStore(cfg, s, p);
    FreshPrepared(cfg, s, p);
    var r := Prepare(cfg, s, p);
    FreshStore(cfg, r.state, p, r.number);
    StoreNotes(cfg, r.state, p, r.number);
  }

  lemma OwnPrepared(cfg: Config, s: Talkback, p: Incoming)
    requires p.sequence < CYCLE && s.talker.active && s.talker.session == p.session && s.talker.ssrc == p.ssrc && !Jumps(cfg, s, p)
    ensures var k := OwnNumber(s, p);
            Prepare(cfg, s, p) ==
            Prepared(s.(timing := s.timing.(hasHighest := true,
                                            highest := if s.timing.hasHighest && s.timing.highest > k then s.timing.highest else k)), k)
  {
  }

  /** What becomes of packet `k` in a stream that goes on. */
  lemma StoreOutcome(cfg: Config, s: Talkback, p: Incoming, k: nat)
    requires ValidConfig(cfg) && |s.buffer| <= cfg.maxPackets
    ensures var (n, status) := Store(cfg, s, p, k);
            if s.timing.started && k < s.timing.expected then
              status == Late && n == s.(stats := s.stats.(late := s.stats.late + 1))
            else if k in s.buffer then
              status == Duplicate && n == s.(stats := s.stats.(duplicate := s.stats.duplicate + 1))
            else if !p.memory then status == NoMemory && n == s
            else
              && IsSmallest(n.buffer.Keys, s.buffer.Keys + {k}, cfg.maxPackets)
              && status == (if k in n.buffer then Accepted else Full)
              && n.stats.submitted == s.stats.submitted + 1
              && n.stats.overflow == s.stats.overflow + (if |s.buffer| == cfg.maxPackets then 1 else 0)
  {
    if k !in s.buffer && p.memory && !(s.timing.started && k < s.timing.expected) {
      var v := Buffered(k, p.arrival, p.payload, s.selection);
      var b := s.buffer[k := v];
      InsertOne(s.buffer, k, v);
      assert b.Keys == s.buffer.Keys + {k};
      assert |s.buffer| == |s.buffer.Keys| && |b| == |b.Keys|;
      AllAreSmallest(s.buffer.Keys, cfg.maxPackets);
      SmallestAfterInsert(s.buffer.Keys, s.buffer.Keys, cfg.maxPackets, k);
      assert (b - {Largest(b.Keys)}).Keys == b.Keys - {Largest(b.Keys)};
    }
  }

  lemma AllAreSmallest(all: set<nat>, most: nat)
    requires |all| <= most
    ensures IsSmallest(all, all, most)
  {
  }

  /** Any other packet of the talker leaves the selection alone.  It is refused if playout has passed its
      number, if it is there already, or if it cannot be copied; otherwise the buffer keeps the smallest
      numbers among those it had and the new one, as many as it may hold. */
  lemma {:induction false} OwnPacket(cfg: Config, steps: seq<Step>, p: Incoming)
    requires ValidConfig(cfg) && Playable(p)
    requires var s := Run(cfg, Fresh(), steps);
             s.running && s.talker.active && s.talker.session == p.session && s.talker.ssrc == p.ssrc && !Jumps(cfg, s, p)
    ensures var s := Run(cfg, Fresh(), steps);
            var n, k := Next(cfg, s, Offer(p)), OwnNumber(s, p);
            && n.selection == s.selection && n.resetPending == s.resetPending && n.worker == s.worker
            && n.timing == s.timing.(hasHighest := true, highest := n.timing.highest)
            && n.timing.highest == (if s.timing.hasHighest && s.timing.highest > k then s.timing.highest else k)
    ensures var s := Run(cfg, Fresh(), steps);
            var n, k, status := Next(cfg, s, Offer(p)), OwnNumber(s, p), Submit(cfg, s, p).1;
            if s.timing.started && k < s.timing.expected then
              status == Late && n.buffer == s.buffer && n.talker == s.talker && n.stats == s.stats.(late := s.stats.late + 1)
            else if k in s.buffer then
              && status == Duplicate && n.buffer == s.buffer && n.talker == s.talker
              && n.stats == s.stats.(duplicate := s.stats.duplicate + 1)
            else if !p.memory then status == NoMemory && n.buffer == s.buffer && n.talker == s.talker && n.stats == s.stats
            else
              && IsSmallest(n.buffer.Keys, s.buffer.Keys + {k}, cfg.maxPackets)
              && status == (if k in n.buffer then Accepted else Full)
              && n.stats.submitted == s.stats.submitted + 1
              && n.stats.overflow == s.stats.overflow + (if |s.buffer| == cfg.maxPackets then 1 else 0)
  {
    RunInv(cfg, steps);
    var s := Run(cfg, Fresh(), steps);
    SubmitIsStore(cfg, s, p);
    OwnPrepared(cfg, s, p);
    var r := Prepare(cfg, s, p);
    StoreNotes(cfg, r.state, p, r.number);
    StoreOutcome(cfg, r.state, p, r.number);
  }

  // ----- the worker ------------------------------------------------------------------------

  /** At the top of its loop the worker leaves when the player is stopped, else it takes up a pending reset,
      else a playout under way; else it starts one, at the smallest buffered number, exactly when enough
      packets are there. */
  lemma AtTheTop(cfg: Config, s: Talkback)
    requires ValidConfig(cfg) && s.worker == Top
    ensures var n := Next(cfg, s, AtTop);
            && n.buffer == s.buffer && n.talker == s.talker && n.stats == s.stats
            && n.selection == s.selection && n.running == s.running
            && n.worker == (if !s.running then Exited else if s.resetPending then Resetting
                            else if s.timing.started || |s.buffer| >= cfg.prebuffer then Timed else Top)
            && n.resetPending == (!s.running && s.resetPending)
            && (if s.running && !s.resetPending && !s.timing.started && |s.buffer| >= cfg.prebuffer then
                  && n.timing.started && n.timing.expected in s.buffer
                  && (forall k :: k in s.buffer ==> n.timing.expected <= k)
                  && n.history.trace == s.history.trace + [Started(n.timing.expected, n.timing.nextPts)]
                else n.timing == s.timing && n.history == s.history)
  {
    if |s.buffer| >= cfg.prebuffer {
      assert |s.buffer.Keys| > 0;
    }
  }

  /** The stream is over: nobody holds the player and the decoder is to be reset. */
  predicate GivenUp(s: Talkback, n: Talkback) {
    && n.worker == TimeoutResetting && !n.talker.active && !n.timing.started && !n.timing.hasHighest && !n.resetPending
    && n.stats == s.stats.(resets := s.stats.resets + 1) && n.history == s.history && n.selection == s.selection
  }

  /** One number is consumed, by decoding its packet if it is there and by concealing it if not, with the
      help of the next packet if that is there, and the clock moves on by one frame. */
  predicate OneFrame(cfg: Config, s: Talkback, memory: bool, n: Talkback) {
    var e := s.timing.expected;
    && n.timing == s.timing.(expected := e + 1, nextPts := s.timing.nextPts + cfg.frameUs)
    && n.buffer == s.buffer - {e} && n.talker == s.talker && n.stats == s.stats && n.worker.Busy?
    && n.history.trace == s.history.trace + [Played(e, s.timing.nextPts, e in s.buffer)]
    && (n.worker.job.Decode? <==> e in s.buffer)
    && (n.worker.job.Recover? ==>
          n.worker.job.missing == e && (n.worker.job.following.Some? <==> e + 1 in s.buffer && memory))
  }

  /** The stream is given up if nothing is buffered and the timeout has passed since `heard`; otherwise one
      frame is played. */
  predicate GivesUpIfSilent(cfg: Config, s: Talkback, now: nat, memory: bool, heard: nat)
    requires ValidConfig(cfg)
  {
    var n := Next(cfg, s, AtDeadline(now, memory));
    if s.buffer == map[] && heard != 0 && (now - heard) % 0x1_0000_0000_0000_0000 >= cfg.timeoutUs
    then GivenUp(s, n) else OneFrame(cfg, s, memory, n)
  }

  lemma Deadline(cfg: Config, s: Talkback, now: nat, memory: bool, heard: nat)
    requires ValidConfig(cfg) && s.worker == Timed && s.running && !s.resetPending && HeardInv(s, heard)
    ensures GivesUpIfSilent(cfg, s, now, memory, heard)
  {
  }

  /** At the time of a frame, over any run: the stream is given up exactly when nothing is buffered and the
      timeout has passed since a packet was last stored; otherwise one frame is played. */
  lemma {:induction false} AtTheDeadline(cfg: Config, steps: seq<Step>, now: nat, memory: bool)
    requires ValidConfig(cfg)
    requires var s := Run(cfg, Fresh(), steps); s.worker == Timed && s.running && !s.resetPending
    ensures GivesUpIfSilent(cfg, Run(cfg, Fresh(), steps), now, memory, Heard(cfg, Fresh(), steps, 0))
  {
    HeardRun(cfg, Fresh(), steps, 0);
    Deadline(cfg, Run(cfg, Fresh(), steps), now, memory, Heard(cfg, Fresh(), steps, 0));
  }

  /** A reset that has come up meanwhile, or the end, is dealt with before the next frame. */
  lemma Interrupted(cfg: Config, s: Talkback, now: nat, memory: bool)
    requires ValidConfig(cfg) && s.worker == Timed && (!s.running || s.resetPending)
    ensures Next(cfg, s, AtDeadline(now, memory)) == s.(worker := if s.running then Top else Exited)
  {
  }

  /** Outside the lock the worker does what it took up: one decoder reset, also after a stream was given up,
      or one frame. */
  lemma OutsideTheLock(cfg: Config, s: Talkback, readable: bool)
    requires ValidConfig(cfg)
    ensures var n := Next(cfg, s, Outside(readable));
            && n == s.(worker := n.worker, history := s.history.(trace := n.history.trace))
            && (s.worker == Resetting || s.worker == TimeoutResetting ==>
                  n.worker == Top && n.history.trace == s.history.trace + [DecoderReset])
            && (s.worker.Busy? ==>
                  && n.worker == Top && |n.history.trace| == |s.history.trace| + 1
                  && n.history.trace[..|s.history.trace|] == s.history.trace
                  && ((n.history.trace[|s.history.trace|].Skipped? <==> s.worker.job.Recover? && !readable)
                      && (n.history.trace[|s.history.trace|].Fed? <==> s.worker.job.Decode? || readable)))
            && (s.worker == Top || s.worker == Timed || s.worker == Exited ==> n == s)
  {
  }

  /** The player stops for good once the worker has left: nothing is buffered and nobody holds it. */
  lemma Stopping(cfg: Config, s: Talkback)
    requires ValidConfig(cfg)
    ensures Next(cfg, s, RequestStop) == s.(running := false)
    ensures var n := Next(cfg, s, FinishStop);
            if !s.running && s.worker == Exited
            then n.buffer == map[] && !n.talker.active && !n.timing.started && !n.resetPending && n.stats == s.stats
                 && n.history.flushed == s.history.flushed + |s.buffer| && n.history.trace == s.history.trace
            else n == s
  {
  }
}
