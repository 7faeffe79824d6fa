/** What holds of the jitter buffer, the decoder and the playout clock in every run, under any
    interleaving of submissions and worker sections. */
module TalkbackProperties {
  import opened Options
  import opened RtpSequence
  import opened Talkback

  datatype Step =
    | Offer(packet: Incoming)
    | AtTop
    | AtDeadline(now: nat, memory: bool)
    | Outside(readable: bool)
    | RequestStop
    | FinishStop

  function Next(cfg: Config, s: Talkback, step: Step): Talkback
    requires ValidConfig(cfg)
  {
    match step
    case Offer(p) => if p.sequence < CYCLE then Submit(cfg, s, p).0 else s
    case AtTop => if s.worker == Top then WorkerTop(cfg, s) else s
    case AtDeadline(now, memory) => if s.worker == Timed then WorkerDeadline(cfg, s, now, memory) else s
    case Outside(readable) => WorkerOutside(s, readable)
    case RequestStop => StopRequested(s)
    case FinishStop => Stopped(s)
  }

  function Run(cfg: Config, s: Talkback, steps: seq<Step>): Talkback
    requires ValidConfig(cfg)
    decreases |steps|
  {
    if steps == [] then s else Run(cfg, Next(cfg, s, steps[0]), steps[1..])
  }

  // ----- the shape of a submission ---------------------------------------------------------

  /** Every submission is a refusal, or a store into a state reached by at most one stream selection
      and one numbering. */
  datatype Prepared = Prepared(state: Talkback, number: nat)

  function Prepare(cfg: Config, s: Talkback, p: Incoming): Prepared
    requires p.sequence < CYCLE
  {
    var active := Select(s, p);
    var numbered := Number(active, p);
    if Discontinuous(cfg, numbered, NumberOf(active, p))
    then Prepared(FirstNumber(ResetStream(numbered, p.session, p.ssrc), p), p.sequence)
    else Prepared(numbered, NumberOf(active, p))
  }

  predicate Refused(cfg: Config, s: Talkback, p: Incoming) {
    !WellFormed(p) || !s.running || Rejected(cfg, s, p)
  }

  lemma SubmitIsStore(cfg: Config, s: Talkback, p: Incoming)
    requires p.sequence < CYCLE
    ensures Refused(cfg, s, p) ==>
              var r := Submit(cfg, s, p).0;
              r == s.(stats := r.stats) && r.stats.submitted == s.stats.submitted && r.stats.overflow == s.stats.overflow
    ensures !Refused(cfg, s, p) ==> Submit(cfg, s, p) == Store(cfg, Prepare(cfg, s, p).state, p, Prepare(cfg, s, p).number)
  {
  }

  /** What a submission leaves alone besides the buffer and the counters. */
  predicate SameStream(s: Talkback, n: Talkback) {
    && n.history.trace == s.history.trace
    && n.selection == s.selection
    && n.worker == s.worker
    && n.resetPending == s.resetPending
    && n.timing == s.timing
    && n.talker == s.talker.(lastArrival := n.talker.lastArrival)
  }

  lemma StoreSameStream(cfg: Config, s: Talkback, p: Incoming, extended: nat)
    ensures SameStream(s, Store(cfg, s, p, extended).0)
  {
  }

  lemma SubmitSameStream(cfg: Config, s: Talkback, p: Incoming)
    requires p.sequence < CYCLE
    ensures SameStream(if Refused(cfg, s, p) then s else Prepare(cfg, s, p).state, Submit(cfg, s, p).0)
  {
    SubmitIsStore(cfg, s, p);
    if !Refused(cfg, s, p) {
      StoreSameStream(cfg, Prepare(cfg, s, p).state, p, Prepare(cfg, s, p).number);
    }
  }

  // ----- the buffer ------------------------------------------------------------------------

  predicate Entry(s: Talkback, k: nat)
    requires k in s.buffer
  {
    && s.buffer[k].extended == k
    && s.buffer[k].selection == s.selection
    && k <= s.timing.highest
    && (s.timing.started ==> k >= s.timing.expected)
  }

  /** Sizes, bounds and tags of the buffer, and where each submitted packet went. */
  predicate BufferInv(cfg: Config, s: Talkback) {
    && (forall k :: k in s.buffer ==> Entry(s, k))
    && (s.buffer != map[] ==> s.timing.hasHighest && s.talker.active)
    && |s.buffer| <= cfg.maxPackets
    && (s.resetPending ==> !s.timing.started)
    && (s.worker == Timed && !s.resetPending ==> s.timing.started)
    && s.stats.submitted == s.history.extracted + s.stats.overflow + s.history.flushed + |s.buffer|
  }

  lemma RemoveOne(b: map<nat, Buffered>, k: nat)
    ensures |b - {k}| == if k in b then |b| - 1 else |b|
  {
    assert (b - {k}).Keys == b.Keys - {k};
    assert |b - {k}| == |(b - {k}).Keys|;
    assert |b| == |b.Keys|;
  }

  lemma InsertOne(b: map<nat, Buffered>, k: nat, v: Buffered)
    requires k !in b
    ensures |b[k := v]| == |b| + 1
  {
    assert b[k := v].Keys == b.Keys + {k};
    assert |b[k := v]| == |b[k := v].Keys| && |b| == |b.Keys|;
  }

  lemma PrepareKeepsBuffer(cfg: Config, s: Talkback, p: Incoming)
    requires BufferInv(cfg, s) && p.sequence < CYCLE
    ensures var r := Prepare(cfg, s, p);
            BufferInv(cfg, r.state) && r.state.timing.hasHighest && r.state.talker.active
            && r.number <= r.state.timing.highest
  {
    var active := Select(s, p);
    assert BufferInv(cfg, active);
    var numbered := Number(active, p);
    assert BufferInv(cfg, numbered) by {
      forall k | k in numbered.buffer ensures Entry(numbered, k) {
        assert Entry(active, k);
      }
    }
  }

  lemma InsertKeepsBuffer(cfg: Config, s: Talkback, p: Incoming, number: nat)
    requires ValidConfig(cfg) && BufferInv(cfg, s) && s.timing.hasHighest && s.talker.active
    requires number <= s.timing.highest && number !in s.buffer && (s.timing.started ==> number >= s.timing.expected)
    ensures BufferInv(cfg, Insert(cfg, s, p, number))
  {
    var v := Buffered(number, p.arrival, p.payload, s.selection);
    var b := s.buffer[number := v];
    InsertOne(s.buffer, number, v);
    var r := Insert(cfg, s, p, number);
    if |b| > cfg.maxPackets {
      RemoveOne(b, Largest(b.Keys));
    }
    forall k | k in r.buffer ensures Entry(r, k) {
      assert k == number || k in s.buffer;
      if k != number {
        assert Entry(s, k);
      }
    }
  }

  lemma KeepsEntries(cfg: Config, s: Talkback, step: Step)
    requires ValidConfig(cfg) && BufferInv(cfg, s) && !step.Offer?
    requires step.AtDeadline? ==> !(s.worker == Timed && s.running && !s.resetPending && !TimedOut(cfg, s, step.now))
    ensures BufferInv(cfg, Next(cfg, s, step))
  {
    var n := Next(cfg, s, step);
    forall k | k in n.buffer ensures Entry(n, k) {
      assert Entry(s, k);
    }
  }

  lemma ConsumeKeepsBuffer(cfg: Config, s: Talkback, memory: bool)
    requires BufferInv(cfg, s) && s.timing.started && !s.resetPending
    ensures BufferInv(cfg, Consume(cfg, s, memory))
  {
    var n := Consume(cfg, s, memory);
    RemoveOne(s.buffer, s.timing.expected);
    forall k | k in n.buffer ensures Entry(n, k) {
      assert k in s.buffer && k != s.timing.expected && Entry(s, k);
    }
  }

  lemma BufferStep(cfg: Config, s: Talkback, step: Step)
    requires ValidConfig(cfg) && BufferInv(cfg, s)
    ensures BufferInv(cfg, Next(cfg, s, step))
  {
    match step
    case Offer(p) =>
      if p.sequence < CYCLE {
        SubmitIsStore(cfg, s, p);
        var r := Prepare(cfg, s, p);
        PrepareKeepsBuffer(cfg, s, p);
        if Refused(cfg, s, p) {
          var n := Next(cfg, s, step);
          forall k | k in n.buffer ensures Entry(n, k) {
            assert Entry(s, k);
          }
        } else if !(r.state.timing.started && r.number < r.state.timing.expected) && r.number !in r.state.buffer {
          InsertKeepsBuffer(cfg, r.state, p, r.number);
        } else {
          var n := Next(cfg, s, step);
          forall k | k in n.buffer ensures Entry(n, k) {
            assert Entry(r.state, k);
          }
        }
      }
    case AtDeadline(now, memory) =>
      if s.worker == Timed && s.running && !s.resetPending && !TimedOut(cfg, s, now) {
        ConsumeKeepsBuffer(cfg, s, memory);
      } else {
        KeepsEntries(cfg, s, step);
      }
    case AtTop =>
      KeepsEntries(cfg, s, step);
    case Outside(readable) =>
      KeepsEntries(cfg, s, step);
    case RequestStop =>
      KeepsEntries(cfg, s, step);
    case FinishStop =>
      KeepsEntries(cfg, s, step);
  }

  // ----- the k smallest --------------------------------------------------------------------

  /** `kept` holds the `most` smallest elements of `all`, or all of them if there are fewer. */
  ghost predicate IsSmallest(kept: set<nat>, all: set<nat>, most: nat) {
    && kept <= all
    && (forall a, b :: a in kept && b in all - kept ==> a < b)
    && |kept| <= most
    && (|kept| == most || kept == all)
  }

  lemma SmallestAfterInsert(kept: set<nat>, all: set<nat>, most: nat, x: nat)
    requires most > 0 && IsSmallest(kept, all, most) && x !in kept
    ensures var more := kept + {x};
            IsSmallest(if |more| > most then more - {Largest(more)} else more, all + {x}, most)
  {
    var more := kept + {x};
    if |more| > most {
      var top := Largest(more);
      var rest := more - {top};
      assert |rest| == most;
      forall a, b | a in rest && b in (all + {x}) - rest ensures a < b {
        if b == top {
          assert a != top;
        } else {
          assert b != x && b in all - kept;
          if a != x {
            assert a in kept;
          } else {
            assert top in kept;
          }
        }
      }
    } else {
      assert kept == all;
    }
  }

  /** Until playout starts the buffer keeps the smallest numbers offered since the stream was selected. */
  ghost predicate SmallestInv(cfg: Config, s: Talkback) {
    s.talker.active && !s.timing.started ==> IsSmallest(s.buffer.Keys, s.history.offered, cfg.maxPackets)
  }

  lemma InsertKeepsSmallest(cfg: Config, s: Talkback, p: Incoming, number: nat)
    requires ValidConfig(cfg) && number !in s.buffer
    requires IsSmallest(s.buffer.Keys, s.history.offered, cfg.maxPackets)
    ensures var r := Insert(cfg, s, p, number);
            IsSmallest(r.buffer.Keys, r.history.offered, cfg.maxPackets)
  {
    var b := s.buffer[number := Buffered(number, p.arrival, p.payload, s.selection)];
    assert b.Keys == s.buffer.Keys + {number};
    assert |b| == |b.Keys|;
    SmallestAfterInsert(s.buffer.Keys, s.history.offered, cfg.maxPackets, number);
    assert (b - {Largest(b.Keys)}).Keys == b.Keys - {Largest(b.Keys)};
  }

  lemma PrepareKeepsSmallest(cfg: Config, s: Talkback, p: Incoming)
    requires ValidConfig(cfg) && SmallestInv(cfg, s) && p.sequence < CYCLE
    ensures SmallestInv(cfg, Prepare(cfg, s, p).state) && Prepare(cfg, s, p).state.talker.active
  {
    assert SmallestInv(cfg, Select(s, p));
  }

  lemma SmallestOffer(cfg: Config, s: Talkback, p: Incoming)
    requires ValidConfig(cfg) && SmallestInv(cfg, s) && p.sequence < CYCLE
    ensures SmallestInv(cfg, Submit(cfg, s, p).0)
  {
    SubmitIsStore(cfg, s, p);
    if !Refused(cfg, s, p) {
      var r := Prepare(cfg, s, p);
      PrepareKeepsSmallest(cfg, s, p);
      if r.number !in r.state.buffer && !r.state.timing.started {
        InsertKeepsSmallest(cfg, r.state, p, r.number);
      }
    }
  }

  lemma SmallestStep(cfg: Config, s: Talkback, step: Step)
    requires ValidConfig(cfg) && BufferInv(cfg, s) && SmallestInv(cfg, s)
    ensures SmallestInv(cfg, Next(cfg, s, step))
  {
    if step.Offer? && step.packet.sequence < CYCLE {
      SmallestOffer(cfg, s, step.packet);
    }
  }

  // ----- traces ----------------------------------------------------------------------------

  predicate NoReset(trace: seq<Event>, from: nat) {
    forall i :: from < i < |trace| ==> trace[i] != DecoderReset
  }

  /** Everything the decoder was fed since its last reset belongs to selection `k`. */
  predicate FedSince(trace: seq<Event>, k: nat) {
    forall i :: 0 <= i < |trace| && trace[i].Fed? && NoReset(trace, i) ==> trace[i].selection == k
  }

  /** Two feeds with no reset between them belong to one selection. */
  ghost predicate OneSelectionPerEpoch(trace: seq<Event>) {
    forall i, j :: 0 <= i < j < |trace| && trace[i].Fed? && trace[j].Fed? && NoReset(trace[..j], i) ==>
      trace[i].selection == trace[j].selection
  }

  /** The decoder was reset after selection `k` was made. */
  ghost predicate Armed(trace: seq<Event>, k: nat) {
    exists i, j :: 0 <= i < j < |trace| && trace[i] == Selected(k) && trace[j] == DecoderReset
  }

  ghost predicate FedOnlyArmed(trace: seq<Event>) {
    forall n :: 0 <= n < |trace| && trace[n].Fed? ==> Armed(trace[..n], trace[n].selection)
  }

  lemma FedSinceAppend(trace: seq<Event>, e: Event, k: nat)
    requires e == DecoderReset || FedSince(trace, k)
    requires e.Fed? ==> e.selection == k
    ensures FedSince(trace + [e], k)
  {
    var t := trace + [e];
    forall i | 0 <= i < |t| && t[i].Fed? && NoReset(t, i) ensures t[i].selection == k {
      if i < |trace| {
        assert t[|trace|] == e;
        assert NoReset(trace, i) by {
          forall m | i < m < |trace| ensures trace[m] != DecoderReset {
            assert t[m] == trace[m];
          }
        }
      }
    }
  }

  lemma EpochAppend(trace: seq<Event>, e: Event)
    requires OneSelectionPerEpoch(trace) && (e.Fed? ==> FedSince(trace, e.selection))
    ensures OneSelectionPerEpoch(trace + [e])
  {
    var t := trace + [e];
    forall i, j | 0 <= i < j < |t| && t[i].Fed? && t[j].Fed? && NoReset(t[..j], i)
      ensures t[i].selection == t[j].selection
    {
      if j < |trace| {
        assert t[..j] == trace[..j];
      } else {
        assert t[..j] == trace;
      }
    }
  }

  lemma ArmedAppend(trace: seq<Event>, e: Event, k: nat)
    requires Armed(trace, k)
    ensures Armed(trace + [e], k)
  {
    var i, j :| 0 <= i < j < |trace| && trace[i] == Selected(k) && trace[j] == DecoderReset;
    var t := trace + [e];
    assert t[i] == Selected(k) && t[j] == DecoderReset;
  }

  lemma FedArmedAppend(trace: seq<Event>, e: Event)
    requires FedOnlyArmed(trace) && (e.Fed? ==> Armed(trace, e.selection))
    ensures FedOnlyArmed(trace + [e])
  {
    var t := trace + [e];
    forall n | 0 <= n < |t| && t[n].Fed? ensures Armed(t[..n], t[n].selection) {
      if n < |trace| {
        assert t[..n] == trace[..n];
      } else {
        assert t[..n] == trace;
      }
    }
  }

  // ----- decoder epochs --------------------------------------------------------------------

  /** A reset is still to come before the next feed; after the worker's exit there is no feed. */
  predicate AboutToReset(s: Talkback) {
    s.resetPending || s.worker == Resetting || s.worker == Exited
  }

  ghost predicate EpochInv(s: Talkback) {
    var t := s.history.trace;
    && OneSelectionPerEpoch(t)
    && FedOnlyArmed(t)
    && (s.selection > 0 ==> Selected(s.selection) in t)
    && (s.talker.active ==> s.selection > 0)
    && (s.timing.started ==> s.selection > 0)
    && (!AboutToReset(s) ==> FedSince(t, s.selection) && (s.selection > 0 ==> Armed(t, s.selection)))
    && (s.worker.Busy? ==>
          var k := Feeds(s.worker.job);
          FedSince(t, k) && Armed(t, k) && (!s.resetPending ==> k == s.selection))
  }

  lemma SelectedThenReset(trace: seq<Event>, k: nat)
    requires Selected(k) in trace
    ensures Armed(trace + [DecoderReset], k)
  {
    var i :| 0 <= i < |trace| && trace[i] == Selected(k);
    var t := trace + [DecoderReset];
    assert t[i] == Selected(k) && t[|trace|] == DecoderReset;
  }

  /** Appending an event the decoder does not see changes nothing about its epochs. */
  lemma QuietAppend(s: Talkback, e: Event, n: Talkback)
    requires EpochInv(s) && !e.Fed? && e != DecoderReset
    requires n.history.trace == s.history.trace + [e]
    ensures OneSelectionPerEpoch(n.history.trace) && FedOnlyArmed(n.history.trace)
    ensures forall k :: FedSince(s.history.trace, k) ==> FedSince(n.history.trace, k)
    ensures forall k :: Armed(s.history.trace, k) ==> Armed(n.history.trace, k)
    ensures forall x :: x in s.history.trace ==> x in n.history.trace
  {
    EpochAppend(s.history.trace, e);
    FedArmedAppend(s.history.trace, e);
    forall k | FedSince(s.history.trace, k) ensures FedSince(n.history.trace, k) {
      FedSinceAppend(s.history.trace, e, k);
    }
    forall k | Armed(s.history.trace, k) ensures Armed(n.history.trace, k) {
      ArmedAppend(s.history.trace, e, k);
    }
  }

  lemma ResetKeepsEpochs(s: Talkback, session: string, ssrc: nat)
    requires EpochInv(s)
    ensures EpochInv(ResetStream(s, session, ssrc))
  {
    QuietAppend(s, Selected(s.selection + 1), ResetStream(s, session, ssrc));
  }

  lemma OutsideKeepsEpochs(s: Talkback, readable: bool)
    requires EpochInv(s)
    ensures EpochInv(WorkerOutside(s, readable))
  {
    var n := WorkerOutside(s, readable);
    var t := s.history.trace;
    if s.worker == Resetting || s.worker == TimeoutResetting {
      EpochAppend(t, DecoderReset);
      FedArmedAppend(t, DecoderReset);
      FedSinceAppend(t, DecoderReset, s.selection);
      if s.selection > 0 {
        SelectedThenReset(t, s.selection);
      }
    } else if s.worker.Busy? && Outcome(s.worker.job, readable).Skipped? {
      QuietAppend(s, Outcome(s.worker.job, readable), n);
    } else if s.worker.Busy? {
      var k := Feeds(s.worker.job);
      EpochAppend(t, Call(s.worker.job));
      FedArmedAppend(t, Call(s.worker.job));
      FedSinceAppend(t, Call(s.worker.job), k);
      if s.selection > 0 && Armed(t, s.selection) {
        ArmedAppend(t, Call(s.worker.job), s.selection);
      }
    }
  }

  /** The fields epochs do not depend on. */
  lemma EpochFrame(s: Talkback, n: Talkback)
    requires EpochInv(s)
    requires n.history.trace == s.history.trace && n.selection == s.selection
    requires n.worker == s.worker && n.resetPending == s.resetPending
    requires (n.talker.active ==> s.talker.active) && (n.timing.started ==> s.timing.started)
    ensures EpochInv(n)
  {
  }

  lemma PrepareKeepsEpochs(cfg: Config, s: Talkback, p: Incoming)
    requires EpochInv(s) && p.sequence < CYCLE
    ensures EpochInv(Prepare(cfg, s, p).state) && Prepare(cfg, s, p).state.talker.active
  {
    var active := Select(s, p);
    assert EpochInv(active) by {
      ResetKeepsEpochs(s, p.session, p.ssrc);
    }
    var numbered := Number(active, p);
    EpochFrame(active, numbered);
    var again := ResetStream(numbered, p.session, p.ssrc);
    assert EpochInv(again) by {
      ResetKeepsEpochs(numbered, p.session, p.ssrc);
    }
    EpochFrame(again, FirstNumber(again, p));
  }

  lemma OfferKeepsEpochs(cfg: Config, s: Talkback, p: Incoming)
    requires EpochInv(s) && p.sequence < CYCLE
    ensures EpochInv(Submit(cfg, s, p).0)
  {
    SubmitSameStream(cfg, s, p);
    PrepareKeepsEpochs(cfg, s, p);
    EpochFrame(if Refused(cfg, s, p) then s else Prepare(cfg, s, p).state, Submit(cfg, s, p).0);
  }

  lemma ConsumeKeepsEpochs(cfg: Config, s: Talkback, memory: bool)
    requires EpochInv(s) && BufferInv(cfg, s) && s.worker == Timed && !s.resetPending
    ensures EpochInv(Consume(cfg, s, memory))
  {
    var e := s.timing.expected;
    QuietAppend(s, Played(e, s.timing.nextPts, e in s.buffer), Consume(cfg, s, memory));
    if e in s.buffer {
      assert Entry(s, e);
    } else if e + 1 in s.buffer {
      assert Entry(s, e + 1);
    }
    assert Feeds(NextJob(s, memory)) == s.selection;
  }

  lemma EpochStep(cfg: Config, s: Talkback, step: Step)
    requires ValidConfig(cfg) && EpochInv(s) && BufferInv(cfg, s)
    ensures EpochInv(Next(cfg, s, step))
  {
    match step
    case Offer(p) =>
      if p.sequence < CYCLE {
        OfferKeepsEpochs(cfg, s, p);
      }
    case AtTop =>
      if s.worker == Top && s.running && !s.resetPending && !s.timing.started && |s.buffer| >= cfg.prebuffer {
        var first := Smallest(s.buffer.Keys);
        assert |s.buffer.Keys| > 0;
        QuietAppend(s, Started(first, s.buffer[first].arrival), StartPlayout(s));
      }
    case AtDeadline(now, memory) =>
      if s.worker == Timed && s.running && !s.resetPending && !TimedOut(cfg, s, now) {
        ConsumeKeepsEpochs(cfg, s, memory);
      }
    case Outside(readable) =>
      OutsideKeepsEpochs(s, readable);
    case RequestStop =>
    case FinishStop =>
  }

  // ----- the playout clock -----------------------------------------------------------------

  /** What the next frame must be, as far as the trace tells. */
  function NextFrame(trace: seq<Event>, frameUs: nat): Option<(nat, nat)> {
    if trace == [] then None
    else
      match trace[|trace| - 1]
      case Started(first, pts) => Some((first, pts))
      case Played(extended, pts, _) => Some((extended + 1, pts + frameUs))
      case _ => NextFrame(trace[..|trace| - 1], frameUs)
  }

  /** Every played frame is the one right after the previous played frame, or the first of a playout. */
  predicate Consecutive(trace: seq<Event>, frameUs: nat) {
    forall i :: 0 <= i < |trace| && trace[i].Played? ==>
      NextFrame(trace[..i], frameUs) == Some((trace[i].extended, trace[i].pts))
  }

  predicate PlayInv(cfg: Config, s: Talkback) {
    && Consecutive(s.history.trace, cfg.frameUs)
    && (s.timing.started ==> NextFrame(s.history.trace, cfg.frameUs) == Some((s.timing.expected, s.timing.nextPts)))
  }

  lemma FrameAppend(trace: seq<Event>, e: Event, frameUs: nat)
    requires Consecutive(trace, frameUs)
    requires e.Played? ==> NextFrame(trace, frameUs) == Some((e.extended, e.pts))
    ensures Consecutive(trace + [e], frameUs)
    ensures NextFrame(trace + [e], frameUs) ==
            match e { case Started(f, p) => Some((f, p)) case Played(x, p, _) => Some((x + 1, p + frameUs)) case _ => NextFrame(trace, frameUs) }
  {
    var t := trace + [e];
    assert t[..|trace|] == trace;
    forall i | 0 <= i < |t| && t[i].Played? ensures NextFrame(t[..i], frameUs) == Some((t[i].extended, t[i].pts)) {
      if i < |trace| {
        assert t[..i] == trace[..i];
      }
    }
  }

  lemma ResetKeepsPlay(cfg: Config, s: Talkback, session: string, ssrc: nat)
    requires PlayInv(cfg, s)
    ensures PlayInv(cfg, ResetStream(s, session, ssrc))
  {
    FrameAppend(s.history.trace, Selected(s.selection + 1), cfg.frameUs);
  }

  lemma PrepareKeepsPlay(cfg: Config, s: Talkback, p: Incoming)
    requires PlayInv(cfg, s) && p.sequence < CYCLE
    ensures PlayInv(cfg, Prepare(cfg, s, p).state)
  {
    ResetKeepsPlay(cfg, s, p.session, p.ssrc);
    var numbered := Number(Select(s, p), p);
    assert PlayInv(cfg, numbered);
    ResetKeepsPlay(cfg, numbered, p.session, p.ssrc);
  }

  lemma OfferKeepsPlay(cfg: Config, s: Talkback, p: Incoming)
    requires PlayInv(cfg, s) && p.sequence < CYCLE
    ensures PlayInv(cfg, Submit(cfg, s, p).0)
  {
    SubmitSameStream(cfg, s, p);
    PrepareKeepsPlay(cfg, s, p);
  }

  lemma OutsideKeepsPlay(cfg: Config, s: Talkback, readable: bool)
    requires PlayInv(cfg, s)
    ensures PlayInv(cfg, WorkerOutside(s, readable))
  {
    FrameAppend(s.history.trace, DecoderReset, cfg.frameUs);
    if s.worker.Busy? {
      FrameAppend(s.history.trace, Outcome(s.worker.job, readable), cfg.frameUs);
    }
  }

  lemma StartKeepsPlay(cfg: Config, s: Talkback)
    requires PlayInv(cfg, s) && s.buffer.Keys != {}
    ensures PlayInv(cfg, StartPlayout(s))
  {
    var first := Smallest(s.buffer.Keys);
    FrameAppend(s.history.trace, Started(first, s.buffer[first].arrival), cfg.frameUs);
  }

  lemma ConsumeKeepsPlay(cfg: Config, s: Talkback, memory: bool)
    requires PlayInv(cfg, s) && s.timing.started
    ensures PlayInv(cfg, Consume(cfg, s, memory))
  {
    FrameAppend(s.history.trace, Played(s.timing.expected, s.timing.nextPts, s.timing.expected in s.buffer), cfg.frameUs);
  }

  lemma PlayStep(cfg: Config, s: Talkback, step: Step)
    requires ValidConfig(cfg) && PlayInv(cfg, s) && BufferInv(cfg, s)
    ensures PlayInv(cfg, Next(cfg, s, step))
  {
    match step
    case Offer(p) =>
      if p.sequence < CYCLE {
        OfferKeepsPlay(cfg, s, p);
      }
    case AtTop =>
      if s.worker == Top && s.running && !s.resetPending && !s.timing.started && |s.buffer| >= cfg.prebuffer {
        assert |s.buffer.Keys| > 0;
        StartKeepsPlay(cfg, s);
      }
    case AtDeadline(now, memory) =>
      if s.worker == Timed && s.running && !s.resetPending && !TimedOut(cfg, s, now) {
        ConsumeKeepsPlay(cfg, s, memory);
      }
    case Outside(readable) =>
      OutsideKeepsPlay(cfg, s, readable);
    case RequestStop =>
    case FinishStop =>
  }

  /** The number of frames played between two places of a trace. */
  function CountPlayed(trace: seq<Event>, lo: nat, hi: nat): nat
    requires lo <= hi && hi <= |trace|
    decreases hi
  {
    if lo == hi then 0 else CountPlayed(trace, lo, hi - 1) + (if trace[hi - 1].Played? then 1 else 0)
  }

  lemma OneMoreDuration(n: nat, frameUs: nat)
    ensures (n + 1) * frameUs == n * frameUs + frameUs
  {
  }

  /** What the last event of a prefix says about the next frame. */
  lemma NextAfter(trace: seq<Event>, frameUs: nat, i: nat)
    requires Consecutive(trace, frameUs) && i < |trace|
    ensures NextFrame(trace[..i + 1], frameUs) ==
            match trace[i] {
              case Started(first, pts) => Some((first, pts))
              case Played(x, pts, _) => Some((x + 1, pts + frameUs))
              case _ => NextFrame(trace[..i], frameUs)
            }
    ensures trace[i].Played? ==> NextFrame(trace[..i], frameUs) == Some((trace[i].extended, trace[i].pts))
  {
    assert trace[..i + 1][..i] == trace[..i] && trace[..i + 1][i] == trace[i];
  }

  /** In a playout that started with number `first` at time `pts`, the n-th frame has number first + n
      and is due n frame durations later. */
  lemma {:induction false} NthFrame(trace: seq<Event>, frameUs: nat, start: nat, i: nat)
    requires Consecutive(trace, frameUs) && start < i <= |trace| && trace[start].Started?
    requires forall k :: start < k < i ==> !trace[k].Started?
    ensures var n := CountPlayed(trace, start + 1, i);
            NextFrame(trace[..i], frameUs) == Some((trace[start].first + n, trace[start].pts + n * frameUs))
    decreases i
  {
    NextAfter(trace, frameUs, i - 1);
    if i == start + 1 {
    } else {
      NthFrame(trace, frameUs, start, i - 1);
      OneMoreDuration(CountPlayed(trace, start + 1, i - 1), frameUs);
    }
  }

  // ----- every frame is served once --------------------------------------------------------

  /** A frame: its number, and whether its own packet was there. */
  datatype Frame = Frame(extended: nat, decoded: bool)

  /** The frames consumed, in order. */
  function Consumed(trace: seq<Event>): seq<Frame> {
    if trace == [] then []
    else Consumed(trace[..|trace| - 1])
         + match trace[|trace| - 1] { case Played(x, _, d) => [Frame(x, d)] case _ => [] }
  }

  /** What an event does for a frame: the decoder is called for it, or its concealment is given up. */
  function ServedBy(e: Event): seq<Frame> {
    match e
    case Fed(_, x, d, _) => [Frame(x, d)]
    case Skipped(x) => [Frame(x, false)]
    case _ => []
  }

  /** The frames the decoder was called for or whose concealment was given up, in order. */
  function Served(trace: seq<Event>): seq<Frame> {
    if trace == [] then [] else Served(trace[..|trace| - 1]) + ServedBy(trace[|trace| - 1])
  }

  /** Whenever a frame is served, the frames served, this one included, are exactly those consumed. */
  predicate ServedInOrder(trace: seq<Event>) {
    forall j :: 0 <= j < |trace| && ServedBy(trace[j]) != [] ==>
      Served(trace[..j]) + ServedBy(trace[j]) == Consumed(trace[..j])
  }

  function Outstanding(w: Worker): seq<Frame> {
    match w
    case Busy(job) => [Frame(Call(job).extended, Call(job).decoded)]
    case _ => []
  }

  predicate ServiceInv(s: Talkback) {
    && Consumed(s.history.trace) == Served(s.history.trace) + Outstanding(s.worker)
    && ServedInOrder(s.history.trace)
  }

  lemma FramesAppend(trace: seq<Event>, e: Event)
    ensures Consumed(trace + [e]) == Consumed(trace) + match e { case Played(x, _, d) => [Frame(x, d)] case _ => [] }
    ensures Served(trace + [e]) == Served(trace) + ServedBy(e)
  {
    assert (trace + [e])[..|trace|] == trace;
  }

  lemma ServedAppend(trace: seq<Event>, e: Event)
    requires ServedInOrder(trace)
    requires ServedBy(e) != [] ==> Served(trace) + ServedBy(e) == Consumed(trace)
    ensures ServedInOrder(trace + [e])
  {
    var t := trace + [e];
    forall j | 0 <= j < |t| && ServedBy(t[j]) != []
      ensures Served(t[..j]) + ServedBy(t[j]) == Consumed(t[..j])
    {
      if j < |trace| {
        assert t[..j] == trace[..j];
      } else {
        assert t[..j] == trace;
      }
    }
  }

  /** An event that neither consumes nor serves a frame, with the worker as idle as before. */
  lemma QuietKeepsServed(s: Talkback, e: Event, n: Talkback)
    requires ServiceInv(s) && ServedBy(e) == [] && !e.Played? && n.history.trace == s.history.trace + [e]
    requires Outstanding(n.worker) == Outstanding(s.worker)
    ensures ServiceInv(n)
  {
    FramesAppend(s.history.trace, e);
    ServedAppend(s.history.trace, e);
  }

  lemma ResetKeepsServed(s: Talkback, session: string, ssrc: nat)
    requires ServiceInv(s)
    ensures ServiceInv(ResetStream(s, session, ssrc))
  {
    QuietKeepsServed(s, Selected(s.selection + 1), ResetStream(s, session, ssrc));
  }

  lemma OfferKeepsServed(cfg: Config, s: Talkback, p: Incoming)
    requires ServiceInv(s) && p.sequence < CYCLE
    ensures ServiceInv(Submit(cfg, s, p).0)
  {
    SubmitSameStream(cfg, s, p);
    ResetKeepsServed(s, p.session, p.ssrc);
    var numbered := Number(Select(s, p), p);
    assert ServiceInv(numbered);
    ResetKeepsServed(numbered, p.session, p.ssrc);
    assert ServiceInv(Prepare(cfg, s, p).state);
  }

  lemma ConsumeKeepsServed(cfg: Config, s: Talkback, memory: bool)
    requires ServiceInv(s) && BufferInv(cfg, s) && s.worker == Timed
    ensures ServiceInv(Consume(cfg, s, memory))
  {
    var e := s.timing.expected;
    var event := Played(e, s.timing.nextPts, e in s.buffer);
    FramesAppend(s.history.trace, event);
    ServedAppend(s.history.trace, event);
    if e in s.buffer {
      assert Entry(s, e);
    }
  }

  lemma OutsideKeepsServed(s: Talkback, readable: bool)
    requires ServiceInv(s)
    ensures ServiceInv(WorkerOutside(s, readable))
  {
    if s.worker.Busy? {
      FramesAppend(s.history.trace, Outcome(s.worker.job, readable));
      ServedAppend(s.history.trace, Outcome(s.worker.job, readable));
    } else if s.worker == Resetting || s.worker == TimeoutResetting {
      QuietKeepsServed(s, DecoderReset, WorkerOutside(s, readable));
    }
  }

  lemma ServiceStep(cfg: Config, s: Talkback, step: Step)
    requires ValidConfig(cfg) && ServiceInv(s) && BufferInv(cfg, s)
    ensures ServiceInv(Next(cfg, s, step))
  {
    match step
    case Offer(p) =>
      if p.sequence < CYCLE {
        OfferKeepsServed(cfg, s, p);
      }
    case AtTop =>
      if s.worker == Top && s.running && !s.resetPending && !s.timing.started && |s.buffer| >= cfg.prebuffer {
        assert |s.buffer.Keys| > 0;
        var first := Smallest(s.buffer.Keys);
        QuietKeepsServed(s, Started(first, s.buffer[first].arrival), StartPlayout(s));
      }
    case AtDeadline(now, memory) =>
      if s.worker == Timed && s.running && !s.resetPending && !TimedOut(cfg, s, now) {
        ConsumeKeepsServed(cfg, s, memory);
      }
    case Outside(readable) =>
      OutsideKeepsServed(s, readable);
    case RequestStop =>
    case FinishStop =>
  }

  // ----- whole runs ------------------------------------------------------------------------

  ghost predicate Inv(cfg: Config, s: Talkback) {
    BufferInv(cfg, s) && SmallestInv(cfg, s) && EpochInv(s) && PlayInv(cfg, s) && ServiceInv(s)
  }

  lemma {:induction false} InvRun(cfg: Config, s: Talkback, steps: seq<Step>)
    requires ValidConfig(cfg) && Inv(cfg, s)
    ensures Inv(cfg, Run(cfg, s, steps))
    decreases |steps|
  {
    if steps == [] {
    } else {
      BufferStep(cfg, s, steps[0]);
      SmallestStep(cfg, s, steps[0]);
      EpochStep(cfg, s, steps[0]);
      PlayStep(cfg, s, steps[0]);
      ServiceStep(cfg, s, steps[0]);
      InvRun(cfg, Next(cfg, s, steps[0]), steps[1..]);
    }
  }

  lemma RunInv(cfg: Config, steps: seq<Step>)
    requires ValidConfig(cfg)
    ensures Inv(cfg, Run(cfg, Fresh(), steps))
  {
    InvRun(cfg, Fresh(), steps);
  }

  /** All packets handed to the decoder between two of its resets belong to one stream selection. */
  lemma {:induction false} EpochIsolation(cfg: Config, steps: seq<Step>, i: nat, j: nat)
    requires ValidConfig(cfg)
    requires var t := Run(cfg, Fresh(), steps).history.trace;
             i < j < |t| && t[i].Fed? && t[j].Fed? && t[i].selection != t[j].selection
    ensures var t := Run(cfg, Fresh(), steps).history.trace;
            exists m :: i < m < j && t[m] == DecoderReset
  {
    RunInv(cfg, steps);
    var t := Run(cfg, Fresh(), steps).history.trace;
    assert !NoReset(t[..j], i);
    var m :| i < m < |t[..j]| && t[..j][m] == DecoderReset;
    assert t[m] == DecoderReset;
  }

  /** No packet of a selection reaches the decoder before a reset made after that selection. */
  lemma {:induction false} FedOnlyAfterItsReset(cfg: Config, steps: seq<Step>, n: nat)
    requires ValidConfig(cfg)
    requires var t := Run(cfg, Fresh(), steps).history.trace; n < |t| && t[n].Fed?
    ensures var t := Run(cfg, Fresh(), steps).history.trace;
            exists i, j :: 0 <= i < j < n && t[i] == Selected(t[n].selection) && t[j] == DecoderReset
  {
    RunInv(cfg, steps);
    var t := Run(cfg, Fresh(), steps).history.trace;
    assert Armed(t[..n], t[n].selection);
    var i, j :| 0 <= i < j < |t[..n]| && t[..n][i] == Selected(t[n].selection) && t[..n][j] == DecoderReset;
    assert t[i] == Selected(t[n].selection) && t[j] == DecoderReset;
  }

  /** Every consumed number is served exactly once and in order.  If its packet was there, the decoder
      is called to decode it; if not, the decoder is called to conceal it, unless the decoder's
      statistics cannot be read.  Only the frame the worker is busy with can be outstanding. */
  lemma {:induction false} ServedOncePerFrame(cfg: Config, steps: seq<Step>)
    requires ValidConfig(cfg)
    ensures var s := Run(cfg, Fresh(), steps);
            && ServedInOrder(s.history.trace)
            && Consumed(s.history.trace) == Served(s.history.trace) + Outstanding(s.worker)
  {
    RunInv(cfg, steps);
  }

  /** Buffered numbers lie between the playout point and the highest number seen, the buffer is
      bounded, and every packet ever stored was decoded, dropped as overflow, flushed, or is there. */
  lemma {:induction false} BufferBoundsAndConservation(cfg: Config, steps: seq<Step>)
    requires ValidConfig(cfg)
    ensures var s := Run(cfg, Fresh(), steps);
            && |s.buffer| <= cfg.maxPackets
            && (forall k :: k in s.buffer ==> k <= s.timing.highest && (s.timing.started ==> s.timing.expected <= k))
            && s.stats.submitted == s.history.extracted + s.stats.overflow + s.history.flushed + |s.buffer|
  {
    RunInv(cfg, steps);
    var s := Run(cfg, Fresh(), steps);
    forall k | k in s.buffer ensures k <= s.timing.highest && (s.timing.started ==> s.timing.expected <= k) {
      assert Entry(s, k);
    }
  }

  /** Before playout starts the buffer holds exactly the smallest distinct numbers offered since the
      stream was selected, as many as it may hold. */
  lemma {:induction false} KeepsTheSmallest(cfg: Config, steps: seq<Step>)
    requires ValidConfig(cfg)
    ensures var s := Run(cfg, Fresh(), steps);
            s.talker.active && !s.timing.started ==> IsSmallest(s.buffer.Keys, s.history.offered, cfg.maxPackets)
  {
    RunInv(cfg, steps);
  }

  lemma KeptIsBelow(kept: set<nat>, all: set<nat>, most: nat, x: nat, y: nat)
    requires IsSmallest(kept, all, most) && x in kept && y in all && y !in kept
    ensures x < y
  {
    assert y in all - kept;
  }

  lemma OneSideWins(a: set<nat>, b: set<nat>, all: set<nat>, most: nat, x: nat)
    requires IsSmallest(a, all, most) && IsSmallest(b, all, most) && x in a && x !in b
    ensures b < a
  {
    forall y | y in b ensures y in a {
      if y !in a {
        KeptIsBelow(a, all, most, x, y);
        KeptIsBelow(b, all, most, y, x);
      }
    }
  }

  lemma SubsetSmaller(a: set<nat>, b: set<nat>)
    requires a < b
    ensures |a| < |b|
  {
    assert b == a + (b - a);
    assert |b - a| > 0;
  }

  /** The set of the smallest numbers is unique, so the previous statement determines the buffer. */
  lemma SmallestIsUnique(a: set<nat>, b: set<nat>, all: set<nat>, most: nat)
    requires IsSmallest(a, all, most) && IsSmallest(b, all, most)
    ensures a == b
  {
    if x :| x in a && x !in b {
      OneSideWins(a, b, all, most, x);
      SubsetSmaller(b, a);
    }
    if y :| y in b && y !in a {
      OneSideWins(b, a, all, most, y);
      SubsetSmaller(a, b);
    }
  }
}
