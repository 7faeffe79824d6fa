/** The talkback jitter buffer: one network thread submits packets, one worker plays them out.

    Every section that runs under the mutex is one operation; decoding and decoder resets happen
    between operations, which is what the worker's position records.  `Talkback` is the value of the
    shared state.  Its last five fields are history: they record what happened and no operation
    reads them to decide anything. */
module Talkback {
  import opened Options
  import opened RtpSequence

  const UINT64 := 0x1_0000_0000_0000_0000

  datatype Config = Config(prebuffer: nat, maxPackets: nat, timeoutUs: nat, frameUs: nat)

  ghost predicate ValidConfig(cfg: Config) {
    2 <= cfg.prebuffer <= cfg.maxPackets && cfg.frameUs > 0
  }

  /** `memory` says whether the payload can be copied, should the packet get that far. */
  datatype Incoming = Incoming(
    session: string, isOpus: bool, ssrc: nat, sequence: nat, arrival: nat, payload: seq<bv8>, memory: bool)

  predicate WellFormed(p: Incoming) {
    p.session != "" && p.isOpus && p.payload != []
  }

  datatype Buffered = Buffered(extended: nat, arrival: nat, payload: seq<bv8>, selection: nat)

  datatype Job =
    | Decode(packet: Buffered, pts: nat)
    | Recover(missing: nat, following: Option<Buffered>, pts: nat, selection: nat)

  /** Where the worker is between two lock-held sections. */
  datatype Worker = Top | Timed | Resetting | TimeoutResetting | Busy(job: Job) | Exited

  datatype Event =
    | Selected(selection: nat)
    | DecoderReset
    | Fed(selection: nat, extended: nat, decoded: bool, payload: seq<bv8>)
    | Skipped(extended: nat)
    | Started(first: nat, pts: nat)
    | Played(extended: nat, pts: nat, decoded: bool)

  datatype Status = Accepted | InvalidParam | NotReady | Foreign | Late | Duplicate | NoMemory | Full

  datatype Talker = Talker(active: bool, session: string, ssrc: nat, lastArrival: nat)

  datatype Timing = Timing(hasHighest: bool, highest: nat, started: bool, expected: nat, nextPts: nat)

  datatype Stats = Stats(submitted: nat, duplicate: nat, late: nat, overflow: nat, foreign: nat, resets: nat)

  datatype History = History(extracted: nat, flushed: nat, offered: set<nat>, trace: seq<Event>) {
    function Add(e: Event): History {
      this.(trace := trace + [e])
    }
  }

  datatype Talkback = Talkback(
    running: bool,
    resetPending: bool,
    talker: Talker,
    timing: Timing,
    buffer: map<nat, Buffered>,
    stats: Stats,
    worker: Worker,
    selection: nat,
    history: History)

  const NOBODY := Talker(false, "", 0, 0)
  const NO_TIMING := Timing(false, 0, false, 0, 0)

  // ----- smallest and largest buffered number ----------------------------------------------

  lemma {:induction false} LargestOf(s: set<nat>) returns (m: nat)
    requires s != {}
    ensures m in s && forall x :: x in s ==> x <= m
    decreases |s|
  {
    var a :| a in s;
    var rest := s - {a};
    assert forall x :: x in s ==> x == a || x in rest;
    m := a;
    if rest != {} {
      var n := LargestOf(rest);
      if n > a {
        m := n;
      }
    }
  }

  lemma HasLargest(s: set<nat>)
    requires s != {}
    ensures exists m :: m in s && forall x :: x in s ==> x <= m
  {
    var _ := LargestOf(s);
  }

  lemma {:induction false} SmallestOf(s: set<nat>) returns (m: nat)
    requires s != {}
    ensures m in s && forall x :: x in s ==> m <= x
    decreases |s|
  {
    var a :| a in s;
    var rest := s - {a};
    assert forall x :: x in s ==> x == a || x in rest;
    m := a;
    if rest != {} {
      var n := SmallestOf(rest);
      if n < a {
        m := n;
      }
    }
  }

  lemma HasSmallest(s: set<nat>)
    requires s != {}
    ensures exists m :: m in s && forall x :: x in s ==> m <= x
  {
    var _ := SmallestOf(s);
  }

  function Largest(s: set<nat>): (m: nat)
    requires s != {}
    ensures m in s && forall x :: x in s ==> x <= m
  {
    HasLargest(s);
    var m :| m in s && forall x :: x in s ==> x <= m;
    m
  }

  function Smallest(s: set<nat>): (m: nat)
    requires s != {}
    ensures m in s && forall x :: x in s ==> m <= x
  {
    HasSmallest(s);
    var m :| m in s && forall x :: x in s ==> m <= x;
    m
  }

  // ----- the network side ------------------------------------------------------------------

  /** Unsigned 64-bit subtraction: a clock that runs backwards looks like a very long silence. */
  function Elapsed(now: nat, since: nat): nat {
    (now - since) % UINT64
  }

  function ResetStream(s: Talkback, session: string, ssrc: nat): Talkback {
    s.(buffer := map[],
       timing := s.timing.(started := false, hasHighest := false, expected := 0, highest := 0),
       talker := s.talker.(active := true, session := session, ssrc := ssrc),
       resetPending := true,
       stats := if s.talker.active then s.stats.(resets := s.stats.resets + 1) else s.stats,
       selection := s.selection + 1,
       history := s.history.(flushed := s.history.flushed + |s.buffer|, offered := {}).Add(Selected(s.selection + 1)))
  }

  predicate Rejected(cfg: Config, s: Talkback, p: Incoming) {
    s.talker.active && s.talker.session != p.session && Elapsed(p.arrival, s.talker.lastArrival) < cfg.timeoutUs
  }

  /** The stream the packet belongs to becomes, or already is, the active one. */
  function Select(s: Talkback, p: Incoming): Talkback {
    if s.talker.active && s.talker.session == p.session && s.talker.ssrc == p.ssrc then s
    else ResetStream(s, p.session, p.ssrc)
  }

  function FirstNumber(s: Talkback, p: Incoming): Talkback {
    s.(timing := s.timing.(hasHighest := true, highest := p.sequence))
  }

  function NumberOf(s: Talkback, p: Incoming): nat
    requires p.sequence < CYCLE
  {
    if s.timing.hasHighest then Extend(p.sequence, s.timing.highest) else p.sequence
  }

  function Number(s: Talkback, p: Incoming): Talkback
    requires p.sequence < CYCLE
  {
    if !s.timing.hasHighest then FirstNumber(s, p)
    else s.(timing := s.timing.(highest := Max(s.timing.highest, NumberOf(s, p))))
  }

  predicate Discontinuous(cfg: Config, s: Talkback, extended: nat) {
    s.timing.started && extended > s.timing.expected + cfg.maxPackets
  }

  function Insert(cfg: Config, s: Talkback, p: Incoming, extended: nat): Talkback {
    var b := s.buffer[extended := Buffered(extended, p.arrival, p.payload, s.selection)];
    var t := s.(talker := s.talker.(lastArrival := p.arrival),
                stats := s.stats.(submitted := s.stats.submitted + 1),
                history := s.history.(offered := s.history.offered + {extended}));
    if |b| > cfg.maxPackets
    then t.(buffer := b - {Largest(b.Keys)}, stats := t.stats.(overflow := s.stats.overflow + 1))
    else t.(buffer := b)
  }

  function Store(cfg: Config, s: Talkback, p: Incoming, extended: nat): (Talkback, Status) {
    if s.timing.started && extended < s.timing.expected then
      (s.(stats := s.stats.(late := s.stats.late + 1)), Late)
    else if extended in s.buffer then
      (s.(stats := s.stats.(duplicate := s.stats.duplicate + 1)), Duplicate)
    else if !p.memory then (s, NoMemory)
    else
      var r := Insert(cfg, s, p, extended);
      (r, if extended in r.buffer then Accepted else Full)
  }

  function Submit(cfg: Config, s: Talkback, p: Incoming): (Talkback, Status)
    requires p.sequence < CYCLE
  {
    if !WellFormed(p) then (s, InvalidParam)
    else if !s.running then (s, NotReady)
    else if Rejected(cfg, s, p) then (s.(stats := s.stats.(foreign := s.stats.foreign + 1)), Foreign)
    else
      var active := Select(s, p);
      var extended := NumberOf(active, p);
      var numbered := Number(active, p);
      if Discontinuous(cfg, numbered, extended)
      then Store(cfg, FirstNumber(ResetStream(numbered, p.session, p.ssrc), p), p, p.sequence)
      else Store(cfg, numbered, p, extended)
  }

  // ----- the worker side -------------------------------------------------------------------

  function StartPlayout(s: Talkback): Talkback
    requires s.buffer.Keys != {}
  {
    var first := Smallest(s.buffer.Keys);
    var pts := s.buffer[first].arrival;
    s.(timing := s.timing.(expected := first, nextPts := pts, started := true),
       worker := Timed,
       history := s.history.Add(Started(first, pts)))
  }

  /** The top of the worker loop, including the wait for enough packets. */
  function WorkerTop(cfg: Config, s: Talkback): Talkback
    requires ValidConfig(cfg)
  {
    if !s.running then s.(worker := Exited)
    else if s.resetPending then s.(resetPending := false, worker := Resetting)
    else if s.timing.started then s.(worker := Timed)
    else if |s.buffer| >= cfg.prebuffer then
      assert |s.buffer.Keys| > 0;
      StartPlayout(s)
    else s
  }

  function ClearStream(s: Talkback): Talkback {
    s.(talker := NOBODY, timing := NO_TIMING, resetPending := false)
  }

  /** The packet after a missing one is copied if memory allows. */
  function NextJob(s: Talkback, memory: bool): Job {
    var e := s.timing.expected;
    if e in s.buffer then Decode(s.buffer[e], s.timing.nextPts)
    else Recover(e, if e + 1 in s.buffer && memory then Some(s.buffer[e + 1]) else None, s.timing.nextPts, s.selection)
  }

  function Consume(cfg: Config, s: Talkback, memory: bool): Talkback {
    var e := s.timing.expected;
    var hit := e in s.buffer;
    s.(buffer := s.buffer - {e},
       timing := s.timing.(expected := e + 1, nextPts := s.timing.nextPts + cfg.frameUs),
       worker := Busy(NextJob(s, memory)),
       history := s.history.(extracted := if hit then s.history.extracted + 1 else s.history.extracted)
                           .Add(Played(e, s.timing.nextPts, hit)))
  }

  predicate TimedOut(cfg: Config, s: Talkback, now: nat) {
    s.buffer == map[] && s.talker.lastArrival != 0 && Elapsed(now, s.talker.lastArrival) >= cfg.timeoutUs
  }

  /** The deadline of the next frame, or an earlier wake-up. */
  function WorkerDeadline(cfg: Config, s: Talkback, now: nat, memory: bool): Talkback {
    if !s.running then s.(worker := Exited)
    else if s.resetPending then s.(worker := Top)
    else if TimedOut(cfg, s, now) then
      ClearStream(s).(worker := TimeoutResetting, stats := s.stats.(resets := s.stats.resets + 1))
    else Consume(cfg, s, memory)
  }

  /** The selection whose audio a job gives to the decoder; concealment may decode the packet that follows. */
  function Feeds(j: Job): nat {
    match j
    case Decode(packet, _) => packet.selection
    case Recover(_, Some(following), _, _) => following.selection
    case Recover(_, None, _, selection) => selection
  }

  /** The bytes a job gives to the decoder: its packet, or the packet after the missing one if there is one. */
  function Bytes(j: Job): seq<bv8> {
    match j
    case Decode(packet, _) => packet.payload
    case Recover(_, Some(following), _, _) => following.payload
    case Recover(_, None, _, _) => []
  }

  /** The decoder call that a job makes: for which number, whether its own packet is there, and with what. */
  function Call(j: Job): Event {
    Fed(Feeds(j), if j.Decode? then j.packet.extended else j.missing, j.Decode?, Bytes(j))
  }

  /** Concealment reads the decoder's statistics first and gives up if it cannot. */
  function Outcome(j: Job, readable: bool): Event {
    if j.Recover? && !readable then Skipped(j.missing) else Call(j)
  }

  /** Outside the lock: the decoder is reset, or given one packet, or asked to conceal one. */
  function WorkerOutside(s: Talkback, readable: bool): Talkback {
    match s.worker
    case Resetting => s.(worker := Top, history := s.history.Add(DecoderReset))
    case TimeoutResetting => s.(worker := Top, history := s.history.Add(DecoderReset))
    case Busy(job) => s.(worker := Top, history := s.history.Add(Outcome(job, readable)))
    case _ => s
  }

  /** Stopping: the flag first; the buffer and the stream state once the worker is gone. */
  function StopRequested(s: Talkback): Talkback {
    s.(running := false)
  }

  function Stopped(s: Talkback): Talkback {
    if s.running || s.worker != Exited then s
    else ClearStream(s).(buffer := map[], history := s.history.(flushed := s.history.flushed + |s.buffer|))
  }

  function Fresh(): Talkback {
    Talkback(true, false, NOBODY, NO_TIMING, map[], Stats(0, 0, 0, 0, 0, 0), Top, 0, History(0, 0, {}, []))
  }

  // ----- the code --------------------------------------------------------------------------

  class AudioTalkback {
    const cfg: Config
    var running: bool
    var resetPending: bool
    var talker: Talker
    var timing: Timing
    var buffer: map<nat, Buffered>
    var stats: Stats
    var worker: Worker
    var selection: nat
    ghost var history: History

    ghost function State(): Talkback
      reads this
    {
      Talkback(running, resetPending, talker, timing, buffer, stats, worker, selection, history)
    }

    constructor (cfg: Config)
      ensures this.cfg == cfg && State() == Fresh()
    {
      this.cfg := cfg;
      running, resetPending, talker, timing, buffer := true, false, NOBODY, NO_TIMING, map[];
      stats, worker, selection := Stats(0, 0, 0, 0, 0, 0), Top, 0;
      history := History(0, 0, {}, []);
    }

    method ResetStreamLocked(session: string, ssrc: nat)
      modifies this
      ensures State() == ResetStream(old(State()), session, ssrc)
    {
      if talker.active {
        stats := stats.(resets := stats.resets + 1);
      }
      history := history.(flushed := history.flushed + |buffer|, offered := {});
      buffer := map[];
      timing := timing.(started := false, hasHighest := false, expected := 0, highest := 0);
      talker := talker.(active := true, session := session, ssrc := ssrc);
      resetPending := true;
      selection := selection + 1;
      history := history.Add(Selected(selection));
    }

    method NumberPacket(p: Incoming) returns (number: nat)
      requires p.sequence < CYCLE
      modifies this`timing
      ensures number == NumberOf(old(State()), p) && State() == Number(old(State()), p)
    {
      number := p.sequence;
      if !timing.hasHighest {
        timing := timing.(highest := number, hasHighest := true);
      } else {
        number := Extend(p.sequence, timing.highest);
        if number > timing.highest {
          timing := timing.(highest := number);
        }
      }
    }

    /** When the buffer overflows, the packet farthest from the playout point goes. */
    method InsertPacket(p: Incoming, number: nat)
      modifies this`buffer, this`talker, this`stats, this`history
      ensures State() == Insert(cfg, old(State()), p, number)
    {
      buffer := buffer[number := Buffered(number, p.arrival, p.payload, selection)];
      talker := talker.(lastArrival := p.arrival);
      stats := stats.(submitted := stats.submitted + 1);
      history := history.(offered := history.offered + {number});
      if |buffer| > cfg.maxPackets {
        buffer := buffer - {Largest(buffer.Keys)};
        stats := stats.(overflow := stats.overflow + 1);
      }
    }

    method StorePacket(p: Incoming, number: nat) returns (status: Status)
      modifies this
      ensures (State(), status) == Store(cfg, old(State()), p, number)
    {
      if timing.started && number < timing.expected {
        stats := stats.(late := stats.late + 1);
        return Late;
      }
      if number in buffer {
        stats := stats.(duplicate := stats.duplicate + 1);
        return Duplicate;
      }
      if !p.memory {
        return NoMemory;
      }
      InsertPacket(p, number);
      status := if number in buffer then Accepted else Full;
    }

    /** Arbitrates between talkers, numbers the packet and inserts it into the bounded buffer. */
    method SubmitPacket(p: Incoming) returns (status: Status)
      requires p.sequence < CYCLE
      modifies this
      ensures (State(), status) == Submit(cfg, old(State()), p)
    {
      if p.session == "" || !p.isOpus || p.payload == [] {
        return InvalidParam;
      }
      if !running {
        return NotReady;
      }
      if talker.active && talker.session != p.session && Elapsed(p.arrival, talker.lastArrival) < cfg.timeoutUs {
        stats := stats.(foreign := stats.foreign + 1);
        return Foreign;
      }
      if !talker.active || talker.session != p.session || talker.ssrc != p.ssrc {
        ResetStreamLocked(p.session, p.ssrc);
      }
      var number := NumberPacket(p);
      if timing.started && number > timing.expected + cfg.maxPackets {
        ResetStreamLocked(p.session, p.ssrc);
        number := p.sequence;
        timing := timing.(highest := number, hasHighest := true);
      }
      status := StorePacket(p, number);
    }

    method TakeTop()
      requires ValidConfig(cfg) && worker == Top
      modifies this
      ensures State() == WorkerTop(cfg, old(State()))
    {
      if !running {
        worker := Exited;
      } else if resetPending {
        resetPending := false;
        worker := Resetting;
      } else if timing.started {
        worker := Timed;
      } else if |buffer| >= cfg.prebuffer {
        assert |buffer.Keys| > 0;
        var first := Smallest(buffer.Keys);
        timing := timing.(expected := first, nextPts := buffer[first].arrival, started := true);
        worker := Timed;
        history := history.Add(Started(first, timing.nextPts));
      }
    }

    method ConsumeFrame(memory: bool)
      modifies this
      ensures State() == Consume(cfg, old(State()), memory)
    {
      var e := timing.expected;
      if e in buffer {
        worker := Busy(Decode(buffer[e], timing.nextPts));
        buffer := buffer - {e};
        history := history.(extracted := history.extracted + 1).Add(Played(e, timing.nextPts, true));
      } else {
        var following := None;
        if e + 1 in buffer && memory {
          following := Some(buffer[e + 1]);
        }
        worker := Busy(Recover(e, following, timing.nextPts, selection));
        history := history.Add(Played(e, timing.nextPts, false));
        assert buffer - {e} == buffer;
      }
      timing := timing.(expected := e + 1, nextPts := timing.nextPts + cfg.frameUs);
    }

    method TakeDeadline(now: nat, memory: bool)
      requires worker == Timed
      modifies this
      ensures State() == WorkerDeadline(cfg, old(State()), now, memory)
    {
      if !running {
        worker := Exited;
        return;
      }
      if resetPending {
        worker := Top;
        return;
      }
      if buffer == map[] && talker.lastArrival != 0 && Elapsed(now, talker.lastArrival) >= cfg.timeoutUs {
        talker, timing, resetPending := NOBODY, NO_TIMING, false;
        stats := stats.(resets := stats.resets + 1);
        worker := TimeoutResetting;
        return;
      }
      ConsumeFrame(memory);
    }
  }
}
