/** Where what is played comes from: which submitted packet every frame and every playout goes back to. */
module TalkbackOrigins {
  import opened Options
  import opened RtpSequence
  import opened Talkback
  import opened TalkbackProperties

  // ----- the packets that entered the buffer ------------------------------------------------

  /** A packet as it was submitted, with the number and the selection it entered the buffer under. */
  datatype Stored = Stored(number: nat, arrival: nat, payload: seq<bv8>, selection: nat)

  /** Number `k` is new in the buffer. */
  predicate Enters(s: Talkback, n: Talkback, k: nat) {
    k in n.buffer && (k !in s.buffer || n.selection != s.selection)
  }

  /** What a step adds to the record: the packet it offers, if one entered the buffer. */
  ghost function StoredBy(s: Talkback, step: Step, n: Talkback): seq<Stored> {
    if step.Offer? && exists k :: Enters(s, n, k) then
      var k :| Enters(s, n, k);
      [Stored(k, step.packet.arrival, step.packet.payload, n.selection)]
    else []
  }

  /** The record of a run. */
  ghost function Record(cfg: Config, s: Talkback, steps: seq<Step>): seq<Stored>
    requires ValidConfig(cfg)
    decreases |steps|
  {
    if steps == [] then []
    else StoredBy(s, steps[0], Next(cfg, s, steps[0])) + Record(cfg, Next(cfg, s, steps[0]), steps[1..])
  }

  /** The packet that last entered the buffer under a number of a selection. */
  function Last(record: seq<Stored>, number: nat, selection: nat): (r: Option<Stored>)
    ensures r.Some? ==> r.value in record && r.value.number == number && r.value.selection == selection
  {
    if record == [] then None
    else
      var e := record[|record| - 1];
      if e.number == number && e.selection == selection then Some(e) else Last(record[..|record| - 1], number, selection)
  }

  lemma LastAppend(record: seq<Stored>, e: Stored, number: nat, selection: nat)
    ensures Last(record + [e], number, selection) ==
            if e.number == number && e.selection == selection then Some(e) else Last(record, number, selection)
  {
    assert (record + [e])[..|record|] == record;
  }

  // ----- one submission --------------------------------------------------------------------

  /** A packet that is not refused finds its stream selected already, or selects it; a selection empties
      the buffer and stops the playout. */
  lemma PrepareShape(cfg: Config, s: Talkback, p: Incoming)
    requires p.sequence < CYCLE
    ensures var r := Prepare(cfg, s, p).state;
            && r.talker.active && r.worker == s.worker
            && if r.selection == s.selection
               then r.history.trace == s.history.trace && r.buffer == s.buffer && s.talker.active
                    && r.timing.started == s.timing.started && r.timing.expected == s.timing.expected
               else r.selection == s.selection + 1 && r.history.trace == s.history.trace + [Selected(r.selection)]
                    && r.buffer == map[] && !r.timing.started
  {
  }

  /** What a submission does to the buffer: nothing but a selection's emptying, or the packet enters under
      its number and, if the buffer overflows, the largest number leaves. */
  lemma StoreShape(cfg: Config, s: Talkback, p: Incoming, number: nat)
    requires ValidConfig(cfg)
    ensures var n := Store(cfg, s, p, number).0;
            || n.buffer == s.buffer
            || (number !in s.buffer && !(s.timing.started && number < s.timing.expected)
                && (forall k :: k in n.buffer ==> k == number || (k in s.buffer && n.buffer[k] == s.buffer[k]))
                && (number in n.buffer ==> n.buffer[number] == Buffered(number, p.arrival, p.payload, s.selection))
                && (forall k, m :: k in s.buffer && k !in n.buffer && m in n.buffer ==> m < k))
  {
  }

  /** The selection in force after a trace. */
  function SelectionAt(trace: seq<Event>): nat {
    if trace == [] then 0
    else if trace[|trace| - 1].Selected? then trace[|trace| - 1].selection
    else SelectionAt(trace[..|trace| - 1])
  }

  lemma SelectionAppend(trace: seq<Event>, e: Event)
    ensures SelectionAt(trace + [e]) == if e.Selected? then e.selection else SelectionAt(trace)
  {
    assert (trace + [e])[..|trace|] == trace;
  }

  // ----- what can no longer be stored ------------------------------------------------------

  /** Number `k` of selection `sel` never enters the buffer again: the selection is over, or playout has
      passed the number or is about to take it. */
  predicate Fixed(s: Talkback, k: nat, sel: nat) {
    || sel < s.selection
    || (sel == s.selection && !s.talker.active)
    || (sel == s.selection && s.timing.started && (k < s.timing.expected || (k == s.timing.expected && k in s.buffer)))
  }

  lemma OfferKeepsFixed(cfg: Config, s: Talkback, p: Incoming, k: nat, sel: nat)
    requires ValidConfig(cfg) && BufferInv(cfg, s) && p.sequence < CYCLE && Fixed(s, k, sel)
    ensures Fixed(Submit(cfg, s, p).0, k, sel)
  {
    SubmitIsStore(cfg, s, p);
    SubmitSameStream(cfg, s, p);
    if !Refused(cfg, s, p) {
      var r := Prepare(cfg, s, p);
      PrepareShape(cfg, s, p);
      StoreShape(cfg, r.state, p, r.number);
      var n := Submit(cfg, s, p).0;
      if k in r.state.buffer && k !in n.buffer && r.state.timing.started && k == r.state.timing.expected {
        OverflowSparesNext(cfg, r.state, p, r.number);
      }
    }
  }

  /** What overflows the buffer during playout is not the next number. */
  lemma OverflowSparesNext(cfg: Config, s: Talkback, p: Incoming, number: nat)
    requires ValidConfig(cfg) && BufferInv(cfg, s) && s.timing.started && s.timing.expected in s.buffer
    ensures s.timing.expected in Store(cfg, s, p, number).0.buffer
  {
    var b := s.buffer[number := Buffered(number, p.arrival, p.payload, s.selection)];
    if !(number < s.timing.expected) && number !in s.buffer && |b| > cfg.maxPackets {
      assert number in b.Keys && Largest(b.Keys) >= number > s.timing.expected;
    }
  }

  lemma StepKeepsFixed(cfg: Config, s: Talkback, step: Step, k: nat, sel: nat)
    requires ValidConfig(cfg) && BufferInv(cfg, s) && Fixed(s, k, sel)
    ensures Fixed(Next(cfg, s, step), k, sel)
  {
    if step.Offer? && step.packet.sequence < CYCLE {
      OfferKeepsFixed(cfg, s, step.packet, k, sel);
    }
  }

  // ----- the record of one step ------------------------------------------------------------

  lemma OfferEnters(cfg: Config, s: Talkback, p: Incoming, k: nat)
    requires ValidConfig(cfg) && BufferInv(cfg, s) && p.sequence < CYCLE
    requires Enters(s, Submit(cfg, s, p).0, k)
    ensures var n := Submit(cfg, s, p).0;
            && !Refused(cfg, s, p) && k == Prepare(cfg, s, p).number
            && n.buffer[k] == Buffered(k, p.arrival, p.payload, n.selection)
            && !Fixed(s, k, n.selection)
  {
    SubmitIsStore(cfg, s, p);
    SubmitSameStream(cfg, s, p);
    var r := Prepare(cfg, s, p);
    PrepareShape(cfg, s, p);
    StoreShape(cfg, r.state, p, r.number);
  }

  lemma OnlyOffersEnter(cfg: Config, s: Talkback, step: Step, k: nat)
    requires ValidConfig(cfg) && Enters(s, Next(cfg, s, step), k)
    ensures step.Offer? && step.packet.sequence < CYCLE
  {
  }

  /** A step adds at most one packet to the record; it is the one that enters, and its number was open. */
  lemma StepRecord(cfg: Config, s: Talkback, step: Step)
    requires ValidConfig(cfg) && BufferInv(cfg, s)
    ensures var n := Next(cfg, s, step);
            var added := StoredBy(s, step, n);
            && |added| <= 1
            && (added != [] ==> !Fixed(s, added[0].number, added[0].selection))
            && (forall k :: Enters(s, n, k) ==>
                  && added == [Stored(k, n.buffer[k].arrival, n.buffer[k].payload, n.selection)]
                  && step.Offer? && added[0].arrival == step.packet.arrival && added[0].payload == step.packet.payload)
  {
    var n := Next(cfg, s, step);
    forall k | Enters(s, n, k)
      ensures step.Offer? && step.packet.sequence < CYCLE && k == Prepare(cfg, s, step.packet).number
      ensures n.buffer[k] == Buffered(k, step.packet.arrival, step.packet.payload, n.selection) && !Fixed(s, k, n.selection)
    {
      OnlyOffersEnter(cfg, s, step, k);
      OfferEnters(cfg, s, step.packet, k);
    }
  }

  // ----- the invariant ---------------------------------------------------------------------

  predicate Keeps(b: Buffered, e: Option<Stored>) {
    e.Some? && e.value.arrival == b.arrival && e.value.payload == b.payload
  }

  /** What is in the buffer is what was last submitted under its number. */
  ghost predicate BufferOk(s: Talkback, record: seq<Stored>) {
    forall k :: k in s.buffer ==> Keeps(s.buffer[k], Last(record, k, s.selection))
  }

  /** An event goes back to packets of the record. */
  ghost predicate EventOk(s: Talkback, record: seq<Stored>, sel: nat, e: Event) {
    match e
    case Started(first, pts) =>
      Fixed(s, first, sel) && Last(record, first, sel).Some? && Last(record, first, sel).value.arrival == pts
    case Fed(k, x, decoded, bytes) =>
      if decoded then Fixed(s, x, k) && Last(record, x, k).Some? && Last(record, x, k).value.payload == bytes
      else bytes == [] || exists e :: e in record && e.number == x + 1 && e.selection == k && e.payload == bytes
    case _ => true
  }

  ghost predicate TraceOk(s: Talkback, record: seq<Stored>) {
    var t := s.history.trace;
    forall i :: 0 <= i < |t| ==> EventOk(s, record, SelectionAt(t[..i]), t[i])
  }

  ghost predicate OriginInv(s: Talkback, record: seq<Stored>) {
    && BufferOk(s, record)
    && TraceOk(s, record)
    && (s.worker.Busy? ==> EventOk(s, record, 0, Call(s.worker.job)))
    && s.selection == SelectionAt(s.history.trace)
  }

  /** A longer record and a later state do not change what an event goes back to. */
  lemma EventStays(s: Talkback, n: Talkback, record: seq<Stored>, added: seq<Stored>, sel: nat, e: Event)
    requires EventOk(s, record, sel, e)
    requires forall k, x :: Fixed(s, k, x) ==> Fixed(n, k, x)
    requires |added| <= 1 && (added != [] ==> !Fixed(s, added[0].number, added[0].selection))
    ensures EventOk(n, record + added, sel, e)
  {
    if added == [] {
      assert record + added == record;
    } else {
      assert record + added == record + [added[0]];
      match e
      case Started(first, _) => LastAppend(record, added[0], first, sel);
      case Fed(k, x, _, _) => LastAppend(record, added[0], x, k);
      case _ =>
    }
  }

  // ----- every step ------------------------------------------------------------------------

  lemma EntryKept(cfg: Config, s: Talkback, step: Step, k: nat)
    requires ValidConfig(cfg) && BufferInv(cfg, s) && k in Next(cfg, s, step).buffer && !Enters(s, Next(cfg, s, step), k)
    ensures k in s.buffer && Next(cfg, s, step).buffer[k] == s.buffer[k] && Next(cfg, s, step).selection == s.selection
  {
    if step.Offer? && step.packet.sequence < CYCLE {
      var p := step.packet;
      SubmitIsStore(cfg, s, p);
      SubmitSameStream(cfg, s, p);
      var r := Prepare(cfg, s, p);
      PrepareShape(cfg, s, p);
      StoreShape(cfg, r.state, p, r.number);
    }
  }

  lemma BufferStays(cfg: Config, s: Talkback, step: Step, record: seq<Stored>)
    requires ValidConfig(cfg) && BufferInv(cfg, s) && BufferOk(s, record)
    ensures var n := Next(cfg, s, step); BufferOk(n, record + StoredBy(s, step, n))
  {
    var n := Next(cfg, s, step);
    var added := StoredBy(s, step, n);
    StepRecord(cfg, s, step);
    forall k | k in n.buffer ensures Keeps(n.buffer[k], Last(record + added, k, n.selection)) {
      if Enters(s, n, k) {
        LastAppend(record, added[0], k, n.selection);
      } else {
        EntryKept(cfg, s, step, k);
        if added == [] {
          assert record + added == record;
        } else {
          LastAppend(record, added[0], k, n.selection);
          assert exists e :: Enters(s, n, e);
        }
      }
    }
  }

  lemma TraceGrows(s: Talkback, n: Talkback, record: seq<Stored>, longer: seq<Stored>, tail: seq<Event>)
    requires TraceOk(s, record) && |tail| <= 1 && n.history.trace == s.history.trace + tail
    requires forall i :: 0 <= i < |s.history.trace| ==>
               EventOk(n, longer, SelectionAt(s.history.trace[..i]), s.history.trace[i])
    requires tail != [] ==> EventOk(n, longer, SelectionAt(s.history.trace), tail[0])
    ensures TraceOk(n, longer)
  {
    var t := n.history.trace;
    forall i | 0 <= i < |t| ensures EventOk(n, longer, SelectionAt(t[..i]), t[i]) {
      if i < |s.history.trace| {
        assert t[..i] == s.history.trace[..i];
      } else {
        assert t[..i] == s.history.trace;
      }
    }
  }

  /** The events so far stay right, and so does a new one that is right now. */
  lemma TraceStays(cfg: Config, s: Talkback, step: Step, record: seq<Stored>, tail: seq<Event>)
    requires ValidConfig(cfg) && BufferInv(cfg, s) && TraceOk(s, record) && |tail| <= 1
    requires Next(cfg, s, step).history.trace == s.history.trace + tail
    requires var n := Next(cfg, s, step);
             tail != [] ==> EventOk(n, record + StoredBy(s, step, n), SelectionAt(s.history.trace), tail[0])
    ensures var n := Next(cfg, s, step); TraceOk(n, record + StoredBy(s, step, n))
  {
    var n := Next(cfg, s, step);
    var added := StoredBy(s, step, n);
    StepRecord(cfg, s, step);
    forall k, x | Fixed(s, k, x) ensures Fixed(n, k, x) {
      StepKeepsFixed(cfg, s, step, k, x);
    }
    forall i | 0 <= i < |s.history.trace|
      ensures EventOk(n, record + added, SelectionAt(s.history.trace[..i]), s.history.trace[i])
    {
      EventStays(s, n, record, added, SelectionAt(s.history.trace[..i]), s.history.trace[i]);
    }
    TraceGrows(s, n, record, record + added, tail);
  }

  lemma OfferOrigins(cfg: Config, s: Talkback, p: Incoming, record: seq<Stored>)
    requires ValidConfig(cfg) && BufferInv(cfg, s) && OriginInv(s, record) && p.sequence < CYCLE
    ensures var n := Next(cfg, s, Offer(p)); OriginInv(n, record + StoredBy(s, Offer(p), n))
  {
    var n := Next(cfg, s, Offer(p));
    var added := StoredBy(s, Offer(p), n);
    SubmitSameStream(cfg, s, p);
    PrepareShape(cfg, s, p);
    var tail := if n.selection == s.selection then [] else [Selected(n.selection)];
    assert n.history.trace == s.history.trace + tail;
    if tail != [] {
      SelectionAppend(s.history.trace, tail[0]);
    }
    BufferStays(cfg, s, Offer(p), record);
    TraceStays(cfg, s, Offer(p), record, tail);
    if s.worker.Busy? {
      StepRecord(cfg, s, Offer(p));
      forall k, x | Fixed(s, k, x) ensures Fixed(n, k, x) {
        StepKeepsFixed(cfg, s, Offer(p), k, x);
      }
      EventStays(s, n, record, added, 0, Call(s.worker.job));
    }
  }

  /** The worker stores nothing. */
  lemma WorkerRecords(cfg: Config, s: Talkback, step: Step, record: seq<Stored>)
    requires ValidConfig(cfg) && !(step.Offer? && step.packet.sequence < CYCLE)
    ensures record + StoredBy(s, step, Next(cfg, s, step)) == record
  {
    var n := Next(cfg, s, step);
    forall k | Enters(s, n, k) ensures false {
      OnlyOffersEnter(cfg, s, step, k);
    }
  }

  lemma TopOrigins(cfg: Config, s: Talkback, record: seq<Stored>)
    requires ValidConfig(cfg) && BufferInv(cfg, s) && OriginInv(s, record)
    ensures OriginInv(Next(cfg, s, AtTop), record)
  {
    var n := Next(cfg, s, AtTop);
    WorkerRecords(cfg, s, AtTop, record);
    BufferStays(cfg, s, AtTop, record);
    var tail := if n.timing.started && !s.timing.started
                then [Started(n.timing.expected, n.timing.nextPts)] else [];
    assert n.history.trace == s.history.trace + tail;
    if tail != [] {
      assert n.timing.expected in s.buffer && Keeps(s.buffer[n.timing.expected], Last(record, n.timing.expected, s.selection));
      SelectionAppend(s.history.trace, tail[0]);
    }
    TraceStays(cfg, s, AtTop, record, tail);
  }

  lemma DeadlineOrigins(cfg: Config, s: Talkback, now: nat, memory: bool, record: seq<Stored>)
    requires ValidConfig(cfg) && BufferInv(cfg, s) && OriginInv(s, record)
    ensures OriginInv(Next(cfg, s, AtDeadline(now, memory)), record)
  {
    var step := AtDeadline(now, memory);
    var n := Next(cfg, s, step);
    WorkerRecords(cfg, s, step, record);
    BufferStays(cfg, s, step, record);
    if n.worker.Busy? && s.worker == Timed {
      var e := s.timing.expected;
      var tail := [Played(e, s.timing.nextPts, e in s.buffer)];
      assert n.history.trace == s.history.trace + tail;
      SelectionAppend(s.history.trace, tail[0]);
      TraceStays(cfg, s, step, record, tail);
      ConsumedJob(cfg, s, memory, record);
    } else {
      TraceStays(cfg, s, step, record, []);
      if s.worker.Busy? {
        assert n == s;
      }
    }
  }

  /** The job goes back to the packet of its number, or of the number after it. */
  lemma ConsumedJob(cfg: Config, s: Talkback, memory: bool, record: seq<Stored>)
    requires BufferInv(cfg, s) && BufferOk(s, record) && s.timing.started
    ensures var n := Consume(cfg, s, memory); n.worker.Busy? && EventOk(n, record, 0, Call(n.worker.job))
  {
    var e := s.timing.expected;
    if e in s.buffer {
      assert Entry(s, e) && Keeps(s.buffer[e], Last(record, e, s.selection));
    } else if e + 1 in s.buffer {
      assert Entry(s, e + 1) && Keeps(s.buffer[e + 1], Last(record, e + 1, s.selection));
      assert Last(record, e + 1, s.selection).value in record;
    }
  }

  /** What the worker does outside the lock. */
  function OutsideEvents(s: Talkback, readable: bool): seq<Event> {
    match s.worker
    case Resetting => [DecoderReset]
    case TimeoutResetting => [DecoderReset]
    case Busy(job) => [Outcome(job, readable)]
    case _ => []
  }

  lemma OutcomeOk(s: Talkback, n: Talkback, readable: bool, record: seq<Stored>, sel: nat)
    requires s.worker.Busy? && EventOk(s, record, 0, Call(s.worker.job))
    requires n.selection == s.selection && n.talker == s.talker && n.timing == s.timing && n.buffer == s.buffer
    ensures EventOk(n, record, sel, Outcome(s.worker.job, readable))
  {
  }

  lemma OutsideEffect(cfg: Config, s: Talkback, readable: bool)
    requires ValidConfig(cfg)
    ensures var n, tail := Next(cfg, s, Outside(readable)), OutsideEvents(s, readable);
            && n.history.trace == s.history.trace + tail && |tail| <= 1 && !n.worker.Busy?
            && n.selection == s.selection && n.talker == s.talker && n.timing == s.timing && n.buffer == s.buffer
            && (tail != [] ==> !tail[0].Selected? && !tail[0].Started?)
  {
  }

  lemma OutsideOrigins(cfg: Config, s: Talkback, readable: bool, record: seq<Stored>)
    requires ValidConfig(cfg) && BufferInv(cfg, s) && OriginInv(s, record)
    ensures OriginInv(Next(cfg, s, Outside(readable)), record)
  {
    var n, tail := Next(cfg, s, Outside(readable)), OutsideEvents(s, readable);
    WorkerRecords(cfg, s, Outside(readable), record);
    BufferStays(cfg, s, Outside(readable), record);
    OutsideEffect(cfg, s, readable);
    if s.worker.Busy? {
      OutcomeOk(s, n, readable, record, SelectionAt(s.history.trace));
    }
    TraceStays(cfg, s, Outside(readable), record, tail);
    if tail == [] {
      assert s.history.trace + tail == s.history.trace;
    } else {
      SelectionAppend(s.history.trace, tail[0]);
    }
  }

  lemma StopOrigins(cfg: Config, s: Talkback, step: Step, record: seq<Stored>)
    requires ValidConfig(cfg) && BufferInv(cfg, s) && OriginInv(s, record) && (step.RequestStop? || step.FinishStop?)
    ensures OriginInv(Next(cfg, s, step), record)
  {
    WorkerRecords(cfg, s, step, record);
    BufferStays(cfg, s, step, record);
    TraceStays(cfg, s, step, record, []);
  }

  lemma OriginStep(cfg: Config, s: Talkback, step: Step, record: seq<Stored>)
    requires ValidConfig(cfg) && BufferInv(cfg, s) && OriginInv(s, record)
    ensures var n := Next(cfg, s, step); OriginInv(n, record + StoredBy(s, step, n))
  {
    match step
    case Offer(p) =>
      if p.sequence < CYCLE {
        OfferOrigins(cfg, s, p, record);
      } else {
        WorkerRecords(cfg, s, step, record);
      }
    case AtTop =>
      WorkerRecords(cfg, s, step, record);
      TopOrigins(cfg, s, record);
    case AtDeadline(now, memory) =>
      WorkerRecords(cfg, s, step, record);
      DeadlineOrigins(cfg, s, now, memory, record);
    case Outside(readable) =>
      WorkerRecords(cfg, s, step, record);
      OutsideOrigins(cfg, s, readable, record);
    case _ =>
      WorkerRecords(cfg, s, step, record);
      StopOrigins(cfg, s, step, record);
  }

  // ----- whole runs ------------------------------------------------------------------------

  lemma Regroup(a: seq<Stored>, b: seq<Stored>, c: seq<Stored>, d: seq<Stored>)
    requires d == b + c
    ensures (a + b) + c == a + d
  {
  }

  lemma {:induction false} OriginRun(cfg: Config, s: Talkback, steps: seq<Step>, record: seq<Stored>, more: seq<Stored>)
    requires ValidConfig(cfg) && BufferInv(cfg, s) && OriginInv(s, record) && more == Record(cfg, s, steps)
    ensures OriginInv(Run(cfg, s, steps), record + more)
    decreases |steps|
  {
    if steps == [] {
      assert record + [] == record;
    } else {
      var n := Next(cfg, s, steps[0]);
      var added, rest := StoredBy(s, steps[0], n), Record(cfg, n, steps[1..]);
      OriginStep(cfg, s, steps[0], record);
      BufferStep(cfg, s, steps[0]);
      OriginRun(cfg, n, steps[1..], record + added, rest);
      Regroup(record, added, rest, more);
    }
  }

  lemma RunOrigins(cfg: Config, steps: seq<Step>)
    requires ValidConfig(cfg)
    ensures OriginInv(Run(cfg, Fresh(), steps), Record(cfg, Fresh(), steps))
  {
    var more := Record(cfg, Fresh(), steps);
    OriginRun(cfg, Fresh(), steps, [], more);
    assert [] + more == more;
  }

  /** A playout goes back to the packet last submitted under its first number: the n-th frame has that
      number plus n and is due n frame durations after that packet arrived. */
  lemma {:induction false} PlayoutOrder(cfg: Config, steps: seq<Step>, start: nat, i: nat)
    requires ValidConfig(cfg)
    requires var t := Run(cfg, Fresh(), steps).history.trace;
             && start < i < |t| && t[start].Started? && t[i].Played?
             && (forall k :: start < k < i ==> !t[k].Started?)
    ensures var t := Run(cfg, Fresh(), steps).history.trace;
            var first := Last(Record(cfg, Fresh(), steps), t[start].first, SelectionAt(t[..start]));
            var n := CountPlayed(t, start + 1, i);
            && first.Some?
            && t[i].extended == first.value.number + n && t[i].pts == first.value.arrival + n * cfg.frameUs
  {
    RunInv(cfg, steps);
    RunOrigins(cfg, steps);
    var s := Run(cfg, Fresh(), steps);
    assert EventOk(s, Record(cfg, Fresh(), steps), SelectionAt(s.history.trace[..start]), s.history.trace[start]);
    NthFrame(s.history.trace, cfg.frameUs, start, i);
  }

  /** The decoder is given what was submitted: a frame that is decoded has the payload last submitted under
      its number in its selection, and a frame that is concealed is given nothing or the payload of a
      packet with the next number. */
  lemma {:induction false} DecodedAsSubmitted(cfg: Config, steps: seq<Step>, i: nat)
    requires ValidConfig(cfg)
    requires var t := Run(cfg, Fresh(), steps).history.trace; i < |t| && t[i].Fed?
    ensures var e, record := Run(cfg, Fresh(), steps).history.trace[i], Record(cfg, Fresh(), steps);
            if e.decoded then
              var p := Last(record, e.extended, e.selection);
              p.Some? && e.payload == p.value.payload
            else
              || e.payload == []
              || exists p :: p in record && p.number == e.extended + 1 && p.selection == e.selection && p.payload == e.payload
  {
    RunOrigins(cfg, steps);
    var s := Run(cfg, Fresh(), steps);
    assert EventOk(s, Record(cfg, Fresh(), steps), SelectionAt(s.history.trace[..i]), s.history.trace[i]);
  }

  /** So does the buffer hold what was last submitted under each of its numbers. */
  lemma {:induction false} BufferedAsSubmitted(cfg: Config, steps: seq<Step>, k: nat)
    requires ValidConfig(cfg) && k in Run(cfg, Fresh(), steps).buffer
    ensures var s := Run(cfg, Fresh(), steps);
            Last(Record(cfg, Fresh(), steps), k, s.selection)
            == Some(Stored(k, s.buffer[k].arrival, s.buffer[k].payload, s.selection))
  {
    RunOrigins(cfg, steps);
    var s := Run(cfg, Fresh(), steps);
    assert Keeps(s.buffer[k], Last(Record(cfg, Fresh(), steps), k, s.selection));
  }
}
