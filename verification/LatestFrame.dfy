/** What the video frame source promises: a mailbox that holds the newest captured frame until it is
    acquired or replaced.  A frame that a consumer has acquired occupies its slot until released.

    `frames`, `log` and `spoiled` are history: every published frame, every acquired one with its
    number, and whether somebody released the slot of the frame that is waiting. */
module LatestFrame {
  import opened Options

  const SLOTS: nat := 4

  datatype Frame = Frame(id: nat, hasData: bool, length: int, hasBuffer: bool)

  /** What releasing a slot leaves in it. */
  const CLEARED := Frame(0, false, 0, false)

  predicate Usable(f: Frame) {
    f.hasData && f.length > 0 && f.hasBuffer
  }

  datatype Entry = Entry(number: nat, frame: Frame)

  datatype Counters = Counters(dropped: nat, published: nat, overwritten: nat, acquired: nat, noSlot: nat)

  datatype Mailbox = Mailbox(
    pending: Option<Entry>,
    lent: map<nat, Entry>,
    nextSeq: nat,
    consumed: nat,
    counters: Counters,
    frames: seq<Frame>,
    log: seq<Entry>,
    spoiled: bool)

  predicate Starts(m: Mailbox) {
    && m.pending == None && m.lent == map[] && m.nextSeq == 1 && m.consumed == 0
    && m.counters == Counters(0, 0, 0, 0, 0) && m.frames == [] && m.log == [] && !m.spoiled
  }

  datatype Published = Stored | Refused | Invalid | NotifyFailed

  function Overwritten(c: Counters): Counters {
    c.(dropped := c.dropped + 1, overwritten := c.overwritten + 1)
  }

  /** A new frame replaces the one that nobody has taken.  The wake-up may fail after that. */
  function Publish(m: Mailbox, f: Frame, notified: bool): (Mailbox, Published) {
    if !Usable(f) then (m, Invalid)
    else if |m.lent| >= SLOTS then
      (m.(counters := m.counters.(dropped := m.counters.dropped + 1, noSlot := m.counters.noSlot + 1)), Refused)
    else
      var c := if m.pending.Some? then Overwritten(m.counters) else m.counters;
      (m.(pending := Some(Entry(m.nextSeq, f)),
          nextSeq := m.nextSeq + 1,
          counters := c.(published := c.published + 1),
          frames := m.frames + [f],
          spoiled := false), if notified then Stored else NotifyFailed)
  }

  function Acquire(m: Mailbox, slot: nat): Mailbox
    requires m.pending.Some?
  {
    m.(pending := None,
       lent := m.lent[slot := m.pending.value],
       consumed := m.pending.value.number,
       counters := m.counters.(acquired := m.counters.acquired + 1),
       log := m.log + [m.pending.value],
       spoiled := false)
  }

  /** A consumer gives its slot back.  Released by somebody who has not acquired it, the slot of the
      waiting frame loses the frame and stays waiting. */
  function Release(m: Mailbox, slot: nat, waiting: bool): Mailbox
    requires waiting ==> m.pending.Some?
  {
    if waiting then m.(lent := m.lent - {slot}, pending := Some(m.pending.value.(frame := CLEARED)), spoiled := true)
    else m.(lent := m.lent - {slot})
  }

  // ----- runs ------------------------------------------------------------------------------

  datatype Step = Offer(frame: Frame, notified: bool) | Take(slot: nat) | GiveBack(slot: nat, waiting: bool)

  function Next(m: Mailbox, step: Step): Mailbox {
    match step
    case Offer(f, notified) => Publish(m, f, notified).0
    case Take(slot) => if m.pending.Some? && slot !in m.lent then Acquire(m, slot) else m
    case GiveBack(slot, waiting) => if waiting && m.pending.None? then m else Release(m, slot, waiting)
  }

  function Run(m: Mailbox, steps: seq<Step>): Mailbox
    decreases |steps|
  {
    if steps == [] then m else Run(Next(m, steps[0]), steps[1..])
  }

  /** The entry is a published frame under its number, or what was left of it. */
  predicate Genuine(frames: seq<Frame>, e: Entry) {
    1 <= e.number <= |frames| && (e.frame == frames[e.number - 1] || e.frame == CLEARED)
  }

  /** The frames acquired came in order, each once. */
  predicate LogOk(m: Mailbox) {
    && (forall i :: 0 <= i < |m.log| ==> Genuine(m.frames, m.log[i]) && m.log[i].number <= m.consumed)
    && (forall i, j :: 0 <= i < j < |m.log| ==> m.log[i].number < m.log[j].number)
    && m.consumed <= |m.frames|
  }

  /** The waiting entry is the newest published frame, unless its slot was released under it. */
  predicate PendingOk(m: Mailbox) {
    && (forall i :: 0 <= i < |m.frames| ==> Usable(m.frames[i]))
    && (m.pending.Some? ==>
          && m.consumed < |m.frames|
          && m.pending.value == Entry(|m.frames|, if m.spoiled then CLEARED else m.frames[|m.frames| - 1]))
  }

  /** Every published frame was acquired, overwritten, or is waiting; every drop was an overwrite or
      found no slot. */
  predicate Accounted(m: Mailbox) {
    && m.nextSeq == |m.frames| + 1 && m.counters.published == |m.frames| && m.counters.acquired == |m.log|
    && m.counters.published == m.counters.acquired + m.counters.overwritten + (if m.pending.Some? then 1 else 0)
    && m.counters.dropped == m.counters.overwritten + m.counters.noSlot
  }

  predicate Inv(m: Mailbox) {
    LogOk(m) && PendingOk(m) && Accounted(m)
  }

  lemma PublishKeeps(m: Mailbox, f: Frame, notified: bool)
    requires Inv(m)
    ensures Inv(Publish(m, f, notified).0)
  {
  }

  lemma AcquireKeeps(m: Mailbox, slot: nat)
    requires Inv(m) && m.pending.Some?
    ensures Inv(Acquire(m, slot))
  {
  }

  lemma {:induction false} InvRun(m: Mailbox, steps: seq<Step>)
    requires Inv(m)
    ensures Inv(Run(m, steps))
    decreases |steps|
  {
    if steps == [] {
    } else {
      match steps[0] {
        case Offer(f, notified) => PublishKeeps(m, f, notified);
        case Take(slot) =>
          if m.pending.Some? && slot !in m.lent {
            AcquireKeeps(m, slot);
          }
        case GiveBack(_, _) =>
      }
      InvRun(Next(m, steps[0]), steps[1..]);
    }
  }

  lemma {:induction false} AlwaysTheNewest(m: Mailbox, steps: seq<Step>)
    requires Starts(m)
    ensures Inv(Run(m, steps))
  {
    InvRun(m, steps);
  }

  /** What an acquire would hand out is the last published frame, newer than all acquired before. */
  predicate TakesNewest(m: Mailbox, slot: nat)
    requires m.pending.Some?
  {
    var taken := Acquire(m, slot).log[|m.log|];
    && m.frames != [] && taken == Entry(|m.frames|, m.frames[|m.frames| - 1])
    && (forall i :: 0 <= i < |m.log| ==> m.log[i].number < taken.number)
  }

  lemma TakesNewestIff(m: Mailbox, slot: nat)
    requires Inv(m) && m.pending.Some?
    ensures TakesNewest(m, slot) <==> !m.spoiled
  {
    assert Usable(m.frames[|m.frames| - 1]);
  }

  /** The step stores a frame. */
  predicate Stores(m: Mailbox, step: Step) {
    step.Offer? && Usable(step.frame) && |m.lent| < SLOTS
  }

  predicate NoStore(m: Mailbox, steps: seq<Step>)
    decreases |steps|
  {
    steps == [] || (!Stores(m, steps[0]) && NoStore(Next(m, steps[0]), steps[1..]))
  }

  /** Somebody released the slot of a waiting frame, and no frame was stored after that. */
  predicate ReleasedSinceLastStore(m: Mailbox, steps: seq<Step>)
    decreases |steps|
  {
    && steps != []
    && var n := Next(m, steps[0]);
       || (steps[0].GiveBack? && steps[0].waiting && NoStore(n, steps[1..]))
       || ReleasedSinceLastStore(n, steps[1..])
  }

  /** Without a store no frame comes to wait. */
  lemma {:induction false} NothingWaitsWithoutStore(m: Mailbox, steps: seq<Step>)
    requires m.pending.None? && NoStore(m, steps)
    ensures Run(m, steps).pending.None?
    decreases |steps|
  {
    if steps == [] {
    } else {
      NothingWaitsWithoutStore(Next(m, steps[0]), steps[1..]);
    }
  }

  lemma {:induction false} SpoiledIff(m: Mailbox, steps: seq<Step>)
    requires Run(m, steps).pending.Some?
    ensures Run(m, steps).spoiled <==>
            ReleasedSinceLastStore(m, steps) || (m.pending.Some? && m.spoiled && NoStore(m, steps))
    decreases |steps|
  {
    if steps == [] {
    } else {
      var n := Next(m, steps[0]);
      SpoiledIff(n, steps[1..]);
      if n.pending.None? && NoStore(n, steps[1..]) {
        NothingWaitsWithoutStore(n, steps[1..]);
      }
    }
  }

  /** After any run an acquire yields the last published frame exactly when nobody has released the
      slot of the waiting frame since the last one was stored. */
  lemma {:induction false} AcquiresTheLastPublishedIff(m: Mailbox, steps: seq<Step>, slot: nat)
    requires Starts(m) && Run(m, steps).pending.Some?
    ensures TakesNewest(Run(m, steps), slot) <==> !ReleasedSinceLastStore(m, steps)
  {
    InvRun(m, steps);
    TakesNewestIff(Run(m, steps), slot);
    SpoiledIff(m, steps);
  }

  /** Consumers that release only what they have acquired never spoil a frame. */
  lemma {:induction false} OrderlyReleasesNeverSpoil(m: Mailbox, steps: seq<Step>)
    requires forall k :: 0 <= k < |steps| && steps[k].GiveBack? ==> !steps[k].waiting
    ensures !ReleasedSinceLastStore(m, steps)
    decreases |steps|
  {
    if steps == [] {
    } else {
      assert forall k :: 0 <= k < |steps[1..]| ==> steps[1..][k] == steps[k + 1];
      OrderlyReleasesNeverSpoil(Next(m, steps[0]), steps[1..]);
    }
  }

  // ----- what a publication does -----------------------------------------------------------

  /** A frame without data or buffer is not taken.  Any other waits in the place of the one before, which
      counts as dropped, unless four consumers hold all slots; the caller is also told if nobody could be
      woken. */
  lemma PublicationOutcome(m: Mailbox, f: Frame, notified: bool)
    ensures var (n, result) := Publish(m, f, notified);
            if !(f.hasData && f.length > 0 && f.hasBuffer) then result == Invalid && n == m
            else if |m.lent| >= 4 then
              && result == Refused && n.pending == m.pending && n.lent == m.lent && n.nextSeq == m.nextSeq
              && n.counters.dropped == m.counters.dropped + 1 && n.counters.noSlot == m.counters.noSlot + 1
            else
              && result == (if notified then Stored else NotifyFailed)
              && n.pending == Some(Entry(m.nextSeq, f)) && n.lent == m.lent && n.nextSeq == m.nextSeq + 1
              && n.counters.dropped == m.counters.dropped + (if m.pending.Some? then 1 else 0)
              && n.counters.noSlot == m.counters.noSlot
  {
  }

  // ----- what is lent ----------------------------------------------------------------------

  /** What a slot was last handed out with, if it has not been given back since. */
  function LoanAfter(m: Mailbox, step: Step, n: Mailbox, slot: nat, loan: Option<Entry>): Option<Entry> {
    match step
    case Take(s) => if s == slot && |n.log| > |m.log| then Some(n.log[|n.log| - 1]) else loan
    case GiveBack(s, waiting) => if s == slot && (waiting ==> m.pending.Some?) then None else loan
    case _ => loan
  }

  function Loan(m: Mailbox, steps: seq<Step>, slot: nat, loan: Option<Entry>): Option<Entry>
    decreases |steps|
  {
    if steps == [] then loan
    else
      var n := Next(m, steps[0]);
      Loan(n, steps[1..], slot, LoanAfter(m, steps[0], n, slot, loan))
  }

  function LentAt(m: Mailbox, slot: nat): Option<Entry> {
    if slot in m.lent then Some(m.lent[slot]) else None
  }

  lemma LoanStep(m: Mailbox, step: Step, slot: nat)
    ensures var n := Next(m, step); LentAt(n, slot) == LoanAfter(m, step, n, slot, LentAt(m, slot))
  {
  }

  lemma {:induction false} LoanRun(m: Mailbox, steps: seq<Step>, slot: nat)
    ensures LentAt(Run(m, steps), slot) == Loan(m, steps, slot, LentAt(m, slot))
    decreases |steps|
  {
    if steps == [] {
    } else {
      LoanStep(m, steps[0], slot);
      LoanRun(Next(m, steps[0]), steps[1..], slot);
    }
  }

  /** A consumer keeps the frame it acquired, unchanged, until the slot is released, whatever is published
      meanwhile; nothing else is lent. */
  lemma LentUntilGivenBack(m: Mailbox, steps: seq<Step>, slot: nat)
    requires Starts(m)
    ensures LentAt(Run(m, steps), slot) == Loan(m, steps, slot, None)
  {
    LoanRun(m, steps, slot);
  }
}
