/** What the audio frame source promises: a first-in first-out queue that drops its oldest frame when
    it runs out of room.  A frame that a consumer has acquired takes up room until it is released.

    `overwritten`, `refused`, `miscounted`, `published` and `log` are history: frames dropped from the
    queue, frames that found every slot lent, drops counted without one, every frame that entered the
    queue, and every frame that was acquired, with its number. */
module AudioQueue {
  import opened Options

  datatype Frame = Frame(id: nat, pts: nat, bytes: seq<bv8>)

  datatype Entry = Entry(number: nat, frame: Frame)

  datatype Queue = Queue(
    waiting: seq<Entry>,
    lent: map<nat, Entry>,
    nextSeq: nat,
    fatal: bool,
    dropped: nat,
    overwritten: nat,
    refused: nat,
    miscounted: nat,
    published: seq<Frame>,
    log: seq<Entry>)

  predicate Starts(q: Queue) {
    && q.waiting == [] && q.lent == map[] && q.nextSeq == 1 && !q.fatal && q.published == [] && q.log == []
    && q.dropped == 0 && q.overwritten == 0 && q.refused == 0 && q.miscounted == 0
  }

  datatype Published = Stored | Refused | TooLarge | Invalid

  function DropOldest(q: Queue): Queue
    requires q.waiting != []
  {
    q.(waiting := q.waiting[1..], overwritten := q.overwritten + 1)
  }

  function Append(q: Queue, f: Frame): Queue {
    q.(waiting := q.waiting + [Entry(q.nextSeq, f)], nextSeq := q.nextSeq + 1, published := q.published + [f])
  }

  /** The frame joins the queue, in the place of the oldest one if need be. */
  function Store(q: Queue, f: Frame, full: bool): Queue
    requires full ==> q.waiting != []
  {
    Append(if full then DropOldest(q) else q, f)
  }

  /** Copies the frame into a slot; the drop of the oldest frame has been counted already. */
  function Write(most: nat, q: Queue, f: Frame, full: bool): (Queue, Published)
    requires full ==> q.waiting != []
  {
    if |f.bytes| > most then
      (q.(fatal := true, miscounted := q.miscounted + if full then 1 else 0), TooLarge)
    else (Store(q, f, full), Stored)
  }

  /** `room` is the number of slots, `most` what one slot can hold. */
  function Publish(room: nat, most: nat, q: Queue, f: Frame): (Queue, Published) {
    var full := q.waiting != [] && |q.waiting| + |q.lent| >= room;
    if f.bytes == [] then (q, Invalid)
    else if |q.lent| >= room then (q.(dropped := q.dropped + 1, refused := q.refused + 1), Refused)
    else Write(most, q.(dropped := q.dropped + if full then 1 else 0), f, full)
  }

  predicate CanAcquire(q: Queue) {
    !q.fatal && q.waiting != []
  }

  function Acquire(q: Queue, slot: nat): Queue
    requires CanAcquire(q)
  {
    q.(waiting := q.waiting[1..], lent := q.lent[slot := q.waiting[0]], log := q.log + [q.waiting[0]])
  }

  function Release(q: Queue, slot: nat): Queue {
    q.(lent := q.lent - {slot})
  }

  // ----- runs ------------------------------------------------------------------------------

  datatype Step = Offer(frame: Frame) | Take(slot: nat) | GiveBack(slot: nat)

  function Next(room: nat, most: nat, q: Queue, step: Step): Queue {
    match step
    case Offer(f) => Publish(room, most, q, f).0
    case Take(slot) => if CanAcquire(q) && slot !in q.lent then Acquire(q, slot) else q
    case GiveBack(slot) => Release(q, slot)
  }

  function Run(room: nat, most: nat, q: Queue, steps: seq<Step>): Queue
    decreases |steps|
  {
    if steps == [] then q else Run(room, most, Next(room, most, q, steps[0]), steps[1..])
  }

  predicate Ascending(es: seq<Entry>) {
    forall i, j :: 0 <= i < j < |es| ==> es[i].number < es[j].number
  }

  /** The entry is the frame that was published under its number. */
  predicate Genuine(published: seq<Frame>, e: Entry) {
    1 <= e.number <= |published| && published[e.number - 1] == e.frame
  }

  /** The waiting frames are the newest published ones, all of them. */
  predicate Newest(q: Queue) {
    && |q.waiting| <= |q.published| && q.nextSeq == |q.published| + 1
    && (forall i :: 0 <= i < |q.waiting| ==>
          var k := |q.published| - |q.waiting| + i;
          q.waiting[i] == Entry(k + 1, q.published[k]))
  }

  predicate Orderly(q: Queue) {
    && Newest(q)
    && Ascending(q.log)
    && (forall i :: 0 <= i < |q.log| ==>
          Genuine(q.published, q.log[i]) && q.log[i].number <= |q.published| - |q.waiting|)
    && |q.published| == |q.log| + q.overwritten + |q.waiting|
  }

  predicate DropsCounted(q: Queue) {
    q.dropped == q.overwritten + q.refused + q.miscounted
  }

  predicate Inv(q: Queue) {
    Orderly(q) && DropsCounted(q)
  }

  lemma AppendKeeps(q: Queue, f: Frame)
    requires Orderly(q)
    ensures Orderly(Append(q, f))
  {
  }

  lemma DropKeeps(q: Queue)
    requires Orderly(q) && q.waiting != []
    ensures Orderly(DropOldest(q))
  {
  }

  lemma WriteKeeps(most: nat, q: Queue, f: Frame, full: bool)
    requires Orderly(q) && (full ==> q.waiting != [])
    ensures Orderly(Write(most, q, f, full).0)
  {
    if full {
      DropKeeps(q);
      AppendKeeps(DropOldest(q), f);
    } else {
      AppendKeeps(q, f);
    }
  }

  lemma PublishCounts(room: nat, most: nat, q: Queue, f: Frame)
    requires DropsCounted(q)
    ensures DropsCounted(Publish(room, most, q, f).0)
  {
  }

  /** Order does not depend on what is lent, on the fatal flag or on how drops were counted. */
  lemma TalliesDoNotMatter(q: Queue, r: Queue)
    requires Orderly(q)
    requires r.waiting == q.waiting && r.nextSeq == q.nextSeq && r.overwritten == q.overwritten
    requires r.published == q.published && r.log == q.log
    ensures Orderly(r)
  {
  }

  lemma PublishKeeps(room: nat, most: nat, q: Queue, f: Frame)
    requires Orderly(q)
    ensures Orderly(Publish(room, most, q, f).0)
  {
    var full := q.waiting != [] && |q.waiting| + |q.lent| >= room;
    var counted := q.(dropped := q.dropped + if full then 1 else 0);
    if f.bytes == [] || |q.lent| >= room {
      TalliesDoNotMatter(q, Publish(room, most, q, f).0);
    } else {
      TalliesDoNotMatter(q, counted);
      WriteKeeps(most, counted, f, full);
    }
  }

  lemma AcquireKeeps(q: Queue, slot: nat)
    requires Inv(q) && CanAcquire(q)
    ensures Inv(Acquire(q, slot))
  {
  }

  lemma {:induction false} InvRun(room: nat, most: nat, q: Queue, steps: seq<Step>)
    requires Inv(q)
    ensures Inv(Run(room, most, q, steps))
    decreases |steps|
  {
    if steps == [] {
    } else {
      match steps[0] {
        case Offer(f) =>
          PublishKeeps(room, most, q, f);
          PublishCounts(room, most, q, f);
        case Take(slot) =>
          if CanAcquire(q) && slot !in q.lent {
            AcquireKeeps(q, slot);
          }
        case GiveBack(_) =>
      }
      InvRun(room, most, Next(room, most, q, steps[0]), steps[1..]);
    }
  }

  /** Consumers see the published frames in order, each at most once; every published frame was
      acquired, dropped, or is waiting; and every drop that was counted is one of three kinds. */
  lemma {:induction false} InOrderAndAccounted(room: nat, most: nat, q: Queue, steps: seq<Step>)
    requires Starts(q)
    ensures Inv(Run(room, most, q, steps))
  {
    InvRun(room, most, q, steps);
  }

  // ----- when the drop counter is right ----------------------------------------------------

  /** The frame does not fit into a slot and meets a full ring: the drop of the oldest frame has been
      counted when the frame is turned away. */
  predicate CountsInVain(room: nat, most: nat, q: Queue, f: Frame) {
    |f.bytes| > most && |q.lent| < room && q.waiting != [] && |q.waiting| + |q.lent| >= room
  }

  predicate NeverInVain(room: nat, most: nat, q: Queue, steps: seq<Step>)
    decreases |steps|
  {
    steps == []
    || ((steps[0].Offer? ==> !CountsInVain(room, most, q, steps[0].frame))
        && NeverInVain(room, most, Next(room, most, q, steps[0]), steps[1..]))
  }

  lemma {:induction false} MiscountedRun(room: nat, most: nat, q: Queue, steps: seq<Step>)
    ensures Run(room, most, q, steps).miscounted >= q.miscounted
    ensures Run(room, most, q, steps).miscounted == q.miscounted <==> NeverInVain(room, most, q, steps)
    decreases |steps|
  {
    if steps == [] {
    } else {
      MiscountedRun(room, most, Next(room, most, q, steps[0]), steps[1..]);
    }
  }

  /** The drop counter is the number of frames dropped or refused. */
  predicate CounterIsRight(q: Queue) {
    q.dropped == q.overwritten + q.refused
  }

  /** It is, over any run, exactly when no frame that is too large for a slot ever meets a full ring
      with a slot that is not lent. */
  lemma {:induction false} DropCounterIsRightIff(room: nat, most: nat, q: Queue, steps: seq<Step>)
    requires Starts(q)
    ensures CounterIsRight(Run(room, most, q, steps)) <==> NeverInVain(room, most, q, steps)
  {
    InvRun(room, most, q, steps);
    MiscountedRun(room, most, q, steps);
  }

  /** One slot of one byte: a frame of one byte waits, a frame of two bytes is turned away, and the
      counter says one although nothing was dropped or refused. */
  lemma TooLargeIsCounted(q: Queue)
    requires Starts(q)
    ensures var r := Run(1, 1, q, [Offer(Frame(1, 0, [0])), Offer(Frame(2, 0, [0, 0]))]);
            !CounterIsRight(r) && r.dropped == 1 && r.overwritten == 0 && r.refused == 0 && |r.waiting| == 1
  {
    var steps := [Offer(Frame(1, 0, [0])), Offer(Frame(2, 0, [0, 0]))];
    assert steps[1..] == [steps[1]] && [steps[1]][1..] == [];
    var n := Next(1, 1, q, steps[0]);
    assert Run(1, 1, q, steps) == Run(1, 1, Next(1, 1, n, steps[1]), []);
  }

  /** A source whose frames fit into a slot, as frames of one capture period do, never gets there. */
  lemma {:induction false} FittingFramesNeverFail(room: nat, most: nat, q: Queue, steps: seq<Step>)
    requires forall k :: 0 <= k < |steps| && steps[k].Offer? ==> |steps[k].frame.bytes| <= most
    ensures NeverInVain(room, most, q, steps)
    ensures Run(room, most, q, steps).fatal == q.fatal
    decreases |steps|
  {
    if steps == [] {
    } else {
      assert forall k :: 0 <= k < |steps[1..]| ==> steps[1..][k] == steps[k + 1];
      FittingFramesNeverFail(room, most, Next(room, most, q, steps[0]), steps[1..]);
    }
  }

  // ----- what is lent ----------------------------------------------------------------------

  /** What a slot was last handed out with, if it has not been given back since. */
  function LoanAfter(q: Queue, step: Step, n: Queue, slot: nat, loan: Option<Entry>): Option<Entry> {
    match step
    case Take(s) => if s == slot && |n.log| > |q.log| then Some(n.log[|n.log| - 1]) else loan
    case GiveBack(s) => if s == slot then None else loan
    case _ => loan
  }

  function Loan(room: nat, most: nat, q: Queue, steps: seq<Step>, slot: nat, loan: Option<Entry>): Option<Entry>
    decreases |steps|
  {
    if steps == [] then loan
    else
      var n := Next(room, most, q, steps[0]);
      Loan(room, most, n, steps[1..], slot, LoanAfter(q, steps[0], n, slot, loan))
  }

  function LentAt(q: Queue, slot: nat): Option<Entry> {
    if slot in q.lent then Some(q.lent[slot]) else None
  }

  lemma LoanStep(room: nat, most: nat, q: Queue, step: Step, slot: nat)
    ensures var n := Next(room, most, q, step); LentAt(n, slot) == LoanAfter(q, step, n, slot, LentAt(q, slot))
  {
  }

  lemma {:induction false} LoanRun(room: nat, most: nat, q: Queue, steps: seq<Step>, slot: nat)
    ensures LentAt(Run(room, most, q, steps), slot) == Loan(room, most, q, steps, slot, LentAt(q, slot))
    decreases |steps|
  {
    if steps == [] {
    } else {
      LoanStep(room, most, q, steps[0], slot);
      LoanRun(room, most, Next(room, most, q, steps[0]), steps[1..], slot);
    }
  }

  /** A consumer keeps the frame it acquired, unchanged, until it gives the slot back, whatever is
      published meanwhile; nothing else is lent. */
  lemma LentUntilGivenBack(room: nat, most: nat, q: Queue, steps: seq<Step>, slot: nat)
    requires Starts(q)
    ensures LentAt(Run(room, most, q, steps), slot) == Loan(room, most, q, steps, slot, None)
  {
    LoanRun(room, most, q, steps, slot);
  }

  /** Waiting and lent frames never need more slots than there are. */
  lemma {:induction false} RoomIsEnough(room: nat, most: nat, q: Queue, steps: seq<Step>)
    requires |q.waiting| + |q.lent| <= room
    ensures |Run(room, most, q, steps).waiting| + |Run(room, most, q, steps).lent| <= room
    decreases |steps|
  {
    if steps == [] {
    } else {
      var n := Next(room, most, q, steps[0]);
      if steps[0].Take? && CanAcquire(q) && steps[0].slot !in q.lent {
        OneMoreLent(q.lent, steps[0].slot, q.waiting[0]);
      } else if steps[0].GiveBack? {
        FewerLent(q.lent, steps[0].slot);
      }
      RoomIsEnough(room, most, n, steps[1..]);
    }
  }

  lemma OneMoreLent(lent: map<nat, Entry>, slot: nat, e: Entry)
    requires slot !in lent
    ensures |lent[slot := e]| == |lent| + 1
  {
    assert lent[slot := e].Keys == lent.Keys + {slot};
    assert |lent[slot := e]| == |lent[slot := e].Keys| && |lent| == |lent.Keys|;
  }

  lemma FewerLent(lent: map<nat, Entry>, slot: nat)
    ensures |lent - {slot}| <= |lent|
  {
    assert (lent - {slot}).Keys == lent.Keys - {slot};
    assert |lent - {slot}| == |(lent - {slot}).Keys| && |lent| == |lent.Keys|;
    assert lent.Keys == (lent.Keys - {slot}) + (lent.Keys * {slot});
  }

  // ----- a frame that does not fit ---------------------------------------------------------

  /** A frame that does not fit into a slot is offered while a slot is left to write to. */
  predicate MeetsTooLarge(room: nat, most: nat, q: Queue, steps: seq<Step>)
    decreases |steps|
  {
    && steps != []
    && (|| (steps[0].Offer? && |steps[0].frame.bytes| > most && |q.lent| < room)
        || MeetsTooLarge(room, most, Next(room, most, q, steps[0]), steps[1..]))
  }

  /** The source fails for good exactly when that happens. */
  lemma {:induction false} FailsIffTooLarge(room: nat, most: nat, q: Queue, steps: seq<Step>)
    ensures Run(room, most, q, steps).fatal <==> q.fatal || MeetsTooLarge(room, most, q, steps)
    decreases |steps|
  {
    if steps == [] {
    } else {
      FailsIffTooLarge(room, most, Next(room, most, q, steps[0]), steps[1..]);
    }
  }

  /** From then on nobody is handed a frame. */
  lemma NothingAfterFailure(room: nat, most: nat, q: Queue, slot: nat)
    requires q.fatal
    ensures Next(room, most, q, Take(slot)) == q
  {
  }
}
