/** Producers, output channels and the buffer pool together: in every reachable state the pool's
    account is exactly the packets that producers, queues and sending threads hold. */
module MediaFlow {
  import opened Options
  import opened MediaBuffers
  import opened MediaPackets
  import opened OutputPolicy
  import opened MediaOutput

  // ----- the account as a value ------------------------------------------------------------

  ghost function Sum(ms: seq<multiset<MediaBuffer>>): multiset<MediaBuffer> {
    if ms == [] then multiset{} else ms[0] + Sum(ms[1..])
  }

  lemma Regroup<T>(x: multiset<T>, a: multiset<T>, b: multiset<T>, c: multiset<T>, d: multiset<T>)
    requires a + b == c + d
    ensures (x + a) + b == (x + c) + d
  {
    UnionAssociates(x, a, b);
    UnionAssociates(x, c, d);
  }

  lemma SameExcept<T>(a: multiset<T>, b: multiset<T>, x: multiset<T>)
    requires a + x == b + x
    ensures a == b
  {
    assert (a + x) - x == a && (b + x) - x == b;
  }

  lemma {:induction false} SumUpdate(ms: seq<multiset<MediaBuffer>>, i: nat, m: multiset<MediaBuffer>)
    requires i < |ms|
    ensures Sum(ms[i := m]) + ms[i] == Sum(ms) + m
  {
    var t := ms[i := m];
    if i == 0 {
      assert t[1..] == ms[1..];
    } else {
      assert t[1..] == ms[1..][i - 1 := m];
      SumUpdate(ms[1..], i - 1, m);
      Regroup(ms[0], Sum(t[1..]), ms[i], Sum(ms[1..]), m);
    }
  }

  lemma {:induction false} SumPart(ms: seq<multiset<MediaBuffer>>, i: nat)
    requires i < |ms|
    ensures ms[i] <= Sum(ms)
  {
    if i == 0 {
    } else {
      SumPart(ms[1..], i - 1);
    }
  }

  /** One channel goes from holding `a` to holding `b` while the account changes the same way. */
  lemma SumFollows(ms: seq<multiset<MediaBuffer>>, i: nat, producers: multiset<MediaBuffer>,
                   before: multiset<MediaBuffer>, after: multiset<MediaBuffer>, m: multiset<MediaBuffer>)
    requires i < |ms| && before == producers + Sum(ms) && after + ms[i] == before + m
    ensures after == producers + Sum(ms[i := m])
  {
    SumUpdate(ms, i, m);
    Regroup(producers, Sum(ms[i := m]), ms[i], Sum(ms), m);
    SameExcept(after, producers + Sum(ms[i := m]), ms[i]);
  }

  lemma HeldWithoutHead(s: Output, t: FrameType)
    requires QueueOf(s, t) != []
    ensures Held(s) == BufferOf(QueueOf(s, t)[0]) + Held(WithQueue(s, t, QueueOf(s, t)[1..]))
  {
    var q := QueueOf(s, t);
    assert q == [q[0]] + q[1..];
    BuffersPop(q[0], q[1..]);
  }

  lemma HeldWithMore(s: Output, t: FrameType, p: Packet)
    ensures Held(WithQueue(s, t, QueueOf(s, t) + [p])) == Held(s) + BufferOf(p)
  {
    BuffersPush(QueueOf(s, t), p);
  }

  /** Two changes that keep the account keep it together. */
  lemma Chain<T>(h0: multiset<T>, h1: multiset<T>, h2: multiset<T>, a0: multiset<T>, a1: multiset<T>, a2: multiset<T>)
    requires h1 + a0 == h0 + a1 && h2 + a1 == h1 + a2
    ensures h2 + a0 == h0 + a2
  {
    forall x ensures (h2 + a0)[x] == (h0 + a2)[x] {
      assert (h1 + a0)[x] == (h0 + a1)[x] && (h2 + a1)[x] == (h1 + a2)[x];
    }
  }

  lemma AppendAccount(s: Output, p: Packet, holds: multiset<MediaBuffer>)
    ensures (holds + BufferOf(p)) + Held(s) == holds + Held(Append(s, p))
  {
    HeldWithMore(s, p.frameType, p);
  }

  lemma DropAccount(s: Output, t: FrameType, holds: multiset<MediaBuffer>)
    requires QueueOf(s, t) != [] && BufferOf(QueueOf(s, t)[0]) <= holds
    ensures (holds - BufferOf(QueueOf(s, t)[0])) + Held(s) == holds + Held(OutputPolicy.DropOldest(s, t))
  {
    HeldWithoutHead(s, t);
  }

  lemma EnqueueAccount(cfg: Config, s: Output, p: Packet, holds: multiset<MediaBuffer>)
    requires cfg.capacity > 0 && Touched(cfg, s, p) <= holds
    ensures AccountAfter(cfg, s, p, holds) + Held(s) == holds + Held(OutputPolicy.Enqueue(cfg, s, p).0)
  {
    var n := OutputPolicy.Enqueue(cfg, s, p).0;
    var q := QueueOf(s, p.frameType);
    if p.buffer == null {
    } else if |q| < cfg.capacity {
      AppendAccount(s, p, holds);
    } else if Displaces(cfg, s, p) {
      var mid := OutputPolicy.DropOldest(s, p.frameType);
      DropAccount(s, p.frameType, holds);
      AppendAccount(mid, p, holds - BufferOf(q[0]));
      Chain(holds, holds - BufferOf(q[0]), holds - BufferOf(q[0]) + BufferOf(p), Held(s), Held(mid), Held(Append(mid, p)));
      assert Held(n) == Held(Append(mid, p));
    }
  }

  lemma HeldInFlight(s: Output, p: Packet)
    requires s.inFlight == EMPTY
    ensures Held(s.(inFlight := p)) == BufferOf(p) + Held(s)
  {
  }

  lemma TakeAccount(s: Output)
    requires CanTake(s)
    ensures Held(OutputPolicy.TakeNext(s)) == Held(s)
  {
    var t := Choose(s.video, s.audio, s.waiting);
    HeldWithoutHead(s, t);
    HeldInFlight(WithQueue(s, t, QueueOf(s, t)[1..]), QueueOf(s, t)[0]);
  }

  lemma ResetAccount(s: Output, n: Output, holds: multiset<MediaBuffer>)
    requires BufferOf(s.inFlight) <= holds
    requires n.video == s.video && n.audio == s.audio && n.inFlight == EMPTY
    ensures (holds - BufferOf(s.inFlight)) + Held(s) == holds + Held(n)
  {
  }

  // ----- the ledger ------------------------------------------------------------------------

  /** The pool's account next to every packet that may hold a buffer. */
  datatype Ledger = Ledger(holds: multiset<MediaBuffer>, producers: seq<Packet>, outputs: seq<Output>)

  datatype Move =
    | Produced(packet: Packet)
    | Discard(k: nat)
    | Hand(i: nat, k: nat)
    | Fetch(i: nat)
    | Link(i: nat, ok: bool)
    | Deliver(i: nat, ok: bool, bytes: nat)

  ghost predicate Fits(cfgs: seq<Config>, l: Ledger) {
    |cfgs| == |l.outputs| && forall i :: 0 <= i < |cfgs| ==> cfgs[i].capacity > 0
  }

  ghost predicate CanMove(cfgs: seq<Config>, l: Ledger, move: Move) {
    Fits(cfgs, l) &&
    match move
    case Produced(p) => p.buffer != null && p.buffer !in l.holds
    case Discard(k) => k < |l.producers|
    case Hand(i, k) => i < |l.outputs| && k < |l.producers|
    case Fetch(i) => i < |l.outputs| && CanTake(l.outputs[i])
    case Link(i, _) => i < |l.outputs| && l.outputs[i].inFlight != EMPTY && !l.outputs[i].ready
    case Deliver(i, _, _) => i < |l.outputs| && l.outputs[i].inFlight != EMPTY && l.outputs[i].ready
  }

  /** The references that the step's code relies on are held. */
  ghost predicate Safe(cfgs: seq<Config>, l: Ledger, move: Move)
    requires CanMove(cfgs, l, move)
  {
    match move
    case Discard(k) => BufferOf(l.producers[k]) <= l.holds
    case Hand(i, k) => Touched(cfgs[i], l.outputs[i], l.producers[k]) <= l.holds
    case Link(i, _) => BufferOf(l.outputs[i].inFlight) <= l.holds
    case Deliver(i, _, _) => BufferOf(l.outputs[i].inFlight) <= l.holds
    case _ => true
  }

  function WithoutProducer(ps: seq<Packet>, k: nat): seq<Packet>
    requires k < |ps|
  {
    ps[..k] + ps[k + 1..]
  }

  ghost function After(cfgs: seq<Config>, l: Ledger, move: Move): Ledger
    requires CanMove(cfgs, l, move)
  {
    match move
    case Produced(p) => Ledger(l.holds + BufferOf(p), l.producers + [p], l.outputs)
    case Discard(k) => Ledger(l.holds - BufferOf(l.producers[k]), WithoutProducer(l.producers, k), l.outputs)
    case Hand(i, k) =>
      var s, p := l.outputs[i], l.producers[k];
      l.(holds := AccountAfter(cfgs[i], s, p, l.holds), outputs := l.outputs[i := OutputPolicy.Enqueue(cfgs[i], s, p).0])
    case Fetch(i) => l.(outputs := l.outputs[i := OutputPolicy.TakeNext(l.outputs[i])])
    case Link(i, ok) =>
      var s := l.outputs[i];
      l.(holds := l.holds - if ok then multiset{} else BufferOf(s.inFlight),
         outputs := l.outputs[i := ConnectFirst(cfgs[i], s, ok)])
    case Deliver(i, ok, bytes) =>
      var s := l.outputs[i];
      l.(holds := l.holds - BufferOf(s.inFlight), outputs := l.outputs[i := SendOrDrop(cfgs[i], s, ok, bytes)])
  }

  ghost function Holdings(ss: seq<Output>): (ms: seq<multiset<MediaBuffer>>)
    ensures |ms| == |ss|
  {
    seq(|ss|, i requires 0 <= i < |ss| => Held(ss[i]))
  }

  /** Reference counting: the account is what producers and channels hold, no more and no less. */
  ghost predicate Balanced(l: Ledger) {
    l.holds == Buffers(l.producers) + Sum(Holdings(l.outputs))
  }

  lemma HoldingsUpdate(ss: seq<Output>, i: nat, n: Output)
    requires i < |ss|
    ensures Holdings(ss[i := n]) == Holdings(ss)[i := Held(n)]
  {
  }

  /** A change in one channel that moves the account as it moves the channel's holdings. */
  lemma ChannelStep(l: Ledger, i: nat, n: Output, holds: multiset<MediaBuffer>)
    requires Balanced(l) && i < |l.outputs| && holds + Held(l.outputs[i]) == l.holds + Held(n)
    ensures Balanced(Ledger(holds, l.producers, l.outputs[i := n]))
  {
    HoldingsUpdate(l.outputs, i, n);
    SumFollows(Holdings(l.outputs), i, Buffers(l.producers), l.holds, holds, Held(n));
  }

  lemma UnionSwap<T>(a: multiset<T>, x: multiset<T>, b: multiset<T>)
    ensures a + (x + b) == (a + b) + x
  {
  }

  lemma BuffersMiddle(a: seq<Packet>, p: Packet, b: seq<Packet>)
    ensures Buffers(a + ([p] + b)) == Buffers(a + b) + BufferOf(p)
  {
    BuffersConcat(a, [p] + b);
    BuffersPop(p, b);
    BuffersConcat(a, b);
    UnionSwap(Buffers(a), BufferOf(p), Buffers(b));
  }

  lemma SplitAround(ps: seq<Packet>, rest: seq<Packet>, a: seq<Packet>, p: Packet, b: seq<Packet>)
    requires ps == a + ([p] + b) && rest == a + b
    ensures Buffers(ps) == Buffers(rest) + BufferOf(p)
  {
    BuffersMiddle(a, p, b);
  }

  lemma CutAt(ps: seq<Packet>, k: nat)
    requires k < |ps|
    ensures ps == ps[..k] + ([ps[k]] + ps[k + 1..]) && WithoutProducer(ps, k) == ps[..k] + ps[k + 1..]
  {
  }

  lemma ProducerSplit(ps: seq<Packet>, k: nat)
    requires k < |ps|
    ensures Buffers(ps) == Buffers(WithoutProducer(ps, k)) + BufferOf(ps[k])
  {
    CutAt(ps, k);
    SplitAround(ps, WithoutProducer(ps, k), ps[..k], ps[k], ps[k + 1..]);
  }

  // ----- every step ------------------------------------------------------------------------

  ghost predicate AllQueuesOk(cfgs: seq<Config>, l: Ledger)
    requires Fits(cfgs, l)
  {
    forall i :: 0 <= i < |l.outputs| ==> QueuesOk(cfgs[i], l.outputs[i])
  }

  ghost predicate LedgerInv(cfgs: seq<Config>, l: Ledger) {
    Balanced(l) && Fits(cfgs, l) && AllQueuesOk(cfgs, l)
  }

  lemma ChannelPart(l: Ledger, i: nat)
    requires Balanced(l) && i < |l.outputs|
    ensures Buffers(l.producers) + Held(l.outputs[i]) <= l.holds
  {
    SumPart(Holdings(l.outputs), i);
  }

  lemma HeadIsHeld(s: Output, t: FrameType)
    requires QueueOf(s, t) != []
    ensures BufferOf(QueueOf(s, t)[0]) <= Held(s)
  {
    HeldWithoutHead(s, t);
  }

  lemma OfferIsSafe(cfgs: seq<Config>, l: Ledger, i: nat, k: nat)
    requires LedgerInv(cfgs, l) && CanMove(cfgs, l, Hand(i, k))
    ensures Touched(cfgs[i], l.outputs[i], l.producers[k]) <= l.holds
  {
    var s, p := l.outputs[i], l.producers[k];
    ProducerSplit(l.producers, k);
    ChannelPart(l, i);
    assert BufferOf(p) <= Buffers(l.producers);
    if Displaces(cfgs[i], s, p) {
      HeadIsHeld(s, p.frameType);
      assert BufferOf(QueueOf(s, p.frameType)[0]) + BufferOf(p) <= Held(s) + Buffers(l.producers);
    }
  }

  /** In a balanced state every reference that a step relies on is there. */
  lemma AlwaysSafe(cfgs: seq<Config>, l: Ledger, move: Move)
    requires LedgerInv(cfgs, l) && CanMove(cfgs, l, move)
    ensures Safe(cfgs, l, move)
  {
    match move
    case Produced(_) =>
    case Discard(k) =>
      ProducerSplit(l.producers, k);
    case Hand(i, k) =>
      OfferIsSafe(cfgs, l, i, k);
    case Fetch(_) =>
    case Link(i, _) =>
      ChannelPart(l, i);
    case Deliver(i, _, _) =>
      ChannelPart(l, i);
  }

  lemma ProducedBalanced(l: Ledger, p: Packet)
    requires Balanced(l)
    ensures Balanced(Ledger(l.holds + BufferOf(p), l.producers + [p], l.outputs))
  {
    BuffersPush(l.producers, p);
    UnionSwap(Buffers(l.producers), BufferOf(p), Sum(Holdings(l.outputs)));
  }

  lemma DiscardBalanced(l: Ledger, k: nat)
    requires Balanced(l) && k < |l.producers|
    ensures Balanced(Ledger(l.holds - BufferOf(l.producers[k]), WithoutProducer(l.producers, k), l.outputs))
  {
    ProducerSplit(l.producers, k);
  }

  lemma OfferBalanced(cfgs: seq<Config>, l: Ledger, i: nat, k: nat)
    requires LedgerInv(cfgs, l) && CanMove(cfgs, l, Hand(i, k))
    ensures Balanced(After(cfgs, l, Hand(i, k)))
  {
    var s, p := l.outputs[i], l.producers[k];
    OfferIsSafe(cfgs, l, i, k);
    EnqueueAccount(cfgs[i], s, p, l.holds);
    ChannelStep(l, i, OutputPolicy.Enqueue(cfgs[i], s, p).0, AccountAfter(cfgs[i], s, p, l.holds));
  }

  lemma TakeBalanced(l: Ledger, i: nat)
    requires Balanced(l) && i < |l.outputs| && CanTake(l.outputs[i])
    ensures Balanced(l.(outputs := l.outputs[i := OutputPolicy.TakeNext(l.outputs[i])]))
  {
    TakeAccount(l.outputs[i]);
    ChannelStep(l, i, OutputPolicy.TakeNext(l.outputs[i]), l.holds);
  }

  lemma SendBalanced(cfgs: seq<Config>, l: Ledger, i: nat, ok: bool, bytes: nat)
    requires LedgerInv(cfgs, l) && CanMove(cfgs, l, Deliver(i, ok, bytes))
    ensures Balanced(After(cfgs, l, Deliver(i, ok, bytes)))
  {
    var s := l.outputs[i];
    var n := SendOrDrop(cfgs[i], s, ok, bytes);
    ChannelPart(l, i);
    ResetAccount(s, n, l.holds);
    ChannelStep(l, i, n, l.holds - BufferOf(s.inFlight));
  }

  lemma ConnectBalanced(cfgs: seq<Config>, l: Ledger, i: nat, ok: bool)
    requires LedgerInv(cfgs, l) && CanMove(cfgs, l, Link(i, ok))
    ensures Balanced(After(cfgs, l, Link(i, ok)))
  {
    var s := l.outputs[i];
    var n := ConnectFirst(cfgs[i], s, ok);
    ChannelPart(l, i);
    if ok {
      assert Held(n) == Held(s);
      ChannelStep(l, i, n, l.holds);
    } else {
      ResetAccount(s, n, l.holds);
      ChannelStep(l, i, n, l.holds - BufferOf(s.inFlight));
    }
  }

  lemma StepKeepsLedger(cfgs: seq<Config>, l: Ledger, move: Move)
    requires LedgerInv(cfgs, l) && CanMove(cfgs, l, move)
    ensures Balanced(After(cfgs, l, move))
  {
    match move
    case Produced(p) => ProducedBalanced(l, p);
    case Discard(k) => DiscardBalanced(l, k);
    case Hand(i, k) => OfferBalanced(cfgs, l, i, k);
    case Fetch(i) => TakeBalanced(l, i);
    case Link(i, ok) => ConnectBalanced(cfgs, l, i, ok);
    case Deliver(i, ok, bytes) => SendBalanced(cfgs, l, i, ok, bytes);
  }

  lemma QueuesKept(cfgs: seq<Config>, l: Ledger, move: Move)
    requires CanMove(cfgs, l, move) && AllQueuesOk(cfgs, l)
    ensures Fits(cfgs, After(cfgs, l, move)) && AllQueuesOk(cfgs, After(cfgs, l, move))
  {
    match move
    case Hand(i, k) => OfferKeeps(cfgs[i], l.outputs[i], l.producers[k]);
    case Fetch(i) => TakeKeeps(cfgs[i], l.outputs[i]);
    case _ =>
  }

  lemma {:induction false} NothingHeld(ss: seq<Output>)
    requires forall i :: 0 <= i < |ss| ==> ss[i].video == [] && ss[i].audio == [] && ss[i].inFlight == EMPTY
    ensures Sum(Holdings(ss)) == multiset{}
  {
    if ss == [] {
    } else {
      NothingHeld(ss[1..]);
      assert Holdings(ss)[1..] == Holdings(ss[1..]);
    }
  }

  /** Once producers, queues and threads hold nothing, no buffer is in use: none has leaked. */
  lemma NoneLeaks(l: Ledger)
    requires Balanced(l) && l.producers == []
    requires forall i :: 0 <= i < |l.outputs| ==> l.outputs[i].video == [] && l.outputs[i].audio == [] && l.outputs[i].inFlight == EMPTY
    ensures l.holds == multiset{}
  {
    NothingHeld(l.outputs);
  }

  /** Only a trigger: it occurs in `Law` and in `OpenLaw`, so nothing else instantiates the quantifier. */
  ghost predicate Opened(on: bool) {
    on
  }

  /** The ledger's law behind a quantifier over nothing of interest.  It is equivalent to `LedgerInv`,
      but the verifier unfolds that only where `OpenLaw` is called; the heap proofs, which merely carry
      the law along, stay small. */
  ghost predicate Law(cfgs: seq<Config>, l: Ledger) {
    forall on :: Opened(on) ==> LedgerInv(cfgs, l)
  }

  lemma FreshLedger(cfgs: seq<Config>, ss: seq<Output>)
    requires |ss| == |cfgs| && forall i :: 0 <= i < |ss| ==> cfgs[i].capacity > 0 && ss[i] == OutputPolicy.Fresh(cfgs[i])
    ensures Law(cfgs, Ledger(multiset{}, [], ss))
  {
    NothingHeld(ss);
  }

  lemma OpenLaw(cfgs: seq<Config>, l: Ledger)
    requires Law(cfgs, l)
    ensures LedgerInv(cfgs, l)
  {
    assert Opened(true);
  }

  lemma LawfulQueues(cfgs: seq<Config>, l: Ledger, i: nat)
    requires Law(cfgs, l) && i < |l.outputs| && |cfgs| == |l.outputs|
    ensures OldestHasBuffer(l.outputs[i].video) && OldestHasBuffer(l.outputs[i].audio)
    ensures l.outputs[i].inFlight != EMPTY ==> l.outputs[i].inFlight.buffer != null
  {
    OpenLaw(cfgs, l);
  }

  lemma NextLaw(cfgs: seq<Config>, l: Ledger, move: Move)
    requires LedgerInv(cfgs, l) && CanMove(cfgs, l, move)
    ensures Law(cfgs, After(cfgs, l, move))
  {
    StepKeepsLedger(cfgs, l, move);
    QueuesKept(cfgs, l, move);
  }

  /** Whatever happens next, the step finds the references it needs and the law holds again. */
  lemma EveryMoveKeepsTheLaw(cfgs: seq<Config>, l: Ledger, move: Move)
    requires Law(cfgs, l) && CanMove(cfgs, l, move)
    ensures Safe(cfgs, l, move) && Law(cfgs, After(cfgs, l, move))
  {
    OpenLaw(cfgs, l);
    AlwaysSafe(cfgs, l, move);
    NextLaw(cfgs, l, move);
  }

  lemma HandLaw(cfgs: seq<Config>, l: Ledger, i: nat, k: nat)
    requires Law(cfgs, l) && Fits(cfgs, l) && i < |l.outputs| && k < |l.producers|
    ensures var s, p := l.outputs[i], l.producers[k];
            && Touched(cfgs[i], s, p) <= l.holds && OldestHasBuffer(QueueOf(s, p.frameType))
            && Law(cfgs, Ledger(AccountAfter(cfgs[i], s, p, l.holds), l.producers,
                                l.outputs[i := OutputPolicy.Enqueue(cfgs[i], s, p).0]))
  {
    EveryMoveKeepsTheLaw(cfgs, l, Hand(i, k));
    LawfulQueues(cfgs, l, i);
  }

  lemma DiscardLaw(cfgs: seq<Config>, l: Ledger, k: nat)
    requires Law(cfgs, l) && Fits(cfgs, l) && k < |l.producers|
    ensures BufferOf(l.producers[k]) <= l.holds
    ensures Law(cfgs, Ledger(l.holds - BufferOf(l.producers[k]), WithoutProducer(l.producers, k), l.outputs))
  {
    EveryMoveKeepsTheLaw(cfgs, l, Discard(k));
  }

  lemma ProducedLaw(cfgs: seq<Config>, l: Ledger, p: Packet)
    requires Law(cfgs, l) && Fits(cfgs, l) && p.buffer != null && p.buffer !in l.holds
    ensures Law(cfgs, Ledger(l.holds + BufferOf(p), l.producers + [p], l.outputs))
  {
    EveryMoveKeepsTheLaw(cfgs, l, Produced(p));
  }

  /** A queued packet's buffer is on the account. */
  lemma QueuedIsHeld(cfgs: seq<Config>, l: Ledger, i: nat, t: FrameType, k: nat)
    requires Law(cfgs, l) && i < |l.outputs| && k < |QueueOf(l.outputs[i], t)|
    ensures BufferOf(QueueOf(l.outputs[i], t)[k]) <= l.holds
  {
    OpenLaw(cfgs, l);
    ProducerSplit(QueueOf(l.outputs[i], t), k);
    ChannelPart(l, i);
  }
}
