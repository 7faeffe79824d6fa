/** The worker side of the video-control protocol: what executing one queued command does to the
    hardware, the frame-rate gate and the stream configuration, and which result it reports. */
module VideoWorkers {
  import opened VideoControl

  /** How far the sequence "configure the encoder, reset the gate, request an IDR" gets. */
  datatype Outcome = ControlFailed(hwFps: int) | GateFailed | IdrFailed | Applied

  datatype EncoderState = EncoderState(hwFps: int, gateFps: int, config: EncodeParams)

  function WriteConfig(config: EncodeParams, p: Payload): EncodeParams {
    if p.SetFps? then config.(fps := p.targetFps) else p.params
  }

  function Execute(e: EncoderState, p: Payload, o: Outcome): EncoderState {
    match o
    case ControlFailed(hw) => e.(hwFps := hw)
    case GateFailed => e.(hwFps := p.Fps())
    case IdrFailed => EncoderState(p.Fps(), p.Fps(), WriteConfig(e.config, p))
    case Applied => EncoderState(p.Fps(), p.Fps(), WriteConfig(e.config, p))
  }

  function ResultKind(p: Payload): MessageKind {
    if p.SetFps? then FpsResult else ParamsResult
  }

  function Report(c: Command, ep: Endpoint, ok: bool): Message {
    Message(ResultKind(c.payload), c.requestId, ep, ok)
  }

  /** The encoder runs at `fps` in all three places the worker writes. */
  predicate RunsAt(e: EncoderState, fps: int) {
    e.hwFps == fps && e.gateFps == fps && e.config.fps == fps
  }

  /** The configuration is what the command asked for. */
  predicate Obeys(config: EncodeParams, p: Payload) {
    match p
    case SetFps(fps) => config.fps == fps
    case SetParams(params) => config == params
  }

  /** A command is sure to leave the encoder at its rate, whatever state it found, exactly when it got
      as far as writing the configuration.  Success reports are of that kind. */
  lemma AppliedForSureIff(p: Payload, o: Outcome)
    ensures (forall e: EncoderState :: RunsAt(Execute(e, p, o), p.Fps())) <==> o == Applied || o == IdrFailed
  {
    if o != Applied && o != IdrFailed {
      var e := EncoderState(0, p.Fps() + 1, EncodeParams(0, 0, 0, 0));
      assert !RunsAt(Execute(e, p, o), p.Fps());
    }
  }

  /** Rebuilding the encoder after repeated failures starts it from the stream configuration. */
  function Rebuilt(e: EncoderState): EncoderState {
    e.(hwFps := e.config.fps)
  }

  /** The state after executing the first `|outcomes|` commands of a queue in order. */
  function ExecuteAll(e: EncoderState, cs: seq<Command>, outcomes: seq<Outcome>): EncoderState
    requires |outcomes| == |cs|
    decreases |cs|
  {
    if cs == [] then e
    else ExecuteAll(Execute(e, cs[0].payload, outcomes[0]), cs[1..], outcomes[1..])
  }

  function Reports(stream: nat, cs: seq<Command>, outcomes: seq<Outcome>): (r: seq<Message>)
    requires |outcomes| == |cs|
    ensures |r| == |cs|
  {
    seq(|cs|, i requires 0 <= i < |cs| => Report(cs[i], Encoder(stream), outcomes[i] == Applied))
  }

  /** Whatever an encoder went through before, the last command decides where it ends. */
  lemma {:induction false} LastCommandDecides(e: EncoderState, cs: seq<Command>, outcomes: seq<Outcome>)
    requires |outcomes| == |cs| > 0
    ensures outcomes[|cs| - 1] == Applied ==> RunsAt(ExecuteAll(e, cs, outcomes), cs[|cs| - 1].payload.Fps())
    decreases |cs|
  {
    if |cs| > 1 {
      LastCommandDecides(Execute(e, cs[0].payload, outcomes[0]), cs[1..], outcomes[1..]);
    } else {
      assert ExecuteAll(e, cs, outcomes) == ExecuteAll(Execute(e, cs[0].payload, outcomes[0]), cs[1..], outcomes[1..]);
    }
  }

  /** One encoding thread: its command queue, the state it owns and the results it has pushed. */
  class VideoEncodeWorker {
    const stream: nat
    var hwFps: int
    var gateFps: int
    var config: EncodeParams
    var commandQueue: seq<Command>
    var published: seq<Message>

    constructor (stream: nat, config: EncodeParams)
      ensures this.stream == stream && State() == EncoderState(config.fps, config.fps, config)
      ensures commandQueue == [] && published == []
    {
      this.stream, this.config := stream, config;
      hwFps, gateFps := config.fps, config.fps;
      commandQueue, published := [], [];
    }

    ghost function State(): EncoderState
      reads this
    {
      EncoderState(hwFps, gateFps, config)
    }

    method ExecuteCommand(c: Command, o: Outcome)
      modifies this`hwFps, this`gateFps, this`config, this`published
      ensures State() == Execute(old(State()), c.payload, o)
      ensures published == old(published) + [Report(c, Encoder(stream), o == Applied)]
      ensures o.Applied? || o.IdrFailed? ==>
                match c.payload
                case SetParams(params) => config == params && hwFps == gateFps == params.fps
                case SetFps(fps) => config == old(config).(fps := fps) && hwFps == gateFps == fps
      ensures o.ControlFailed? || o.GateFailed? ==> config == old(config) && gateFps == old(gateFps)
    {
      var fps := c.payload.Fps();
      var ok := false;
      if o.ControlFailed? {
        hwFps := o.hwFps;
      } else {
        hwFps := fps;
        if !o.GateFailed? {
          gateFps := fps;
          config := WriteConfig(config, c.payload);
          ok := o.Applied?;
        }
      }
      published := published + [Report(c, Encoder(stream), ok)];
    }

    /** Executes what is queued, at most one queue capacity per call. */
    method ProcessCommands(outcomes: seq<Outcome>) returns (n: nat)
      requires |outcomes| == COMMAND_CAPACITY
      modifies this`hwFps, this`gateFps, this`config, this`published, this`commandQueue
      ensures n == if |old(commandQueue)| < COMMAND_CAPACITY then |old(commandQueue)| else COMMAND_CAPACITY
      ensures commandQueue == old(commandQueue)[n..]
      ensures State() == ExecuteAll(old(State()), old(commandQueue)[..n], outcomes[..n])
      ensures published == old(published) + Reports(stream, old(commandQueue)[..n], outcomes[..n])
    {
      ghost var cs, ps := commandQueue, published;
      ghost var total := if |cs| < COMMAND_CAPACITY then |cs| else COMMAND_CAPACITY;
      n := 0;
      while n < COMMAND_CAPACITY && commandQueue != []
        invariant n <= total && commandQueue == cs[n..]
        invariant ExecuteAll(State(), cs[n..total], outcomes[n..total]) == ExecuteAll(old(State()), cs[..total], outcomes[..total])
        invariant |published| == |ps| + n && published[..|ps|] == ps
        invariant forall i :: 0 <= i < n ==> published[|ps| + i] == Report(cs[i], Encoder(stream), outcomes[i] == Applied)
      {
        assert cs[n..total][1..] == cs[n + 1..total] && outcomes[n..total][1..] == outcomes[n + 1..total];
        var c := commandQueue[0];
        commandQueue := commandQueue[1..];
        ExecuteCommand(c, outcomes[n]);
        n := n + 1;
      }
      assert published == ps + Reports(stream, cs[..n], outcomes[..n]);
    }
  }
}
