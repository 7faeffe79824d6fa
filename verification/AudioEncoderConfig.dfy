/** Encoder parameters, their normal form, and the key that tells encoder instances apart. */
module AudioEncoderConfig {
  import opened Options

  datatype Codec = NoCodec | H264 | Aac | Pcm | G711A | G711U | Opus

  const DEFAULT_G711_RATE: int := 8000
  const DEFAULT_G711_SAMPLES: int := 320
  const DEFAULT_AAC_RATE: int := 8000
  const DEFAULT_AAC_SAMPLES: int := 1024
  const DEFAULT_AAC_BITRATE: int := 32000
  const AAC_OBJECT_INVALID: int := 0
  const AAC_OBJECT_LC: int := 2
  const DEFAULT_OPUS_RATE: int := 48000
  const DEFAULT_OPUS_BITRATE: int := 24000
  const DEFAULT_OPUS_COMPLEXITY: int := 6
  const DEFAULT_OPUS_BYTES: int := 4000
  const OPUS_INVALID: int := 0
  const OPUS_VOIP: int := 1

  datatype AacOptions = AacOptions(bitrate: int, objectType: int)

  datatype OpusOptions = OpusOptions(
    bitrate: int, complexity: int, vbr: int, fec: int, dtx: int, lossPercent: int, application: int, maxBytes: int)

  datatype Config = Config(
    codec: Codec, sampleRate: int, channels: int, maxSamples: int, captureChannel: int, aac: AacOptions, opus: OpusOptions)

  const DEFAULT_AAC := AacOptions(32000, AAC_OBJECT_LC)
  const DEFAULT_OPUS := OpusOptions(24000, 6, 1, 1, 0, 10, OPUS_INVALID, 4000)

  datatype Key = Key(
    codec: Codec, sampleRate: int, channels: int, maxSamples: int, captureChannel: int, bitrate: int, aacObject: int,
    complexity: int, vbr: int, fec: int, dtx: int, lossPercent: int, application: int, maxBytes: int)

  predicate IsG711(c: Codec) {
    c == G711A || c == G711U
  }

  predicate SupportedAacObject(t: int) {
    t == 2 || t == 5 || t == 23 || t == 29 || t == 39
  }

  predicate SupportedOpusRate(r: int) {
    r == 8000 || r == 12000 || r == 16000 || r == 24000 || r == 48000
  }

  function Or(value: int, fallback: int): int {
    if value <= 0 then fallback else value
  }

  function Flag(value: int): int {
    if value != 0 then 1 else 0
  }

  // ----- the normal form -------------------------------------------------------------------

  function WithChannels(c: Config): Config {
    var n := Or(c.channels, 1);
    c.(channels := n, captureChannel := if n != 1 then -1 else if c.captureChannel < 0 then 0 else c.captureChannel)
  }

  function WithDefaults(c: Config): Config {
    match c.codec
    case Aac =>
      c.(sampleRate := Or(c.sampleRate, DEFAULT_AAC_RATE), maxSamples := Or(c.maxSamples, DEFAULT_AAC_SAMPLES),
         aac := AacOptions(Or(c.aac.bitrate, DEFAULT_AAC_BITRATE),
                           if c.aac.objectType == AAC_OBJECT_INVALID then AAC_OBJECT_LC else c.aac.objectType))
    case Opus =>
      c.(sampleRate := Or(c.sampleRate, DEFAULT_OPUS_RATE), maxSamples := 0,
         opus := OpusOptions(Or(c.opus.bitrate, DEFAULT_OPUS_BITRATE),
                             if c.opus.complexity < 0 || c.opus.complexity > 10 then DEFAULT_OPUS_COMPLEXITY else c.opus.complexity,
                             Flag(c.opus.vbr), Flag(c.opus.fec), Flag(c.opus.dtx), c.opus.lossPercent,
                             if c.opus.application == OPUS_INVALID then OPUS_VOIP else c.opus.application,
                             Or(c.opus.maxBytes, DEFAULT_OPUS_BYTES)))
    case _ =>
      c.(sampleRate := Or(c.sampleRate, DEFAULT_G711_RATE), maxSamples := Or(c.maxSamples, DEFAULT_G711_SAMPLES))
  }

  predicate Acceptable(c: Config) {
    match c.codec
    case G711A => c.channels == 1
    case G711U => c.channels == 1
    case Aac => SupportedAacObject(c.aac.objectType) && (c.channels == 1 || c.channels == 2)
    case Opus =>
      && SupportedOpusRate(c.sampleRate) && 1 <= c.opus.application <= 3
      && (c.channels == 1 || c.channels == 2) && 0 <= c.opus.lossPercent <= 100
    case _ => false
  }

  function Normalize(c: Config): Option<Config> {
    var n := WithDefaults(WithChannels(c));
    if Acceptable(n) then Some(n) else None
  }

  method NormalizeAac(c: Config) returns (r: Option<Config>)
    requires c.codec == Aac
    ensures r == var n := WithDefaults(c); if Acceptable(n) then Some(n) else None
  {
    var n := c;
    if n.sampleRate <= 0 {
      n := n.(sampleRate := DEFAULT_AAC_RATE);
    }
    if n.maxSamples <= 0 {
      n := n.(maxSamples := DEFAULT_AAC_SAMPLES);
    }
    if n.aac.bitrate <= 0 {
      n := n.(aac := n.aac.(bitrate := DEFAULT_AAC_BITRATE));
    }
    if n.aac.objectType == AAC_OBJECT_INVALID {
      n := n.(aac := n.aac.(objectType := AAC_OBJECT_LC));
    }
    if !SupportedAacObject(n.aac.objectType) {
      return None;
    }
    if n.channels != 1 && n.channels != 2 {
      return None;
    }
    r := Some(n);
  }

  method NormalizeOpus(c: Config) returns (r: Option<Config>)
    requires c.codec == Opus
    ensures r == var n := WithDefaults(c); if Acceptable(n) then Some(n) else None
  {
    var n, o := c, c.opus;
    if n.sampleRate <= 0 {
      n := n.(sampleRate := DEFAULT_OPUS_RATE);
    }
    if o.bitrate <= 0 {
      o := o.(bitrate := DEFAULT_OPUS_BITRATE);
    }
    if o.complexity < 0 || o.complexity > 10 {
      o := o.(complexity := DEFAULT_OPUS_COMPLEXITY);
    }
    if o.application == OPUS_INVALID {
      o := o.(application := OPUS_VOIP);
    }
    if o.maxBytes <= 0 {
      o := o.(maxBytes := DEFAULT_OPUS_BYTES);
    }
    o := o.(vbr := Flag(o.vbr), fec := Flag(o.fec), dtx := Flag(o.dtx));
    n := n.(maxSamples := 0, opus := o);
    if !SupportedOpusRate(n.sampleRate) || o.application < 1 || o.application > 3 {
      return None;
    }
    if n.channels != 1 && n.channels != 2 {
      return None;
    }
    if o.lossPercent < 0 || o.lossPercent > 100 {
      return None;
    }
    r := Some(n);
  }

  /** The code: a local copy is filled in field by field. */
  method NormalizeConfig(c: Config) returns (r: Option<Config>)
    ensures r == Normalize(c)
  {
    var n := c;
    if !IsG711(n.codec) && n.codec != Aac && n.codec != Opus {
      return None;
    }
    if n.channels <= 0 {
      n := n.(channels := 1);
    }
    if n.channels == 1 {
      if n.captureChannel < 0 {
        n := n.(captureChannel := 0);
      }
    } else {
      n := n.(captureChannel := -1);
    }
    if IsG711(n.codec) {
      if n.sampleRate <= 0 {
        n := n.(sampleRate := DEFAULT_G711_RATE);
      }
      if n.maxSamples <= 0 {
        n := n.(maxSamples := DEFAULT_G711_SAMPLES);
      }
      if n.channels != 1 {
        return None;
      }
    } else if n.codec == Aac {
      r := NormalizeAac(n);
      return;
    } else {
      r := NormalizeOpus(n);
      return;
    }
    r := Some(n);
  }

  // ----- the key ---------------------------------------------------------------------------

  function KeyOf(n: Config): Key {
    var k := Key(n.codec, n.sampleRate, n.channels, n.maxSamples, n.captureChannel, 0, AAC_OBJECT_INVALID,
                 0, 0, 0, 0, 0, OPUS_INVALID, 0);
    match n.codec
    case Aac => k.(bitrate := n.aac.bitrate, aacObject := n.aac.objectType)
    case Opus =>
      k.(bitrate := n.opus.bitrate, complexity := n.opus.complexity, vbr := n.opus.vbr, fec := n.opus.fec,
         dtx := n.opus.dtx, lossPercent := n.opus.lossPercent, application := n.opus.application,
         maxBytes := n.opus.maxBytes)
    case _ => k
  }

  function MakeKey(c: Config): Option<Key> {
    match Normalize(c)
    case Some(n) => Some(KeyOf(n))
    case None => None
  }

  /** Two normal forms that no encoder can tell apart: the common fields agree and so do the options of
      their codec. */
  predicate SameEffect(a: Config, b: Config) {
    && a.codec == b.codec && a.sampleRate == b.sampleRate && a.channels == b.channels
    && a.maxSamples == b.maxSamples && a.captureChannel == b.captureChannel
    && (a.codec == Aac ==> a.aac == b.aac)
    && (a.codec == Opus ==> a.opus == b.opus)
  }

  /** Normalizing again changes nothing, so the key of a normal form is the key of what it came from. */
  lemma NormalizeIsIdempotent(c: Config)
    ensures var n := Normalize(c);
            n.Some? ==> Normalize(n.value) == n && MakeKey(n.value) == MakeKey(c)
  {
    var n := WithDefaults(WithChannels(c));
    assert WithChannels(n) == n;
    assert WithDefaults(n) == n;
  }

  /** Equal keys mean equal effect, whatever the options of the other codecs say. */
  lemma KeysTellEffectsApart(a: Config, b: Config)
    requires Normalize(a).Some? && Normalize(b).Some?
    ensures MakeKey(a) == MakeKey(b) <==> SameEffect(Normalize(a).value, Normalize(b).value)
  {
  }

  // ----- what is accepted, and what becomes of it ------------------------------------------

  /** A configuration is accepted exactly when its codec is one of four and what is given for it is
      supported; what is missing never stands in the way. */
  lemma AcceptedIff(c: Config)
    ensures Normalize(c).Some? <==>
              match c.codec
              case G711A => c.channels <= 1
              case G711U => c.channels <= 1
              case Aac => c.channels <= 2 && c.aac.objectType in {0, 2, 5, 23, 29, 39}
              case Opus =>
                && c.channels <= 2 && (c.sampleRate <= 0 || c.sampleRate in {8000, 12000, 16000, 24000, 48000})
                && c.opus.application in {0, 1, 2, 3} && 0 <= c.opus.lossPercent <= 100
              case _ => false
  {
  }

  /** What is given is kept: only missing values are filled in, with the defaults of the codec. */
  lemma GivenValuesAreKept(c: Config)
    requires Normalize(c).Some?
    ensures var n := Normalize(c).value;
            && n.codec == c.codec
            && n.channels == (if c.channels > 0 then c.channels else 1)
            && (n.channels == 1 ==> n.captureChannel == if c.captureChannel >= 0 then c.captureChannel else 0)
            && (n.channels != 1 ==> n.captureChannel == -1)
            && n.sampleRate == (if c.sampleRate > 0 then c.sampleRate else if c.codec == Opus then 48000 else 8000)
            && n.maxSamples == (if c.codec == Opus then 0 else if c.maxSamples > 0 then c.maxSamples
                                else if c.codec == Aac then 1024 else 320)
    ensures var n := Normalize(c).value;
            if c.codec == Aac then
              && n.aac.bitrate == (if c.aac.bitrate > 0 then c.aac.bitrate else 32000)
              && n.aac.objectType == (if c.aac.objectType != 0 then c.aac.objectType else 2)
            else n.aac == c.aac
    ensures var n := Normalize(c).value;
            if c.codec == Opus then
              && n.opus.bitrate == (if c.opus.bitrate > 0 then c.opus.bitrate else 24000)
              && n.opus.complexity == (if 0 <= c.opus.complexity <= 10 then c.opus.complexity else 6)
              && (n.opus.vbr == 1 <==> c.opus.vbr != 0) && (n.opus.fec == 1 <==> c.opus.fec != 0) && (n.opus.dtx == 1 <==> c.opus.dtx != 0)
              && n.opus.vbr in {0, 1} && n.opus.fec in {0, 1} && n.opus.dtx in {0, 1}
              && n.opus.lossPercent == c.opus.lossPercent
              && n.opus.application == (if c.opus.application != 0 then c.opus.application else 1)
              && n.opus.maxBytes == (if c.opus.maxBytes > 0 then c.opus.maxBytes else 4000)
            else n.opus == c.opus
  {
  }

  // ----- crossing the C interface ----------------------------------------------------------

  /** The options share their storage: only those of the codec can be read back. */
  datatype CodecParams = Unset | AacParams(aac: AacOptions) | OpusParams(opus: OpusOptions)

  datatype CParams = CParams(
    codec: Codec, sampleRate: int, channels: int, maxSamples: int, inputChannel: int, options: CodecParams)

  function FillC(n: Config): CParams {
    CParams(n.codec, n.sampleRate, n.channels, n.maxSamples, n.captureChannel,
            if n.codec == Aac then AacParams(n.aac) else if n.codec == Opus then OpusParams(n.opus) else Unset)
  }

  /** Caller and callee agree on which member of the shared storage is in use. */
  predicate Tagged(p: CParams) {
    (p.codec == Aac ==> p.options.AacParams?) && (p.codec == Opus ==> p.options.OpusParams?)
  }

  function MakeCpp(p: CParams): Config
    requires Tagged(p)
  {
    Config(p.codec, p.sampleRate, p.channels, p.maxSamples, p.inputChannel,
           if p.codec == Aac then p.options.aac else DEFAULT_AAC,
           if p.codec == Opus then p.options.opus else DEFAULT_OPUS)
  }

  /** What C callers are told about a group leads back to the same key. */
  lemma ReportedParamsKeepTheKey(c: Config)
    requires Normalize(c).Some?
    ensures var p := FillC(Normalize(c).value); Tagged(p) && MakeKey(MakeCpp(p)) == MakeKey(c)
  {
    var n := Normalize(c).value;
    NormalizeIsIdempotent(c);
    var back := MakeCpp(FillC(n));
    assert WithDefaults(WithChannels(back)).codec == n.codec;
    KeysTellEffectsApart(back, n);
  }
}
