/** Negotiated audio formats and the sizes computed from them.  The constants of the audio library are
    parameters. */
module AudioFormats {
  import opened Arithmetic
  import opened Types

  // ---- formats ----

  datatype Encoding = Pcm | PcmRaw | Opus | OpusXvp | Adpcm | AdpcmXvp | AdpcmSky | NoEncoding

  /** xraudio_input_format_t. */
  datatype Format = Format(encoding: Encoding, sampleRate: nat, sampleSize: nat, channelQty: nat)

  /** xrsr_audio_format_t; a destination supports a set of them. */
  datatype AudioFormat = FormatPcm | FormatPcm32 | FormatPcm32Multi | FormatPcmRaw | FormatAdpcm | FormatOpus | NoFormat

  datatype Constants = Constants(defaultSize: nat, defaultChannels: nat, maxSize: nat, maxChannels: nat)

  /** xrsr_xraudio_format_to_xrsr. */
  function Classify(f: Format): AudioFormat
  {
    match f.encoding
    case Pcm =>
      if f.sampleSize > 2 then (if f.channelQty > 1 then FormatPcm32Multi else FormatPcm32) else FormatPcm
    case PcmRaw => FormatPcmRaw
    case Opus | OpusXvp => FormatOpus
    case Adpcm | AdpcmXvp | AdpcmSky => FormatAdpcm
    case NoEncoding => NoFormat
  }

  /** xrsr_audio_format_get: the source's own format where the destination supports it, else PCM where it
      supports that. */
  function Negotiate(supported: set<AudioFormat>, f: Format): AudioFormat
  {
    var own := Classify(f);
    if own != NoFormat && own in supported then own else if FormatPcm in supported then FormatPcm else NoFormat
  }

  /** The format xrsr_speech_stream_begin asks the audio layer for. */
  function Requested(c: Constants, supported: set<AudioFormat>, f: Format): Format
  {
    match Negotiate(supported, f)
    case FormatPcm => f.(encoding := Pcm, sampleSize := c.defaultSize, channelQty := c.defaultChannels)
    case FormatPcm32 => f.(encoding := Pcm, sampleSize := c.maxSize, channelQty := c.defaultChannels)
    case FormatPcm32Multi => f.(encoding := Pcm, sampleSize := c.maxSize, channelQty := c.maxChannels)
    case FormatPcmRaw => f.(encoding := PcmRaw, sampleSize := c.maxSize, channelQty := c.maxChannels)
    case FormatAdpcm => if f.encoding.AdpcmXvp? || f.encoding.AdpcmSky? then f else f.(encoding := Adpcm)
    case FormatOpus => if f.encoding.OpusXvp? then f else f.(encoding := Opus)
    case NoFormat => f.(encoding := NoEncoding)
  }

  /** What is asked for is what was negotiated, for every source format and every destination, exactly when the
      library's default samples are at most two bytes on at most one channel and its largest ones exceed both. */
  lemma RequestedIsNegotiated(c: Constants)
    ensures (forall supported: set<AudioFormat>, f: Format ::
              Classify(Requested(c, supported, f)) == Negotiate(supported, f))
            <==> c.defaultSize <= 2 < c.maxSize && c.defaultChannels <= 1 < c.maxChannels
  {
    if !(c.defaultSize <= 2 < c.maxSize && c.defaultChannels <= 1 < c.maxChannels) {
      var multi := Format(Pcm, 0, 3, 2);
      var single := Format(Pcm, 0, 3, 1);
      assert Negotiate({FormatPcm32Multi}, multi) == FormatPcm32Multi;
      assert Negotiate({FormatPcm32}, single) == FormatPcm32;
      assert Negotiate({FormatPcm}, single) == FormatPcm;
      if c.defaultSize > 2 {
        assert Classify(Requested(c, {FormatPcm}, single)) != FormatPcm;
      } else if c.maxSize <= 2 || c.maxChannels <= 1 {
        assert Classify(Requested(c, {FormatPcm32Multi}, multi)) != FormatPcm32Multi;
      } else {
        assert Classify(Requested(c, {FormatPcm32}, single)) != FormatPcm32;
      }
    }
  }

  /** A format the destination does not know is never asked for. */
  lemma NegotiatedIsSupported(supported: set<AudioFormat>, f: Format)
    ensures Negotiate(supported, f) != NoFormat ==> Negotiate(supported, f) in supported
    ensures Negotiate(supported, f) == NoFormat <==>
              (Classify(f) == NoFormat || Classify(f) !in supported) && FormatPcm !in supported
  {}

  /** A source whose own format the destination supports is never converted: that format is negotiated, and the audio
      layer is asked for the source's own encoding and rate, and for compressed audio for nothing else at all.  PCM
      takes the place of another format only where that is none or is not supported. */
  lemma OwnFormatFirst(c: Constants, supported: set<AudioFormat>, f: Format)
    ensures var own, r := Classify(f), Requested(c, supported, f);
            && (own != NoFormat && own in supported ==>
                  && Negotiate(supported, f) == own && r.encoding == f.encoding && r.sampleRate == f.sampleRate
                  && (!f.encoding.Pcm? && !f.encoding.PcmRaw? ==> r == f))
            && (own == NoFormat || own !in supported ==>
                  Negotiate(supported, f) == (if FormatPcm in supported then FormatPcm else NoFormat)
                  && (FormatPcm in supported ==> r.encoding == Pcm && r.sampleRate == f.sampleRate))
  {}

  // ---- sizes ----

  const MICRO: nat := 1000000
  const GROUP_SIZE_MAX: nat := 4096

  /** The duration of an external frame in microseconds, from its number of samples. */
  function FrameDuration(samples: nat, rate: nat): nat
    requires rate > 0
  {
    MICRO * samples / rate
  }

  /** The bytes of a frame, from bytes per second and its duration. */
  function FrameBytes(bytesPerSecond: nat, duration: nat): nat { bytesPerSecond * duration / MICRO }

  const UNDECODED_BYTES: nat := 95

  /** xrsr_xraudio_stream_begin: the frame of the decoded format where there is one, a fixed size for other
      external inputs, else a frame of the library's standard format. */
  function StreamFrameBytes(decoded: Option<nat>, external: bool, standard: nat, duration: nat): nat
  {
    if decoded.Some? then FrameBytes(decoded.value, duration)
    else if external then UNDECODED_BYTES
    else FrameBytes(standard, duration)
  }

  lemma Quotient(a: nat, b: nat, q: nat, r: nat)
    requires b > 0 && a == b * q + r && r < b
    ensures a / b == q && a % b == r
  {
    var k := a / b;
    assert a == b * k + a % b;
    if k < q { MulMonotone(b, k + 1, q); }
    if q < k { MulMonotone(b, q + 1, k); }
  }

  /** Multiplying out: with remainder r of the first division, the second one divides MICRO * exact - k * r. */
  lemma MultipliedOut(samples: nat, rate: nat, k: nat, d: nat, r: nat)
    requires MICRO * samples == rate * d + r
    ensures (rate * k) * d + k * r == MICRO * (samples * k)
  {
    calc {
      (rate * k) * d + k * r;
      k * (rate * d + r);
      k * (MICRO * samples);
      MICRO * (samples * k);
    }
  }

  /** The two truncating divisions lose at most one byte of an external frame, and lose none exactly when the
      first one is exact, for up to a million bytes per second. */
  lemma FrameUndercount(samples: nat, rate: nat, k: nat)
    requires rate > 0 && k > 0 && rate * k <= MICRO
    ensures var bytes, exact := FrameBytes(rate * k, FrameDuration(samples, rate)), samples * k;
            && exact - 1 <= bytes <= exact
            && (bytes == exact <==> MICRO * samples % rate == 0)
  {
    var d, r := FrameDuration(samples, rate), MICRO * samples % rate;
    assert MICRO * samples == rate * d + r;
    MultipliedOut(samples, rate, k, d, r);
    var exact, total := samples * k, (rate * k) * d;
    if r == 0 {
      assert k * r == 0;
      Quotient(total, MICRO, exact, 0);
    } else {
      var lost := k * r;
      LostBounds(k, r, rate);
      assert total == MICRO * exact - lost;
      assert exact >= 1;
      Quotient(total, MICRO, exact - 1, MICRO - lost);
    }
  }

  lemma LostBounds(k: nat, r: nat, rate: nat)
    requires 0 < k && 0 < r < rate
    ensures 0 < k * r < rate * k
  {
    MulMonotone(k, r + 1, rate);
    MulMonotone(k, 1, r);
    assert k * (r + 1) == k * r + k;
    assert k * rate == rate * k;
  }

  /** The number of frames handed over at once; None where the division by the frame size is not defined. */
  function FrameGroup(frameBytes: nat, lowLatency: bool, lo: nat, hi: nat): (g: Option<nat>)
  {
    if !lowLatency && frameBytes == 0 then None
    else
      var q := if lowLatency then 1 else GROUP_SIZE_MAX / frameBytes;
      Some(if q > hi then hi else if q < lo then lo else q)
  }

  lemma GroupFits(frameBytes: nat, g: nat)
    requires frameBytes > 0
    ensures g * frameBytes <= GROUP_SIZE_MAX <==> g <= GROUP_SIZE_MAX / frameBytes
  {
    var q := GROUP_SIZE_MAX / frameBytes;
    assert GROUP_SIZE_MAX == frameBytes * q + GROUP_SIZE_MAX % frameBytes;
    if g <= q { MulMonotone(frameBytes, g, q); } else { MulMonotone(frameBytes, q + 1, g); }
  }

  /** With normal latency the group is the largest one that fits the size limit, except where the library's own
      bounds for groups override it. */
  lemma GroupIsLargest(frameBytes: nat, lo: nat, hi: nat)
    requires frameBytes > 0 && lo <= hi
    ensures var g := FrameGroup(frameBytes, false, lo, hi);
            && g.Some? && lo <= g.value <= hi
            && (g.value * frameBytes <= GROUP_SIZE_MAX || g.value == lo)
            && (forall h: nat :: g.value < h <= hi ==> h * frameBytes > GROUP_SIZE_MAX)
  {
    var g := FrameGroup(frameBytes, false, lo, hi).value;
    GroupFits(frameBytes, g);
    forall h: nat | g < h <= hi ensures h * frameBytes > GROUP_SIZE_MAX { GroupFits(frameBytes, h); }
  }

  /** Low latency hands over frame by frame, where the library's bounds allow that. */
  lemma LowLatencyGroup(frameBytes: nat, lo: nat, hi: nat)
    requires lo <= 1 <= hi
    ensures FrameGroup(frameBytes, true, lo, hi) == Some(1)
  {}

  /** Normal latency has no group exactly for a frame of no bytes: when less than a byte of the decoded or the
      standard format passes in its duration.  Low latency always has one. */
  lemma NoGroupExactly(decoded: Option<nat>, external: bool, standard: nat, duration: nat, lowLatency: bool,
                       lo: nat, hi: nat)
    ensures FrameGroup(StreamFrameBytes(decoded, external, standard, duration), lowLatency, lo, hi).None?
            <==> !lowLatency && (if decoded.Some? then decoded.value * duration < MICRO
                                 else !external && standard * duration < MICRO)
  {
    if decoded.Some? { LessThanOne(decoded.value * duration); }
    LessThanOne(standard * duration);
  }

  lemma LessThanOne(x: nat)
    ensures x / MICRO == 0 <==> x < MICRO
  {}
}
