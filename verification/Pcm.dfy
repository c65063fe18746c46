// Sample conversion at both ends of the audio path: mic_callback in
// furniture/mock_furniture.py and _pcm_bytes_to_float32 in model/asr_server/app.py.
// Floats are reals: rounding of the multiplication and division is not modelled.
module Pcm {
  import opened Wire
  import opened Chunks
  import AsrService

  const FULL_SCALE := 32767
  const DECODE_SCALE := 32768

  // ---- the encoder ----

  function Clip(x: real): (y: real)
    ensures -1.0 <= y <= 1.0
    ensures -1.0 <= x <= 1.0 ==> y == x
  {
    if x < -1.0 then -1.0 else if x > 1.0 then 1.0 else x
  }

  /** Conversion to an integer type drops the fraction, towards zero. */
  function Truncate(x: real): (n: int)
    ensures x >= 0.0 ==> n as real <= x < n as real + 1.0
    ensures x <= 0.0 ==> n as real - 1.0 < x <= n as real
  {
    if x >= 0.0 then x.Floor else -((-x).Floor)
  }

  function Quantise(x: real): (n: int)
    ensures -FULL_SCALE <= n <= FULL_SCALE
  {
    Truncate(Clip(x) * FULL_SCALE as real)
  }

  /** The unsigned 16-bit pattern of a two's complement number, and back. */
  function Pattern(n: int): (u: int)
    requires -32768 <= n < 32768
    ensures 0 <= u < 65536 && Signed(u) == n
  {
    if n < 0 then n + 65536 else n
  }

  function Signed(u: int): (n: int)
    requires 0 <= u < 65536
    ensures -32768 <= n < 32768
  {
    if u >= 32768 then u - 65536 else u
  }

  /** Low byte first. */
  function ToBytes(n: int): (b: Bytes)
    requires -32768 <= n < 32768
    ensures |b| == 2
  {
    [(Pattern(n) % 256) as byte, (Pattern(n) / 256) as byte]
  }

  function FromBytes(low: byte, high: byte): (n: int)
    ensures -32768 <= n < 32768
  {
    Signed(low as int + 256 * high as int)
  }

  lemma BytesRoundTrip(n: int)
    requires -32768 <= n < 32768
    ensures FromBytes(ToBytes(n)[0], ToBytes(n)[1]) == n
  {
  }

  lemma SamplesRoundTrip(low: byte, high: byte)
    ensures ToBytes(FromBytes(low, high)) == [low, high]
  {
    var u := low as int + 256 * high as int;
    assert Pattern(Signed(u)) == u;
  }

  function Encode(samples: seq<real>): (b: Bytes)
    ensures |b| == 2 * |samples|
  {
    if samples == [] then []
    else Encode(samples[..|samples| - 1]) + ToBytes(Quantise(samples[|samples| - 1]))
  }

  // ---- the decoder ----

  function SampleAt(pcm: Bytes, i: nat): real
    requires 2 * i + 1 < |pcm|
  {
    FromBytes(pcm[2 * i], pcm[2 * i + 1]) as real / DECODE_SCALE as real
  }

  /** None when the bytes end in half a sample: the conversion raises. */
  function Decode(pcm: Bytes): (samples: Option<seq<real>>)
    ensures samples.Some? <==> AsrService.WholeSamples(pcm)
    ensures samples.Some? ==> |samples.value| * 2 == |pcm|
  {
    if |pcm| % 2 != 0 then None
    else Some(seq(|pcm| / 2, i requires 0 <= i < |pcm| / 2 =>
      SampleAt(pcm, i)))
  }

  /** One sample through both ends moves by less than 2/32768. */
  lemma SampleError(x: real)
    ensures var y := Quantise(x) as real / DECODE_SCALE as real;
      -2.0 < (y - Clip(x)) * DECODE_SCALE as real < 2.0
  {
    var c := Clip(x);
    var n := Quantise(x) as real;
    var y := n / DECODE_SCALE as real;
    assert y * DECODE_SCALE as real == n;
    assert -1.0 < n - c * FULL_SCALE as real < 1.0;
    assert (y - c) * DECODE_SCALE as real == n - c * FULL_SCALE as real - c;
  }

  /** As many samples, each within 2/32768 of the clipped original. */
  predicate Near(heard: seq<real>, said: seq<real>) {
    && |heard| == |said|
    && forall i | 0 <= i < |said| :: -2.0 < (heard[i] - Clip(said[i])) * DECODE_SCALE as real < 2.0
  }

  /** What the recogniser hears of what the microphone heard, sample by sample. */
  lemma {:induction false} HearsWhatWasSaid(samples: seq<real>)
    ensures Decode(Encode(samples)).Some?
    ensures Near(Decode(Encode(samples)).value, samples)
    decreases |samples|
  {
    if samples != [] {
      var n := |samples| - 1;
      HearsWhatWasSaid(samples[..n]);
      var last := ToBytes(Quantise(samples[n]));
      BytesRoundTrip(Quantise(samples[n]));
      SampleError(samples[n]);
      DecodeConcat(Encode(samples[..n]), last);
      assert SampleAt(last, 0) == Quantise(samples[n]) as real / DECODE_SCALE as real;
      assert Decode(last).value == [SampleAt(last, 0)];
    }
  }

  /** Whole-sample pieces decode one by one to the decoding of the whole. */
  lemma DecodeConcat(a: Bytes, b: Bytes)
    requires AsrService.WholeSamples(a) && AsrService.WholeSamples(b)
    ensures Decode(a + b) == Some(Decode(a).value + Decode(b).value)
  {
    var whole, parts := Decode(a + b).value, Decode(a).value + Decode(b).value;
    forall i | 0 <= i < |whole| ensures whole[i] == parts[i] {
      if i < |a| / 2 {
        assert SampleAt(a + b, i) == SampleAt(a, i);
      } else {
        var j := i - |a| / 2;
        assert (a + b)[2 * i] == b[2 * j] && (a + b)[2 * i + 1] == b[2 * j + 1];
        assert SampleAt(a + b, i) == SampleAt(b, j);
      }
    }
    assert whole == parts;
  }

  function DecodeAll(pieces: seq<Bytes>): seq<real>
    requires forall i | 0 <= i < |pieces| :: AsrService.WholeSamples(pieces[i])
  {
    if pieces == [] then [] else Decode(pieces[0]).value + DecodeAll(pieces[1..])
  }

  /** A segment's strides and remainder, decoded one by one, give the samples of the segment. */
  lemma {:induction false} StridesDecodeSegment(payload: Bytes)
    requires AsrService.WholeSamples(payload)
    ensures forall i | 0 <= i < |Pieces(payload)| :: AsrService.WholeSamples(Pieces(payload)[i])
    ensures AsrService.WholeSamples(Rest(payload))
    ensures Decode(payload) == Some(DecodeAll(Pieces(payload)) + Decode(Rest(payload)).value)
    decreases |payload|
  {
    if |payload| < CHUNK {
      assert [] + Decode(payload).value == Decode(payload).value;
    } else {
      var head, tail := payload[..CHUNK], payload[CHUNK..];
      StridesDecodeSegment(tail);
      assert payload == head + tail;
      DecodeConcat(head, tail);
      assert Pieces(payload)[0] == head && Pieces(payload)[1..] == Pieces(tail);
      var first, later, rest := Decode(head).value, DecodeAll(Pieces(tail)), Decode(Rest(tail)).value;
      assert first + (later + rest) == (first + later) + rest;
    }
  }

  // ---- blocks of samples ----

  function Join(blocks: seq<seq<real>>): seq<real> {
    if blocks == [] then [] else Join(blocks[..|blocks| - 1]) + blocks[|blocks| - 1]
  }

  /** Each microphone block as one frame. */
  function Frames(blocks: seq<seq<real>>): (frames: seq<Bytes>)
    ensures |frames| == |blocks|
    ensures forall i | 0 <= i < |blocks| :: frames[i] == Encode(blocks[i])
  {
    seq(|blocks|, i requires 0 <= i < |blocks| => Encode(blocks[i]))
  }

  lemma {:induction false} EncodeConcat(a: seq<real>, b: seq<real>)
    ensures Encode(a + b) == Encode(a) + Encode(b)
    decreases |b|
  {
    if b == [] {
      assert a + b == a;
    } else {
      assert (a + b)[..|a + b| - 1] == a + b[..|b| - 1];
      EncodeConcat(a, b[..|b| - 1]);
      assert Encode(a) + Encode(b[..|b| - 1]) + ToBytes(Quantise(b[|b| - 1])) == Encode(a) + Encode(b);
    }
  }

  /** The frames in a row are the encoding of the samples in a row. */
  lemma {:induction false} FramesInARow(blocks: seq<seq<real>>)
    ensures Flatten(Frames(blocks)) == Encode(Join(blocks))
    decreases |blocks|
  {
    if blocks != [] {
      var n := |blocks| - 1;
      FramesInARow(blocks[..n]);
      assert Frames(blocks)[..n] == Frames(blocks[..n]);
      EncodeConcat(Join(blocks[..n]), blocks[n]);
    }
  }
}
