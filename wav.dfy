/**
 * The audio container written for the transcription backend: a WAV header (channel count,
 * sample width, frame rate) and 16-bit little-endian PCM frames, as produced by
 * `wave.Wave_write` and `scipy.io.wavfile.write` on an `int16` NumPy array.
 */
module Wav {
  import opened Seqs

  newtype int16 = x: int | -0x8000 <= x < 0x8000
  newtype byte = x: int | 0 <= x < 0x100

  /** A captured block: one `indata` array of signed 16-bit mono samples. */
  type Block = seq<int16>

  datatype Header = Header(channels: nat, sampleWidth: nat, frameRate: int)

  datatype WavFile = WavFile(header: Header, frames: seq<byte>)

  /** `np.concatenate(blocks, axis=0)` for mono blocks. */
  function Concat(blocks: seq<Block>): (r: seq<int16>)
    decreases |blocks|
  {
    if blocks == [] then [] else Concat(blocks[..|blocks| - 1]) + blocks[|blocks| - 1]
  }

  lemma {:induction false} ConcatAppend(a: seq<Block>, b: seq<Block>)
    ensures Concat(a + b) == Concat(a) + Concat(b)
    decreases |b|
  {
    if b == [] {
      assert a + b == a;
    } else {
      var init, last, ab := b[..|b| - 1], b[|b| - 1], a + b;
      assert ab[..|ab| - 1] == a + init && ab[|ab| - 1] == last;
      ConcatAppend(a, init);
      ConcatAssoc(Concat(a), Concat(init), last);
    }
  }

  /** Two's-complement little-endian bytes of one sample (`ndarray.tobytes()` on x86). */
  function EncodeSample(x: int16): seq<byte> {
    var u := if x < 0 then x as int + 0x10000 else x as int;
    [(u % 0x100) as byte, (u / 0x100) as byte]
  }

  function DecodeSample(lo: byte, hi: byte): int16 {
    var u := hi as int * 0x100 + lo as int;
    (if u >= 0x8000 then u - 0x10000 else u) as int16
  }

  function Encode(samples: seq<int16>): (bs: seq<byte>)
    ensures |bs| == 2 * |samples|
  {
    if samples == [] then [] else EncodeSample(samples[0]) + Encode(samples[1..])
  }

  function Decode(bs: seq<byte>): seq<int16>
    requires |bs| % 2 == 0
  {
    if bs == [] then [] else [DecodeSample(bs[0], bs[1])] + Decode(bs[2..])
  }

  /** Reading the frames back yields exactly the samples that were written. */
  lemma {:induction false} DecodeEncode(samples: seq<int16>)
    ensures Decode(Encode(samples)) == samples
  {
    if samples != [] {
      var e := Encode(samples);
      assert e[2..] == Encode(samples[1..]);
      DecodeEncode(samples[1..]);
    }
  }

  /**
   * The container written by `_save_wav`, by `wave` in test.py and by scipy in main.py:
   * one channel, two bytes per sample, the given frame rate.
   */
  function MonoPcm16(frameRate: int, samples: seq<int16>): (w: WavFile)
    ensures w.header.channels == 1 && w.header.sampleWidth == 2 && w.header.frameRate == frameRate
    ensures |w.frames| % 2 == 0 && Decode(w.frames) == samples
  {
    DecodeEncode(samples);
    WavFile(Header(1, 2, frameRate), Encode(samples))
  }

  /** A buffer of blocks written to a container and read back is the blocks' concatenation. */
  lemma ReadBackBlocks(frameRate: int, a: seq<Block>, b: seq<Block>)
    ensures Decode(MonoPcm16(frameRate, Concat(a + b)).frames) == Concat(a) + Concat(b)
  {
    ConcatAppend(a, b);
  }
}
