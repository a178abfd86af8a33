/**
 * The faster-whisper model as both transcribers see it. `transcribe` decodes the audio and
 * returns a lazy generator of segments, so it can raise in two places: in the call itself,
 * before any segment exists, or while the segments are being iterated, after some of them
 * were already yielded.
 */
module Whisper {
  import opened Wav

  /** What transcribing one WAV file comes to. */
  datatype Decoding =
    | Decoded(segments: seq<string>)
    | RaisedAtCall
    | RaisedAfter(yielded: seq<string>)
  {
    /** The segment texts a `for` over the generator sees before it ends or raises. */
    function Yielded(): seq<string> {
      match this
      case Decoded(segs) => segs
      case RaisedAtCall => []
      case RaisedAfter(y) => y
    }
  }

  /** The speech model: what transcribing a WAV file comes to. */
  type Model = WavFile -> Decoding
}
