/** G.711 sample formats shared by the playout ring and the RTP endpoint. */
module Media {
  import opened Words

  datatype G711 = Pcma | Pcmu {
    function PayloadType(): byte {
      match this
      case Pcma => 8
      case Pcmu => 0
    }
  }

  /** A linear sample. The companding tables themselves belong to SpanDSP. */
  type Sample = int

  type Decoder = (G711, byte) -> Sample

  type Encoder = (G711, Sample) -> byte

  const FRAME_SAMPLES: nat := 160

  function Decoded(decode: Decoder, codec: G711, payload: seq<byte>): (r: seq<Sample>)
    ensures |r| == |payload|
  {
    seq(|payload|, i requires 0 <= i < |payload| => decode(codec, payload[i]))
  }

  function Encoded(encode: Encoder, codec: G711, samples: seq<Sample>): (r: seq<byte>)
    ensures |r| == |samples|
  {
    seq(|samples|, i requires 0 <= i < |samples| => encode(codec, samples[i]))
  }
}
