/**
 Progress of an outgoing page in error-correcting mode (Annex A of ITU-T T.30):
 each image frame is credited once, and only after it has left. The image decoder
 is foreign; it is modelled as the bytes it has been fed.
 */
module EcmModel {
  import opened Words

  const FCD: byte := 0x06
  const PPS: byte := 0xbe
  const MCF: byte := 0x8c
  const CFR: byte := 0x84
  const FTT: byte := 0x44

  /** `supported` is whether the foreign decoder accepts the page's parameters. */
  datatype Stats = Stats(ecm: bool, pagesTx: int, imageLength: int, imageResolution: int, resolution: int, supported: bool)

  datatype Decoder = Decoder(page: nat, totalRows: nat, fed: seq<byte>)

  datatype State = State(decoder: Option<Decoder>, pending: Option<seq<byte>>, seen: set<byte>, awaitingAck: bool,
                         imageReady: bool)

  function Page(stats: Stats): nat {
    if stats.pagesTx < 0 then 0 else stats.pagesTx
  }

  /** Rows of the page as it will be sent: its length in rows scaled to the resolution
      sent, rounded down, but at least one and within 32 bits. */
  function TotalRows(stats: Stats): (rows: nat)
    requires stats.imageLength > 0 && stats.imageResolution > 0 && stats.resolution > 0
    ensures 1 <= rows < 0x1_0000_0000
    ensures rows > 1 ==> rows * stats.imageResolution <= stats.imageLength * stats.resolution
    ensures rows < 0xffff_ffff ==> stats.imageLength * stats.resolution < (rows + 1) * stats.imageResolution
  {
    var exact := stats.imageLength * stats.resolution;
    Quotient(exact, stats.imageResolution);
    var scaled := exact / stats.imageResolution;
    if scaled < 1 then
      TimesMonotone(scaled + 1, 2, stats.imageResolution);
      1
    else if scaled > 0xffff_ffff then
      TimesMonotone(0xffff_ffff, scaled, stats.imageResolution);
      0xffff_ffff
    else scaled
  }

  lemma Quotient(a: nat, b: nat)
    requires b > 0
    ensures a / b * b <= a < (a / b + 1) * b
  {
  }

  function NewDecoder(stats: Stats): Option<Decoder> {
    if stats.imageLength <= 0 || stats.imageResolution <= 0 || stats.resolution <= 0 || !stats.supported then None
    else Some(Decoder(Page(stats), TotalRows(stats), []))
  }

  function Feed(decoder: Option<Decoder>, bytes: seq<byte>): Option<Decoder> {
    match decoder
    case None => None
    case Some(d) => Some(d.(fed := d.fed + bytes))
  }

  /** What a frame means here: the facsimile control field without its lowest bit. */
  datatype Event = Short | Acknowledged | OtherIncoming | Data(number: byte, bytes: seq<byte>) | EndOfBlock | OtherOutgoing

  function EventOf(incoming: bool, frame: seq<byte>): Event {
    if |frame| < 3 then Short
    else
      var kind := frame[2] - frame[2] % 2;
      if incoming then (if kind == MCF then Acknowledged else OtherIncoming)
      else if kind == PPS then EndOfBlock
      else if kind == FCD && |frame| >= 5 then Data(frame[3], frame[4..])
      else OtherOutgoing
  }

  predicate Outgoing(e: Event) {
    e.Data? || e.EndOfBlock? || e.OtherOutgoing?
  }

  /** The previous image frame has left once the next frame is asked for. */
  function Flushed(s: State): State {
    match s.pending
    case None => s
    case Some(bytes) => s.(pending := None, decoder := Feed(s.decoder, bytes))
  }

  function OnData(s: State, stats: Stats, number: byte, bytes: seq<byte>): State {
    var t := if s.decoder.None? || s.decoder.value.page != Page(stats) then s.(decoder := NewDecoder(stats), seen := {}) else s;
    if number !in t.seen && t.decoder.Some? then t.(seen := t.seen + {number}, pending := Some(bytes)) else t
  }

  function OnEvent(s: State, stats: Stats, e: Event): State {
    match e
    case Short | OtherIncoming => s
    case Acknowledged => if s.awaitingAck then s.(seen := {}, awaitingAck := false) else s
    case EndOfBlock => Flushed(s).(awaitingAck := true)
    case OtherOutgoing => Flushed(s)
    case Data(number, bytes) => OnData(Flushed(s), stats, number, bytes)
  }

  /** Without error correction only the peer's answers matter here. */
  function OnPlainFrame(s: State, incoming: bool, frame: seq<byte>): State {
    if |frame| < 3 || !incoming then s
    else
      var kind := frame[2] - frame[2] % 2;
      if kind == CFR then s.(imageReady := true, decoder := None)
      else if kind == FTT then s.(imageReady := false)
      else s
  }

  function OnFrame(s: State, stats: Stats, incoming: bool, frame: seq<byte>): State {
    if stats.ecm then OnEvent(s, stats, EventOf(incoming, frame)) else OnPlainFrame(s, incoming, frame)
  }

  function OnPlainData(s: State, stats: Stats, bytes: seq<byte>): State {
    if stats.ecm || !s.imageReady then s
    else
      var decoder := if s.decoder.None? || s.decoder.value.page != Page(stats) then NewDecoder(stats) else s.decoder;
      s.(decoder := Feed(decoder, bytes))
  }

  function Run(s: State, stats: Stats, events: seq<Event>): State
    decreases |events|
  {
    if events == [] then s else OnEvent(Run(s, stats, events[..|events| - 1]), stats, events[|events| - 1])
  }

  // ----------------------------------------------------------- the sender

  /** A sender following Annex A: `sent` are the frames of the current block, `image`
      everything the page has come to, `left` that without the last outgoing frame. */
  datatype Sender = Sender(sent: nat, repeating: bool, asked: bool, image: seq<byte>, left: seq<byte>)

  /** New frames are numbered in order; once the block has been ended only its own
      frames are sent again, until it is acknowledged. */
  predicate Legal(w: Sender, e: Event) {
    match e
    case Data(number, _) => if w.repeating then number < w.sent else number == w.sent
    case Acknowledged => w.asked
    case _ => true
  }

  function Sends(w: Sender, e: Event): Sender {
    match e
    case Data(_, bytes) =>
      if w.repeating then w.(left := w.image)
      else w.(sent := w.sent + 1, image := w.image + bytes, left := w.image)
    case EndOfBlock => w.(repeating := true, asked := true, left := w.image)
    case OtherOutgoing => w.(left := w.image)
    case Acknowledged => w.(sent := 0, repeating := false, asked := false)
    case _ => w
  }

  predicate Follows(w: Sender, events: seq<Event>)
    decreases |events|
  {
    events == [] || (Legal(Sent(w, events[..|events| - 1]), events[|events| - 1]) && Follows(w, events[..|events| - 1]))
  }

  function Sent(w: Sender, events: seq<Event>): Sender
    decreases |events|
  {
    if events == [] then w else Sends(Sent(w, events[..|events| - 1]), events[|events| - 1])
  }

  /** Before the first frame of a page. */
  function Fresh(): Sender {
    Sender(0, false, false, [], [])
  }
}
