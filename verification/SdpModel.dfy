/**
 Session descriptions: what is offered, how an offer is read and answered, and what a
 description selects (section 6 of RFC 3264). Addresses print and parse by a codec of
 the standard library, which is a parameter.
 */
module SdpModel {
  import opened Words
  import opened Text
  import opened Media
  import opened Addresses

  datatype Kind = Audio | T38

  predicate IsUnspecified(ip: Ip) {
    ip == V4(0) || ip == V6(0)
  }

  /** 224.0.0.0/4 and ff00::/8. */
  predicate IsMulticast(ip: Ip) {
    match ip
    case V4(word) => 0xe000_0000 <= word <= 0xefff_ffff
    case V6(bits) => bits >= 0xff00_0000_0000_0000_0000_0000_0000_0000
  }

  datatype IpCodec = IpCodec(show: Ip -> string, parse: string -> Option<Ip>)

  /** What is assumed of the standard library: addresses print as one word and parse back. */
  ghost predicate Faithful(codec: IpCodec) {
    forall ip: Ip :: IsWord(codec.show(ip)) && codec.parse(codec.show(ip)) == Some(ip)
  }

  datatype RemoteMedia =
    | RemoteAudio(ip: Ip, port: nat, codec: G711)
    | RemoteT38(ip: Ip, port: nat, maxDatagram: nat, bitRate: nat)

  datatype Error = MalformedMediaLine | InvalidPort | NotUnicast | InvalidDatagramLimit | InvalidBitRate | Incompatible

  datatype Result<+T> = Ok(value: T) | Err(error: Error)

  // ------------------------------------------------------------- printing

  datatype LocalMedia = LocalMedia(ip: Ip, audioPort: u16, faxPort: u16, session: nat, version: nat)

  function Family(ip: Ip): string {
    match ip case V4(_) => "IP4" case V6(_) => "IP6"
  }

  function HeaderLines(local: LocalMedia, codec: IpCodec): seq<string> {
    ["v=0",
     "o=" + Join(["faxe", Decimal(local.session), Decimal(local.version), "IN", Family(local.ip), codec.show(local.ip)]),
     "s=Faxe",
     "c=" + Join(["IN", Family(local.ip), codec.show(local.ip)]),
     "t=0 0"]
  }

  function Field(key: string, value: string): string {
    key + ":" + value
  }

  function Fields(keys: seq<string>, values: seq<string>): seq<string>
    requires |keys| == |values|
  {
    seq(|keys|, i requires 0 <= i < |keys| => Field(keys[i], values[i]))
  }

  const T38_KEYS: seq<string> :=
    ["T38FaxVersion", "T38MaxBitRate", "T38FaxRateManagement", "T38FaxMaxBuffer", "T38FaxMaxDatagram", "T38FaxUdpEC"]

  function T38Attributes(bitRate: nat): seq<string> {
    Fields(T38_KEYS, ["0", Decimal(bitRate), "transferredTCF", "2000", "1200", "t38UDPRedundancy"])
  }

  function CodecName(codec: G711): string {
    match codec case Pcma => "PCMA" case Pcmu => "PCMU"
  }

  function MediaLine(name: string, port: nat, protocol: string, formats: seq<string>): string {
    "m=" + Join([name, Decimal(port), protocol] + formats)
  }

  function Attribute(value: string): string {
    "a=" + value
  }

  function AttributeLines(values: seq<string>): seq<string> {
    seq(|values|, i requires 0 <= i < |values| => Attribute(values[i]))
  }

  function T38Lines(local: LocalMedia, bitRate: nat): seq<string> {
    [MediaLine("image", local.faxPort, "udptl", ["t38"])] + AttributeLines(T38Attributes(bitRate))
  }

  const OFFERED_AUDIO: seq<string> := ["rtpmap:8 PCMA/8000", "rtpmap:0 PCMU/8000", "ptime:20", "sendrecv"]

  function OfferLines(local: LocalMedia, kind: Kind, codec: IpCodec): seq<string> {
    HeaderLines(local, codec) + match kind
      case Audio => [MediaLine("audio", local.audioPort, "RTP/AVP", ["8", "0"])] + AttributeLines(OFFERED_AUDIO)
      case T38 => T38Lines(local, 14400)
  }

  function Offer(local: LocalMedia, kind: Kind, codec: IpCodec): string {
    Unlines(OfferLines(local, kind, codec))
  }

  // -------------------------------------------------------------- reading

  datatype Medium = Medium(name: string, port: nat, protocol: string, formats: seq<string>, connection: Option<Ip>,
                           attributes: seq<string>)

  datatype Session = Session(connection: Option<Ip>, media: seq<Medium>)

  function OnMediaLine(s: Session, value: string): Result<Session> {
    var parts := SplitWords(value);
    if |parts| < 4 then Err(MalformedMediaLine)
    else match ParseBelow(parts[1], 0x1_0000)
    case None => Err(InvalidPort)
    case Some(port) => Ok(s.(media := s.media + [Medium(parts[0], port, parts[2], parts[3..], None, [])]))
  }

  function OnConnectionLine(s: Session, value: string, codec: IpCodec): Result<Session> {
    var parts := SplitWords(value);
    if |parts| < 3 then Err(NotUnicast)
    else match codec.parse(parts[2])
    case None => Err(NotUnicast)
    case Some(ip) =>
      if s.media == [] then Ok(s.(connection := Some(ip)))
      else Ok(s.(media := s.media[|s.media| - 1 := s.media[|s.media| - 1].(connection := Some(ip))]))
  }

  function OnAttributeLine(s: Session, value: string): Session {
    if s.media == [] then s
    else
      var last := s.media[|s.media| - 1];
      s.(media := s.media[|s.media| - 1 := last.(attributes := last.attributes + [value])])
  }

  function OnLine(s: Session, line: string, codec: IpCodec): Result<Session> {
    match SplitOnce(line, '=')
    case None => Ok(s)
    case Some((key, value)) =>
      if key == "m" then OnMediaLine(s, value)
      else if key == "c" then OnConnectionLine(s, value, codec)
      else if key == "a" then Ok(OnAttributeLine(s, value))
      else Ok(s)
  }

  function ParseLines(s: Session, lines: seq<string>, codec: IpCodec): Result<Session>
    decreases |lines|
  {
    if lines == [] then Ok(s)
    else match OnLine(s, Trim(lines[0]), codec)
    case Err(error) => Err(error)
    case Ok(next) => ParseLines(next, lines[1..], codec)
  }

  function Parse(sdp: string, codec: IpCodec): Result<Session> {
    ParseLines(Session(None, []), Lines(sdp), codec)
  }

  // ------------------------------------------------------------ selecting

  /** The value of the first attribute with this name, in any case of letters. */
  function Attr(attributes: seq<string>, name: string): Option<string>
    decreases |attributes|
  {
    if attributes == [] then None
    else match SplitOnce(attributes[0], ':')
    case Some((key, value)) => if SameLetters(key, name) then Some(value) else Attr(attributes[1..], name)
    case None => Attr(attributes[1..], name)
  }

  function OrElse(value: Option<string>, otherwise: string): string {
    match value case Some(text) => text case None => otherwise
  }

  /** Whether one line of the description is taken, passed over, or ends the reading. */
  datatype Choice = Take(media: RemoteMedia) | Skip | Fail(error: Error)

  function BitRate(maximum: nat): Option<nat> {
    if maximum >= 14400 then Some(14400) else if maximum >= 9600 then Some(9600) else if maximum >= 4800 then Some(4800) else None
  }

  function ChooseT38(ip: Ip, port: nat, attributes: seq<string>): Choice {
    var management, correction := Attr(attributes, "T38FaxRateManagement"), Attr(attributes, "T38FaxUdpEC");
    if management.Some? && !SameLetters(management.value, "transferredTCF") then Skip
    else if correction.Some? && !SameLetters(correction.value, "t38UDPRedundancy") then Skip
    else match ParseBelow(OrElse(Attr(attributes, "T38FaxMaxDatagram"), "400"), 0x1_0000_0000_0000_0000)
    case None => Fail(InvalidDatagramLimit)
    case Some(datagram) =>
      if datagram < 64 then Skip
      else match ParseBelow(OrElse(Attr(attributes, "T38MaxBitRate"), "14400"), 0x1_0000_0000)
      case None => Fail(InvalidBitRate)
      case Some(maximum) =>
        match BitRate(maximum)
        case None => Skip
        case Some(bitRate) => Take(RemoteT38(ip, port, Min(datagram, 1200), bitRate))
  }

  function ChooseAudio(ip: Ip, port: nat, formats: seq<string>): Choice
    decreases |formats|
  {
    if formats == [] then Skip
    else if formats[0] == "8" then Take(RemoteAudio(ip, port, Pcma))
    else if formats[0] == "0" then Take(RemoteAudio(ip, port, Pcmu))
    else ChooseAudio(ip, port, formats[1..])
  }

  predicate Offers38(formats: seq<string>) {
    exists i :: 0 <= i < |formats| && SameLetters(formats[i], "t38")
  }

  predicate Usable(ip: Ip) {
    !IsUnspecified(ip) && !IsMulticast(ip)
  }

  function Consider(connection: Option<Ip>, m: Medium, allowAudio: bool, allowT38: bool): Choice {
    var ip := if m.connection.Some? then m.connection else connection;
    if m.port == 0 || "inactive" in m.attributes || "sendonly" in m.attributes then Skip
    else if ip.None? || !Usable(ip.value) then Skip
    else if m.name == "image" && LowerCase(m.protocol) == "udptl" && allowT38 && Offers38(m.formats) then
      ChooseT38(ip.value, m.port, m.attributes)
    else if m.name == "audio" && LowerCase(m.protocol) == "rtp/avp" && allowAudio then ChooseAudio(ip.value, m.port, m.formats)
    else Skip
  }

  /** The first acceptable medium from `i` on, in the peer's order. */
  function SelectFrom(s: Session, i: nat, allowAudio: bool, allowT38: bool): Result<(nat, RemoteMedia)>
    requires i <= |s.media|
    decreases |s.media| - i
  {
    if i == |s.media| then Err(Incompatible)
    else match Consider(s.connection, s.media[i], allowAudio, allowT38)
    case Take(media) => Ok((i, media))
    case Fail(error) => Err(error)
    case Skip => SelectFrom(s, i + 1, allowAudio, allowT38)
  }

  function Select(s: Session, allowAudio: bool, allowT38: bool): Result<(nat, RemoteMedia)> {
    SelectFrom(s, 0, allowAudio, allowT38)
  }

  function Remote(sdp: string, codec: IpCodec): Result<RemoteMedia> {
    match Parse(sdp, codec)
    case Err(error) => Err(error)
    case Ok(session) =>
      match Select(session, true, true)
      case Err(error) => Err(error)
      case Ok((_, media)) => Ok(media)
  }

  // ------------------------------------------------------------ answering

  function AudioAttributes(codec: G711): seq<string> {
    ["rtpmap:" + Join([Decimal(codec.PayloadType()), CodecName(codec) + "/8000"]), "ptime:20", "sendrecv"]
  }

  function SelectedLines(local: LocalMedia, media: RemoteMedia): seq<string> {
    match media
    case RemoteAudio(_, _, codec) =>
      [MediaLine("audio", local.audioPort, "RTP/AVP", [Decimal(codec.PayloadType())])] + AttributeLines(AudioAttributes(codec))
    case RemoteT38(_, _, _, bitRate) => T38Lines(local, bitRate)
  }

  function RefusedLines(m: Medium): seq<string> {
    [MediaLine(m.name, 0, m.protocol, m.formats)]
  }

  /** Every medium of the offer is answered in its place; all but the selected one refused. */
  function AnswerLines(local: LocalMedia, media: seq<Medium>, n: nat, selected: (nat, RemoteMedia)): seq<string>
    requires n <= |media|
    decreases n
  {
    if n == 0 then []
    else AnswerLines(local, media, n - 1, selected)
         + if n - 1 == selected.0 then SelectedLines(local, selected.1) else RefusedLines(media[n - 1])
  }

  function Answer(local: LocalMedia, offer: string, allowAudio: bool, allowT38: bool, codec: IpCodec): Result<string> {
    match Parse(offer, codec)
    case Err(error) => Err(error)
    case Ok(session) =>
      match Select(session, allowAudio, allowT38)
      case Err(error) => Err(error)
      case Ok(selected) =>
        Ok(Unlines(HeaderLines(local, codec) + AnswerLines(local, session.media, |session.media|, selected)))
  }
}
