/** Descriptions are read back as they were meant. */
module SdpTheorems {
  import opened Words
  import opened Text
  import opened Media
  import opened Addresses
  import opened SdpModel

  /** A line that survives being printed, split off and trimmed. */
  predicate Printable(line: string) {
    Lacks(line, '\n') && line != [] && !IsWhite(line[0]) && !IsWhite(line[|line| - 1])
  }

  predicate AllPrintable(lines: seq<string>) {
    forall i :: 0 <= i < |lines| ==> Printable(lines[i])
  }

  // -------------------------------------------------------- single lines

  lemma DecimalIsWord(n: nat)
    ensures IsWord(Decimal(n))
  {
    DecimalReadsBack(n);
  }

  lemma WordIsPrintable(word: string)
    requires IsWord(word)
    ensures Printable(word)
  {
  }

  lemma {:induction false} JoinIsPrintable(words: seq<string>)
    requires AllWords(words) && words != []
    ensures Printable(Join(words))
    decreases |words|
  {
    WordIsPrintable(words[0]);
    if |words| > 1 {
      JoinIsPrintable(words[1..]);
      var rest := Join(words[1..]);
      assert Join(words) == words[0] + " " + rest;
    }
  }

  lemma KeyedLine(key: char, value: string)
    requires Printable(value) && !IsWhite(key) && key != '='
    ensures Printable([key] + "=" + value)
    ensures SplitOnce([key] + "=" + value, '=') == Some(([key], value))
  {
    var line := [key] + "=" + value;
    SplitsAt([key], '=', value);
    assert line[|line| - 1] == value[|value| - 1];
  }

  lemma MediaValueIsRead(s: Session, name: string, port: nat, protocol: string, formats: seq<string>)
    requires IsWord(name) && IsWord(protocol) && AllWords(formats) && formats != [] && port < 0x1_0000
    ensures var value := Join([name, Decimal(port), protocol] + formats);
      && Printable(value)
      && OnMediaLine(s, value) == Ok(s.(media := s.media + [Medium(name, port, protocol, formats, None, [])]))
  {
    DecimalIsWord(port);
    var parts := [name, Decimal(port), protocol] + formats;
    JoinIsPrintable(parts);
    JoinSplits(parts);
    assert parts[3..] == formats;
    ParsesDecimal(port, 0x1_0000);
  }

  lemma MediaLineIsRead(s: Session, name: string, port: nat, protocol: string, formats: seq<string>, codec: IpCodec)
    requires IsWord(name) && IsWord(protocol) && AllWords(formats) && formats != [] && port < 0x1_0000
    ensures var line := MediaLine(name, port, protocol, formats);
      && Printable(line)
      && OnLine(s, line, codec) == Ok(s.(media := s.media + [Medium(name, port, protocol, formats, None, [])]))
  {
    MediaValueIsRead(s, name, port, protocol, formats);
    var value := Join([name, Decimal(port), protocol] + formats);
    KeyedLine('m', value);
    assert "m=" + value == ['m'] + "=" + value;
  }

  lemma AttributeIsRead(s: Session, value: string, codec: IpCodec)
    requires Printable(value)
    ensures Printable(Attribute(value)) && OnLine(s, Attribute(value), codec) == Ok(OnAttributeLine(s, value))
  {
    KeyedLine('a', value);
    assert Attribute(value) == ['a'] + "=" + value;
  }

  lemma ConnectionValueIsRead(s: Session, family: string, address: string, ip: Ip, codec: IpCodec)
    requires IsWord(family) && IsWord(address) && codec.parse(address) == Some(ip) && s.media == []
    ensures var value := Join(["IN", family, address]);
      Printable(value) && OnConnectionLine(s, value, codec) == Ok(s.(connection := Some(ip)))
  {
    var parts := ["IN", family, address];
    assert IsWord("IN");
    JoinIsPrintable(parts);
    JoinSplits(parts);
  }

  lemma ConnectionIsRead(s: Session, family: string, ip: Ip, codec: IpCodec)
    requires Faithful(codec) && IsWord(family) && s.media == []
    ensures var line := "c=" + Join(["IN", family, codec.show(ip)]);
      Printable(line) && OnLine(s, line, codec) == Ok(s.(connection := Some(ip)))
  {
    var value := Join(["IN", family, codec.show(ip)]);
    ConnectionValueIsRead(s, family, codec.show(ip), ip, codec);
    KeyedLine('c', value);
    assert "c=" + value == ['c'] + "=" + value;
  }

  lemma OtherIsIgnored(s: Session, key: char, value: string, codec: IpCodec)
    requires Printable(value) && key in {'v', 'o', 's', 't'}
    ensures Printable([key] + "=" + value) && OnLine(s, [key] + "=" + value, codec) == Ok(s)
  {
    KeyedLine(key, value);
  }

  // ---------------------------------------------------------- many lines

  lemma {:induction false} ParseJoins(s: Session, a: seq<string>, b: seq<string>, codec: IpCodec)
    ensures ParseLines(s, a + b, codec)
      == match ParseLines(s, a, codec) { case Err(error) => Err(error) case Ok(t) => ParseLines(t, b, codec) }
    decreases |a|
  {
    if a == [] {
      assert a + b == b;
    } else {
      assert (a + b)[1..] == a[1..] + b;
      match OnLine(s, Trim(a[0]), codec)
      case Err(_) =>
      case Ok(next) => ParseJoins(next, a[1..], b, codec);
    }
  }

  lemma OneLine(s: Session, line: string, codec: IpCodec)
    requires Printable(line)
    ensures ParseLines(s, [line], codec) == OnLine(s, line, codec)
  {
    Untrimmed(line);
    assert [line][1..] == [];
  }

  function WithAttributes(s: Session, values: seq<string>): Session
    requires s.media != []
  {
    var last := s.media[|s.media| - 1];
    s.(media := s.media[|s.media| - 1 := last.(attributes := last.attributes + values)])
  }

  lemma OneMoreAttribute(s: Session, value: string, rest: seq<string>)
    requires s.media != []
    ensures WithAttributes(OnAttributeLine(s, value), rest) == WithAttributes(s, [value] + rest)
  {
    var k := |s.media| - 1;
    var last := s.media[k];
    var next := last.(attributes := last.attributes + [value]);
    assert last.attributes + [value] + rest == last.attributes + ([value] + rest);
    assert s.media[k := next][k := next.(attributes := next.attributes + rest)] == s.media[k := next.(attributes := next.attributes + rest)];
  }

  lemma {:induction false} AttributesAreRead(s: Session, values: seq<string>, codec: IpCodec)
    requires AllPrintable(values) && s.media != []
    ensures AllPrintable(AttributeLines(values))
    ensures ParseLines(s, AttributeLines(values), codec) == Ok(WithAttributes(s, values))
    decreases |values|
  {
    if values == [] {
      var last := s.media[|s.media| - 1];
      assert last.attributes + [] == last.attributes;
      assert s.media[|s.media| - 1 := last] == s.media;
    } else {
      var first, rest := [Attribute(values[0])], AttributeLines(values[1..]);
      assert AttributeLines(values) == first + rest;
      AttributeIsRead(s, values[0], codec);
      OneLine(s, Attribute(values[0]), codec);
      var next := OnAttributeLine(s, values[0]);
      AttributesAreRead(next, values[1..], codec);
      ParseJoins(s, first, rest, codec);
      OneMoreAttribute(s, values[0], values[1..]);
      assert values == [values[0]] + values[1..];
    }
  }

  lemma WordsOfOrigin(local: LocalMedia, codec: IpCodec)
    requires Faithful(codec)
    ensures AllWords(["faxe", Decimal(local.session), Decimal(local.version), "IN", Family(local.ip), codec.show(local.ip)])
    ensures IsWord(Family(local.ip))
  {
    DecimalIsWord(local.session);
    DecimalIsWord(local.version);
    assert IsWord("faxe") && IsWord("IN") && IsWord("IP4") && IsWord("IP6");
  }

  lemma VersionIsIgnored(s: Session, codec: IpCodec)
    ensures Printable("v=0") && OnLine(s, "v=0", codec) == Ok(s)
  {
    OtherIsIgnored(s, 'v', "0", codec);
    assert "v=0" == ['v'] + "=" + "0";
  }

  lemma NameIsIgnored(s: Session, codec: IpCodec)
    ensures Printable("s=Faxe") && OnLine(s, "s=Faxe", codec) == Ok(s)
  {
    OtherIsIgnored(s, 's', "Faxe", codec);
    assert "s=Faxe" == ['s'] + "=" + "Faxe";
  }

  lemma TimeIsIgnored(s: Session, codec: IpCodec)
    ensures Printable("t=0 0") && OnLine(s, "t=0 0", codec) == Ok(s)
  {
    OtherIsIgnored(s, 't', "0 0", codec);
    assert "t=0 0" == ['t'] + "=" + "0 0";
  }

  lemma ThenLine(s: Session, lines: seq<string>, t: Session, line: string, u: Session, codec: IpCodec)
    requires AllPrintable(lines) && ParseLines(s, lines, codec) == Ok(t)
    requires Printable(line) && OnLine(t, line, codec) == Ok(u)
    ensures AllPrintable(lines + [line]) && ParseLines(s, lines + [line], codec) == Ok(u)
  {
    OneLine(t, line, codec);
    ParseJoins(s, lines, [line], codec);
  }

  lemma FiveLines(s: Session, t: Session, origin: string, connection: string, codec: IpCodec)
    requires Printable(origin) && OnLine(s, origin, codec) == Ok(s)
    requires Printable(connection) && OnLine(s, connection, codec) == Ok(t)
    ensures AllPrintable(["v=0", origin, "s=Faxe", connection, "t=0 0"])
    ensures ParseLines(s, ["v=0", origin, "s=Faxe", connection, "t=0 0"], codec) == Ok(t)
  {
    VersionIsIgnored(s, codec);
    NameIsIgnored(s, codec);
    TimeIsIgnored(t, codec);
    OneLine(s, "v=0", codec);
    var l2 := ["v=0"] + [origin];
    ThenLine(s, ["v=0"], s, origin, s, codec);
    ThenLine(s, l2, s, "s=Faxe", s, codec);
    var l3 := l2 + ["s=Faxe"];
    ThenLine(s, l3, s, connection, t, codec);
    ThenLine(s, l3 + [connection], t, "t=0 0", t, codec);
    assert l3 + [connection] + ["t=0 0"] == ["v=0", origin, "s=Faxe", connection, "t=0 0"];
  }

  lemma OriginIsIgnored(s: Session, local: LocalMedia, codec: IpCodec)
    requires Faithful(codec)
    ensures Printable(HeaderLines(local, codec)[1]) && OnLine(s, HeaderLines(local, codec)[1], codec) == Ok(s)
  {
    var origin := ["faxe", Decimal(local.session), Decimal(local.version), "IN", Family(local.ip), codec.show(local.ip)];
    WordsOfOrigin(local, codec);
    JoinIsPrintable(origin);
    OtherIsIgnored(s, 'o', Join(origin), codec);
    assert "o=" + Join(origin) == ['o'] + "=" + Join(origin);
  }

  lemma HeaderIsRead(local: LocalMedia, codec: IpCodec)
    requires Faithful(codec)
    ensures AllPrintable(HeaderLines(local, codec))
    ensures ParseLines(Session(None, []), HeaderLines(local, codec), codec) == Ok(Session(Some(local.ip), []))
  {
    var s, t := Session(None, []), Session(Some(local.ip), []);
    WordsOfOrigin(local, codec);
    OriginIsIgnored(s, local, codec);
    ConnectionIsRead(s, Family(local.ip), local.ip, codec);
    FiveLines(s, t, HeaderLines(local, codec)[1], HeaderLines(local, codec)[3], codec);
  }

  // --------------------------------------------------- media, one at a time

  /** A medium as one of our descriptions prints it, with all its attributes. */
  lemma MediumIsRead(s: Session, name: string, port: nat, protocol: string, formats: seq<string>, values: seq<string>, codec: IpCodec)
    requires IsWord(name) && IsWord(protocol) && AllWords(formats) && formats != [] && port < 0x1_0000 && AllPrintable(values)
    ensures var lines := [MediaLine(name, port, protocol, formats)] + AttributeLines(values);
      && AllPrintable(lines)
      && ParseLines(s, lines, codec) == Ok(s.(media := s.media + [Medium(name, port, protocol, formats, None, values)]))
  {
    var line := MediaLine(name, port, protocol, formats);
    MediaLineIsRead(s, name, port, protocol, formats, codec);
    OneLine(s, line, codec);
    var bare := Medium(name, port, protocol, formats, None, []);
    var next := s.(media := s.media + [bare]);
    AttributesAreRead(next, values, codec);
    ParseJoins(s, [line], AttributeLines(values), codec);
    assert [] + values == values;
    assert (s.media + [bare])[|s.media| := bare.(attributes := values)] == s.media + [bare.(attributes := values)];
  }

  function OfferedAudio(local: LocalMedia): Medium {
    Medium("audio", local.audioPort, "RTP/AVP", ["8", "0"], None, OFFERED_AUDIO)
  }

  function PrintedT38(local: LocalMedia, bitRate: nat): Medium {
    Medium("image", local.faxPort, "udptl", ["t38"], None, T38Attributes(bitRate))
  }

  function AnsweredAudio(local: LocalMedia, codec: G711): Medium {
    Medium("audio", local.audioPort, "RTP/AVP", [Decimal(codec.PayloadType())], None, AudioAttributes(codec))
  }

  lemma OfferedAudioIsRead(s: Session, local: LocalMedia, codec: IpCodec)
    ensures var lines := [MediaLine("audio", local.audioPort, "RTP/AVP", ["8", "0"])] + AttributeLines(OFFERED_AUDIO);
      AllPrintable(lines) && ParseLines(s, lines, codec) == Ok(s.(media := s.media + [OfferedAudio(local)]))
  {
    assert IsWord("audio") && IsWord("RTP/AVP") && IsWord("8") && IsWord("0");
    assert Printable("rtpmap:8 PCMA/8000") && Printable("rtpmap:0 PCMU/8000") && Printable("ptime:20") && Printable("sendrecv");
    MediumIsRead(s, "audio", local.audioPort, "RTP/AVP", ["8", "0"], OFFERED_AUDIO, codec);
  }

  lemma FieldIsPrintable(key: string, value: string)
    requires IsWord(key) && IsWord(value)
    ensures Printable(Field(key, value))
  {
    assert IsWord(":");
    WordIsPrintable(Field(key, value));
  }

  lemma KeysAreWords()
    ensures AllWords(T38_KEYS)
  {
    FirstKeysAreWords();
    assert IsWord("T38FaxMaxBuffer") && IsWord("T38FaxMaxDatagram") && IsWord("T38FaxUdpEC");
  }

  lemma FirstKeysAreWords()
    ensures IsWord("T38FaxVersion") && IsWord("T38MaxBitRate") && IsWord("T38FaxRateManagement")
  {
  }

  lemma T38AttributesArePrintable(bitRate: nat)
    ensures AllPrintable(T38Attributes(bitRate))
  {
    KeysAreWords();
    DecimalIsWord(bitRate);
    var values := ["0", Decimal(bitRate), "transferredTCF", "2000", "1200", "t38UDPRedundancy"];
    assert AllWords(values);
    forall i | 0 <= i < 6
      ensures Printable(Fields(T38_KEYS, values)[i])
    {
      FieldIsPrintable(T38_KEYS[i], values[i]);
    }
  }

  lemma T38IsRead(s: Session, local: LocalMedia, bitRate: nat, codec: IpCodec)
    ensures AllPrintable(T38Lines(local, bitRate))
    ensures ParseLines(s, T38Lines(local, bitRate), codec) == Ok(s.(media := s.media + [PrintedT38(local, bitRate)]))
  {
    assert IsWord("image") && IsWord("udptl") && IsWord("t38");
    T38AttributesArePrintable(bitRate);
    MediumIsRead(s, "image", local.faxPort, "udptl", ["t38"], T38Attributes(bitRate), codec);
  }

  lemma AnsweredAudioIsRead(s: Session, local: LocalMedia, g711: G711, codec: IpCodec)
    ensures var lines := SelectedLines(local, RemoteAudio(V4(0), 0, g711));
      AllPrintable(lines) && ParseLines(s, lines, codec) == Ok(s.(media := s.media + [AnsweredAudio(local, g711)]))
  {
    var pt := Decimal(g711.PayloadType());
    DecimalIsWord(g711.PayloadType());
    assert IsWord("audio") && IsWord("RTP/AVP");
    AudioAttributesArePrintable(g711);
    MediumIsRead(s, "audio", local.audioPort, "RTP/AVP", [pt], AudioAttributes(g711), codec);
  }

  lemma RateIsWord(g711: G711)
    ensures IsWord(CodecName(g711) + "/8000")
  {
    assert IsWord("PCMA/8000") && IsWord("PCMU/8000");
    assert CodecName(g711) + "/8000" == if g711.Pcma? then "PCMA/8000" else "PCMU/8000";
  }

  lemma AudioAttributesArePrintable(g711: G711)
    ensures AllPrintable(AudioAttributes(g711))
  {
    DecimalIsWord(g711.PayloadType());
    RateIsWord(g711);
    MapIsPrintable(Decimal(g711.PayloadType()), CodecName(g711) + "/8000");
    assert Printable("ptime:20") && Printable("sendrecv");
  }

  lemma MapIsPrintable(pt: string, name: string)
    requires IsWord(pt) && IsWord(name)
    ensures Printable("rtpmap:" + Join([pt, name]))
  {
    JoinIsPrintable([pt, name]);
    var line := "rtpmap:" + Join([pt, name]);
    assert IsWord("rtpmap:");
    assert line[|line| - 1] == Join([pt, name])[|Join([pt, name])| - 1];
  }

  // ------------------------------------------------------------ selecting

  /** Fields are found by their keys when no earlier key is the same. */
  lemma {:induction false} FieldIsFound(keys: seq<string>, values: seq<string>, j: nat)
    requires |keys| == |values| && j < |keys|
    requires forall i :: 0 <= i <= j ==> Lacks(keys[i], ':')
    requires forall i :: 0 <= i < j ==> !SameLetters(keys[i], keys[j])
    ensures Attr(Fields(keys, values), keys[j]) == Some(values[j])
    decreases j
  {
    var all := Fields(keys, values);
    SplitsAt(keys[0], ':', values[0]);
    assert all[0] == keys[0] + [':'] + values[0];
    assert all[1..] == Fields(keys[1..], values[1..]);
    if j > 0 {
      FieldIsFound(keys[1..], values[1..], j - 1);
    }
  }

  lemma KeysLackColons()
    ensures forall i :: 0 <= i < 6 ==> Lacks(T38_KEYS[i], ':')
  {
    assert Lacks("T38FaxVersion", ':') && Lacks("T38MaxBitRate", ':') && Lacks("T38FaxRateManagement", ':');
    assert Lacks("T38FaxMaxBuffer", ':') && Lacks("T38FaxMaxDatagram", ':') && Lacks("T38FaxUdpEC", ':');
  }

  /** The keys differ in length, but for two that differ in their fourth letter. */
  lemma KeysDiffer()
    ensures forall i, j :: 0 <= i < j < 6 ==> !SameLetters(T38_KEYS[i], T38_KEYS[j])
  {
    assert |T38_KEYS[0]| == 13 && |T38_KEYS[1]| == 13 && |T38_KEYS[2]| == 20;
    assert |T38_KEYS[3]| == 15 && |T38_KEYS[4]| == 17 && |T38_KEYS[5]| == 11;
    assert T38_KEYS[0][3] == 'F' && T38_KEYS[1][3] == 'M';
    assert Lower(T38_KEYS[0][3]) != Lower(T38_KEYS[1][3]);
  }

  /** What a T.38 description of ours says, attribute by attribute. */
  lemma T38AttributesSay(bitRate: nat)
    ensures Attr(T38Attributes(bitRate), "T38MaxBitRate") == Some(Decimal(bitRate))
    ensures Attr(T38Attributes(bitRate), "T38FaxRateManagement") == Some("transferredTCF")
    ensures Attr(T38Attributes(bitRate), "T38FaxMaxDatagram") == Some("1200")
    ensures Attr(T38Attributes(bitRate), "T38FaxUdpEC") == Some("t38UDPRedundancy")
  {
    KeysLackColons();
    KeysDiffer();
    var values := ["0", Decimal(bitRate), "transferredTCF", "2000", "1200", "t38UDPRedundancy"];
    FieldIsFound(T38_KEYS, values, 1);
    FieldIsFound(T38_KEYS, values, 2);
    FieldIsFound(T38_KEYS, values, 4);
    FieldIsFound(T38_KEYS, values, 5);
  }

  lemma LimitIsRead()
    ensures ParseBelow("1200", 0x1_0000_0000_0000_0000) == Some(1200)
  {
    assert Decimal(1) == "1" && Decimal(12) == "12" && Decimal(120) == "120";
    assert Decimal(1200) == "1200";
    ParsesDecimal(1200, 0x1_0000_0000_0000_0000);
  }

  predicate IsRate(bitRate: nat) {
    bitRate == 4800 || bitRate == 9600 || bitRate == 14400
  }

  lemma PrintedT38IsChosen(ip: Ip, port: nat, bitRate: nat)
    requires IsRate(bitRate)
    ensures ChooseT38(ip, port, T38Attributes(bitRate)) == Take(RemoteT38(ip, port, 1200, bitRate))
  {
    T38AttributesSay(bitRate);
    LimitIsRead();
    ParsesDecimal(bitRate, 0x1_0000_0000);
  }

  lemma FieldsAreNoDirections(keys: seq<string>, values: seq<string>)
    requires |keys| == |values|
    ensures "inactive" !in Fields(keys, values) && "sendonly" !in Fields(keys, values)
  {
    assert Lacks("inactive", ':') && Lacks("sendonly", ':');
    forall i | 0 <= i < |keys|
      ensures !Lacks(Fields(keys, values)[i], ':')
    {
      assert Field(keys[i], values[i])[|keys[i]|] == ':';
    }
  }

  lemma ProtocolsAreKnown()
    ensures LowerCase("udptl") == "udptl" && LowerCase("RTP/AVP") == "rtp/avp" && Offers38(["t38"])
    ensures Decimal(8) == "8" && Decimal(0) == "0"
  {
    assert SameLetters(["t38"][0], "t38");
    var upper, lower := "RTP/AVP", "rtp/avp";
    assert forall i :: 0 <= i < 7 ==> Lower(upper[i]) == lower[i];
    assert forall i :: 0 <= i < 5 ==> Lower("udptl"[i]) == "udptl"[i];
  }

  lemma PrintedT38IsConsidered(connection: Option<Ip>, local: LocalMedia, bitRate: nat)
    requires IsRate(bitRate) && connection == Some(local.ip)
    ensures Consider(connection, PrintedT38(local, bitRate), true, true)
      == if local.faxPort != 0 && Usable(local.ip) then Take(RemoteT38(local.ip, local.faxPort, 1200, bitRate)) else Skip
  {
    PrintedT38IsChosen(local.ip, local.faxPort, bitRate);
    FieldsAreNoDirections(T38_KEYS, ["0", Decimal(bitRate), "transferredTCF", "2000", "1200", "t38UDPRedundancy"]);
    ProtocolsAreKnown();
  }

  lemma SendrecvIsNoObstacle(attributes: seq<string>)
    requires forall i :: 0 <= i < |attributes| ==> attributes[i] == "sendrecv" || !Lacks(attributes[i], ':')
    ensures "inactive" !in attributes && "sendonly" !in attributes
  {
    assert Lacks("inactive", ':') && Lacks("sendonly", ':');
    assert "sendrecv"[4] == 'r' && "sendonly"[4] == 'o' && "inactive"[0] == 'i' && "sendrecv"[0] == 's';
  }

  lemma AudioIsConsidered(connection: Option<Ip>, m: Medium, local: LocalMedia, g711: G711)
    requires m.name == "audio" && m.port == local.audioPort && m.protocol == "RTP/AVP" && m.connection.None?
    requires m.formats != [] && m.formats[0] == Decimal(g711.PayloadType()) && connection == Some(local.ip)
    requires forall i :: 0 <= i < |m.attributes| ==> m.attributes[i] == "sendrecv" || !Lacks(m.attributes[i], ':')
    ensures Consider(connection, m, true, true)
      == if local.audioPort != 0 && Usable(local.ip) then Take(RemoteAudio(local.ip, local.audioPort, g711)) else Skip
  {
    ProtocolsAreKnown();
    SendrecvIsNoObstacle(m.attributes);
    assert "audio"[0] != "image"[0];
  }

  lemma MapsHaveColons(pt: string, name: string)
    ensures !Lacks("rtpmap:" + Join([pt, name]), ':')
  {
    assert ("rtpmap:" + Join([pt, name]))[6] == ':';
  }

  lemma OfferedAudioIsConsidered(connection: Option<Ip>, local: LocalMedia)
    requires connection == Some(local.ip)
    ensures Consider(connection, OfferedAudio(local), true, true)
      == if local.audioPort != 0 && Usable(local.ip) then Take(RemoteAudio(local.ip, local.audioPort, Pcma)) else Skip
  {
    ProtocolsAreKnown();
    assert "rtpmap:8 PCMA/8000"[6] == ':' && "rtpmap:0 PCMU/8000"[6] == ':' && "ptime:20"[5] == ':';
    AudioIsConsidered(connection, OfferedAudio(local), local, Pcma);
  }

  lemma AnsweredAudioIsConsidered(connection: Option<Ip>, local: LocalMedia, g711: G711)
    requires connection == Some(local.ip)
    ensures Consider(connection, AnsweredAudio(local, g711), true, true)
      == if local.audioPort != 0 && Usable(local.ip) then Take(RemoteAudio(local.ip, local.audioPort, g711)) else Skip
  {
    MapsHaveColons(Decimal(g711.PayloadType()), CodecName(g711) + "/8000");
    assert "ptime:20"[5] == ':';
    AudioIsConsidered(connection, AnsweredAudio(local, g711), local, g711);
  }

  // -------------------------------------------------------- main results

  lemma PrintedIsParsed(lines: seq<string>, codec: IpCodec)
    requires AllPrintable(lines)
    ensures Parse(Unlines(lines), codec) == ParseLines(Session(None, []), lines, codec)
  {
    UnlinesReadsBack(lines);
  }

  lemma HeaderThen(local: LocalMedia, lines: seq<string>, s: Session, codec: IpCodec)
    requires Faithful(codec) && AllPrintable(lines) && ParseLines(Session(Some(local.ip), []), lines, codec) == Ok(s)
    ensures Parse(Unlines(HeaderLines(local, codec) + lines), codec) == Ok(s)
  {
    HeaderIsRead(local, codec);
    PrintedIsParsed(HeaderLines(local, codec) + lines, codec);
    ParseJoins(Session(None, []), HeaderLines(local, codec), lines, codec);
  }

  function PortOf(local: LocalMedia, kind: Kind): u16 {
    if kind == Audio then local.audioPort else local.faxPort
  }

  function OfferedMedium(local: LocalMedia, kind: Kind): Medium {
    if kind == Audio then OfferedAudio(local) else PrintedT38(local, 14400)
  }

  function OfferedRemote(local: LocalMedia, kind: Kind): RemoteMedia {
    if kind == Audio then RemoteAudio(local.ip, local.audioPort, Pcma) else RemoteT38(local.ip, local.faxPort, 1200, 14400)
  }

  lemma OfferIsParsed(local: LocalMedia, kind: Kind, codec: IpCodec)
    requires Faithful(codec)
    ensures Parse(Offer(local, kind, codec), codec) == Ok(Session(Some(local.ip), [OfferedMedium(local, kind)]))
  {
    var s := Session(Some(local.ip), []);
    assert [] + [OfferedMedium(local, kind)] == [OfferedMedium(local, kind)];
    if kind == Audio {
      OfferedAudioIsRead(s, local, codec);
      var lines := [MediaLine("audio", local.audioPort, "RTP/AVP", ["8", "0"])] + AttributeLines(OFFERED_AUDIO);
      HeaderThen(local, lines, s.(media := [OfferedAudio(local)]), codec);
    } else {
      T38IsRead(s, local, 14400, codec);
      HeaderThen(local, T38Lines(local, 14400), s.(media := [PrintedT38(local, 14400)]), codec);
    }
  }

  /** A peer that reads our offer sees our address, kind, codec and limits, exactly when
      the address is a usable unicast one and the port is not zero. */
  lemma OfferIsUnderstood(local: LocalMedia, kind: Kind, codec: IpCodec)
    requires Faithful(codec)
    ensures Remote(Offer(local, kind, codec), codec) == Ok(OfferedRemote(local, kind)) <==> Usable(local.ip) && PortOf(local, kind) != 0
    ensures !(Usable(local.ip) && PortOf(local, kind) != 0) ==> Remote(Offer(local, kind, codec), codec) == Err(Incompatible)
  {
    OfferIsParsed(local, kind, codec);
    if kind == Audio {
      OfferedAudioIsConsidered(Some(local.ip), local);
    } else {
      PrintedT38IsConsidered(Some(local.ip), local, 14400);
    }
    var s := Session(Some(local.ip), [OfferedMedium(local, kind)]);
    assert SelectFrom(s, 1, true, true) == Err(Incompatible);
  }

  // ------------------------------------------------------------- answers

  predicate Spelled(m: Medium) {
    IsWord(m.name) && IsWord(m.protocol) && AllWords(m.formats) && m.formats != [] && m.port < 0x1_0000
  }

  predicate AllSpelled(media: seq<Medium>) {
    forall i :: 0 <= i < |media| ==> Spelled(media[i])
  }

  lemma LineKeepsSpelling(s: Session, line: string, codec: IpCodec)
    requires AllSpelled(s.media)
    ensures OnLine(s, line, codec).Ok? ==> AllSpelled(OnLine(s, line, codec).value.media)
  {
    match SplitOnce(line, '=')
    case None =>
    case Some((key, value)) =>
      SplitsIntoWords(value);
      var parts := SplitWords(value);
      if |parts| >= 4 {
        assert AllWords(parts[3..]);
      }
  }

  lemma {:induction false} ParsedIsSpelled(s: Session, lines: seq<string>, codec: IpCodec)
    requires AllSpelled(s.media)
    ensures ParseLines(s, lines, codec).Ok? ==> AllSpelled(ParseLines(s, lines, codec).value.media)
    decreases |lines|
  {
    if lines != [] {
      LineKeepsSpelling(s, Trim(lines[0]), codec);
      match OnLine(s, Trim(lines[0]), codec)
      case Err(_) =>
      case Ok(next) => ParsedIsSpelled(next, lines[1..], codec);
    }
  }

  /** How the answer to one medium is read back. */
  function AnsweredMedium(local: LocalMedia, m: Medium, i: nat, selected: (nat, RemoteMedia)): Medium {
    if i != selected.0 then Medium(m.name, 0, m.protocol, m.formats, None, [])
    else match selected.1
    case RemoteAudio(_, _, g711) => AnsweredAudio(local, g711)
    case RemoteT38(_, _, _, bitRate) => PrintedT38(local, bitRate)
  }

  function AnsweredMedia(local: LocalMedia, media: seq<Medium>, n: nat, selected: (nat, RemoteMedia)): (r: seq<Medium>)
    requires n <= |media|
    ensures |r| == n && forall i :: 0 <= i < n ==> r[i] == AnsweredMedium(local, media[i], i, selected)
    decreases n
  {
    if n == 0 then [] else AnsweredMedia(local, media, n - 1, selected) + [AnsweredMedium(local, media[n - 1], n - 1, selected)]
  }

  lemma AnsweredMediumIsRead(s: Session, local: LocalMedia, m: Medium, i: nat, selected: (nat, RemoteMedia), codec: IpCodec)
    requires Spelled(m)
    ensures var lines := if i == selected.0 then SelectedLines(local, selected.1) else RefusedLines(m);
      && AllPrintable(lines)
      && ParseLines(s, lines, codec) == Ok(s.(media := s.media + [AnsweredMedium(local, m, i, selected)]))
  {
    if i != selected.0 {
      MediaLineIsRead(s, m.name, 0, m.protocol, m.formats, codec);
      OneLine(s, RefusedLines(m)[0], codec);
    } else {
      match selected.1
      case RemoteAudio(_, _, g711) => AnsweredAudioIsRead(s, local, g711, codec);
      case RemoteT38(_, _, _, bitRate) => T38IsRead(s, local, bitRate, codec);
    }
  }

  lemma {:induction false} AnswerLinesAreRead(local: LocalMedia, media: seq<Medium>, n: nat, selected: (nat, RemoteMedia), codec: IpCodec)
    requires AllSpelled(media) && n <= |media|
    ensures AllPrintable(AnswerLines(local, media, n, selected))
    ensures ParseLines(Session(Some(local.ip), []), AnswerLines(local, media, n, selected), codec)
      == Ok(Session(Some(local.ip), AnsweredMedia(local, media, n, selected)))
    decreases n
  {
    if n > 0 {
      AnswerLinesAreRead(local, media, n - 1, selected, codec);
      var before, after := AnsweredMedia(local, media, n - 1, selected), AnsweredMedia(local, media, n, selected);
      AnsweredMediumIsRead(Session(Some(local.ip), before), local, media[n - 1], n - 1, selected, codec);
      var lines := if n - 1 == selected.0 then SelectedLines(local, selected.1) else RefusedLines(media[n - 1]);
      ReadsOn(Session(Some(local.ip), []), AnswerLines(local, media, n - 1, selected), Session(Some(local.ip), before),
              lines, Session(Some(local.ip), after), codec);
    }
  }

  lemma ReadsOn(s: Session, a: seq<string>, t: Session, b: seq<string>, u: Session, codec: IpCodec)
    requires ParseLines(s, a, codec) == Ok(t) && ParseLines(t, b, codec) == Ok(u)
    requires AllPrintable(a) && AllPrintable(b)
    ensures ParseLines(s, a + b, codec) == Ok(u) && AllPrintable(a + b)
  {
    ParseJoins(s, a, b, codec);
  }

  lemma {:induction false} SelectedIsConsidered(s: Session, i: nat, allowAudio: bool, allowT38: bool)
    requires i <= |s.media| && SelectFrom(s, i, allowAudio, allowT38).Ok?
    ensures var (k, media) := SelectFrom(s, i, allowAudio, allowT38).value;
      i <= k < |s.media| && Consider(s.connection, s.media[k], allowAudio, allowT38) == Take(media)
    decreases |s.media| - i
  {
    if Consider(s.connection, s.media[i], allowAudio, allowT38).Skip? {
      SelectedIsConsidered(s, i + 1, allowAudio, allowT38);
    }
  }

  lemma TakenAudioFormats(ip: Ip, port: nat, formats: seq<string>)
    ensures var choice := ChooseAudio(ip, port, formats); choice.Skip? || (choice.Take? && choice.media.RemoteAudio?)
    decreases |formats|
  {
  }

  lemma TakenIsNamed(connection: Option<Ip>, m: Medium, allowAudio: bool, allowT38: bool)
    requires Consider(connection, m, allowAudio, allowT38).Take?
    ensures match Consider(connection, m, allowAudio, allowT38).media
      case RemoteAudio(_, _, _) => m.name == "audio" && allowAudio
      case RemoteT38(_, _, _, bitRate) => m.name == "image" && allowT38 && IsRate(bitRate)
  {
    var ip := if m.connection.Some? then m.connection else connection;
    TakenAudioFormats(ip.value, m.port, m.formats);
  }

  /** Our own medium of the selected kind, as the peer will see it. */
  function AnsweredRemote(local: LocalMedia, selected: RemoteMedia): RemoteMedia {
    match selected
    case RemoteAudio(_, _, g711) => RemoteAudio(local.ip, local.audioPort, g711)
    case RemoteT38(_, _, _, bitRate) => RemoteT38(local.ip, local.faxPort, 1200, bitRate)
  }

  function AnsweredPort(local: LocalMedia, selected: RemoteMedia): u16 {
    match selected case RemoteAudio(_, _, _) => local.audioPort case RemoteT38(_, _, _, _) => local.faxPort
  }

  lemma {:induction false} OnlyTheSelectedIsTaken(local: LocalMedia, media: seq<Medium>, i: nat, selected: (nat, RemoteMedia))
    requires i <= selected.0 < |media|
    requires selected.1.RemoteT38? ==> IsRate(selected.1.bitRate)
    ensures var s := Session(Some(local.ip), AnsweredMedia(local, media, |media|, selected));
      SelectFrom(s, i, true, true) == if Usable(local.ip) && AnsweredPort(local, selected.1) != 0
        then Ok((selected.0, AnsweredRemote(local, selected.1))) else Err(Incompatible)
    decreases selected.0 - i
  {
    var s := Session(Some(local.ip), AnsweredMedia(local, media, |media|, selected));
    if i < selected.0 {
      OnlyTheSelectedIsTaken(local, media, i + 1, selected);
    } else {
      match selected.1 {
        case RemoteAudio(_, _, g711) => AnsweredAudioIsConsidered(s.connection, local, g711);
        case RemoteT38(_, _, _, bitRate) => PrintedT38IsConsidered(s.connection, local, bitRate);
      }
      RestIsRefused(local, media, i + 1, selected);
    }
  }

  lemma {:induction false} RestIsRefused(local: LocalMedia, media: seq<Medium>, i: nat, selected: (nat, RemoteMedia))
    requires selected.0 < i <= |media|
    ensures SelectFrom(Session(Some(local.ip), AnsweredMedia(local, media, |media|, selected)), i, true, true) == Err(Incompatible)
    decreases |media| - i
  {
    if i < |media| {
      RestIsRefused(local, media, i + 1, selected);
    }
  }

  lemma AnswerIsParsed(local: LocalMedia, offer: string, allowAudio: bool, allowT38: bool, codec: IpCodec)
    requires Faithful(codec) && Answer(local, offer, allowAudio, allowT38, codec).Ok?
    ensures var media := Parse(offer, codec).value.media;
      var selected := Select(Parse(offer, codec).value, allowAudio, allowT38).value;
      Parse(Answer(local, offer, allowAudio, allowT38, codec).value, codec)
      == Ok(Session(Some(local.ip), AnsweredMedia(local, media, |media|, selected)))
  {
    var session := Parse(offer, codec).value;
    var selected := Select(session, allowAudio, allowT38).value;
    ParsedIsSpelled(Session(None, []), Lines(offer), codec);
    AnswerLinesAreRead(local, session.media, |session.media|, selected, codec);
    HeaderThen(local, AnswerLines(local, session.media, |session.media|, selected),
               Session(Some(local.ip), AnsweredMedia(local, session.media, |session.media|, selected)), codec);
  }

  /** Every offer that can be read and holds an acceptable medium is answered, and the
      answer reads back with as many media in the same order, all but the selected one
      refused by port zero. */
  lemma AnswerMirrorsTheOffer(local: LocalMedia, offer: string, allowAudio: bool, allowT38: bool, codec: IpCodec)
    requires Faithful(codec) && Parse(offer, codec).Ok? && Select(Parse(offer, codec).value, allowAudio, allowT38).Ok?
    ensures Answer(local, offer, allowAudio, allowT38, codec).Ok?
    ensures var offered := Parse(offer, codec).value.media;
      var (k, chosen) := Select(Parse(offer, codec).value, allowAudio, allowT38).value;
      var answered := Parse(Answer(local, offer, allowAudio, allowT38, codec).value, codec);
      && answered.Ok? && |answered.value.media| == |offered| && k < |offered|
      && (forall i :: 0 <= i < |offered| ==> answered.value.media[i].name == offered[i].name)
      && (forall i :: 0 <= i < |offered| && i != k ==>
        && answered.value.media[i].port == 0 && answered.value.media[i].formats == offered[i].formats
        && answered.value.media[i].protocol == offered[i].protocol)
      && answered.value.media[k].port == AnsweredPort(local, chosen)
  {
    var session := Parse(offer, codec).value;
    var selected := Select(session, allowAudio, allowT38).value;
    SelectedIsConsidered(session, 0, allowAudio, allowT38);
    TakenIsNamed(session.connection, session.media[selected.0], allowAudio, allowT38);
    AnswerIsParsed(local, offer, allowAudio, allowT38, codec);
  }

  /** The peer reads from our answer the kind, codec and bit rate we selected from its
      offer, exactly when our address is usable and the port not zero. */
  lemma AnswerIsUnderstood(local: LocalMedia, offer: string, allowAudio: bool, allowT38: bool, codec: IpCodec)
    requires Faithful(codec) && Parse(offer, codec).Ok? && Select(Parse(offer, codec).value, allowAudio, allowT38).Ok?
    ensures var chosen := Select(Parse(offer, codec).value, allowAudio, allowT38).value.1;
      Remote(Answer(local, offer, allowAudio, allowT38, codec).value, codec)
      == if Usable(local.ip) && AnsweredPort(local, chosen) != 0 then Ok(AnsweredRemote(local, chosen)) else Err(Incompatible)
  {
    var session := Parse(offer, codec).value;
    var selected := Select(session, allowAudio, allowT38).value;
    SelectedIsConsidered(session, 0, allowAudio, allowT38);
    TakenIsNamed(session.connection, session.media[selected.0], allowAudio, allowT38);
    AnswerIsParsed(local, offer, allowAudio, allowT38, codec);
    OnlyTheSelectedIsTaken(local, session.media, 0, selected);
  }
}
