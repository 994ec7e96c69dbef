/** The loops that read a description, choose from it and answer it. */
module Sdp {
  import opened Words
  import opened Text
  import opened Media
  import opened Addresses
  import opened SdpModel
  import Theorems = SdpTheorems

  method ReadSession(sdp: string, codec: IpCodec) returns (r: Result<Session>)
    ensures r == Parse(sdp, codec)
  {
    var lines := Lines(sdp);
    var session := Session(None, []);
    for i := 0 to |lines|
      invariant ParseLines(session, lines[i..], codec) == Parse(sdp, codec)
    {
      assert lines[i..][0] == lines[i] && lines[i..][1..] == lines[i + 1..];
      match OnLine(session, Trim(lines[i]), codec) {
        case Err(error) => return Err(error);
        case Ok(next) => session := next;
      }
    }
    assert lines[|lines|..] == [];
    r := Ok(session);
  }

  /** The first acceptable medium, in the peer's order. */
  method Choose(session: Session, allowAudio: bool, allowT38: bool) returns (r: Result<(nat, RemoteMedia)>)
    ensures r == Select(session, allowAudio, allowT38)
  {
    for i := 0 to |session.media|
      invariant SelectFrom(session, i, allowAudio, allowT38) == Select(session, allowAudio, allowT38)
    {
      match Consider(session.connection, session.media[i], allowAudio, allowT38) {
        case Take(media) => return Ok((i, media));
        case Fail(error) => return Err(error);
        case Skip =>
      }
    }
    r := Err(Incompatible);
  }

  /** One answer after another, in the order of the offer. */
  method WriteMedia(local: LocalMedia, media: seq<Medium>, selected: (nat, RemoteMedia)) returns (text: string)
    ensures text == Unlines(AnswerLines(local, media, |media|, selected))
  {
    text := "";
    for i := 0 to |media|
      invariant text == Unlines(AnswerLines(local, media, i, selected))
    {
      var lines := if i == selected.0 then SelectedLines(local, selected.1) else RefusedLines(media[i]);
      UnlinesJoins(AnswerLines(local, media, i, selected), lines);
      text := text + Unlines(lines);
    }
  }

  method WriteAnswer(local: LocalMedia, offer: string, allowAudio: bool, allowT38: bool, codec: IpCodec) returns (r: Result<string>)
    ensures r == Answer(local, offer, allowAudio, allowT38, codec)
  {
    var parsed := ReadSession(offer, codec);
    if parsed.Err? {
      return Err(parsed.error);
    }
    var choice := Choose(parsed.value, allowAudio, allowT38);
    if choice.Err? {
      return Err(choice.error);
    }
    var media := parsed.value.media;
    var answers := WriteMedia(local, media, choice.value);
    UnlinesJoins(HeaderLines(local, codec), AnswerLines(local, media, |media|, choice.value));
    r := Ok(Unlines(HeaderLines(local, codec)) + answers);
  }
}
