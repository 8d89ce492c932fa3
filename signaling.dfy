/**
 * The signaling messages of the TV receiver: what it sends to the relay
 * service (identify, answer, local candidate, pong) as JSON objects, and how it
 * routes a text frame it receives by its `type` field.
 */
module Signaling {
  import opened Wrappers
  import opened Json

  /** The build constants `Build.MODEL` and `Build.MANUFACTURER`, either of which may be null. */
  datatype Device = Device(model: Option<string>, manufacturer: Option<string>)

  /** An ICE candidate produced by the engine; its media-line id may be null. */
  datatype LocalCandidate = LocalCandidate(sdpMid: Option<string>, sdpMLineIndex: Int32, sdp: string)

  /** An ICE candidate as built from a received message and handed to the engine. */
  datatype RemoteCandidate = RemoteCandidate(sdpMid: string, sdpMLineIndex: Int32, sdp: string)

  /** A message the receiver sends on the signaling socket. */
  datatype OutMsg =
    | Identify(device: Device)
    | Answer(sdp: string)
    | CandidateMsg(candidate: LocalCandidate)
    | Pong

  const UNKNOWN: string := "unknown"

  /** The JSON object sent for each outbound message. */
  function Encode(m: OutMsg): (o: Object)
    ensures "type" in o && o["type"].Str?
  {
    match m
    case Identify(d) =>
      map["type" := Str("identify"), "role" := Str("receiver"), "platform" := Str("android-tv"),
          "model" := Str(d.model.UnwrapOr(UNKNOWN)),
          "manufacturer" := Str(d.manufacturer.UnwrapOr(UNKNOWN))]
    case Answer(sdp) =>
      map["type" := Str("answer"), "sdp" := Str(sdp)]
    case CandidateMsg(c) =>
      var o := map["type" := Str("candidate"), "candidate" := Str(c.sdp)];
      PutOpt(o, "sdpMid", c.sdpMid)["sdpMLineIndex" := Num(c.sdpMLineIndex)]
    case Pong =>
      map["type" := Str("pong")]
  }

  /** A received text frame: a JSON object, or text that is not one. */
  datatype Inbound = Parsed(obj: Object) | Malformed

  /** What the receiver does with a received frame. */
  datatype Route =
    | RouteOffer(sdp: string)
    | RouteCandidate(candidate: RemoteCandidate)
    | RoutePing
    | RouteNone
    | RouteError

  /**
   * The fields of a received candidate, each read leniently: a missing line
   * or media-line id reads as "", a missing index as 0, and text and
   * in-range numbers are taken as they are.
   */
  function ReadCandidate(o: Object): (c: RemoteCandidate)
    ensures "candidate" !in o ==> c.sdp == ""
    ensures "sdpMid" !in o ==> c.sdpMid == ""
    ensures "sdpMLineIndex" !in o ==> c.sdpMLineIndex == 0
    ensures "candidate" in o && o["candidate"].Str? ==> c.sdp == o["candidate"].s
    ensures "sdpMid" in o && o["sdpMid"].Str? ==> c.sdpMid == o["sdpMid"].s
    ensures "sdpMLineIndex" in o && o["sdpMLineIndex"].Num? && INT32_MIN <= o["sdpMLineIndex"].n <= INT32_MAX ==>
      c.sdpMLineIndex == o["sdpMLineIndex"].n
  {
    RemoteCandidate(OptString(o, "sdpMid"), OptInt(o, "sdpMLineIndex"), OptString(o, "candidate"))
  }

  /**
   * Routes a frame on its `type` field; an unparseable frame is the only
   * error, and an object with any other type, or none, is ignored.
   */
  function Dispatch(m: Inbound): (r: Route)
    ensures r.RouteError? <==> m.Malformed?
    ensures r.RouteNone? <==> m.Parsed? && OptString(m.obj, "type") !in {"offer", "candidate", "ping"}
    ensures m.Parsed? && OptString(m.obj, "type") == "offer" ==> r == RouteOffer(OptString(m.obj, "sdp"))
    ensures m.Parsed? && OptString(m.obj, "type") == "candidate" ==> r == RouteCandidate(ReadCandidate(m.obj))
    ensures m.Parsed? && OptString(m.obj, "type") == "ping" ==> r == RoutePing
  {
    match m
    case Malformed => RouteError
    case Parsed(o) =>
      var t := OptString(o, "type");
      if t == "offer" then RouteOffer(OptString(o, "sdp"))
      else if t == "candidate" then RouteCandidate(ReadCandidate(o))
      else if t == "ping" then RoutePing
      else RouteNone
  }

  /**
   * A candidate the receiver sends is routed, when read back by the same
   * code, as a candidate with the same line, the same index, and the same
   * media-line id (a null id reads as "").
   */
  lemma CandidateRoundTrip(c: LocalCandidate)
    ensures Dispatch(Parsed(Encode(CandidateMsg(c))))
         == RouteCandidate(RemoteCandidate(c.sdpMid.UnwrapOr(""), c.sdpMLineIndex, c.sdp))
  {
    var o := Encode(CandidateMsg(c));
    assert o["type"] == Str("candidate");
    assert o["candidate"] == Str(c.sdp);
    assert o["sdpMLineIndex"] == Num(c.sdpMLineIndex);
    assert c.sdpMid.Some? ==> o["sdpMid"] == Str(c.sdpMid.value);
  }

  /**
   * The identify message carries the receiver role, the platform name, and
   * the device model and manufacturer, each "unknown" when the platform gives none.
   */
  lemma IdentifyFields(d: Device)
    ensures var o := Encode(Identify(d));
      && o.Keys == {"type", "role", "platform", "model", "manufacturer"}
      && OptString(o, "type") == "identify"
      && OptString(o, "role") == "receiver"
      && OptString(o, "platform") == "android-tv"
      && OptString(o, "model") == (if d.model.Some? then d.model.value else UNKNOWN)
      && OptString(o, "manufacturer") == (if d.manufacturer.Some? then d.manufacturer.value else UNKNOWN)
  {
  }

  /** The answer message carries exactly its type and the SDP text. */
  lemma AnswerFields(sdp: string)
    ensures var o := Encode(Answer(sdp));
      o.Keys == {"type", "sdp"} && OptString(o, "type") == "answer" && OptString(o, "sdp") == sdp
  {
  }

  /** The pong message carries its type and nothing else. */
  lemma PongFields()
    ensures Encode(Pong) == map["type" := Str("pong")]
  {
  }

  /**
   * Identify, answer and pong messages, were they echoed back to the
   * receiver, would be ignored: only offers, candidates and pings are acted on.
   */
  lemma OwnMessagesIgnored(m: OutMsg)
    requires !m.CandidateMsg?
    ensures Dispatch(Parsed(Encode(m))) == RouteNone
  {
  }

  /**
   * The type tag of an outbound message determines its kind: distinct kinds
   * never share a tag.
   */
  lemma TypeTagsDistinct(m1: OutMsg, m2: OutMsg)
    requires OptString(Encode(m1), "type") == OptString(Encode(m2), "type")
    ensures m1.Identify? == m2.Identify? && m1.Answer? == m2.Answer?
    ensures m1.CandidateMsg? == m2.CandidateMsg? && m1.Pong? == m2.Pong?
  {
  }
}
