/**
 * The connection-lifecycle state machine of the receiver's WebRTC client, as
 * values. A state holds whether a signaling socket is held, whether a peer
 * connection exists, the SDP observers the engine has yet to call back, and
 * one ordered trace of everything that crossed the client's boundary:
 * listener callbacks, frames the socket accepted, socket closes, calls into
 * the media engine and the engine's SDP completions. The outbox and the
 * listener's event stream are the `Sent` and `Notify` entries of the trace.
 *
 * There is one function per operation of the client; the class in module
 * Client runs the same operations in place and is proved against these.
 */
module Session {
  import opened Wrappers
  import opened Json
  import opened Signaling

  /** The status reported to the listener. */
  datatype Status = Connecting | Connected | Disconnected

  /** Why the listener's `onError` was called. */
  datatype ErrorKind = InvalidMessage | SocketFailure | IdentifyNotSent | AnswerNotSent

  /** A listener callback. */
  datatype Event = StatusChanged(status: Status) | Error(kind: ErrorKind)

  /** A call into the media engine. */
  datatype EngineCall =
    | CreatePeer(created: bool)        // the factory may return null
    | SetRemote(offer: string)
    | CreateAnswer
    | SetLocal(answer: string)
    | AddCandidate(candidate: RemoteCandidate)
    | Dispose

  /** The SDP observer passed with each asynchronous engine call. */
  datatype SdpObserver =
    | SetRemoteObserver(offer: string)
    | CreateAnswerObserver
    | SetLocalObserver(answer: string)

  /** How the engine calls an SDP observer back. */
  datatype SdpResult = SetSuccess | CreateSuccess(sdp: string) | SetFailure(error: string) | CreateFailure(error: string)

  /** One entry of the trace. */
  datatype Obs =
    | Notify(event: Event)
    | Sent(msg: OutMsg)
    | Close(code: int, reason: string)
    | Call(call: EngineCall)
    | Completed(observer: SdpObserver, result: SdpResult)

  datatype State = State(socketHeld: bool, peerExists: bool, trace: seq<Obs>, awaiting: seq<SdpObserver>)

  /** Close code and reason used by `disconnect`. */
  const NORMAL_CLOSURE_STATUS: int := 1000
  const CLOSE_REASON: string := "client closing"

  const Initial: State := State(false, false, [], [])

  /** A status report to the listener. */
  function Report(st: Status): Obs {
    Notify(StatusChanged(st))
  }

  function Log(s: State, x: Obs): State {
    s.(trace := s.trace + [x])
  }

  // ---------------------------------------------------------------------------
  // Operations

  /** `ensurePeerConnection`: asks the factory for a peer connection only when none exists. */
  function EnsurePeerConnection(s: State, created: bool): (r: State)
    ensures s.peerExists ==> r == s
    ensures !s.peerExists ==> r.trace == s.trace + [Call(CreatePeer(created))]
    ensures r.peerExists == (s.peerExists || created)
    ensures r.socketHeld == s.socketHeld && r.awaiting == s.awaiting
  {
    if s.peerExists then s
    else Log(s, Call(CreatePeer(created))).(peerExists := created)
  }

  /**
   * `connect`: a no-op while a socket is held; otherwise reports CONNECTING
   * once, makes sure a peer connection exists, and leaves a socket held.
   */
  function Connect(s: State, created: bool): (r: State)
    ensures s.socketHeld ==> r == s
    ensures !s.socketHeld ==>
      && r.socketHeld
      && r.peerExists == (s.peerExists || created)
      && r.trace == s.trace + [Report(Connecting)] + (if s.peerExists then [] else [Call(CreatePeer(created))])
      && r.awaiting == s.awaiting
  {
    if s.socketHeld then s
    else EnsurePeerConnection(Log(s, Report(Connecting)), created).(socketHeld := true)
  }

  /**
   * `disconnect`: closes a held socket with code 1000, forgets it and
   * reports DISCONNECTED, whether or not a socket was held. The peer
   * connection is left alone.
   */
  function Disconnect(s: State): (r: State)
    ensures !r.socketHeld && r.peerExists == s.peerExists && r.awaiting == s.awaiting
    ensures r.trace == s.trace
      + (if s.socketHeld then [Close(NORMAL_CLOSURE_STATUS, CLOSE_REASON)] else [])
      + [Report(Disconnected)]
  {
    var c := if s.socketHeld then Log(s, Close(NORMAL_CLOSURE_STATUS, CLOSE_REASON)) else s;
    Log(c, Report(Disconnected)).(socketHeld := false)
  }

  /**
   * `release`: disconnects, then disposes the peer connection if there is
   * one, and leaves neither a socket nor a peer connection.
   */
  function Release(s: State): (r: State)
    ensures !r.socketHeld && !r.peerExists && r.awaiting == s.awaiting
    ensures r.trace == Disconnect(s).trace + (if s.peerExists then [Call(Dispose)] else [])
  {
    var d := Disconnect(s);
    if d.peerExists then Log(d, Call(Dispose)).(peerExists := false) else d
  }

  /**
   * `sendIdentify`: sends the identify message on the held socket; when there
   * is no socket or the socket refuses it, reports an error instead.
   */
  function SendIdentify(s: State, device: Device, accepted: bool): (r: State)
    ensures r.socketHeld == s.socketHeld && r.peerExists == s.peerExists && r.awaiting == s.awaiting
    ensures s.socketHeld && accepted ==> r.trace == s.trace + [Sent(Identify(device))]
    ensures !(s.socketHeld && accepted) ==> r.trace == s.trace + [Notify(Error(IdentifyNotSent))]
  {
    if s.socketHeld && accepted then Log(s, Sent(Identify(device)))
    else Log(s, Notify(Error(IdentifyNotSent)))
  }

  /**
   * `onOpen`: reports CONNECTED, then sends exactly one identify message or,
   * failing that, reports exactly one error.
   */
  function OnOpen(s: State, device: Device, accepted: bool): (r: State)
    ensures r.socketHeld == s.socketHeld && r.peerExists == s.peerExists && r.awaiting == s.awaiting
    ensures r.trace == s.trace + [Report(Connected),
      if s.socketHeld && accepted then Sent(Identify(device)) else Notify(Error(IdentifyNotSent))]
  {
    SendIdentify(Log(s, Report(Connected)), device, accepted)
  }

  /**
   * `handleRemoteOffer`: ignores an empty SDP; otherwise makes sure a peer
   * connection exists and, if it does, starts `setRemoteDescription` with the
   * offer.
   */
  function HandleRemoteOffer(s: State, sdp: string, created: bool): (r: State)
    ensures sdp == "" ==> r == s
    ensures sdp != "" ==>
      && r.socketHeld == s.socketHeld
      && r.peerExists == (s.peerExists || created)
      && r.trace == s.trace
           + (if s.peerExists then [] else [Call(CreatePeer(created))])
           + (if r.peerExists then [Call(SetRemote(sdp))] else [])
      && r.awaiting == s.awaiting + (if r.peerExists then [SetRemoteObserver(sdp)] else [])
  {
    if sdp == "" then s
    else
      var p := EnsurePeerConnection(s, created);
      if p.peerExists then
        Log(p, Call(SetRemote(sdp))).(awaiting := p.awaiting + [SetRemoteObserver(sdp)])
      else p
  }

  /**
   * `handleRemoteCandidate`: ignores a candidate with an empty candidate line;
   * otherwise hands it straight to the peer connection, if one exists. Nothing
   * is queued.
   */
  function HandleRemoteCandidate(s: State, c: RemoteCandidate): (r: State)
    ensures r.socketHeld == s.socketHeld && r.peerExists == s.peerExists && r.awaiting == s.awaiting
    ensures r.trace == s.trace + (if c.sdp != "" && s.peerExists then [Call(AddCandidate(c))] else [])
  {
    if c.sdp == "" || !s.peerExists then s else Log(s, Call(AddCandidate(c)))
  }

  /** Some entry that `t` has beyond its prefix of length `n` is a status report. */
  predicate ReportsStatus(n: nat, t: seq<Obs>) {
    exists k :: n <= k < |t| && t[k].Notify? && t[k].event.StatusChanged?
  }

  /**
   * `onMessage`: routes a frame. An offer or a candidate goes to its handler;
   * a ping is answered with exactly one pong on the socket it came on; an
   * unparseable frame is reported as exactly one error; anything else is
   * ignored. No frame ever changes the reported status or the socket.
   */
  function OnMessage(s: State, m: Inbound, accepted: bool, created: bool): (r: State)
    ensures r.socketHeld == s.socketHeld
    ensures |s.trace| <= |r.trace| && r.trace[..|s.trace|] == s.trace && !ReportsStatus(|s.trace|, r.trace)
    ensures m.Malformed? ==> r == Log(s, Notify(Error(InvalidMessage)))
    ensures Dispatch(m).RoutePing? ==> r == if accepted then Log(s, Sent(Pong)) else s
    ensures Dispatch(m).RouteNone? ==> r == s
    ensures Dispatch(m).RouteOffer? ==> r == HandleRemoteOffer(s, Dispatch(m).sdp, created)
    ensures Dispatch(m).RouteCandidate? ==> r == HandleRemoteCandidate(s, Dispatch(m).candidate)
  {
    match Dispatch(m)
    case RouteOffer(sdp) => HandleRemoteOffer(s, sdp, created)
    case RouteCandidate(c) => HandleRemoteCandidate(s, c)
    case RoutePing => if accepted then Log(s, Sent(Pong)) else s
    case RouteNone => s
    case RouteError => Log(s, Notify(Error(InvalidMessage)))
  }

  /** `onClosed`: reports DISCONNECTED and forgets the socket, whichever socket closed. */
  function OnClosed(s: State): (r: State)
    ensures !r.socketHeld && r.peerExists == s.peerExists && r.awaiting == s.awaiting
    ensures r.trace == s.trace + [Report(Disconnected)]
  {
    Log(s, Report(Disconnected)).(socketHeld := false)
  }

  /**
   * `onFailure`: reports the error, then DISCONNECTED, and forgets the
   * socket, whichever socket failed.
   */
  function OnFailure(s: State): (r: State)
    ensures !r.socketHeld && r.peerExists == s.peerExists && r.awaiting == s.awaiting
    ensures r.trace == s.trace + [Notify(Error(SocketFailure)), Report(Disconnected)]
  {
    Log(Log(s, Notify(Error(SocketFailure))), Report(Disconnected)).(socketHeld := false)
  }

  /**
   * `sendLocalCandidate` (from the engine's `onIceCandidate`): sends the
   * candidate on the held socket at once, whatever the state of the
   * negotiation; a refused send is ignored.
   */
  function SendLocalCandidate(s: State, c: LocalCandidate, accepted: bool): (r: State)
    ensures r.socketHeld == s.socketHeld && r.peerExists == s.peerExists && r.awaiting == s.awaiting
    ensures r.trace == s.trace + (if s.socketHeld && accepted then [Sent(CandidateMsg(c))] else [])
  {
    if s.socketHeld && accepted then Log(s, Sent(CandidateMsg(c))) else s
  }

  /**
   * `createAnswer`: asks a live peer connection for an answer, passing the
   * observer that will be called back; without one, nothing happens.
   */
  function CreateAnswerStep(s: State): (r: State)
    ensures r.socketHeld == s.socketHeld && r.peerExists == s.peerExists
    ensures s.peerExists ==> r.trace == s.trace + [Call(CreateAnswer)] && r.awaiting == s.awaiting + [CreateAnswerObserver]
    ensures !s.peerExists ==> r == s
  {
    if s.peerExists then Log(s, Call(CreateAnswer)).(awaiting := s.awaiting + [CreateAnswerObserver]) else s
  }

  /**
   * The createAnswer observer's `onCreateSuccess`: sets the created answer as
   * local description of a live peer connection; without one, nothing happens.
   */
  function SetLocalStep(s: State, answer: string): (r: State)
    ensures r.socketHeld == s.socketHeld && r.peerExists == s.peerExists
    ensures s.peerExists ==>
      r.trace == s.trace + [Call(SetLocal(answer))] && r.awaiting == s.awaiting + [SetLocalObserver(answer)]
    ensures !s.peerExists ==> r == s
  {
    if s.peerExists then Log(s, Call(SetLocal(answer))).(awaiting := s.awaiting + [SetLocalObserver(answer)]) else s
  }

  /** `sendAnswer`: sends the answer on the held socket, or reports an error. */
  function SendAnswer(s: State, answer: string, accepted: bool): (r: State)
    ensures r.socketHeld == s.socketHeld && r.peerExists == s.peerExists && r.awaiting == s.awaiting
    ensures s.socketHeld && accepted ==> r.trace == s.trace + [Sent(Answer(answer))]
    ensures !(s.socketHeld && accepted) ==> r.trace == s.trace + [Notify(Error(AnswerNotSent))]
  {
    if s.socketHeld && accepted then Log(s, Sent(Answer(answer)))
    else Log(s, Notify(Error(AnswerNotSent)))
  }

  function RemoveAt<T>(q: seq<T>, i: nat): (r: seq<T>)
    requires i < |q|
    ensures |r| == |q| - 1
    ensures forall x :: x in r ==> x in q
  {
    q[..i] + q[i + 1..]
  }

  /**
   * Whether an observer overrides the callback it receives: the set-remote
   * and set-local observers override `onSetSuccess`, the create-answer
   * observer `onCreateSuccess`. Every other callback is the base observer's,
   * which only logs.
   */
  predicate Continues(o: SdpObserver, result: SdpResult) {
    || (o.SetRemoteObserver? && result == SetSuccess)
    || (o == CreateAnswerObserver && result.CreateSuccess?)
    || (o.SetLocalObserver? && result == SetSuccess)
  }

  /**
   * What an observer does when the engine calls it back: a set-remote
   * success starts `createAnswer`, a create success sets the created answer
   * as local description, and a set-local success sends that answer. Any
   * other callback changes nothing.
   */
  function React(t: State, o: SdpObserver, result: SdpResult, accepted: bool): (r: State)
    ensures r.socketHeld == t.socketHeld && r.peerExists == t.peerExists
    ensures !Continues(o, result) ==> r == t
    ensures o.SetRemoteObserver? && result == SetSuccess ==>
      && r.trace == t.trace + (if t.peerExists then [Call(CreateAnswer)] else [])
      && r.awaiting == t.awaiting + (if t.peerExists then [CreateAnswerObserver] else [])
    ensures o == CreateAnswerObserver && result.CreateSuccess? ==>
      && r.trace == t.trace + (if t.peerExists then [Call(SetLocal(result.sdp))] else [])
      && r.awaiting == t.awaiting + (if t.peerExists then [SetLocalObserver(result.sdp)] else [])
    ensures o.SetLocalObserver? && result == SetSuccess ==>
      && r.trace == t.trace + [if t.socketHeld && accepted then Sent(Answer(o.answer)) else Notify(Error(AnswerNotSent))]
      && r.awaiting == t.awaiting
  {
    match (o, result)
    case (SetRemoteObserver(_), SetSuccess) => CreateAnswerStep(t)
    case (CreateAnswerObserver, CreateSuccess(d)) => SetLocalStep(t, d)
    case (SetLocalObserver(d), SetSuccess) => SendAnswer(t, d, accepted)
    case _ => t
  }

  /**
   * The engine calls back the `i`-th outstanding SDP observer: the
   * completion is recorded and the observer retired, whatever the result;
   * then the observer continues the chain by at most one step. A failure is
   * only logged: no engine call, no answer, no status report and no error
   * reaches the listener.
   */
  function OnSdpResult(s: State, i: nat, result: SdpResult, accepted: bool): (r: State)
    requires i < |s.awaiting|
    ensures r.socketHeld == s.socketHeld && r.peerExists == s.peerExists
    ensures var o := s.awaiting[i];
      r.awaiting == RemoveAt(s.awaiting, i) +
        if s.peerExists && o.SetRemoteObserver? && result == SetSuccess then [CreateAnswerObserver]
        else if s.peerExists && o == CreateAnswerObserver && result.CreateSuccess? then [SetLocalObserver(result.sdp)]
        else []
    ensures var o := s.awaiting[i];
      r.trace == s.trace + [Completed(o, result)] +
        if s.peerExists && o.SetRemoteObserver? && result == SetSuccess then [Call(CreateAnswer)]
        else if s.peerExists && o == CreateAnswerObserver && result.CreateSuccess? then [Call(SetLocal(result.sdp))]
        else if o.SetLocalObserver? && result == SetSuccess then
          [if s.socketHeld && accepted then Sent(Answer(o.answer)) else Notify(Error(AnswerNotSent))]
        else []
    ensures !Continues(s.awaiting[i], result) ==>
      r == s.(trace := s.trace + [Completed(s.awaiting[i], result)], awaiting := RemoveAt(s.awaiting, i))
  {
    var o := s.awaiting[i];
    var t := Log(s, Completed(o, result)).(awaiting := RemoveAt(s.awaiting, i));
    React(t, o, result, accepted)
  }

  // ---------------------------------------------------------------------------
  // Driving the client

  /** Everything that can happen to the client, with the environment's choices. */
  datatype Input =
    | ConnectCalled(created: bool)
    | DisconnectCalled
    | ReleaseCalled
    | SocketOpened(device: Device, accepted: bool)
    | MessageReceived(msg: Inbound, accepted: bool, created: bool)
    | SocketClosed
    | SocketFailed
    | CandidateGathered(candidate: LocalCandidate, accepted: bool)
    | SdpCompleted(index: nat, result: SdpResult, accepted: bool)

  /**
   * One input. An SDP completion naming no outstanding observer is not
   * something the engine can deliver and leaves the state as it is.
   */
  function Step(s: State, input: Input): State {
    match input
    case ConnectCalled(created) => Connect(s, created)
    case DisconnectCalled => Disconnect(s)
    case ReleaseCalled => Release(s)
    case SocketOpened(device, accepted) => OnOpen(s, device, accepted)
    case MessageReceived(m, accepted, created) => OnMessage(s, m, accepted, created)
    case SocketClosed => OnClosed(s)
    case SocketFailed => OnFailure(s)
    case CandidateGathered(c, accepted) => SendLocalCandidate(s, c, accepted)
    case SdpCompleted(i, result, accepted) =>
      if i < |s.awaiting| then OnSdpResult(s, i, result, accepted) else s
  }

  function Run(s: State, inputs: seq<Input>): State
    decreases |inputs|
  {
    if inputs == [] then s else Run(Step(s, inputs[0]), inputs[1..])
  }

  // ---------------------------------------------------------------------------
  // The invariant

  /** The number of peer connections created and not yet disposed. */
  function LivePeers(t: seq<Obs>): nat {
    if t == [] then 0
    else
      var n := LivePeers(t[..|t| - 1]);
      match t[|t| - 1]
      case Call(CreatePeer(true)) => n + 1
      case Call(Dispose) => if n == 0 then 0 else n - 1
      case _ => n
  }

  lemma LivePeersAppend(t: seq<Obs>, x: Obs)
    ensures LivePeers(t + [x]) == match x
      case Call(CreatePeer(true)) => LivePeers(t) + 1
      case Call(Dispose) => if LivePeers(t) == 0 then 0 else LivePeers(t) - 1
      case _ => LivePeers(t)
  {
    assert (t + [x])[..|t|] == t;
  }

  function Last<T>(q: seq<T>): T
    requires q != []
  {
    q[|q| - 1]
  }

  /** The engine call an observer was passed with. */
  function CallOf(o: SdpObserver): EngineCall {
    match o
    case SetRemoteObserver(sdp) => SetRemote(sdp)
    case CreateAnswerObserver => CreateAnswer
    case SetLocalObserver(d) => SetLocal(d)
  }

  /**
   * What may be appended to a trace `t`: a peer connection is created only
   * when none is live, every other engine call goes to a live one, empty
   * offers and candidate lines never reach the engine, each step of the SDP
   * chain directly follows the success of the step before it, and the engine
   * completes only operations that were started.
   */
  predicate Admissible(t: seq<Obs>, x: Obs) {
    && (x.Call? && x.call.CreatePeer? ==> LivePeers(t) == 0)
    && (x.Call? && !x.call.CreatePeer? ==> LivePeers(t) == 1)
    && match x
       case Call(SetRemote(sdp)) => sdp != ""
       case Call(AddCandidate(c)) => c.sdp != ""
       case Call(CreateAnswer) =>
         t != [] && Last(t).Completed? && Last(t).observer.SetRemoteObserver? && Last(t).result == SetSuccess
       case Call(SetLocal(d)) => t != [] && Last(t) == Completed(CreateAnswerObserver, CreateSuccess(d))
       case Sent(Answer(d)) => t != [] && Last(t) == Completed(SetLocalObserver(d), SetSuccess)
       case Completed(o, _) => Call(CallOf(o)) in t
       case _ => true
  }

  /** Every entry of the trace was admissible when it was appended. */
  predicate WellFormed(t: seq<Obs>) {
    t == [] || (WellFormed(t[..|t| - 1]) && Admissible(t[..|t| - 1], Last(t)))
  }

  ghost predicate Valid(s: State) {
    && WellFormed(s.trace)
    && LivePeers(s.trace) == (if s.peerExists then 1 else 0)
    && (forall o :: o in s.awaiting ==> Call(CallOf(o)) in s.trace)
  }

  lemma Extend(t: seq<Obs>, x: Obs)
    requires WellFormed(t) && Admissible(t, x)
    ensures WellFormed(t + [x])
  {
    assert (t + [x])[..|t|] == t;
  }

  /**
   * Logging an admissible entry that neither creates nor disposes a peer
   * connection keeps the invariant.
   */
  lemma LogKeeps(s: State, x: Obs)
    requires Valid(s) && Admissible(s.trace, x)
    requires !(x.Call? && (x.call.CreatePeer? || x.call.Dispose?))
    ensures Valid(Log(s, x))
  {
    Extend(s.trace, x);
    LivePeersAppend(s.trace, x);
  }

  lemma EnsurePeerConnectionKeeps(s: State, created: bool)
    requires Valid(s)
    ensures Valid(EnsurePeerConnection(s, created))
  {
    if !s.peerExists {
      Extend(s.trace, Call(CreatePeer(created)));
      LivePeersAppend(s.trace, Call(CreatePeer(created)));
    }
  }

  lemma ConnectKeeps(s: State, created: bool)
    requires Valid(s)
    ensures Valid(Connect(s, created))
  {
    if !s.socketHeld {
      LogKeeps(s, Report(Connecting));
      EnsurePeerConnectionKeeps(Log(s, Report(Connecting)), created);
    }
  }

  lemma DisconnectKeeps(s: State)
    requires Valid(s)
    ensures Valid(Disconnect(s))
  {
    var c := if s.socketHeld then Log(s, Close(NORMAL_CLOSURE_STATUS, CLOSE_REASON)) else s;
    if s.socketHeld { LogKeeps(s, Close(NORMAL_CLOSURE_STATUS, CLOSE_REASON)); }
    LogKeeps(c, Report(Disconnected));
  }

  lemma ReleaseKeeps(s: State)
    requires Valid(s)
    ensures Valid(Release(s))
  {
    DisconnectKeeps(s);
    var d := Disconnect(s);
    if d.peerExists {
      Extend(d.trace, Call(Dispose));
      LivePeersAppend(d.trace, Call(Dispose));
    }
  }

  lemma OnOpenKeeps(s: State, device: Device, accepted: bool)
    requires Valid(s)
    ensures Valid(OnOpen(s, device, accepted))
  {
    var c := Log(s, Report(Connected));
    LogKeeps(s, Report(Connected));
    if c.socketHeld && accepted {
      LogKeeps(c, Sent(Identify(device)));
    } else {
      LogKeeps(c, Notify(Error(IdentifyNotSent)));
    }
  }

  lemma OnMessageKeeps(s: State, m: Inbound, accepted: bool, created: bool)
    requires Valid(s)
    ensures Valid(OnMessage(s, m, accepted, created))
  {
    match Dispatch(m)
    case RouteOffer(sdp) =>
      if sdp != "" {
        EnsurePeerConnectionKeeps(s, created);
        var p := EnsurePeerConnection(s, created);
        if p.peerExists {
          LogKeeps(p, Call(SetRemote(sdp)));
        }
      }
    case RouteCandidate(c) =>
      if c.sdp != "" && s.peerExists { LogKeeps(s, Call(AddCandidate(c))); }
    case RoutePing =>
      if accepted { LogKeeps(s, Sent(Pong)); }
    case RouteNone =>
    case RouteError =>
      LogKeeps(s, Notify(Error(InvalidMessage)));
  }

  lemma OnFailureKeeps(s: State)
    requires Valid(s)
    ensures Valid(OnFailure(s))
  {
    LogKeeps(s, Notify(Error(SocketFailure)));
    LogKeeps(Log(s, Notify(Error(SocketFailure))), Report(Disconnected));
  }

  lemma ReactKeeps(t: State, o: SdpObserver, result: SdpResult, accepted: bool)
    requires Valid(t) && t.trace != [] && Last(t.trace) == Completed(o, result)
    ensures Valid(React(t, o, result, accepted))
  {
    match (o, result)
    case (SetRemoteObserver(_), SetSuccess) =>
      if t.peerExists { LogKeeps(t, Call(CreateAnswer)); }
    case (CreateAnswerObserver, CreateSuccess(d)) =>
      if t.peerExists { LogKeeps(t, Call(SetLocal(d))); }
    case (SetLocalObserver(d), SetSuccess) =>
      if t.socketHeld && accepted { LogKeeps(t, Sent(Answer(d))); }
      else { LogKeeps(t, Notify(Error(AnswerNotSent))); }
    case _ =>
  }

  lemma OnSdpResultKeeps(s: State, i: nat, result: SdpResult, accepted: bool)
    requires Valid(s) && i < |s.awaiting|
    ensures Valid(OnSdpResult(s, i, result, accepted))
  {
    var o := s.awaiting[i];
    assert o in s.awaiting;
    LogKeeps(s, Completed(o, result));
    var t := Log(s, Completed(o, result)).(awaiting := RemoveAt(s.awaiting, i));
    assert Valid(t);
    ReactKeeps(t, o, result, accepted);
  }

  /** Every operation keeps the invariant. */
  lemma StepKeeps(s: State, input: Input)
    requires Valid(s)
    ensures Valid(Step(s, input))
  {
    match input
    case ConnectCalled(created) => ConnectKeeps(s, created);
    case DisconnectCalled => DisconnectKeeps(s);
    case ReleaseCalled => ReleaseKeeps(s);
    case SocketOpened(device, accepted) => OnOpenKeeps(s, device, accepted);
    case MessageReceived(m, accepted, created) => OnMessageKeeps(s, m, accepted, created);
    case SocketClosed => LogKeeps(s, Report(Disconnected));
    case SocketFailed => OnFailureKeeps(s);
    case CandidateGathered(c, accepted) => if s.socketHeld && accepted { LogKeeps(s, Sent(CandidateMsg(c))); }
    case SdpCompleted(i, result, accepted) => if i < |s.awaiting| { OnSdpResultKeeps(s, i, result, accepted); }
  }

  /** Any sequence of inputs keeps the invariant. */
  lemma {:induction false} RunKeeps(s: State, inputs: seq<Input>)
    requires Valid(s)
    ensures Valid(Run(s, inputs))
    decreases |inputs|
  {
    if inputs != [] {
      StepKeeps(s, inputs[0]);
      RunKeeps(Step(s, inputs[0]), inputs[1..]);
    }
  }

  // ---------------------------------------------------------------------------
  // What the invariant gives

  /**
   * Whatever happens to a new client, at most one peer connection is live at
   * any time, `peerConnection` is non-null exactly when one is, and every
   * outstanding observer belongs to a call that was made.
   */
  lemma {:induction false} AtMostOnePeer(inputs: seq<Input>)
    ensures LivePeers(Run(Initial, inputs).trace) <= 1
    ensures Run(Initial, inputs).peerExists <==> LivePeers(Run(Initial, inputs).trace) == 1
    ensures WellFormed(Run(Initial, inputs).trace)
  {
    RunKeeps(Initial, inputs);
  }

  /** Every entry of a well-formed trace was admissible where it stands. */
  lemma {:induction false} AdmissibleAt(t: seq<Obs>, k: nat)
    requires WellFormed(t) && k < |t|
    ensures Admissible(t[..k], t[k])
    decreases |t|
  {
    if k < |t| - 1 {
      var p := t[..|t| - 1];
      AdmissibleAt(p, k);
      assert p[..k] == t[..k];
    }
  }

  /** An entry found in a prefix is found at an index before the prefix ends. */
  lemma FindIn(t: seq<Obs>, k: nat, x: Obs) returns (j: nat)
    requires k <= |t| && x in t[..k]
    ensures j < k && t[j] == x
  {
    var p := t[..k];
    j :| 0 <= j < |p| && p[j] == x;
  }

  /**
   * Every answer the receiver sends completes the SDP chain in order: a
   * non-empty offer was set as remote description, that succeeded, an answer
   * was created right after, its creation succeeded with this very SDP, it
   * was set as local description right after, and that succeeded just before
   * the send.
   */
  lemma AnswerFollowsChain(t: seq<Obs>, k: nat) returns (f: nat, g: nat, h: nat, i: nat, j: nat)
    requires WellFormed(t) && k < |t| && t[k].Sent? && t[k].msg.Answer?
    ensures f < g && h == g + 1 && h < i && j == i + 1 && j < k - 1
    ensures t[f].Call? && t[f].call.SetRemote? && t[f].call.offer != ""
    ensures t[g] == Completed(SetRemoteObserver(t[f].call.offer), SetSuccess)
    ensures t[h] == Call(CreateAnswer)
    ensures t[i] == Completed(CreateAnswerObserver, CreateSuccess(t[k].msg.sdp))
    ensures t[j] == Call(SetLocal(t[k].msg.sdp))
    ensures t[k - 1] == Completed(SetLocalObserver(t[k].msg.sdp), SetSuccess)
  {
    var d := t[k].msg.sdp;
    AdmissibleAt(t, k);
    assert t[..k][k - 1] == t[k - 1];
    AdmissibleAt(t, k - 1);
    j := FindIn(t, k - 1, Call(SetLocal(d)));
    AdmissibleAt(t, j);
    assert t[..j][j - 1] == t[j - 1];
    i := j - 1;
    AdmissibleAt(t, i);
    h := FindIn(t, i, Call(CreateAnswer));
    AdmissibleAt(t, h);
    assert t[..h][h - 1] == t[h - 1];
    g := h - 1;
    var offer := t[g].observer.offer;
    AdmissibleAt(t, g);
    f := FindIn(t, g, Call(SetRemote(offer)));
    AdmissibleAt(t, f);
  }

  /** No engine call other than creation ever reaches a missing or disposed peer connection. */
  lemma {:induction false} CallsReachLivePeer(t: seq<Obs>, k: nat)
    requires WellFormed(t) && k < |t| && t[k].Call?
    ensures t[k].call.CreatePeer? ==> LivePeers(t[..k]) == 0
    ensures !t[k].call.CreatePeer? ==> LivePeers(t[..k]) == 1
  {
    AdmissibleAt(t, k);
  }

  // ---------------------------------------------------------------------------
  // Properties of short sequences of operations

  /** Two `disconnect` calls in a row report DISCONNECTED twice and close the socket once. */
  lemma DisconnectTwice(s: State)
    ensures Disconnect(Disconnect(s)).trace == s.trace
      + (if s.socketHeld then [Close(NORMAL_CLOSURE_STATUS, CLOSE_REASON)] else [])
      + [Report(Disconnected), Report(Disconnected)]
  {
  }

  /**
   * Within the modelled state, a second `release` is not a no-op: it
   * reports DISCONNECTED again, but finds no socket to close and no peer
   * connection to dispose.
   */
  lemma ReleaseTwice(s: State)
    ensures Release(Release(s)).trace == Release(s).trace + [Report(Disconnected)]
  {
  }

  /**
   * `ensurePeerConnection` creates at most one peer connection: once the
   * factory has returned one, further calls change nothing.
   */
  lemma EnsurePeerConnectionOnce(s: State, created: bool, again: bool)
    requires EnsurePeerConnection(s, created).peerExists
    ensures EnsurePeerConnection(EnsurePeerConnection(s, created), again) == EnsurePeerConnection(s, created)
  {
  }

  /** A ping is answered with a pong whatever the state of the client. */
  lemma PingAnswered(s: State, accepted: bool, created: bool)
    ensures OnMessage(s, Parsed(map["type" := Str("ping")]), accepted, created)
         == if accepted then Log(s, Sent(Pong)) else s
  {
    assert OptString(map["type" := Str("ping")], "type") == "ping";
  }

  function OfferFrame(offer: string): Inbound {
    Parsed(map["type" := Str("offer"), "sdp" := Str(offer)])
  }

  lemma OfferRouted(offer: string)
    ensures Dispatch(OfferFrame(offer)) == RouteOffer(offer)
  {
    var msg := map["type" := Str("offer"), "sdp" := Str(offer)];
    assert OptString(msg, "type") == "offer" && OptString(msg, "sdp") == offer;
  }

  /** Running inputs one after the other is running the first, then the rest. */
  lemma RunCons(s: State, x: Input, rest: seq<Input>)
    ensures Run(s, [x] + rest) == Run(Step(s, x), rest)
  {
    assert ([x] + rest)[1..] == rest;
  }

  /** Running two batches of inputs in turn is running them together. */
  lemma {:induction false} RunConcat(s: State, a: seq<Input>, b: seq<Input>)
    ensures Run(s, a + b) == Run(Run(s, a), b)
    decreases |a|
  {
    if a == [] {
      assert a + b == b;
    } else {
      assert (a + b)[0] == a[0] && (a + b)[1..] == a[1..] + b;
      RunConcat(Step(s, a[0]), a[1..], b);
    }
  }

  lemma RunThree(s: State, x: Input, y: Input, z: Input)
    ensures Run(s, [x, y, z]) == Step(Step(Step(s, x), y), z)
  {
    RunCons(s, x, [y, z]);
    assert [x, y, z] == [x] + [y, z];
    RunCons(Step(s, x), y, [z]);
    assert [y, z] == [y] + [z];
    RunCons(Step(Step(s, x), y), z, []);
    assert [z] == [z] + [];
  }

  /** The trace of a new client once its socket has opened and an offer has arrived. */
  function OfferedTrace(device: Device, offer: string): seq<Obs> {
    [Report(Connecting), Call(CreatePeer(true)), Report(Connected), Sent(Identify(device)), Call(SetRemote(offer))]
  }

  lemma ExchangeOffer(device: Device, offer: string)
    requires offer != ""
    ensures Run(Initial, [ConnectCalled(true), SocketOpened(device, true), MessageReceived(OfferFrame(offer), true, true)])
         == State(true, true, OfferedTrace(device, offer), [SetRemoteObserver(offer)])
  {
    RunThree(Initial, ConnectCalled(true), SocketOpened(device, true), MessageReceived(OfferFrame(offer), true, true));
    var s1 := State(true, true, [Report(Connecting), Call(CreatePeer(true))], []);
    assert Step(Initial, ConnectCalled(true)) == s1;
    var s2 := Log(Log(s1, Report(Connected)), Sent(Identify(device)));
    assert Step(s1, SocketOpened(device, true)) == s2;
    OfferRouted(offer);
    assert s2.trace + [Call(SetRemote(offer))] == OfferedTrace(device, offer);
  }

  lemma ExchangeAnswer(t: seq<Obs>, offer: string, answer: string)
    ensures
      Run(State(true, true, t, [SetRemoteObserver(offer)]),
          [SdpCompleted(0, SetSuccess, true), SdpCompleted(0, CreateSuccess(answer), true), SdpCompleted(0, SetSuccess, true)])
      == State(true, true, t + [
           Completed(SetRemoteObserver(offer), SetSuccess), Call(CreateAnswer),
           Completed(CreateAnswerObserver, CreateSuccess(answer)), Call(SetLocal(answer)),
           Completed(SetLocalObserver(answer), SetSuccess), Sent(Answer(answer))], [])
  {
    var s3 := State(true, true, t, [SetRemoteObserver(offer)]);
    RunThree(s3, SdpCompleted(0, SetSuccess, true), SdpCompleted(0, CreateSuccess(answer), true), SdpCompleted(0, SetSuccess, true));
    var s4 := State(true, true, t + [Completed(SetRemoteObserver(offer), SetSuccess), Call(CreateAnswer)], [CreateAnswerObserver]);
    assert Step(s3, SdpCompleted(0, SetSuccess, true)) == s4;
    var s5 := State(true, true, s4.trace + [Completed(CreateAnswerObserver, CreateSuccess(answer)), Call(SetLocal(answer))], [SetLocalObserver(answer)]);
    assert Step(s4, SdpCompleted(0, CreateSuccess(answer), true)) == s5;
    assert Step(s5, SdpCompleted(0, SetSuccess, true))
        == State(true, true, s5.trace + [Completed(SetLocalObserver(answer), SetSuccess), Sent(Answer(answer))], []);
  }

  /**
   * A new client's socket opens, an offer arrives, and the engine completes
   * set-remote, create-answer and set-local in turn, each successfully.
   */
  function ExchangeInputs(device: Device, offer: string, answer: string): seq<Input> {
    [ConnectCalled(true),
     SocketOpened(device, true),
     MessageReceived(OfferFrame(offer), true, true),
     SdpCompleted(0, SetSuccess, true),
     SdpCompleted(0, CreateSuccess(answer), true),
     SdpCompleted(0, SetSuccess, true)]
  }

  /**
   * A full exchange on a new client: the listener sees CONNECTING then
   * CONNECTED, the engine's calls follow the chain in order, and the socket
   * carries the identify message and then exactly one answer. Afterwards the
   * socket and the peer connection are held and no observer is outstanding.
   */
  lemma OfferAnswerExchange(device: Device, offer: string, answer: string)
    requires offer != ""
    ensures Run(Initial, ExchangeInputs(device, offer, answer)) == State(true, true, [
      Report(Connecting), Call(CreatePeer(true)),
      Report(Connected), Sent(Identify(device)),
      Call(SetRemote(offer)), Completed(SetRemoteObserver(offer), SetSuccess),
      Call(CreateAnswer), Completed(CreateAnswerObserver, CreateSuccess(answer)),
      Call(SetLocal(answer)), Completed(SetLocalObserver(answer), SetSuccess),
      Sent(Answer(answer))], [])
  {
    var a := [ConnectCalled(true), SocketOpened(device, true), MessageReceived(OfferFrame(offer), true, true)];
    var b := [SdpCompleted(0, SetSuccess, true), SdpCompleted(0, CreateSuccess(answer), true), SdpCompleted(0, SetSuccess, true)];
    assert a + b == ExchangeInputs(device, offer, answer);
    RunConcat(Initial, a, b);
    ExchangeOffer(device, offer);
    ExchangeAnswer(OfferedTrace(device, offer), offer, answer);
  }

  /**
   * A candidate that arrives right after an offer, before the engine has
   * set the remote description, is handed to the engine at once: it is not
   * queued until the set-remote call completes.
   */
  lemma CandidateNotQueued(offer: string, c: LocalCandidate)
    requires offer != "" && c.sdp != ""
    ensures
      var r := Run(Initial, [ConnectCalled(true), MessageReceived(OfferFrame(offer), true, true),
                             MessageReceived(Parsed(Encode(CandidateMsg(c))), true, true)]);
      && r.trace == [Report(Connecting), Call(CreatePeer(true)), Call(SetRemote(offer)),
                     Call(AddCandidate(RemoteCandidate(c.sdpMid.UnwrapOr(""), c.sdpMLineIndex, c.sdp)))]
      && r.awaiting == [SetRemoteObserver(offer)]
  {
    var x1, x2, x3 := ConnectCalled(true), MessageReceived(OfferFrame(offer), true, true),
                      MessageReceived(Parsed(Encode(CandidateMsg(c))), true, true);
    RunThree(Initial, x1, x2, x3);
    OfferRouted(offer);
    CandidateRoundTrip(c);
  }

  lemma ReconnectSteps(t: seq<Obs>, c: LocalCandidate, device: Device)
    ensures Run(State(true, true, t, []),
                [DisconnectCalled, ConnectCalled(true), CandidateGathered(c, true), SocketOpened(device, true)]).trace
         == t + [Close(NORMAL_CLOSURE_STATUS, CLOSE_REASON), Report(Disconnected), Report(Connecting),
                 Sent(CandidateMsg(c)), Report(Connected), Sent(Identify(device))]
  {
    var s0 := State(true, true, t, []);
    var s1 := State(false, true, t + [Close(NORMAL_CLOSURE_STATUS, CLOSE_REASON), Report(Disconnected)], []);
    assert Step(s0, DisconnectCalled) == s1;
    var rest := [ConnectCalled(true), CandidateGathered(c, true), SocketOpened(device, true)];
    RunCons(s0, DisconnectCalled, rest);
    assert [DisconnectCalled] + rest == [DisconnectCalled, ConnectCalled(true), CandidateGathered(c, true), SocketOpened(device, true)];
    RunThree(s1, ConnectCalled(true), CandidateGathered(c, true), SocketOpened(device, true));
  }

  /**
   * The identify message is not guaranteed to be the first frame on a
   * socket: `disconnect` leaves the peer connection alive, and the socket of
   * the next `connect` is held at once, so a local candidate the engine
   * gathers before that socket opens goes out ahead of identify.
   */
  lemma IdentifyNotFirst(device: Device, offer: string, answer: string, c: LocalCandidate)
    requires offer != ""
    ensures
      var before := Run(Initial, ExchangeInputs(device, offer, answer)).trace;
      Run(Initial, ExchangeInputs(device, offer, answer)
                   + [DisconnectCalled, ConnectCalled(true), CandidateGathered(c, true), SocketOpened(device, true)]).trace
      == before + [Close(NORMAL_CLOSURE_STATUS, CLOSE_REASON), Report(Disconnected), Report(Connecting),
                   Sent(CandidateMsg(c)), Report(Connected), Sent(Identify(device))]
  {
    var tail := [DisconnectCalled, ConnectCalled(true), CandidateGathered(c, true), SocketOpened(device, true)];
    RunConcat(Initial, ExchangeInputs(device, offer, answer), tail);
    OfferAnswerExchange(device, offer, answer);
    ReconnectSteps(Run(Initial, ExchangeInputs(device, offer, answer)).trace, c, device);
  }
}
