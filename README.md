# WebRTC receiver client: signaling and connection lifecycle

This project models `WebRTCClient`, the component of the Android TV screen-mirroring
receiver that drives one WebRTC session. It holds a signaling WebSocket and a
peer connection. It reports CONNECTING / CONNECTED / DISCONNECTED and errors to its
listener. It answers the sender's SDP offer through the engine's asynchronous
set-remote → create-answer → set-local chain. It also exchanges ICE candidates and
answers pings.

Files:

- `wrappers.dfy`: `Option`, for the platform's nullable values (`Build.MODEL`, a
  candidate's `sdpMid`).
- `json.dfy`: the parts of the platform JSON object the client relies on:
  - `put` with a null value removes the key;
  - `optString` and `optInt` are lenient readers;
  - the decimal text of integers, and 32-bit narrowing.
- `signaling.dfy`: the outbound messages (identify, answer, candidate, pong) as
  JSON objects, and how a received text frame is routed by its `type` field.
- `session.dfy`: the client's state machine as values. A `State` holds:
  - whether a socket is held (`webSocket != null`);
  - whether a peer connection exists (`peerConnection != null`);
  - the SDP observers the engine has yet to call back;
  - one ordered trace of everything that crosses the client's boundary: listener
    calls, frames the socket accepted, socket closes, engine calls and the engine's
    SDP completions.

  Each operation is a function. The invariant `Valid` is kept by every input
  (`StepKeeps`) and by any run of inputs (`RunKeeps`). The SDP-chain steps
  (`CreateAnswerStep`, `SetLocalStep`, `SendAnswer`) keep it only right after the
  completion that triggers them (`ReactKeeps`): on their own they would log an
  engine call or an answer that no success precedes. The lemmas state what the trace
  then guarantees.
- `client.dfy`: the class `WebRTCClient`, whose methods update its fields in place.
  Every method is proved to produce exactly the state the matching `Session`
  function gives. The entry points (the constructor, `Connect`, `Disconnect`,
  `Release`, the socket callbacks `OnOpen` / `OnMessage` / `OnClosed` / `OnFailure`,
  and the engine callbacks `SendLocalCandidate` and `OnSdpResult`) are also proved to
  keep the invariant. The helpers that stand for the source's private functions
  (`EnsurePeerConnection`, `SendIdentify`, `HandleRemoteOffer`,
  `HandleRemoteCandidate`, `CreateAnswer`, `SetLocalDescription`, `SendAnswer`) are
  proved equal to their `Session` function only: they run inside an entry point, and
  the invariant holds again once that entry point has finished. `ActivityLifecycle` drives the class the
  way the activity's `onStart` / `onStop` / `onDestroy` do.

The environment's choices are parameters:

- `created`: whether the peer-connection factory returned a connection (it may return
  null);
- `accepted`: whether `WebSocket.send` took the frame;
- which outstanding SDP observer the engine calls back, and with what result.

The client's code runs on three threads:

- the main thread runs `connect`, `disconnect` and `release`, and the actions handed
  to `postToMain`. Those actions are `ensurePeerConnection` from `connect`, which runs
  inline because the activity calls `connect` on the main thread, and the offer and
  candidate handling, which is always posted;
- the socket's own thread runs the socket callbacks `onOpen`, `onMessage`, `onClosed`
  and `onFailure`, which read and write `webSocket` there directly, and sends the pong;
- the media engine's callback thread runs the SDP observers and `onIceCandidate`.

The model treats every input (a call, a callback or a posted action) as one atomic
step, run to completion before the next. The listener is taken to be present: the
activity always passes itself.

Behaviours of the code that the lemmas make explicit:

- `disconnect` reports DISCONNECTED on every call, not only on a state change
  (`DisconnectTwice`).
- A second `release` reports DISCONNECTED again (`ReleaseTwice`).
- Remote candidates are not queued until the remote description is set. They go to the
  engine at once, or are dropped when there is no peer connection
  (`CandidateNotQueued`).
- SDP create/set failures are only logged. There is no Failed or Negotiating status,
  no error report and no disposal (`Session.OnSdpResult`).
- There is no stale-callback guard: an engine completion after `disconnect` still runs
  its continuation.
- The identify message is not guaranteed to be the first frame on a socket: after a
  `disconnect` and a new `connect`, a candidate the kept peer connection gathers before
  the new socket opens goes out first (`IdentifyNotFirst`).

## Model

| member | source | states |
|---|---|---|
| Client.WebRTCClient.constructor | app/src/main/java/com/mirror/tvreceiver/WebRTCClient.kt:59-60 | a new client holds no socket and no peer connection, has an empty trace, and satisfies the invariant |
| Client.WebRTCClient.Connect | app/src/main/java/com/mirror/tvreceiver/WebRTCClient.kt:84-92 | updates the fields exactly as `Session.Connect` and keeps the invariant |
| Client.WebRTCClient.Disconnect | app/src/main/java/com/mirror/tvreceiver/WebRTCClient.kt:94-98 | updates the fields exactly as `Session.Disconnect` and keeps the invariant |
| Client.WebRTCClient.Release | app/src/main/java/com/mirror/tvreceiver/WebRTCClient.kt:100-103 | updates the fields exactly as `Session.Release` and keeps the invariant |
| Client.WebRTCClient.OnOpen | app/src/main/java/com/mirror/tvreceiver/WebRTCClient.kt:112-115 | updates the fields exactly as `Session.OnOpen` and keeps the invariant |
| Client.WebRTCClient.OnMessage | app/src/main/java/com/mirror/tvreceiver/WebRTCClient.kt:117-129 | updates the fields exactly as `Session.OnMessage` and keeps the invariant |
| Client.WebRTCClient.OnClosed | app/src/main/java/com/mirror/tvreceiver/WebRTCClient.kt:135-138 | updates the fields exactly as `Session.OnClosed` and keeps the invariant |
| Client.WebRTCClient.OnFailure | app/src/main/java/com/mirror/tvreceiver/WebRTCClient.kt:140-144 | updates the fields exactly as `Session.OnFailure` and keeps the invariant |
| Client.WebRTCClient.EnsurePeerConnection | app/src/main/java/com/mirror/tvreceiver/WebRTCClient.kt:146-158 | updates the fields exactly as `Session.EnsurePeerConnection` |
| Client.WebRTCClient.SendIdentify | app/src/main/java/com/mirror/tvreceiver/WebRTCClient.kt:201-212 | updates the fields exactly as `Session.SendIdentify`: identify is sent, or an error is reported |
| Client.WebRTCClient.HandleRemoteOffer | app/src/main/java/com/mirror/tvreceiver/WebRTCClient.kt:214-225 | updates the fields exactly as `Session.HandleRemoteOffer` |
| Client.WebRTCClient.HandleRemoteCandidate | app/src/main/java/com/mirror/tvreceiver/WebRTCClient.kt:227-236 | updates the fields exactly as `Session.HandleRemoteCandidate` |
| Client.WebRTCClient.CreateAnswer | app/src/main/java/com/mirror/tvreceiver/WebRTCClient.kt:238-243 | updates the fields exactly as `Session.CreateAnswerStep`: starts createAnswer on a live peer connection |
| Client.WebRTCClient.SetLocalDescription | app/src/main/java/com/mirror/tvreceiver/WebRTCClient.kt:244-249 | updates the fields exactly as `Session.SetLocalStep`: sets the created answer as local description |
| Client.WebRTCClient.SendAnswer | app/src/main/java/com/mirror/tvreceiver/WebRTCClient.kt:254-261 | updates the fields exactly as `Session.SendAnswer`: the answer is sent, or an error is reported |
| Client.WebRTCClient.SendLocalCandidate | app/src/main/java/com/mirror/tvreceiver/WebRTCClient.kt:159-161 | updates the fields exactly as `Session.SendLocalCandidate` and keeps the invariant |
| Client.WebRTCClient.OnSdpResult | app/src/main/java/com/mirror/tvreceiver/WebRTCClient.kt:272-282 | updates the fields exactly as `Session.OnSdpResult` and keeps the invariant |
| Client.ActivityLifecycle | app/src/main/java/com/mirror/tvreceiver/MainActivity.kt:50-65 | start, stop and destroy on a new client give CONNECTING, one close with code 1000, DISCONNECTED twice, and the peer connection created then disposed |
| Session.EnsurePeerConnection | app/src/main/java/com/mirror/tvreceiver/WebRTCClient.kt:146-158 | the factory is asked only when no peer connection exists; an existing one is left untouched |
| Session.Connect | app/src/main/java/com/mirror/tvreceiver/WebRTCClient.kt:84-92 | a no-op while a socket is held; otherwise appends CONNECTING then at most one creation request, and leaves a socket held |
| Session.Disconnect | app/src/main/java/com/mirror/tvreceiver/WebRTCClient.kt:94-98 | a held socket is closed with code 1000 and "client closing"; DISCONNECTED is reported on every call; no socket is left; the peer connection is untouched |
| Session.Release | app/src/main/java/com/mirror/tvreceiver/WebRTCClient.kt:100-103 | disconnects, then disposes the peer connection if one exists; neither a socket nor a peer connection is left |
| Session.OnOpen | app/src/main/java/com/mirror/tvreceiver/WebRTCClient.kt:112-115 | CONNECTED is reported, then exactly one identify is sent or exactly one error is reported |
| Session.HandleRemoteOffer | app/src/main/java/com/mirror/tvreceiver/WebRTCClient.kt:214-225 | an empty offer changes nothing; otherwise a peer connection is ensured, and set-remote starts with the offer if one exists |
| Session.HandleRemoteCandidate | app/src/main/java/com/mirror/tvreceiver/WebRTCClient.kt:227-236 | a candidate with a non-empty line is added to an existing peer connection at once; otherwise nothing happens |
| Session.OnMessage | app/src/main/java/com/mirror/tvreceiver/WebRTCClient.kt:117-129 | routes the frame by type; a ping gets exactly one pong; a malformed frame gives exactly one error; other types change nothing; no frame reports a status or changes the socket |
| Session.OnClosed | app/src/main/java/com/mirror/tvreceiver/WebRTCClient.kt:135-138 | reports DISCONNECTED and forgets the socket |
| Session.OnFailure | app/src/main/java/com/mirror/tvreceiver/WebRTCClient.kt:140-144 | reports the error, then DISCONNECTED, and forgets the socket |
| Session.SendLocalCandidate | app/src/main/java/com/mirror/tvreceiver/WebRTCClient.kt:263-270 | a gathered candidate is sent at once on a held socket, whatever the negotiation state; a refused send is ignored |
| Session.SendIdentify | app/src/main/java/com/mirror/tvreceiver/WebRTCClient.kt:201-212 | on a held socket that takes the frame, exactly one identify for this device is sent; otherwise exactly one "identify not sent" error is reported; nothing else changes |
| Session.CreateAnswerStep | app/src/main/java/com/mirror/tvreceiver/WebRTCClient.kt:238-243 | with a peer connection, createAnswer is called and its observer awaited; without one nothing changes |
| Session.SetLocalStep | app/src/main/java/com/mirror/tvreceiver/WebRTCClient.kt:244-249 | with a peer connection, set-local is called with exactly the given answer and its observer awaited; without one nothing changes |
| Session.SendAnswer | app/src/main/java/com/mirror/tvreceiver/WebRTCClient.kt:254-261 | on a held socket that takes the frame, exactly this answer is sent; otherwise exactly one "answer not sent" error is reported; nothing else changes |
| Session.React | app/src/main/java/com/mirror/tvreceiver/WebRTCClient.kt:219-251 | an observer acts only on its own success, otherwise nothing changes; set-remote success starts createAnswer and awaits its observer (when a peer connection exists); create success starts set-local of exactly the created SDP and awaits its observer; set-local success sends that answer, or reports "answer not sent"; no flag changes |
| Session.OnSdpResult | app/src/main/java/com/mirror/tvreceiver/WebRTCClient.kt:272-282 | the completion is recorded and the observer retired; for each of the three matching successes the trace and the awaited observers gain exactly the next step (its engine call and observer, or the answer send); a failure or mismatched result changes nothing else |
| Session.LogKeeps | app/src/main/java/com/mirror/tvreceiver/WebRTCClient.kt:84-282 | appending an admissible entry that neither creates nor disposes a peer connection keeps the invariant |
| Session.EnsurePeerConnectionKeeps | app/src/main/java/com/mirror/tvreceiver/WebRTCClient.kt:146-147 | ensurePeerConnection keeps the invariant: it never creates a second live peer connection |
| Session.ConnectKeeps | app/src/main/java/com/mirror/tvreceiver/WebRTCClient.kt:84-92 | connect keeps the invariant |
| Session.DisconnectKeeps | app/src/main/java/com/mirror/tvreceiver/WebRTCClient.kt:94-98 | disconnect keeps the invariant |
| Session.ReleaseKeeps | app/src/main/java/com/mirror/tvreceiver/WebRTCClient.kt:100-103 | release keeps the invariant: it disposes only a live peer connection |
| Session.OnOpenKeeps | app/src/main/java/com/mirror/tvreceiver/WebRTCClient.kt:112-115 | onOpen keeps the invariant |
| Session.OnMessageKeeps | app/src/main/java/com/mirror/tvreceiver/WebRTCClient.kt:117-129 | onMessage keeps the invariant: no empty offer or candidate line reaches the engine |
| Session.OnFailureKeeps | app/src/main/java/com/mirror/tvreceiver/WebRTCClient.kt:140-144 | onFailure keeps the invariant |
| Session.ReactKeeps | app/src/main/java/com/mirror/tvreceiver/WebRTCClient.kt:219-250 | each observer continuation keeps the invariant: each SDP step directly follows the success of the step before it |
| Session.OnSdpResultKeeps | app/src/main/java/com/mirror/tvreceiver/WebRTCClient.kt:272-282 | an engine completion keeps the invariant |
| Session.StepKeeps | app/src/main/java/com/mirror/tvreceiver/WebRTCClient.kt:84-282 | every input (a call, a socket or engine callback) keeps the invariant |
| Session.RunKeeps | app/src/main/java/com/mirror/tvreceiver/WebRTCClient.kt:84-282 | any sequence of operations keeps the invariant |
| Session.AtMostOnePeer | app/src/main/java/com/mirror/tvreceiver/WebRTCClient.kt:146-158 | after any inputs, at most one peer connection is live, `peerConnection` is non-null exactly when one is, and the trace is well formed |
| Session.AdmissibleAt | app/src/main/java/com/mirror/tvreceiver/WebRTCClient.kt:84-282 | every entry of a well-formed trace was admissible where it stands |
| Session.CallsReachLivePeer | app/src/main/java/com/mirror/tvreceiver/WebRTCClient.kt:102-249 | a peer connection is created only when none is live; every other engine call, dispose included, reaches a live one |
| Session.AnswerFollowsChain | app/src/main/java/com/mirror/tvreceiver/WebRTCClient.kt:214-261 | every answer sent was preceded, in order, by set-remote of a non-empty offer, its success, createAnswer, creation of that very SDP, set-local of it, and its success just before the send |
| Session.DisconnectTwice | app/src/main/java/com/mirror/tvreceiver/WebRTCClient.kt:94-98 | two disconnects close the socket at most once and report DISCONNECTED twice |
| Session.ReleaseTwice | app/src/main/java/com/mirror/tvreceiver/WebRTCClient.kt:100-103 | within the modelled state, a second release closes nothing, disposes nothing and reports DISCONNECTED again |
| Session.EnsurePeerConnectionOnce | app/src/main/java/com/mirror/tvreceiver/WebRTCClient.kt:147 | once a peer connection exists, further ensurePeerConnection calls change nothing |
| Session.PingAnswered | app/src/main/java/com/mirror/tvreceiver/WebRTCClient.kt:123 | a ping is answered with one pong in every state, and changes nothing else |
| Session.RunConcat | app/src/main/java/com/mirror/tvreceiver/WebRTCClient.kt:84-282 | running two batches of inputs in turn is running them together |
| Session.OfferAnswerExchange | app/src/main/java/com/mirror/tvreceiver/WebRTCClient.kt:214-261 | a new client that opens, gets an offer and sees the three SDP successes reports CONNECTING then CONNECTED and sends identify then exactly one answer, with the engine calls in chain order, and ends holding socket and peer connection with no observer outstanding |
| Session.CandidateNotQueued | app/src/main/java/com/mirror/tvreceiver/WebRTCClient.kt:227-236 | a candidate arriving while set-remote is still outstanding goes to the engine at once |
| Session.IdentifyNotFirst | app/src/main/java/com/mirror/tvreceiver/WebRTCClient.kt:84-98 | after a full exchange, a disconnect and a new connect (which keeps the peer connection), a candidate gathered before the new socket opens is sent before identify |
| Signaling.Encode | app/src/main/java/com/mirror/tvreceiver/WebRTCClient.kt:201-270 | every outbound message carries a string `type` field |
| Signaling.Dispatch | app/src/main/java/com/mirror/tvreceiver/WebRTCClient.kt:117-129 | a frame is an error exactly when it is not a JSON object; an offer routes its `sdp` text, a candidate routes the fields read from it, a ping routes to a pong; it is ignored exactly when its type is none of these |
| Signaling.ReadCandidate | app/src/main/java/com/mirror/tvreceiver/WebRTCClient.kt:227-230 | a missing line or media-line id reads as "", a missing index as 0; string fields are taken verbatim and an in-range index as is |
| Signaling.CandidateRoundTrip | app/src/main/java/com/mirror/tvreceiver/WebRTCClient.kt:227-236 | a candidate the receiver sends reads back as the same line, index and media-line id (a null id reads as "") |
| Signaling.IdentifyFields | app/src/main/java/com/mirror/tvreceiver/WebRTCClient.kt:201-208 | identify holds exactly type, role "receiver", platform "android-tv", and model and manufacturer (each "unknown" when missing) |
| Signaling.PongFields | app/src/main/java/com/mirror/tvreceiver/WebRTCClient.kt:123 | the pong is exactly the object with type "pong" and no other key |
| Signaling.AnswerFields | app/src/main/java/com/mirror/tvreceiver/WebRTCClient.kt:254-257 | answer holds exactly its type and the SDP text |
| Signaling.OwnMessagesIgnored | app/src/main/java/com/mirror/tvreceiver/WebRTCClient.kt:120-124 | identify, answer and pong, if echoed back, are ignored |
| Signaling.TypeTagsDistinct | app/src/main/java/com/mirror/tvreceiver/WebRTCClient.kt:203 | the type tag determines the kind of an outbound message |
| Json.PutOpt | app/src/main/java/com/mirror/tvreceiver/WebRTCClient.kt:267 | putting a null value leaves the key absent; a value is stored; all other keys are unchanged |
| Json.Wrap32 | app/src/main/java/com/mirror/tvreceiver/WebRTCClient.kt:230 | narrowing to Int keeps in-range values and agrees with the input modulo 2^32 |
| Json.Saturate32 | app/src/main/java/com/mirror/tvreceiver/WebRTCClient.kt:230 | a cast from a whole double clamps to the Int range |
| Json.Digits | app/src/main/java/com/mirror/tvreceiver/WebRTCClient.kt:229 | decimal text is non-empty digits without a leading zero |
| Json.DigitsValueOfDigits | app/src/main/java/com/mirror/tvreceiver/WebRTCClient.kt:229-230 | the digits of n read back as n |
| Json.ParseDecimal | app/src/main/java/com/mirror/tvreceiver/WebRTCClient.kt:229-230 | the decimal text of an integer parses back to that integer |
| Json.OptString | app/src/main/java/com/mirror/tvreceiver/WebRTCClient.kt:120-121 | a missing key reads as ""; a string is read verbatim |
| Json.OptInt | app/src/main/java/com/mirror/tvreceiver/WebRTCClient.kt:230 | a missing key reads as 0; a number in the 64-bit range is narrowed modulo 2^32 (in-range values kept); a number beyond it saturates to the Int range; a non-numeric string reads as 0 |
| Json.NumericStringReadsAsInt | app/src/main/java/com/mirror/tvreceiver/WebRTCClient.kt:230 | an Int sent as decimal text reads as that Int, the same as when sent as a number |

## Left out

- Transport: the OkHttp client, its retries, the socket URL, and the asynchronous
  establishment of the socket. A socket is "held" from `connect` on, and the socket's
  callbacks are inputs.
- Which socket a callback came from: `onClosed`/`onFailure` forget the held socket
  whichever socket closed. A pong goes back on the socket the ping came on, even
  when none is held, as the code does.
- Threading: every input runs atomically, so there are no interleavings between the
  main thread, the socket's thread and the media engine's callback thread, and no
  data races on `webSocket` or `peerConnection`. A run fixes one order of the inputs;
  the delay between posting an action and running it is not modelled.
- Media engine internals: the ICE servers, the RTC configuration, the answer
  constraints, and SDP contents beyond their text.
- The video sink: `onTrack` / `onAddStream` attach the track to the renderer; no
  observable state of the client changes.
- The peer-connection observer's logging-only and empty callbacks, and the logging in
  `SimpleSdpObserver`.
- `onMessage` for binary frames, which does nothing.
- The release of the audio device module, the factory, the HTTP dispatcher and the
  tracer in `release`. Only the peer-connection disposal is modelled.
- A missing listener: the activity always passes itself, so `listener?.` calls are
  modelled as always reaching it.
- JSON text parsing and serialisation. A frame is either an object or malformed.
- JSON values other than strings and integral numbers (booleans, null, nested values,
  fractions).
- Json.OptInt: does not model the platform's reading of a string through a
  floating-point parse (fractions, exponents, surrounding spaces). Only an optionally
  signed run of decimal digits is read as a number; any other string reads as 0.
- Json.OptString: a number is rendered as integer decimal text only. A number beyond
  the 64-bit range is held by the platform as a double and rendered in its
  floating-point form, and fractional numbers likewise; neither is modelled.
- Session.Release: the disposal of the peer-connection factory is not modelled. After
  `release`, a later `connect` or offer would ask the disposed factory for a peer
  connection, which the platform rejects with an exception; the model instead lets
  the factory create a fresh peer connection.
- Session.ReleaseTwice: a second `release` would dispose the already disposed factory
  again, which the platform rejects with an exception; the lemma speaks only of the
  modelled state (socket, peer connection, trace).
