/**
 * The receiver's WebRTC client as an object whose fields its methods update
 * in place. `socketHeld` stands for `webSocket != null`, `peerExists` for
 * `peerConnection != null`, `trace` is the ordered record of listener calls,
 * socket sends and closes, and engine calls and completions, and `awaiting`
 * holds the SDP observers the engine has not yet called back.
 *
 * Choices the environment makes are parameters: `created` is whether the
 * factory returned a peer connection, `accepted` whether the socket took a
 * frame. Each method is proved to produce the state that the matching
 * function of module Session gives. The entry points (connect, disconnect,
 * release, the socket and engine callbacks) also keep the invariant
 * Session.Valid; the helpers for the source's private functions run inside
 * an entry point and are proved equal to their Session function only.
 */
module Client {
  import opened Signaling
  import Session

  class WebRTCClient {
    var socketHeld: bool
    var peerExists: bool
    var trace: seq<Session.Obs>
    var awaiting: seq<Session.SdpObserver>

    ghost function Snapshot(): Session.State
      reads this
    {
      Session.State(socketHeld, peerExists, trace, awaiting)
    }

    ghost predicate Valid()
      reads this
    {
      Session.Valid(Snapshot())
    }

    /** A new client holds no socket and no peer connection. */
    constructor ()
      ensures Snapshot() == Session.Initial && Valid()
    {
      socketHeld, peerExists, trace, awaiting := false, false, [], [];
    }

    method Emit(x: Session.Obs)
      modifies this
      ensures Snapshot() == Session.Log(old(Snapshot()), x)
    {
      trace := trace + [x];
    }

    method EnsurePeerConnection(created: bool)
      modifies this
      ensures Snapshot() == Session.EnsurePeerConnection(old(Snapshot()), created)
    {
      if peerExists {
        return;
      }
      Emit(Session.Call(Session.CreatePeer(created)));
      peerExists := created;
    }

    method Connect(created: bool)
      requires Valid()
      modifies this
      ensures Snapshot() == Session.Connect(old(Snapshot()), created)
      ensures Valid()
    {
      Session.ConnectKeeps(Snapshot(), created);
      if socketHeld {
        return;
      }
      Emit(Session.Report(Session.Connecting));
      EnsurePeerConnection(created);
      socketHeld := true;
    }

    method Disconnect()
      requires Valid()
      modifies this
      ensures Snapshot() == Session.Disconnect(old(Snapshot()))
      ensures Valid()
    {
      Session.DisconnectKeeps(Snapshot());
      if socketHeld {
        Emit(Session.Close(Session.NORMAL_CLOSURE_STATUS, Session.CLOSE_REASON));
      }
      socketHeld := false;
      Emit(Session.Report(Session.Disconnected));
    }

    method Release()
      requires Valid()
      modifies this
      ensures Snapshot() == Session.Release(old(Snapshot()))
      ensures Valid()
    {
      Session.ReleaseKeeps(Snapshot());
      Disconnect();
      if peerExists {
        Emit(Session.Call(Session.Dispose));
      }
      peerExists := false;
    }

    method SendIdentify(device: Device, accepted: bool)
      modifies this
      ensures Snapshot() == Session.SendIdentify(old(Snapshot()), device, accepted)
    {
      if socketHeld && accepted {
        Emit(Session.Sent(Identify(device)));
      } else {
        Emit(Session.Notify(Session.Error(Session.IdentifyNotSent)));
      }
    }

    method OnOpen(device: Device, accepted: bool)
      requires Valid()
      modifies this
      ensures Snapshot() == Session.OnOpen(old(Snapshot()), device, accepted)
      ensures Valid()
    {
      Session.OnOpenKeeps(Snapshot(), device, accepted);
      Emit(Session.Report(Session.Connected));
      SendIdentify(device, accepted);
    }

    method HandleRemoteOffer(sdp: string, created: bool)
      modifies this
      ensures Snapshot() == Session.HandleRemoteOffer(old(Snapshot()), sdp, created)
    {
      if sdp == "" {
        return;
      }
      EnsurePeerConnection(created);
      if peerExists {
        Emit(Session.Call(Session.SetRemote(sdp)));
        awaiting := awaiting + [Session.SetRemoteObserver(sdp)];
      }
    }

    method HandleRemoteCandidate(c: RemoteCandidate)
      modifies this
      ensures Snapshot() == Session.HandleRemoteCandidate(old(Snapshot()), c)
    {
      if c.sdp == "" {
        return;
      }
      if peerExists {
        Emit(Session.Call(Session.AddCandidate(c)));
      }
    }

    method OnMessage(m: Inbound, accepted: bool, created: bool)
      requires Valid()
      modifies this
      ensures Snapshot() == Session.OnMessage(old(Snapshot()), m, accepted, created)
      ensures Valid()
    {
      Session.OnMessageKeeps(Snapshot(), m, accepted, created);
      match Dispatch(m)
      case RouteOffer(sdp) => HandleRemoteOffer(sdp, created);
      case RouteCandidate(c) => HandleRemoteCandidate(c);
      case RoutePing => if accepted { Emit(Session.Sent(Pong)); }
      case RouteNone =>
      case RouteError => Emit(Session.Notify(Session.Error(Session.InvalidMessage)));
    }

    method OnClosed()
      requires Valid()
      modifies this
      ensures Snapshot() == Session.OnClosed(old(Snapshot()))
      ensures Valid()
    {
      Session.StepKeeps(Snapshot(), Session.SocketClosed);
      Emit(Session.Report(Session.Disconnected));
      socketHeld := false;
    }

    method OnFailure()
      requires Valid()
      modifies this
      ensures Snapshot() == Session.OnFailure(old(Snapshot()))
      ensures Valid()
    {
      Session.OnFailureKeeps(Snapshot());
      Emit(Session.Notify(Session.Error(Session.SocketFailure)));
      Emit(Session.Report(Session.Disconnected));
      socketHeld := false;
    }

    /** The peer connection observer's `onIceCandidate`. */
    method SendLocalCandidate(c: LocalCandidate, accepted: bool)
      requires Valid()
      modifies this
      ensures Snapshot() == Session.SendLocalCandidate(old(Snapshot()), c, accepted)
      ensures Valid()
    {
      Session.StepKeeps(Snapshot(), Session.CandidateGathered(c, accepted));
      if socketHeld && accepted {
        Emit(Session.Sent(CandidateMsg(c)));
      }
    }

    method CreateAnswer()
      modifies this
      ensures Snapshot() == Session.CreateAnswerStep(old(Snapshot()))
    {
      if peerExists {
        Emit(Session.Call(Session.CreateAnswer));
        awaiting := awaiting + [Session.CreateAnswerObserver];
      }
    }

    method SetLocalDescription(answer: string)
      modifies this
      ensures Snapshot() == Session.SetLocalStep(old(Snapshot()), answer)
    {
      if peerExists {
        Emit(Session.Call(Session.SetLocal(answer)));
        awaiting := awaiting + [Session.SetLocalObserver(answer)];
      }
    }

    method SendAnswer(answer: string, accepted: bool)
      modifies this
      ensures Snapshot() == Session.SendAnswer(old(Snapshot()), answer, accepted)
    {
      if socketHeld && accepted {
        Emit(Session.Sent(Answer(answer)));
      } else {
        Emit(Session.Notify(Session.Error(Session.AnswerNotSent)));
      }
    }

    /** The engine calls back the `i`-th outstanding SDP observer. */
    method OnSdpResult(i: nat, result: Session.SdpResult, accepted: bool)
      requires Valid() && i < |awaiting|
      modifies this
      ensures Snapshot() == Session.OnSdpResult(old(Snapshot()), i, result, accepted)
      ensures Valid()
    {
      Session.OnSdpResultKeeps(Snapshot(), i, result, accepted);
      var o := awaiting[i];
      Emit(Session.Completed(o, result));
      awaiting := Session.RemoveAt(awaiting, i);
      match (o, result)
      case (SetRemoteObserver(_), SetSuccess) => CreateAnswer();
      case (CreateAnswerObserver, CreateSuccess(d)) => SetLocalDescription(d);
      case (SetLocalObserver(d), SetSuccess) => SendAnswer(d, accepted);
      case _ =>
    }
  }

  /**
   * The activity starts, stops and is destroyed: the listener sees
   * CONNECTING, then DISCONNECTED from `onStop`, then DISCONNECTED again from
   * the `disconnect` inside `release`; the socket is closed once, and the
   * peer connection created on start is disposed on destroy.
   */
  method ActivityLifecycle() returns (trace: seq<Session.Obs>)
    ensures trace == [
      Session.Report(Session.Connecting), Session.Call(Session.CreatePeer(true)),
      Session.Close(Session.NORMAL_CLOSURE_STATUS, Session.CLOSE_REASON), Session.Report(Session.Disconnected),
      Session.Report(Session.Disconnected), Session.Call(Session.Dispose)]
  {
    var client := new WebRTCClient();
    client.Connect(true);       // onStart
    client.Disconnect();        // onStop
    client.Release();           // onDestroy
    trace := client.trace;
  }
}
