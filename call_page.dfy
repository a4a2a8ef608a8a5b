/**
 * The call page's `start` and its handlers as objects that change in place:
 * the peer connection (`pc.current`), the signalling socket (`ws.current`)
 * and the page's own state (the `users` list and the `iceCandidateQueue`
 * array the handlers push to and shift from). Each handler is a method whose
 * new state is the `Negotiation` function of the old one.
 */
module CallPage {
  import opened Wrappers
  import opened Signaling
  import opened Negotiation
  import CallUrl

  /** The RTCPeerConnection capability: descriptions, and the candidates handed to it. */
  class PeerConnection {
    const transport: Transport
    var remoteDescription: Option<SessionDescription>
    var localDescription: Option<SessionDescription>
    var attempted: seq<IceCandidate>          // every addIceCandidate call, in order
    var remoteCandidates: seq<IceCandidate>   // the calls that succeeded, in order

    constructor (transport: Transport)
      ensures this.transport == transport
      ensures remoteDescription == None && localDescription == None
      ensures attempted == [] && remoteCandidates == []
    {
      this.transport := transport;
      remoteDescription, localDescription := None, None;
      attempted, remoteCandidates := [], [];
    }

    method CreateOffer() returns (offer: SessionDescription)
      ensures offer == SessionDescription("offer", transport.offerSdp)
    {
      offer := SessionDescription("offer", transport.offerSdp);
    }

    /** Creating an answer needs a remote offer; without one the call rejects (None). */
    method CreateAnswer() returns (answer: Option<SessionDescription>)
      ensures remoteDescription.None? ==> answer.None?
      ensures remoteDescription.Some? ==>
        answer == Some(SessionDescription("answer", transport.answerSdp(remoteDescription.value.sdp)))
    {
      if remoteDescription.Some? {
        answer := Some(SessionDescription("answer", transport.answerSdp(remoteDescription.value.sdp)));
      } else {
        answer := None;
      }
    }

    method SetLocalDescription(d: SessionDescription)
      modifies this
      ensures localDescription == Some(d)
      ensures remoteDescription == old(remoteDescription)
      ensures attempted == old(attempted) && remoteCandidates == old(remoteCandidates)
    {
      localDescription := Some(d);
    }

    method SetRemoteDescription(d: SessionDescription)
      modifies this
      ensures remoteDescription == Some(d)
      ensures localDescription == old(localDescription)
      ensures attempted == old(attempted) && remoteCandidates == old(remoteCandidates)
    {
      remoteDescription := Some(d);
    }

    /** Resolves (true) or rejects (false) as the transport decides; either way it was tried. */
    method AddIceCandidate(c: IceCandidate) returns (ok: bool)
      modifies this
      ensures ok == transport.accepts(c)
      ensures attempted == old(attempted) + [c]
      ensures remoteCandidates == if ok then old(remoteCandidates) + [c] else old(remoteCandidates)
      ensures remoteDescription == old(remoteDescription) && localDescription == old(localDescription)
    {
      ok := transport.accepts(c);
      attempted := attempted + [c];
      if ok {
        remoteCandidates := remoteCandidates + [c];
      }
    }
  }

  /** The WebSocket: its URL, its ready state, and everything passed to `send`. */
  class SignalingSocket {
    const url: string
    var readyState: ReadyState
    var sent: seq<Message>

    constructor (url: string)
      ensures this.url == url && readyState == Connecting && sent == []
    {
      this.url := url;
      readyState := Connecting;
      sent := [];
    }

    method Send(m: Message)
      modifies this
      ensures sent == old(sent) + [m]
      ensures readyState == old(readyState)
    {
      sent := sent + [m];
    }

    /**
     * The browser moving the socket through its states. It is the only way the
     * socket becomes OPEN, which `onopen` needs and `onicecandidate` tests.
     */
    method SetReadyState(state: ReadyState)
      modifies this
      ensures readyState == state && sent == old(sent)
    {
      readyState := state;
    }
  }

  /** Where the page is served from: `location.hostname`, `location.protocol`, `location.host`. */
  datatype Location = Location(hostname: string, protocol: string, host: string)

  /** One call, from `start` on. */
  class CallSession {
    const isOfferer: bool
    const roomId: string
    const pc: PeerConnection
    const ws: SignalingSocket
    var users: seq<string>
    var iceCandidateQueue: seq<IceCandidate>

    /**
     * `start`: the role and the room come from the query string, the peer
     * connection is created, and the socket dials the URL built from the
     * location and the room.
     */
    constructor (params: Option<CallUrl.QueryParams>, location: Location, transport: Transport)
      ensures isOfferer == CallUrl.IsOfferer(params) && roomId == CallUrl.RoomId(params)
      ensures fresh(pc) && fresh(ws)
      ensures pc.transport == transport
      ensures ws.url == CallUrl.WebSocketUrl(location.hostname, location.protocol, location.host, roomId)
      ensures ws.readyState == Connecting
      ensures State() == Start(isOfferer)
    {
      isOfferer := CallUrl.IsOfferer(params);
      roomId := CallUrl.RoomId(params);
      pc := new PeerConnection(transport);
      ws := new SignalingSocket(CallUrl.WebSocketUrl(location.hostname, location.protocol, location.host,
                                                     CallUrl.RoomId(params)));
      users := [];
      iceCandidateQueue := [];
    }

    /** Everything the handlers read or change, as one value. */
    function State(): Session
      reads this, pc, ws
    {
      Session(isOfferer, pc.remoteDescription, pc.localDescription, iceCandidateQueue,
              pc.attempted, pc.remoteCandidates, users, ws.sent)
    }

    /** `ws.current.onopen`. */
    method OnOpen(userName: string)
      requires ws.readyState == Open
      modifies pc, ws
      ensures State() == HandleOpen(old(State()), pc.transport, userName)
      ensures ws.readyState == old(ws.readyState)
    {
      ws.Send(JoinMessage(userName));
      if isOfferer {
        var offer := pc.CreateOffer();
        pc.SetLocalDescription(offer);
        ws.Send(DescriptionMessage(offer));
      }
    }

    /** `ws.current.onmessage`, for a message already parsed from JSON. */
    method OnMessage(data: Message)
      modifies this, pc, ws
      ensures State() == HandleMessage(old(State()), pc.transport, data)
      ensures ws.readyState == old(ws.readyState)
    {
      if data.kind == Some("userList") {
        users := data.users;
      } else if data.kind == Some("offer") {
        if !isOfferer {
          pc.SetRemoteDescription(DescriptionOf(data));
          var answer := pc.CreateAnswer();
          pc.SetLocalDescription(answer.value);
          ws.Send(DescriptionMessage(pc.localDescription.value));
        }
      } else if data.kind == Some("answer") {
        if isOfferer {
          pc.SetRemoteDescription(DescriptionOf(data));
          DrainCandidateQueue();
        }
      } else if data.candidate != "" {
        var candidate := CandidateOf(data);
        if pc.remoteDescription.Some? && pc.remoteDescription.value.kind != "" {
          var _ := pc.AddIceCandidate(candidate);
        } else {
          iceCandidateQueue := iceCandidateQueue + [candidate];
        }
      }
    }

    /** The `while` loop of the answer branch: shift the front, try it, ignore a failure. */
    method DrainCandidateQueue()
      modifies this, pc
      ensures State() == DrainQueue(old(State()), pc.transport)
    {
      while |iceCandidateQueue| > 0
        invariant DrainQueue(State(), pc.transport) == DrainQueue(old(State()), pc.transport)
        decreases |iceCandidateQueue|
      {
        var candidate := iceCandidateQueue[0];
        iceCandidateQueue := iceCandidateQueue[1..];
        var _ := pc.AddIceCandidate(candidate);
      }
    }

    /** `pc.current.onicecandidate`: `candidate` is None for the end-of-gathering event. */
    method OnIceCandidate(candidate: Option<IceCandidate>)
      modifies ws
      ensures State() == HandleIceCandidate(old(State()), candidate, old(ws.readyState))
      ensures ws.readyState == old(ws.readyState)
    {
      if candidate.Some? && ws.readyState == Open {
        ws.Send(CandidateMessage(candidate.value));
      }
    }
  }
}
