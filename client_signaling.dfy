/**
 * The browser side of the signaling protocol (frontend/js/app.js): the handler for
 * inbound signaling messages and the event handlers installed on a new peer
 * connection.
 *
 * The browser objects (RTCPeerConnection, RTCSessionDescription, RTCIceCandidate,
 * the WebSocket) are opaque: descriptions and candidates are values, and whether
 * each asynchronous browser call succeeded is a parameter of the step (`Outcomes`).
 *
 * `Client` is the value the handlers change; each handler is a function on it, and
 * the class `SignalingClient` holds the same state in fields and updates them in
 * place, each method proved equal to its function.
 */
module ClientSignaling {
  import opened Wrappers

  /** An opaque session description, as produced by createOffer / createAnswer. */
  datatype Description = Description(sdp: string)

  /** An opaque connectivity (ICE) candidate. */
  datatype IceCandidate = IceCandidate(candidate: string)

  /** The chat data channel: created locally by the initiator (with its label and ordering), or handed over by the browser. */
  datatype DataChannel = LocalChannel(name: string, ordered: bool) | RemoteChannel(id: nat)

  /**
   * What the model keeps of an RTCPeerConnection: its two descriptions, the remote
   * candidates added to it, and whether an `ondatachannel` handler is installed
   * (the responder's side of the data-channel split).
   */
  datatype PeerConnection = PeerConnection(
    localDesc: Option<Description>,
    remoteDesc: Option<Description>,
    candidates: seq<IceCandidate>,
    awaitsDataChannel: bool)

  /** A parsed signaling message, by its `type` field; `Other` is any other type. */
  datatype Inbound =
    | Ready(isInitiator: bool)
    | Offer(offer: Description)
    | Answer(answer: Description)
    | Candidate(candidate: IceCandidate)
    | Other(kind: string)

  /** A WebSocket frame: JSON that parsed to a message, or data whose parse (or `.type` read) throws. */
  datatype Frame = Parsed(msg: Inbound) | Unparsable

  /** A signaling message this client sends with `signalingServer.send`. */
  datatype Outbound =
    | SendOffer(offer: Description)
    | SendAnswer(answer: Description)
    | SendCandidate(candidate: IceCandidate)

  /**
   * Outcomes of the asynchronous browser calls one step makes: the description
   * createOffer / createAnswer resolves to (None when it rejects), and whether
   * setLocalDescription, setRemoteDescription and addIceCandidate resolve.
   */
  datatype Outcomes = Outcomes(
    created: Option<Description>,
    setLocalOk: bool,
    setRemoteOk: bool,
    addCandidateOk: bool)

  /** The states RTCPeerConnection.iceConnectionState takes. */
  datatype IceConnectionState = IceNew | IceChecking | IceConnected | IceCompleted | IceFailed | IceDisconnected | IceClosed

  /** The states RTCPeerConnection.connectionState takes. */
  datatype ConnectionState = New | Connecting | Connected | Disconnected | Failed | Closed

  /**
   * The client's mutable state: the peer connection (None while there is none),
   * the `isInitiator` global, the last status shown, whether the chat input is
   * disabled, the chat channel, and every signaling message sent so far.
   */
  datatype Client = Client(
    peer: Option<PeerConnection>,
    isInitiator: bool,
    status: string,
    chatDisabled: bool,
    chatChannel: Option<DataChannel>,
    outbox: seq<Outbound>)

  const WaitingForPeer := "Waiting for peer to join..."
  const JoiningRoom := "Joining existing room..."
  const OfferFailed := "Failed to create offer. Please refresh."
  const AnswerFailed := "Failed to create answer. Please refresh."
  const CompleteFailed := "Failed to complete connection. Please refresh."
  const SignalingError := "Error in connection. Please refresh the page."
  const ConnectingToPeer := "Connecting to peer..."
  const ConnectedToPeer := "Connected to peer"
  const ConnectionFailed := "Connection failed. Please refresh the page."
  const PeerDisconnected := "Peer disconnected. Please refresh to reconnect."
  const CreateFailed := "Failed to create connection. Please check your browser compatibility."

  /** `ready`: record the role, show it, and as initiator with a connection create, set and send an offer. */
  function OnReady(c: Client, flag: bool, o: Outcomes): Client
  {
    var announced := c.(isInitiator := flag, status := if flag then WaitingForPeer else JoiningRoom);
    if flag && c.peer.Some? then
      if o.created.Some? && o.setLocalOk then
        announced.(peer := Some(c.peer.value.(localDesc := o.created)),
                   outbox := c.outbox + [SendOffer(o.created.value)])
      else
        announced.(status := OfferFailed)
    else
      announced
  }

  /** `offer`: apply it as the remote description, then create, set and send an answer. */
  function OnOffer(c: Client, offer: Description, o: Outcomes): Client
  {
    if c.peer.None? then c
    else if !o.setRemoteOk then c.(status := AnswerFailed)
    else
      var applied := c.peer.value.(remoteDesc := Some(offer));
      if o.created.Some? && o.setLocalOk then
        c.(peer := Some(applied.(localDesc := o.created)),
           outbox := c.outbox + [SendAnswer(o.created.value)])
      else
        c.(peer := Some(applied), status := AnswerFailed)
  }

  /** `answer`: apply it as the remote description. */
  function OnAnswer(c: Client, answer: Description, o: Outcomes): Client
  {
    if c.peer.None? then c
    else if o.setRemoteOk then c.(peer := Some(c.peer.value.(remoteDesc := Some(answer))))
    else c.(status := CompleteFailed)
  }

  /** `candidate`: add it to the connection at once (no buffering); a failure is only logged. */
  function OnCandidate(c: Client, candidate: IceCandidate, o: Outcomes): Client
  {
    if c.peer.None? || !o.addCandidateOk then c
    else c.(peer := Some(c.peer.value.(candidates := c.peer.value.candidates + [candidate])))
  }

  /**
   * The `signalingServer.onmessage` handler. It never touches the chat, never
   * creates or drops the connection, and sends at most one message: an offer,
   * only on `ready` as initiator, equal to the new local description; or an
   * answer, only on `offer`, equal to the new local description, with the offer
   * as the remote description.
   */
  function MessageStep(c: Client, frame: Frame, o: Outcomes): (r: Client)
    ensures r.chatDisabled == c.chatDisabled && r.chatChannel == c.chatChannel
    ensures r.peer.Some? <==> c.peer.Some?
    ensures r.peer.Some? ==> r.peer.value.awaitsDataChannel == c.peer.value.awaitsDataChannel
    ensures c.outbox <= r.outbox && |r.outbox| <= |c.outbox| + 1
    ensures |r.outbox| > |c.outbox| ==>
      r.peer.Some? &&
      match r.outbox[|c.outbox|]
      case SendOffer(d) => frame == Parsed(Ready(true)) && r.peer.value.localDesc == Some(d)
      case SendAnswer(d) =>
        frame.Parsed? && frame.msg.Offer? &&
        r.peer.value.remoteDesc == Some(frame.msg.offer) && r.peer.value.localDesc == Some(d)
      case SendCandidate(_) => false
    ensures !(frame.Parsed? && frame.msg.Ready?) ==> r.isInitiator == c.isInitiator
  {
    match frame
    case Unparsable => c.(status := SignalingError)
    case Parsed(msg) =>
      match msg
      case Ready(flag) => OnReady(c, flag, o)
      case Offer(offer) => OnOffer(c, offer, o)
      case Answer(answer) => OnAnswer(c, answer, o)
      case Candidate(candidate) => OnCandidate(c, candidate, o)
      case Other(_) => c
  }

  /** `pc.onicecandidate`: forward a gathered candidate while the signaling socket is open. */
  function IceCandidateStep(c: Client, candidate: Option<IceCandidate>, socketOpen: bool): (r: Client)
    ensures r.outbox == c.outbox || (candidate.Some? && socketOpen && r.outbox == c.outbox + [SendCandidate(candidate.value)])
    ensures r.outbox != c.outbox <==> candidate.Some? && socketOpen
    ensures r == c.(outbox := r.outbox)
  {
    if candidate.Some? && socketOpen then c.(outbox := c.outbox + [SendCandidate(candidate.value)]) else c
  }

  /** The status text `oniceconnectionstatechange` shows for an ICE state, if any. */
  function IceStatus(state: IceConnectionState): Option<string>
  {
    match state
    case IceChecking => Some(ConnectingToPeer)
    case IceConnected => Some(ConnectedToPeer)
    case IceFailed => Some(ConnectionFailed)
    case _ => None
  }

  /** `pc.oniceconnectionstatechange`: only the status may change. */
  function IceConnectionStateStep(c: Client, state: IceConnectionState): (r: Client)
    ensures r == c.(status := r.status)
  {
    match IceStatus(state)
    case Some(text) => c.(status := text)
    case None => c
  }

  /** `pc.onconnectionstatechange`: only the status and the chat-disabled flag may change. */
  function ConnectionStateStep(c: Client, state: ConnectionState): (r: Client)
    ensures r == c.(status := r.status, chatDisabled := r.chatDisabled)
    ensures r.chatDisabled != c.chatDisabled ==> r.chatDisabled
  {
    match state
    case Connected => c.(status := ConnectedToPeer)
    case Disconnected => c.(status := PeerDisconnected, chatDisabled := true)
    case Failed => c.(status := ConnectionFailed, chatDisabled := true)
    case _ => c
  }

  /**
   * `createPeerConnection`, with its result stored as the client's connection: a
   * fresh connection with no descriptions or candidates; the initiator creates an
   * ordered channel labelled "chat", the responder installs `ondatachannel`.
   * When construction throws, the status reports it and there is no connection.
   */
  function CreatePeerConnectionStep(c: Client, constructed: bool): (r: Client)
    ensures r.outbox == c.outbox && r.isInitiator == c.isInitiator && r.chatDisabled == c.chatDisabled
    ensures r.peer.Some? <==> constructed
    ensures r.peer.Some? ==> r.peer.value.localDesc.None? && r.peer.value.remoteDesc.None? && r.peer.value.candidates == []
    ensures r.peer.Some? ==> (r.peer.value.awaitsDataChannel <==> !c.isInitiator)
    ensures constructed && c.isInitiator ==> r.chatChannel == Some(LocalChannel("chat", true))
    ensures !(constructed && c.isInitiator) ==> r.chatChannel == c.chatChannel
    ensures r.status == if constructed then c.status else CreateFailed
  {
    if !constructed then
      c.(peer := None, status := CreateFailed)
    else if c.isInitiator then
      c.(peer := Some(PeerConnection(None, None, [], false)), chatChannel := Some(LocalChannel("chat", true)))
    else
      c.(peer := Some(PeerConnection(None, None, [], true)))
  }

  /** `pc.ondatachannel`: takes effect only where the responder installed the handler. */
  function DataChannelStep(c: Client, id: nat): (r: Client)
    ensures r == c.(chatChannel := r.chatChannel)
    ensures c.peer.Some? && c.peer.value.awaitsDataChannel ==> r.chatChannel == Some(RemoteChannel(id))
    ensures !(c.peer.Some? && c.peer.value.awaitsDataChannel) ==> r == c
  {
    if c.peer.Some? && c.peer.value.awaitsDataChannel then c.(chatChannel := Some(RemoteChannel(id))) else c
  }

  /** The client after handling `steps` in arrival order, one at a time. */
  function Replay(c: Client, steps: seq<(Frame, Outcomes)>): Client
    decreases |steps|
  {
    if steps == [] then c else Replay(MessageStep(c, steps[0].0, steps[0].1), steps[1..])
  }

  // ----- Properties of one message -----

  lemma ReadySetsRole(c: Client, flag: bool, o: Outcomes)
    ensures var r := MessageStep(c, Parsed(Ready(flag)), o);
      && r.isInitiator == flag
      && (flag && c.peer.Some? && !(o.created.Some? && o.setLocalOk) ==> r.status == OfferFailed)
      && (!(flag && c.peer.Some? && !(o.created.Some? && o.setLocalOk)) ==>
            r.status == (if flag then WaitingForPeer else JoiningRoom))
  {
  }

  lemma ReadySendsOffer(c: Client, flag: bool, o: Outcomes)
    ensures var r := MessageStep(c, Parsed(Ready(flag)), o);
      && (r.outbox != c.outbox <==> flag && c.peer.Some? && o.created.Some? && o.setLocalOk)
      && (flag && c.peer.Some? && o.created.Some? && o.setLocalOk ==>
            r == c.(isInitiator := flag, status := WaitingForPeer,
                    peer := Some(c.peer.value.(localDesc := o.created)),
                    outbox := c.outbox + [SendOffer(o.created.value)]))
      && (flag && c.peer.Some? && !(o.created.Some? && o.setLocalOk) ==>
            r == c.(isInitiator := flag, status := OfferFailed))
      && (!(flag && c.peer.Some?) ==>
            r == c.(isInitiator := flag, status := if flag then WaitingForPeer else JoiningRoom))
  {
  }

  lemma WithoutConnectionIgnored(c: Client, msg: Inbound, o: Outcomes)
    requires c.peer.None? && (msg.Offer? || msg.Answer? || msg.Candidate?)
    ensures MessageStep(c, Parsed(msg), o) == c
  {
  }

  lemma OfferAnswered(c: Client, offer: Description, o: Outcomes)
    requires c.peer.Some?
    ensures var r := MessageStep(c, Parsed(Offer(offer)), o);
      var applied := c.peer.value.(remoteDesc := Some(offer));
      && (!o.setRemoteOk ==> r == c.(status := AnswerFailed))
      && (o.setRemoteOk && o.created.Some? && o.setLocalOk ==>
            r == c.(peer := Some(applied.(localDesc := o.created)),
                    outbox := c.outbox + [SendAnswer(o.created.value)]))
      && (o.setRemoteOk && !(o.created.Some? && o.setLocalOk) ==>
            r == c.(peer := Some(applied), status := AnswerFailed))
  {
  }

  lemma AnswerApplied(c: Client, answer: Description, o: Outcomes)
    requires c.peer.Some?
    ensures var r := MessageStep(c, Parsed(Answer(answer)), o);
      && r.outbox == c.outbox
      && (o.setRemoteOk ==> r == c.(peer := Some(c.peer.value.(remoteDesc := Some(answer)))))
      && (!o.setRemoteOk ==> r == c.(status := CompleteFailed))
  {
  }

  lemma CandidateAdded(c: Client, candidate: IceCandidate, o: Outcomes)
    requires c.peer.Some?
    ensures var r := MessageStep(c, Parsed(Candidate(candidate)), o);
      && (o.addCandidateOk ==>
            r == c.(peer := Some(c.peer.value.(candidates := c.peer.value.candidates + [candidate]))))
      && (!o.addCandidateOk ==> r == c)
  {
  }

  lemma UnknownAndUnparsable(c: Client, kind: string, o: Outcomes)
    ensures MessageStep(c, Parsed(Other(kind)), o) == c
    ensures MessageStep(c, Unparsable, o) == c.(status := SignalingError)
  {
  }

  lemma IceStateTable(c: Client, state: IceConnectionState)
    ensures var r := IceConnectionStateStep(c, state);
      && (state == IceChecking ==> r.status == ConnectingToPeer)
      && (state == IceConnected ==> r.status == ConnectedToPeer)
      && (state == IceFailed ==> r.status == ConnectionFailed)
      && (state !in {IceChecking, IceConnected, IceFailed} ==> r == c)
  {
  }

  lemma ConnectionStateTable(c: Client, state: ConnectionState)
    ensures var r := ConnectionStateStep(c, state);
      && (state == Connected ==> r == c.(status := ConnectedToPeer))
      && (state == Disconnected ==> r == c.(status := PeerDisconnected, chatDisabled := true))
      && (state == Failed ==> r == c.(status := ConnectionFailed, chatDisabled := true))
      && (state !in {Connected, Disconnected, Failed} ==> r == c)
  {
  }

  // ----- Properties of a sequence of messages -----

  /** Handling inbound messages only ever appends offers and answers to the outbox. */
  lemma {:induction false} ReplayNeverSendsCandidates(c: Client, steps: seq<(Frame, Outcomes)>)
    ensures c.outbox <= Replay(c, steps).outbox
    ensures var sent := Replay(c, steps).outbox; forall i :: |c.outbox| <= i < |sent| ==> !sent[i].SendCandidate?
    decreases |steps|
  {
    if steps != [] {
      var next := MessageStep(c, steps[0].0, steps[0].1);
      ReplayNeverSendsCandidates(next, steps[1..]);
    }
  }

  /** Without a peer connection no message sends anything or creates a connection. */
  lemma {:induction false} ReplayWithoutConnectionIsSilent(c: Client, steps: seq<(Frame, Outcomes)>)
    requires c.peer.None?
    ensures Replay(c, steps).outbox == c.outbox && Replay(c, steps).peer.None?
    decreases |steps|
  {
    if steps != [] {
      ReplayWithoutConnectionIsSilent(MessageStep(c, steps[0].0, steps[0].1), steps[1..]);
    }
  }

  /** An offer is only ever sent in answer to `ready` with the initiator flag set. */
  lemma {:induction false} OffersNeedInitiatorReady(c: Client, steps: seq<(Frame, Outcomes)>)
    requires forall i :: 0 <= i < |steps| ==> steps[i].0 != Parsed(Ready(true))
    ensures c.outbox <= Replay(c, steps).outbox
    ensures var sent := Replay(c, steps).outbox; forall i :: |c.outbox| <= i < |sent| ==> !sent[i].SendOffer?
    decreases |steps|
  {
    if steps != [] {
      OffersNeedInitiatorReady(MessageStep(c, steps[0].0, steps[0].1), steps[1..]);
    }
  }

  /** An answer is only ever sent in reply to a received offer. */
  lemma {:induction false} AnswersNeedOffer(c: Client, steps: seq<(Frame, Outcomes)>)
    requires forall i :: 0 <= i < |steps| ==> !(steps[i].0.Parsed? && steps[i].0.msg.Offer?)
    ensures c.outbox <= Replay(c, steps).outbox
    ensures var sent := Replay(c, steps).outbox; forall i :: |c.outbox| <= i < |sent| ==> !sent[i].SendAnswer?
    decreases |steps|
  {
    if steps != [] {
      AnswersNeedOffer(MessageStep(c, steps[0].0, steps[0].1), steps[1..]);
    }
  }

  /** The client's state, held in the fields the handlers in app.js update in place. */
  class SignalingClient {
    var peer: Option<PeerConnection>
    var isInitiator: bool
    var status: string
    var chatDisabled: bool
    var chatChannel: Option<DataChannel>
    var outbox: seq<Outbound>

    function State(): Client
      reads this
    {
      Client(peer, isInitiator, status, chatDisabled, chatChannel, outbox)
    }

    /** A page that has no connection yet and has sent nothing. */
    constructor ()
      ensures State() == Client(None, false, "", false, None, [])
    {
      peer, isInitiator, status, chatDisabled, chatChannel, outbox := None, false, "", false, None, [];
    }

    method OnMessage(frame: Frame, o: Outcomes)
      modifies this
      ensures State() == MessageStep(old(State()), frame, o)
    {
      if frame.Unparsable? {
        status := SignalingError;
        return;
      }
      match frame.msg
      case Ready(flag) =>
        isInitiator := flag;
        status := if isInitiator then WaitingForPeer else JoiningRoom;
        if isInitiator && peer.Some? {
          if o.created.Some? && o.setLocalOk {
            var offer := o.created.value;
            peer := Some(peer.value.(localDesc := Some(offer)));
            outbox := outbox + [SendOffer(offer)];
          } else {
            status := OfferFailed;
          }
        }
      case Offer(offer) =>
        if peer.None? {
          return;
        }
        if o.setRemoteOk {
          peer := Some(peer.value.(remoteDesc := Some(offer)));
          if o.created.Some? && o.setLocalOk {
            var answer := o.created.value;
            peer := Some(peer.value.(localDesc := Some(answer)));
            outbox := outbox + [SendAnswer(answer)];
          } else {
            status := AnswerFailed;
          }
        } else {
          status := AnswerFailed;
        }
      case Answer(answer) =>
        if peer.None? {
          return;
        }
        if o.setRemoteOk {
          peer := Some(peer.value.(remoteDesc := Some(answer)));
        } else {
          status := CompleteFailed;
        }
      case Candidate(candidate) =>
        if peer.None? {
          return;
        }
        if o.addCandidateOk {
          peer := Some(peer.value.(candidates := peer.value.candidates + [candidate]));
        }
      case Other(_) =>
    }

    method OnIceCandidate(candidate: Option<IceCandidate>, socketOpen: bool)
      modifies this
      ensures State() == IceCandidateStep(old(State()), candidate, socketOpen)
    {
      if candidate.Some? && socketOpen {
        outbox := outbox + [SendCandidate(candidate.value)];
      }
    }

    method OnIceConnectionStateChange(state: IceConnectionState)
      modifies this
      ensures State() == IceConnectionStateStep(old(State()), state)
    {
      match state
      case IceChecking => status := ConnectingToPeer;
      case IceConnected => status := ConnectedToPeer;
      case IceFailed => status := ConnectionFailed;
      case _ =>
    }

    method OnConnectionStateChange(state: ConnectionState)
      modifies this
      ensures State() == ConnectionStateStep(old(State()), state)
    {
      match state
      case Connected =>
        status := ConnectedToPeer;
      case Disconnected =>
        status := PeerDisconnected;
        chatDisabled := true;
      case Failed =>
        status := ConnectionFailed;
        chatDisabled := true;
      case _ =>
    }

    method CreatePeerConnection(constructed: bool) returns (pc: Option<PeerConnection>)
      modifies this
      ensures pc == peer
      ensures State() == CreatePeerConnectionStep(old(State()), constructed)
    {
      if !constructed {
        status := CreateFailed;
        pc := None;
      } else if isInitiator {
        chatChannel := Some(LocalChannel("chat", true));
        pc := Some(PeerConnection(None, None, [], false));
      } else {
        pc := Some(PeerConnection(None, None, [], true));
      }
      peer := pc;
    }

    method OnDataChannel(id: nat)
      modifies this
      ensures State() == DataChannelStep(old(State()), id)
    {
      if peer.Some? && peer.value.awaitsDataChannel {
        chatChannel := Some(RemoteChannel(id));
      }
    }
  }
}
