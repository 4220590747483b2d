/**
 * The client's call state machine (the `useVideoCall` hook): the call state
 * the UI renders, three refs (the other party's id, an offer waiting for the
 * user to accept, candidates that arrived before a peer connection existed),
 * the negotiation session and the signalling service. Signalling events,
 * peer-connection callbacks and user actions each run to completion here;
 * the browser's answers are parameters.
 */
module VideoCall {
  import opened Wrappers
  import opened Wire
  import opened Negotiation
  import opened Signaling
  import Seqs

  /** The hook's `CallState`; an `undefined` caller field is "". */
  datatype CallState = CallState(
    isInCall: bool, isInitiating: bool, isReceiving: bool,
    callerId: string, callerName: string, callerType: string,
    connectionState: Option<ConnectionState>,
    isVideoEnabled: bool, isAudioEnabled: bool,
    remoteStream: Option<Stream>, localStream: Option<Stream>)

  /** The state the hook starts in and `endCall` returns to. */
  const Initial: CallState := CallState(false, false, false, "", "", "", None, true, true, None, None)

  /** The chat page's guard on its call buttons: disabled while a call is open in any phase. */
  predicate IsVideoCallOpen(cs: CallState) {
    cs.isInCall || cs.isInitiating || cs.isReceiving
  }

  /** The caller's name shown on "incoming-call": the one sent, else a label by type. */
  function CallerName(fromName: string, fromType: string): (name: string)
    ensures name != ""
    ensures fromName != "" ==> name == fromName
    ensures fromName == "" ==> (name == "Doctor" <==> fromType == "doctor") && (name == "Doctor" || name == "Patient")
  {
    if fromName != "" then fromName else if fromType == "doctor" then "Doctor" else "Patient"
  }

  /** "incoming-call": the call rings, with the caller's id, name and type; nothing else changes. */
  function Ringing(cs: CallState, from: string, fromType: string, fromName: string): (r: CallState)
    ensures r.isReceiving && IsVideoCallOpen(r)
    ensures r.callerId == from && r.callerName == CallerName(fromName, fromType) && r.callerType == fromType
    ensures r.(isReceiving := cs.isReceiving, callerId := cs.callerId, callerName := cs.callerName, callerType := cs.callerType) == cs
  {
    cs.(isReceiving := true, callerId := from, callerName := CallerName(fromName, fromType), callerType := fromType)
  }

  /**
   * "call-offer": the call rings with the offer's sender as caller, keeping
   * an already known name and type and falling back to "Unknown Caller" and
   * "user".
   */
  function Offered(cs: CallState, from: string): (r: CallState)
    ensures r.isReceiving && r.callerId == from && r.callerName != "" && r.callerType != ""
    ensures cs.callerName != "" ==> r.callerName == cs.callerName
    ensures cs.callerType != "" ==> r.callerType == cs.callerType
    ensures r.(isReceiving := cs.isReceiving, callerId := cs.callerId, callerName := cs.callerName, callerType := cs.callerType) == cs
  {
    cs.(isReceiving := true, callerId := from,
        callerName := if cs.callerName != "" then cs.callerName else "Unknown Caller",
        callerType := if cs.callerType != "" then cs.callerType else "user")
  }

  /** The offer that follows "incoming-call" from the same caller changes nothing the UI shows. */
  lemma OfferAfterRingingChangesNothing(cs: CallState, from: string, fromType: string, fromName: string)
    requires fromType != ""
    ensures Offered(Ringing(cs, from, fromType, fromName), from) == Ringing(cs, from, fromType, fromName)
  {
  }

  /** An offer that arrives with no ring before it shows an unknown caller of type "user". */
  lemma OfferWithoutRinging(from: string)
    ensures Offered(Initial, from).callerName == "Unknown Caller" && Offered(Initial, from).callerType == "user"
    ensures Offered(Initial, from).callerId == from && IsVideoCallOpen(Offered(Initial, from))
  {
  }

  /** "call-rejected": neither placing nor receiving any more; an established call stays open. */
  function Rejected(cs: CallState): (r: CallState)
    ensures !r.isInitiating && !r.isReceiving
    ensures IsVideoCallOpen(r) <==> cs.isInCall
    ensures r.(isInitiating := cs.isInitiating, isReceiving := cs.isReceiving) == cs
  {
    cs.(isInitiating := false, isReceiving := false)
  }

  /** "user-offline" and "user-busy": the call being placed is given up. */
  function Refused(cs: CallState): (r: CallState)
    ensures !r.isInitiating
    ensures !cs.isInCall && !cs.isReceiving ==> !IsVideoCallOpen(r)
    ensures r.(isInitiating := cs.isInitiating) == cs
  {
    cs.(isInitiating := false)
  }

  /** The user declines the ringing call: the caller is forgotten. */
  function Declined(cs: CallState): (r: CallState)
    ensures !r.isReceiving && r.callerId == "" && r.callerName == "" && r.callerType == ""
    ensures r.(isReceiving := cs.isReceiving, callerId := cs.callerId, callerName := cs.callerName, callerType := cs.callerType) == cs
  {
    cs.(isReceiving := false, callerId := "", callerName := "", callerType := "")
  }

  /** The connection states on which the hook ends the call. */
  predicate Broken(state: ConnectionState) {
    state == Disconnected || state == ConnectionState.Failed
  }

  /**
   * The connection-state callback's effect on the call state: the state is
   * recorded; "connected" makes the call established; "disconnected" and
   * "failed" end it.
   */
  function StateChanged(cs: CallState, state: ConnectionState): (r: CallState)
    ensures state == Connected ==> r.isInCall && !r.isInitiating && !r.isReceiving && r.connectionState == Some(Connected)
    ensures Broken(state) ==> r == Initial && !IsVideoCallOpen(r)
    ensures state != Connected && !Broken(state) ==> r == cs.(connectionState := Some(state))
  {
    var recorded := cs.(connectionState := Some(state));
    if state == Connected then recorded.(isInCall := true, isInitiating := false, isReceiving := false)
    else if Broken(state) then Initial
    else recorded
  }

  /** The ids of the tracks of a stream, none for an absent one. */
  function IdsOf(s: Option<Stream>): seq<string> {
    if s.None? then [] else TrackIds(s.value.tracks)
  }

  class VideoCallHook {
    /** The hook's arguments. */
    const currentUserId: string
    const userType: string
    var callState: CallState
    /** `targetUserIdRef`; "" while null. */
    var targetUserId: string
    /** `pendingOfferRef`. */
    var pendingOffer: Option<Description>
    /** `pendingIceCandidatesRef`. */
    var pendingIce: seq<Candidate>
    var webrtc: WebRTCService?
    var signaling: SignalingService?
    /** Whether the setup effect's signalling handlers are attached. */
    var listening: bool
    /**
     * The call state of the render whose effect attached the handlers: the
     * `endCall` those handlers and the connection-state callback call reads
     * its streams, not the current ones.
     */
    var captured: CallState
    /** The ids of the tracks the hook itself stopped, in order. */
    var stopped: seq<string>

    ghost predicate Valid()
      reads this
    {
      (webrtc == null) == (signaling == null) && (listening ==> webrtc != null)
    }

    /** No call is left behind: the state is initial and the session holds nothing. */
    predicate Quiet()
      reads this, webrtc
    {
      callState == Initial && targetUserId == "" && pendingOffer.None? &&
      (webrtc != null ==> webrtc.peerConnection.None? && webrtc.localStream.None? && webrtc.remoteStream.None?)
    }

    /** The services, the attached handlers, the captured state and the stopped tracks are as before. */
    twostate predicate Kept()
      reads this
    {
      webrtc == old(webrtc) && signaling == old(signaling) && listening == old(listening) &&
      captured == old(captured) && stopped == old(stopped)
    }

    /** The first render: no services yet. */
    constructor (currentUserId: string, userType: string)
      ensures this.currentUserId == currentUserId && this.userType == userType
      ensures callState == Initial && targetUserId == "" && pendingOffer == None && pendingIce == []
      ensures webrtc == null && signaling == null && !listening && stopped == []
      ensures Valid()
    {
      this.currentUserId := currentUserId;
      this.userType := userType;
      callState := Initial;
      targetUserId, pendingOffer, pendingIce := "", None, [];
      webrtc, signaling, listening := null, null, false;
      captured, stopped := Initial, [];
    }

    /**
     * The setup effect: skipped without a user id and type or before the
     * signalling service is ready; otherwise a new negotiation session is
     * created and the handlers are attached.
     */
    method Setup(service: SignalingService?, isInitialized: bool)
      requires Valid()
      modifies this
      ensures Valid()
      ensures currentUserId == "" || userType == "" || !isInitialized || service == null ==>
        webrtc == old(webrtc) && signaling == old(signaling) && listening == old(listening) && captured == old(captured)
      ensures currentUserId != "" && userType != "" && isInitialized && service != null ==>
        webrtc != null && fresh(webrtc) &&
        webrtc.peerConnection == None && webrtc.localStream == None && webrtc.remoteStream == None && webrtc.effects == [] &&
        signaling == service && listening && captured == callState
      ensures callState == old(callState) && targetUserId == old(targetUserId) && pendingOffer == old(pendingOffer)
      ensures pendingIce == old(pendingIce) && stopped == old(stopped)
    {
      if currentUserId == "" || userType == "" {
        return;
      }
      if !isInitialized || service == null {
        return;
      }
      var session := new WebRTCService();
      webrtc := session;
      signaling := service;
      listening := true;
      captured := callState;
    }

    /** The effect's cleanup: handlers detached, the signalling socket closed, the session ended. */
    method Teardown()
      requires Valid()
      modifies this, webrtc, signaling
      ensures Valid() && !listening
      ensures webrtc == old(webrtc) && signaling == old(signaling) && captured == old(captured) && stopped == old(stopped)
      ensures callState == old(callState) && targetUserId == old(targetUserId)
      ensures pendingOffer == old(pendingOffer) && pendingIce == old(pendingIce)
      ensures !old(listening) ==> (webrtc != null ==> unchanged(webrtc)) && (signaling != null ==> unchanged(signaling))
      ensures old(listening) ==>
        signaling != null && !signaling.Ready() && signaling.sent == old(signaling.sent) &&
        webrtc != null && webrtc.peerConnection == None && webrtc.localStream == None && webrtc.remoteStream == None &&
        webrtc.effects == old(webrtc.effects) + StopsOf(old(webrtc.localStream)) + (if old(webrtc.peerConnection).Some? then [ClosePeer] else [])
    {
      if !listening {
        return;
      }
      listening := false;
      signaling.Disconnect();
      webrtc.EndCall();
    }

    /** "incoming-call": the call rings and the caller becomes the other party; no media is touched. */
    method OnIncomingCall(from: string, fromType: string, fromName: string)
      requires Valid()
      modifies this
      ensures Valid() && Kept()
      ensures callState == if old(listening) then Ringing(old(callState), from, fromType, fromName) else old(callState)
      ensures targetUserId == if old(listening) then from else old(targetUserId)
      ensures pendingOffer == old(pendingOffer) && pendingIce == old(pendingIce)
    {
      if !listening {
        return;
      }
      callState := Ringing(callState, from, fromType, fromName);
      targetUserId := from;
    }

    /** "call-offer": the offer is kept for when the user accepts; nothing is negotiated yet. */
    method OnCallOffer(from: string, offer: Option<Description>)
      requires Valid()
      modifies this
      ensures Valid() && Kept()
      ensures old(listening) ==> pendingOffer == offer && targetUserId == from && callState == Offered(old(callState), from)
      ensures !old(listening) ==> pendingOffer == old(pendingOffer) && targetUserId == old(targetUserId) && callState == old(callState)
      ensures pendingIce == old(pendingIce)
    {
      if !listening {
        return;
      }
      pendingOffer := offer;
      targetUserId := from;
      callState := Offered(callState, from);
    }

    /** "call-answer": the answer becomes the remote description; on success the call is no longer being placed. */
    method OnCallAnswer(answer: Description, applied: Outcome)
      requires Valid()
      modifies this, webrtc
      ensures Valid() && Kept()
      ensures targetUserId == old(targetUserId) && pendingOffer == old(pendingOffer) && pendingIce == old(pendingIce)
      ensures !old(listening) ==> callState == old(callState) && (webrtc != null ==> unchanged(webrtc))
      ensures old(listening) ==>
        webrtc.localStream == old(webrtc.localStream) && webrtc.remoteStream == old(webrtc.remoteStream) &&
        webrtc.effects == old(webrtc.effects) &&
        (old(webrtc.peerConnection).Some? && applied.Done? ==>
           webrtc.peerConnection == Some(old(webrtc.peerConnection).value.(remoteDescription := Some(answer))) &&
           callState == Refused(old(callState))) &&
        (old(webrtc.peerConnection).None? || applied.Failed? ==>
           webrtc.peerConnection == old(webrtc.peerConnection) && callState == old(callState))
    {
      if !listening {
        return;
      }
      var r := webrtc.SetRemoteDescription(answer, applied);
      if r.Done? {
        callState := callState.(isInitiating := false);
      }
    }

    /**
     * "ice-candidate": queued while no peer connection exists, whether or not
     * a remote description has been applied; otherwise handed to the
     * connection.
     */
    method OnIceCandidate(c: Candidate, accepted: bool)
      requires Valid()
      modifies this, webrtc
      ensures Valid() && Kept()
      ensures callState == old(callState) && targetUserId == old(targetUserId) && pendingOffer == old(pendingOffer)
      ensures !old(listening) ==> pendingIce == old(pendingIce) && (webrtc != null ==> unchanged(webrtc))
      ensures old(listening) && old(webrtc.peerConnection).None? ==> pendingIce == old(pendingIce) + [c] && unchanged(webrtc)
      ensures old(listening) && old(webrtc.peerConnection).Some? ==>
        pendingIce == old(pendingIce) &&
        webrtc.peerConnection == Some(old(webrtc.peerConnection).value.(candidates := old(webrtc.peerConnection).value.candidates + if accepted then [c] else [])) &&
        webrtc.localStream == old(webrtc.localStream) && webrtc.remoteStream == old(webrtc.remoteStream) && webrtc.effects == old(webrtc.effects)
    {
      if !listening {
        return;
      }
      var initialized := webrtc.IsPeerConnectionInitialized();
      if !initialized {
        pendingIce := pendingIce + [c];
        return;
      }
      var _ := webrtc.AddIceCandidate(c, accepted);
    }

    /** "call-rejected": the call is no longer being placed or received. */
    method OnCallRejected()
      requires Valid()
      modifies this
      ensures Valid() && Kept()
      ensures callState == if old(listening) then Rejected(old(callState)) else old(callState)
      ensures targetUserId == old(targetUserId) && pendingOffer == old(pendingOffer) && pendingIce == old(pendingIce)
    {
      if !listening {
        return;
      }
      callState := Rejected(callState);
    }

    /** "user-offline": the call being placed is given up. */
    method OnUserOffline()
      requires Valid()
      modifies this
      ensures Valid() && Kept()
      ensures callState == if old(listening) then Refused(old(callState)) else old(callState)
      ensures targetUserId == old(targetUserId) && pendingOffer == old(pendingOffer) && pendingIce == old(pendingIce)
    {
      if !listening {
        return;
      }
      callState := Refused(callState);
    }

    /** "user-busy": the call being placed is given up. */
    method OnUserBusy()
      requires Valid()
      modifies this
      ensures Valid() && Kept()
      ensures callState == if old(listening) then Refused(old(callState)) else old(callState)
      ensures targetUserId == old(targetUserId) && pendingOffer == old(pendingOffer) && pendingIce == old(pendingIce)
    {
      if !listening {
        return;
      }
      callState := Refused(callState);
    }

    /**
     * "call-ended" from the other party: the hook's `endCall`, as captured by
     * the setup effect, which also sends "call-ended" back to the party it
     * came from.
     */
    method OnCallEnded()
      requires Valid()
      modifies this, webrtc, signaling
      ensures Valid()
      ensures !old(listening) ==>
        (Kept() && callState == old(callState) && targetUserId == old(targetUserId) &&
         pendingOffer == old(pendingOffer) && pendingIce == old(pendingIce) &&
         (webrtc != null ==> unchanged(webrtc)) && (signaling != null ==> unchanged(signaling)))
      ensures old(listening) ==> Ended(old(captured))
    {
      if !listening {
        return;
      }
      EndCallWith(captured);
    }

    /** The remote-stream callback: a stream with tracks becomes the call's remote stream. */
    method OnTrack(streams: seq<Stream>)
      requires Valid()
      modifies this, webrtc
      ensures Valid() && Kept()
      ensures targetUserId == old(targetUserId) && pendingOffer == old(pendingOffer) && pendingIce == old(pendingIce)
      ensures webrtc == null ==> callState == old(callState)
      ensures webrtc != null ==>
        var arrived := |streams| > 0 && |streams[0].tracks| > 0;
        callState == (if arrived then old(callState).(remoteStream := Some(streams[0])) else old(callState)) &&
        webrtc.remoteStream == (if arrived then Some(streams[0]) else old(webrtc.remoteStream)) &&
        webrtc.peerConnection == old(webrtc.peerConnection) && webrtc.localStream == old(webrtc.localStream) &&
        webrtc.effects == old(webrtc.effects)
    {
      if webrtc == null {
        return;
      }
      var delivered := webrtc.OnTrack(streams);
      if delivered.Some? {
        callState := callState.(remoteStream := delivered);
      }
    }

    /** The local-candidate callback: a gathered candidate is sent to the other party, if one is recorded. */
    method OnLocalCandidate(c: Candidate)
      requires Valid()
      modifies signaling
      ensures signaling != null ==> signaling.Sent(if targetUserId != "" then [IceCandidate(old(signaling.currentUserId), targetUserId, c)] else [])
    {
      if signaling == null || targetUserId == "" {
        return;
      }
      signaling.SendIceCandidate(targetUserId, c);
    }

    /** The connection-state callback, run only while a peer connection is held. */
    method OnConnectionStateChange(state: ConnectionState)
      requires Valid()
      modifies this, webrtc, signaling
      ensures Valid()
      ensures old(webrtc == null || webrtc.peerConnection.None?) ==>
        Kept() && callState == old(callState) && targetUserId == old(targetUserId) &&
        pendingOffer == old(pendingOffer) && pendingIce == old(pendingIce) &&
        (webrtc != null ==> unchanged(webrtc)) && (signaling != null ==> unchanged(signaling))
      ensures old(webrtc != null && webrtc.peerConnection.Some?) ==>
        callState == StateChanged(old(callState), state) &&
        (Broken(state) ==> Ended(old(captured))) &&
        (!Broken(state) ==>
           Kept() && targetUserId == old(targetUserId) && pendingOffer == old(pendingOffer) &&
           pendingIce == old(pendingIce) && unchanged(webrtc) && unchanged(signaling))
    {
      if webrtc == null {
        return;
      }
      var reported := webrtc.ReportedState(state);
      if reported.None? {
        return;
      }
      callState := callState.(connectionState := Some(state));
      if state == Connected {
        callState := callState.(isInCall := true, isInitiating := false, isReceiving := false);
      } else if Broken(state) {
        EndCallWith(captured);
      }
    }

    /**
     * The user places a call to `to`. The steps run in order: mark the call
     * as being placed and record the other party; create the peer connection;
     * get the camera and microphone; add their tracks; send "initiate-call";
     * create the offer and set it locally; send it. A step that throws stops
     * the rest and only clears `isInitiating`: nothing is torn down and no
     * "call-ended" is sent. Nothing checks whether a call is already open.
     */
    method InitiateCall(to: string, toType: string, created: Outcome, media: Result<Stream>,
                        offer: Result<Description>, offerApplied: Outcome)
      requires Valid()
      modifies this, webrtc, signaling
      ensures Valid() && Kept()
      ensures pendingOffer == old(pendingOffer) && pendingIce == old(pendingIce)
      ensures webrtc == null ==> callState == old(callState) && targetUserId == old(targetUserId)
      ensures webrtc != null ==>
        var gotMedia := created.Done? && media.Ok?;
        var offered := gotMedia && offer.Ok? && offerApplied.Done?;
        targetUserId == to &&
        callState == old(callState).(isInitiating := offered,
                                     localStream := if gotMedia then Some(media.value) else old(callState).localStream) &&
        signaling.Sent(if gotMedia then [Wire.InitiateCall(old(signaling.currentUserId), old(signaling.userType), to, toType)] +
                                      (if offered then [CallOffer(old(signaling.currentUserId), to, offer.value)] else [])
                       else []) &&
        webrtc.localStream == (if gotMedia then Some(media.value) else old(webrtc.localStream)) &&
        webrtc.remoteStream == old(webrtc.remoteStream) && webrtc.effects == old(webrtc.effects) &&
        webrtc.peerConnection ==
          if created.Failed? then old(webrtc.peerConnection)
          else if media.Err? then Some(FreshPeer)
          else Some(FreshPeer.(sending := Seqs.Distinct(TrackIds(media.value.tracks)),
                               localDescription := if offered then Some(offer.value) else None))
    {
      if webrtc == null || signaling == null {
        return;
      }
      callState := callState.(isInitiating := true);
      targetUserId := to;
      var r := webrtc.InitializePeerConnection(created);
      if r.Failed? {
        callState := callState.(isInitiating := false);
        return;
      }
      var stream := webrtc.GetUserMedia(media);
      if stream.Err? {
        callState := callState.(isInitiating := false);
        return;
      }
      callState := callState.(localStream := Some(stream.value));
      SendCallOffer(to, toType, offer, offerApplied);
    }

    /**
     * Placing a call once the connection is fresh and the camera and
     * microphone are held: add their tracks, send "initiate-call", create the
     * offer and set it locally, send it. A failed offer only clears
     * `isInitiating`.
     */
    method SendCallOffer(to: string, toType: string, offer: Result<Description>, offerApplied: Outcome)
      requires Valid() && webrtc != null
      requires webrtc.peerConnection == Some(FreshPeer) && webrtc.localStream.Some?
      modifies this, webrtc, signaling
      ensures Valid() && Kept()
      ensures pendingOffer == old(pendingOffer) && pendingIce == old(pendingIce) && targetUserId == old(targetUserId)
      ensures var offered := offer.Ok? && offerApplied.Done?;
        callState == (if offered then old(callState) else old(callState).(isInitiating := false)) &&
        signaling.Sent([Wire.InitiateCall(old(signaling.currentUserId), old(signaling.userType), to, toType)] +
                       (if offered then [CallOffer(old(signaling.currentUserId), to, offer.value)] else [])) &&
        webrtc.localStream == old(webrtc.localStream) &&
        webrtc.remoteStream == old(webrtc.remoteStream) && webrtc.effects == old(webrtc.effects) &&
        webrtc.peerConnection ==
          Some(FreshPeer.(sending := Seqs.Distinct(TrackIds(old(webrtc.localStream).value.tracks)),
                          localDescription := if offered then Some(offer.value) else None))
    {
      webrtc.AddLocalStreamToPeerConnection();
      signaling.InitiateCall(to, toType);
      var o := webrtc.CreateOffer(offer, offerApplied);
      if o.Err? {
        callState := callState.(isInitiating := false);
        return;
      }
      signaling.SendOffer(to, o.value);
    }

    /**
     * The user accepts the ringing call: nothing without a caller. Otherwise,
     * in order: create the peer connection; get the camera and microphone and
     * add their tracks; apply the pending offer and clear it; hand every
     * queued candidate to the connection in queue order, dropping the ones it
     * refuses, and empty the queue; create the answer and set it locally; send
     * the answer, then "call-accepted"; stop showing the call as ringing. A
     * step that throws stops the rest and changes nothing more.
     */
    method AcceptCall(created: Outcome, media: Result<Stream>, remoteApplied: Outcome, accepts: Candidate -> bool,
                      answer: Result<Description>, answerApplied: Outcome)
      requires Valid()
      modifies this, webrtc, signaling
      ensures Valid() && Kept()
      ensures targetUserId == old(targetUserId)
      ensures webrtc == null || old(callState).callerId == "" ==>
        (callState == old(callState) && pendingOffer == old(pendingOffer) && pendingIce == old(pendingIce) &&
         (webrtc != null ==> unchanged(webrtc)) && (signaling != null ==> unchanged(signaling)))
      ensures webrtc != null && old(callState).callerId != "" && created.Failed? ==>
        webrtc.peerConnection == old(webrtc.peerConnection)
      ensures
        var caller := old(callState).callerId;
        var started := webrtc != null && caller != "";
        var gotMedia := started && created.Done? && media.Ok?;
        var applied := gotMedia && (old(pendingOffer).None? || remoteApplied.Done?);
        var answered := applied && answer.Ok? && answerApplied.Done?;
        callState == (if gotMedia then old(callState).(localStream := Some(media.value),
                                                       isReceiving := if answered then false else old(callState).isReceiving)
                      else old(callState))
      ensures
        var caller := old(callState).callerId;
        var started := webrtc != null && caller != "";
        var gotMedia := started && created.Done? && media.Ok?;
        var applied := gotMedia && (old(pendingOffer).None? || remoteApplied.Done?);
        var answered := applied && answer.Ok? && answerApplied.Done?;
        pendingOffer == (if applied then None else old(pendingOffer)) &&
        pendingIce == (if applied then [] else old(pendingIce))
      ensures
        var caller := old(callState).callerId;
        var started := webrtc != null && caller != "";
        var gotMedia := started && created.Done? && media.Ok?;
        var applied := gotMedia && (old(pendingOffer).None? || remoteApplied.Done?);
        var answered := applied && answer.Ok? && answerApplied.Done?;
        applied ==>
          webrtc.peerConnection ==
            Some(Peer(Seqs.Distinct(TrackIds(media.value.tracks)), if answered then Some(answer.value) else None,
                      old(pendingOffer), Seqs.Filter(old(pendingIce), accepts)))
      ensures
        var caller := old(callState).callerId;
        var started := webrtc != null && caller != "";
        var gotMedia := started && created.Done? && media.Ok?;
        var applied := gotMedia && (old(pendingOffer).None? || remoteApplied.Done?);
        var answered := applied && answer.Ok? && answerApplied.Done?;
        started ==>
          signaling.Sent(if answered then [CallAnswer(old(signaling.currentUserId), caller, answer.value),
                                           CallAccepted(old(signaling.currentUserId), caller)] else [])
    {
      if webrtc == null || signaling == null || callState.callerId == "" {
        return;
      }
      var caller := callState.callerId;
      var ready := PrepareAnswer(created, media, remoteApplied, accepts);
      if !ready {
        return;
      }
      var a := webrtc.CreateAnswer(answer, answerApplied);
      if a.Err? {
        return;
      }
      AnswerCaller(caller, a.value);
      callState := callState.(isReceiving := false);
    }

    /**
     * The steps of accepting before the answer: create the peer connection,
     * get and add the media, apply and clear the pending offer, replay and
     * empty the candidate queue. `ready` tells whether all of them succeeded.
     */
    method PrepareAnswer(created: Outcome, media: Result<Stream>, remoteApplied: Outcome, accepts: Candidate -> bool)
      returns (ready: bool)
      requires Valid() && webrtc != null
      modifies this, webrtc
      ensures Valid() && Kept() && targetUserId == old(targetUserId)
      ensures ready == (created.Done? && media.Ok? && (old(pendingOffer).None? || remoteApplied.Done?))
      ensures created.Failed? ==> webrtc.peerConnection == old(webrtc.peerConnection)
      ensures callState == if created.Done? && media.Ok? then old(callState).(localStream := Some(media.value)) else old(callState)
      ensures pendingOffer == (if ready then None else old(pendingOffer))
      ensures pendingIce == (if ready then [] else old(pendingIce))
      ensures ready ==>
        webrtc.peerConnection ==
          Some(Peer(Seqs.Distinct(TrackIds(media.value.tracks)), None, old(pendingOffer), Seqs.Filter(old(pendingIce), accepts)))
    {
      var r := webrtc.InitializePeerConnection(created);
      if r.Failed? {
        return false;
      }
      var stream := webrtc.GetUserMedia(media);
      if stream.Err? {
        return false;
      }
      callState := callState.(localStream := Some(stream.value));
      webrtc.AddLocalStreamToPeerConnection();
      if pendingOffer.Some? {
        var d := webrtc.SetRemoteDescription(pendingOffer.value, remoteApplied);
        if d.Failed? {
          return false;
        }
        pendingOffer := None;
      }
      ReplayQueued(accepts);
      assert [] + Seqs.Filter(old(pendingIce), accepts) == Seqs.Filter(old(pendingIce), accepts);
      return true;
    }

    /** The answer goes to the caller, then "call-accepted". */
    method AnswerCaller(caller: string, d: Description)
      requires signaling != null
      modifies signaling
      ensures signaling.Sent([CallAnswer(old(signaling.currentUserId), caller, d), CallAccepted(old(signaling.currentUserId), caller)])
    {
      signaling.SendAnswer(caller, d);
      signaling.AcceptCall(caller);
    }

    /**
     * The queued candidates are handed to the connection in queue order (a
     * refused one is dropped without stopping the rest) and the queue is
     * emptied.
     */
    method ReplayQueued(accepts: Candidate -> bool)
      requires Valid() && webrtc != null && webrtc.peerConnection.Some?
      modifies this, webrtc
      ensures Valid() && Kept() && pendingIce == []
      ensures callState == old(callState) && targetUserId == old(targetUserId) && pendingOffer == old(pendingOffer)
      ensures webrtc.peerConnection ==
        Some(old(webrtc.peerConnection).value.(candidates := old(webrtc.peerConnection).value.candidates + Seqs.Filter(old(pendingIce), accepts)))
      ensures webrtc.localStream == old(webrtc.localStream) && webrtc.remoteStream == old(webrtc.remoteStream)
      ensures webrtc.effects == old(webrtc.effects)
    {
      var session := webrtc;
      ghost var before := session.peerConnection.value;
      var queue := pendingIce;
      var i := 0;
      assert queue[..0] == [] && before.candidates + [] == before.candidates;
      while i < |queue|
        invariant i <= |queue|
        invariant session.peerConnection == Some(before.(candidates := before.candidates + Seqs.Filter(queue[..i], accepts)))
        invariant session.localStream == old(session.localStream) && session.remoteStream == old(session.remoteStream)
        invariant session.effects == old(session.effects)
        invariant unchanged(this)
      {
        ghost var kept := Seqs.Filter(queue[..i], accepts);
        ghost var added: seq<Candidate> := if accepts(queue[i]) then [queue[i]] else [];
        Seqs.FilterSnoc(queue[..i], queue[i], accepts);
        assert queue[..i + 1] == queue[..i] + [queue[i]];
        assert Seqs.Filter(queue[..i + 1], accepts) == kept + added;
        assert before.candidates + kept + added == before.candidates + (kept + added);
        var _ := session.AddIceCandidate(queue[i], accepts(queue[i]));
        assert session.peerConnection == Some(before.(candidates := before.candidates + Seqs.Filter(queue[..i + 1], accepts)));
        i := i + 1;
      }
      assert queue[..i] == queue;
      pendingIce := [];
    }

    /**
     * The user declines: nothing without a caller. Otherwise a rejection is
     * sent to the caller and the caller, the pending offer and the other
     * party are forgotten; queued candidates stay.
     */
    method RejectCall()
      requires Valid()
      modifies this, signaling
      ensures Valid() && Kept()
      ensures pendingIce == old(pendingIce)
      ensures signaling == null || old(callState).callerId == "" ==>
        callState == old(callState) && targetUserId == old(targetUserId) && pendingOffer == old(pendingOffer) &&
        (signaling != null ==> unchanged(signaling))
      ensures signaling != null && old(callState).callerId != "" ==>
        signaling.Sent([CallRejected(old(signaling.currentUserId), old(callState).callerId, "declined")]) &&
        callState == Declined(old(callState)) && targetUserId == "" && pendingOffer == None
    {
      if signaling == null || callState.callerId == "" {
        return;
      }
      signaling.RejectCall(callState.callerId, "");
      callState := Declined(callState);
      pendingOffer := None;
      targetUserId := "";
    }

    /**
     * What `endCall` does, reading the streams of `view`: the session is
     * ended; "call-ended" goes to the recorded party whenever there is one;
     * the tracks of `view`'s streams are stopped; the other party and the
     * pending offer are forgotten and the call state is reset. The candidate
     * queue is left as it is.
     */
    twostate predicate Ended(view: CallState)
      reads this, webrtc, signaling
    {
      webrtc == old(webrtc) && signaling == old(signaling) && listening == old(listening) && captured == old(captured) &&
      Quiet() && pendingIce == old(pendingIce) &&
      stopped == old(stopped) + IdsOf(view.localStream) + IdsOf(view.remoteStream) &&
      (webrtc != null ==>
         webrtc.effects == old(webrtc.effects) + StopsOf(old(webrtc.localStream)) +
                           (if old(webrtc.peerConnection).Some? then [ClosePeer] else [])) &&
      (signaling != null ==> signaling.Sent(if old(targetUserId) != "" then [CallEnded(old(signaling.currentUserId), old(targetUserId))] else []))
    }

    /** The user hangs up: `endCall` with the current streams. Once quiet, hanging up again changes nothing. */
    method EndCall()
      requires Valid()
      modifies this, webrtc, signaling
      ensures Valid() && Ended(old(callState))
      ensures old(Quiet()) ==>
        (callState == old(callState) && stopped == old(stopped) &&
         (webrtc != null ==> webrtc.effects == old(webrtc.effects)) && (signaling != null ==> signaling.sent == old(signaling.sent)))
    {
      EndCallWith(callState);
    }

    method EndCallWith(view: CallState)
      requires Valid()
      modifies this, webrtc, signaling
      ensures Valid() && Ended(view)
    {
      if webrtc != null {
        webrtc.EndCall();
      }
      if signaling != null && targetUserId != "" {
        signaling.EndCall(targetUserId);
      }
      StopTracks(view.localStream);
      StopTracks(view.remoteStream);
      targetUserId := "";
      pendingOffer := None;
      callState := Initial;
    }

    /** `getTracks().forEach(track => track.stop())` on a stream the hook holds. */
    method StopTracks(s: Option<Stream>)
      modifies this
      ensures stopped == old(stopped) + IdsOf(s)
      ensures callState == old(callState) && targetUserId == old(targetUserId) && pendingOffer == old(pendingOffer)
      ensures pendingIce == old(pendingIce) && webrtc == old(webrtc) && signaling == old(signaling)
      ensures listening == old(listening) && captured == old(captured)
    {
      if s.None? {
        return;
      }
      var tracks := s.value.tracks;
      var i := 0;
      while i < |tracks|
        invariant i <= |tracks|
        invariant stopped == old(stopped) + TrackIds(tracks)[..i]
        invariant callState == old(callState) && targetUserId == old(targetUserId) && pendingOffer == old(pendingOffer)
        invariant pendingIce == old(pendingIce) && webrtc == old(webrtc) && signaling == old(signaling)
        invariant listening == old(listening) && captured == old(captured)
      {
        assert TrackIds(tracks)[..i + 1] == TrackIds(tracks)[..i] + [tracks[i].id];
        stopped := stopped + [tracks[i].id];
        i := i + 1;
      }
      assert TrackIds(tracks)[..i] == TrackIds(tracks);
    }

    /** The video toggle: the session's answer becomes `isVideoEnabled`. */
    method ToggleVideo()
      requires Valid()
      modifies this, webrtc
      ensures Valid() && Kept()
      ensures targetUserId == old(targetUserId) && pendingOffer == old(pendingOffer) && pendingIce == old(pendingIce)
      ensures webrtc == null ==> callState == old(callState)
      ensures webrtc != null ==>
        var t := Toggle(old(webrtc.localStream), Video);
        callState == old(callState).(isVideoEnabled := t.enabled) && webrtc.localStream == t.stream &&
        webrtc.peerConnection == old(webrtc.peerConnection) && webrtc.remoteStream == old(webrtc.remoteStream) &&
        webrtc.effects == old(webrtc.effects)
    {
      if webrtc == null {
        return;
      }
      var enabled := webrtc.ToggleVideo();
      callState := callState.(isVideoEnabled := enabled);
    }

    /** The audio toggle: the session's answer becomes `isAudioEnabled`. */
    method ToggleAudio()
      requires Valid()
      modifies this, webrtc
      ensures Valid() && Kept()
      ensures targetUserId == old(targetUserId) && pendingOffer == old(pendingOffer) && pendingIce == old(pendingIce)
      ensures webrtc == null ==> callState == old(callState)
      ensures webrtc != null ==>
        var t := Toggle(old(webrtc.localStream), Audio);
        callState == old(callState).(isAudioEnabled := t.enabled) && webrtc.localStream == t.stream &&
        webrtc.peerConnection == old(webrtc.peerConnection) && webrtc.remoteStream == old(webrtc.remoteStream) &&
        webrtc.effects == old(webrtc.effects)
    {
      if webrtc == null {
        return;
      }
      var enabled := webrtc.ToggleAudio();
      callState := callState.(isAudioEnabled := enabled);
    }
  }
}
