/**
 * The messages exchanged over the signalling socket: what a client emits
 * (`socket.emit(event, payload)`) and what the server emits back. Session
 * descriptions and ICE candidates are carried unchanged, so their content is
 * opaque here.
 */
module Wire {
  datatype DescriptionKind = Offer | Answer

  /** An `RTCSessionDescriptionInit`: its type and its SDP text. */
  datatype Description = Description(kind: DescriptionKind, sdp: string)

  /** An `RTCIceCandidateInit`. */
  datatype Candidate = Candidate(candidate: string, sdpMid: string, sdpMLineIndex: int)

  /**
   * An event a client emits, with its payload. An absent or empty field of
   * the JSON payload is the empty string (both are falsy for the handlers).
   */
  datatype Request =
    | UserConnect(userId: string, userType: string)
    | InitiateCall(from: string, fromType: string, to: string, toType: string)
    | CallOffer(from: string, to: string, offer: Description)
    | CallAnswer(from: string, to: string, answer: Description)
    | IceCandidate(from: string, to: string, candidate: Candidate)
    | CallAccepted(from: string, to: string)
    | CallRejected(from: string, to: string, reason: string)
    | CallEnded(from: string, to: string)

  /** An event the server emits, with its payload. */
  datatype Notice =
    | StatusChanged(userId: string, isOnline: bool)   // "user-status-change"
    | Offline(userId: string)                         // "user-offline"
    | Busy(from: string, to: string)                  // "user-busy"
    | Incoming(from: string, fromType: string, fromName: string)  // "incoming-call"
    | Initiated(to: string, toType: string)           // "call-initiated"
    | TimeoutForCaller(to: string)                    // "call-timeout" { to }
    | TimeoutForCallee(from: string)                  // "call-timeout" { from }
    | Relayed(message: Request)                       // the same event and payload, passed on
}
