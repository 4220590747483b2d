/**
 * The client's signalling envelope builder: it stamps every outgoing call
 * message with the signed-in user's id and emits it on the shared socket,
 * provided a socket is held and the user id is set.
 */
module Signaling {
  import opened Wire

  /** The reason sent with a rejection: the one given, or "declined" when none is. */
  function RejectReason(reason: string): (r: string)
    ensures r != ""
    ensures reason != "" ==> r == reason
    ensures reason == "" ==> r == "declined"
  {
    if reason != "" then reason else "declined"
  }

  class SignalingService {
    /** Whether the service still holds its socket (`disconnect` drops it). */
    var hasSocket: bool
    /** The signed-in user's id; "" while unset. */
    var currentUserId: string
    /** The signed-in user's type; "" while unset. */
    var userType: string
    /** Every event emitted on the socket, in order. */
    var sent: seq<Request>
    /** Whether `socket.disconnect()` has been called. */
    var closed: bool

    /** The guard of every send method. */
    predicate Ready()
      reads this
    {
      hasSocket && currentUserId != ""
    }

    /** Only `sent` may have changed, and by `msgs` exactly when the guard held. */
    twostate predicate Sent(msgs: seq<Request>)
      reads this
    {
      hasSocket == old(hasSocket) && currentUserId == old(currentUserId) &&
      userType == old(userType) && closed == old(closed) &&
      sent == old(sent) + (if old(Ready()) then msgs else [])
    }

    /** A service over the application's socket, with no user set yet. */
    constructor (hasSocket: bool)
      ensures this.hasSocket == hasSocket && currentUserId == "" && userType == ""
      ensures sent == [] && !closed
    {
      this.hasSocket := hasSocket;
      currentUserId, userType := "", "";
      sent, closed := [], false;
    }

    /** Records the id and type stamped on every later envelope. */
    method SetUserInfo(userId: string, uType: string)
      modifies this
      ensures currentUserId == userId && userType == uType
      ensures hasSocket == old(hasSocket) && sent == old(sent) && closed == old(closed)
    {
      currentUserId, userType := userId, uType;
    }

    method InitiateCall(to: string, toType: string)
      modifies this
      ensures Sent([Wire.InitiateCall(old(currentUserId), old(userType), to, toType)])
    {
      if !hasSocket || currentUserId == "" {
        return;
      }
      sent := sent + [Wire.InitiateCall(currentUserId, userType, to, toType)];
    }

    method SendOffer(to: string, offer: Description)
      modifies this
      ensures Sent([CallOffer(old(currentUserId), to, offer)])
    {
      if !hasSocket || currentUserId == "" {
        return;
      }
      sent := sent + [CallOffer(currentUserId, to, offer)];
    }

    method SendAnswer(to: string, answer: Description)
      modifies this
      ensures Sent([CallAnswer(old(currentUserId), to, answer)])
    {
      if !hasSocket || currentUserId == "" {
        return;
      }
      sent := sent + [CallAnswer(currentUserId, to, answer)];
    }

    method SendIceCandidate(to: string, candidate: Candidate)
      modifies this
      ensures Sent([IceCandidate(old(currentUserId), to, candidate)])
    {
      if !hasSocket || currentUserId == "" {
        return;
      }
      sent := sent + [IceCandidate(currentUserId, to, candidate)];
    }

    method AcceptCall(callerId: string)
      modifies this
      ensures Sent([CallAccepted(old(currentUserId), callerId)])
    {
      if !hasSocket || currentUserId == "" {
        return;
      }
      sent := sent + [CallAccepted(currentUserId, callerId)];
    }

    /** A missing reason (`undefined` or "") is sent as "declined". */
    method RejectCall(callerId: string, reason: string)
      modifies this
      ensures Sent([CallRejected(old(currentUserId), callerId, RejectReason(reason))])
    {
      if !hasSocket || currentUserId == "" {
        return;
      }
      sent := sent + [CallRejected(currentUserId, callerId, RejectReason(reason))];
    }

    method EndCall(to: string)
      modifies this
      ensures Sent([CallEnded(old(currentUserId), to)])
    {
      if !hasSocket || currentUserId == "" {
        return;
      }
      sent := sent + [CallEnded(currentUserId, to)];
    }

    /** Closes the socket once and drops it, so that every later send is a no-op. */
    method Disconnect()
      modifies this
      ensures !hasSocket && !Ready()
      ensures closed == (old(closed) || old(hasSocket))
      ensures currentUserId == old(currentUserId) && userType == old(userType) && sent == old(sent)
    {
      if hasSocket {
        closed := true;
        hasSocket := false;
      }
    }
  }
}
