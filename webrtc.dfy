/**
 * The client's negotiation session: one peer connection, the local camera
 * and microphone stream and the remote stream, each either absent (`null`)
 * or present. The browser's answers (whether a peer connection could be
 * created, the media granted, the descriptions produced, whether applying
 * one succeeded) are parameters of the methods that ask for them.
 */
module Negotiation {
  import opened Wrappers
  import opened Wire
  import Seqs

  datatype Kind = Audio | Video

  /** A `MediaStreamTrack`: its id, its kind and its `enabled` flag. */
  datatype Track = Track(id: string, kind: Kind, enabled: bool)

  datatype Stream = Stream(id: string, tracks: seq<Track>)

  /** `RTCPeerConnectionState`. */
  datatype ConnectionState = New | Connecting | Connected | Disconnected | Failed | Closed

  /**
   * An `RTCPeerConnection` as the call flow observes it: the ids of the
   * local tracks it sends, its local and remote descriptions, and the remote
   * candidates it has taken, in order.
   */
  datatype Peer = Peer(sending: seq<string>, localDescription: Option<Description>,
                       remoteDescription: Option<Description>, candidates: seq<Candidate>)

  const FreshPeer: Peer := Peer([], None, None, [])

  /** The message of the error raised when no peer connection exists. */
  const NotInitialized: string := "Peer connection not initialized"

  /** What the session does to the media devices and the network: stopping a track, closing a connection. */
  datatype MediaEffect = StopTrack(trackId: string) | ClosePeer

  function TrackIds(tracks: seq<Track>): (ids: seq<string>)
    ensures |ids| == |tracks|
    ensures forall i :: 0 <= i < |tracks| ==> ids[i] == tracks[i].id
  {
    seq(|tracks|, i requires 0 <= i < |tracks| => tracks[i].id)
  }

  /** Stopping every track of the stream, in order; nothing for an absent stream. */
  function StopsOf(s: Option<Stream>): (r: seq<MediaEffect>)
    ensures s.None? ==> r == []
    ensures s.Some? ==> |r| == |s.value.tracks| && forall i :: 0 <= i < |r| ==> r[i] == StopTrack(s.value.tracks[i].id)
  {
    if s.None? then [] else seq(|s.value.tracks|, i requires 0 <= i < |s.value.tracks| => StopTrack(s.value.tracks[i].id))
  }

  /** The position of the first track of kind `k` (`getVideoTracks()[0]`, `getAudioTracks()[0]`), or `|tracks|`. */
  function FirstOfKind(tracks: seq<Track>, k: Kind): (i: nat)
    ensures i <= |tracks|
    ensures i < |tracks| ==> tracks[i].kind == k
    ensures forall j :: 0 <= j < i ==> tracks[j].kind != k
  {
    if tracks == [] then 0 else if tracks[0].kind == k then 0 else 1 + FirstOfKind(tracks[1..], k)
  }

  /** The local stream after a toggle, and the value the toggle returns. */
  datatype Toggled = Toggled(stream: Option<Stream>, enabled: bool)

  /**
   * `toggleVideo` / `toggleAudio`: false when there is no local stream or no
   * track of the kind; otherwise the first such track's flag is flipped and
   * its new value returned. No other track changes.
   */
  function Toggle(local: Option<Stream>, k: Kind): (r: Toggled)
    ensures local.None? ==> r == Toggled(None, false)
    ensures local.Some? && FirstOfKind(local.value.tracks, k) == |local.value.tracks| ==> r == Toggled(local, false)
    ensures local.Some? && FirstOfKind(local.value.tracks, k) < |local.value.tracks| ==>
      var ts, i := local.value.tracks, FirstOfKind(local.value.tracks, k);
      r.stream.Some? && r.stream.value.id == local.value.id && |r.stream.value.tracks| == |ts| &&
      r.stream.value.tracks[i] == ts[i].(enabled := !ts[i].enabled) && r.enabled == !ts[i].enabled &&
      forall j :: 0 <= j < |ts| && j != i ==> r.stream.value.tracks[j] == ts[j]
  {
    if local.None? then Toggled(None, false)
    else
      var ts := local.value.tracks;
      var i := FirstOfKind(ts, k);
      if i == |ts| then Toggled(local, false)
      else Toggled(Some(local.value.(tracks := ts[i := ts[i].(enabled := !ts[i].enabled)])), !ts[i].enabled)
  }

  /** The first track of a kind depends on the kinds alone. */
  lemma {:induction false} FirstOfKindByKinds(a: seq<Track>, b: seq<Track>, k: Kind)
    requires |a| == |b| && forall i :: 0 <= i < |a| ==> a[i].kind == b[i].kind
    ensures FirstOfKind(a, k) == FirstOfKind(b, k)
  {
    if a != [] {
      FirstOfKindByKinds(a[1..], b[1..], k);
    }
  }

  /** Toggling twice restores the stream, and the two calls report opposite values when a track exists. */
  lemma ToggleTwice(local: Option<Stream>, k: Kind)
    ensures Toggle(Toggle(local, k).stream, k).stream == local
    ensures local.Some? && FirstOfKind(local.value.tracks, k) < |local.value.tracks| ==>
      Toggle(Toggle(local, k).stream, k).enabled == !Toggle(local, k).enabled
  {
    if local.Some? {
      var ts := local.value.tracks;
      var i := FirstOfKind(ts, k);
      if i < |ts| {
        var once := Toggle(local, k).stream.value.tracks;
        FirstOfKindByKinds(ts, once, k);
        assert once[i := ts[i]] == ts;
      }
    }
  }

  class WebRTCService {
    var peerConnection: Option<Peer>
    var localStream: Option<Stream>
    var remoteStream: Option<Stream>
    /** Every track stopped and connection closed by the session, in order. */
    var effects: seq<MediaEffect>

    constructor ()
      ensures peerConnection == None && localStream == None && remoteStream == None && effects == []
    {
      peerConnection, localStream, remoteStream := None, None, None;
      effects := [];
    }

    /** Only the peer connection may have changed. */
    twostate predicate OnlyPeerChanged()
      reads this
    {
      localStream == old(localStream) && remoteStream == old(remoteStream) && effects == old(effects)
    }

    /**
     * A new connection replaces the current one, which is neither closed nor
     * stopped; a failure to create one is raised again.
     */
    method InitializePeerConnection(created: Outcome) returns (r: Outcome)
      modifies this
      ensures r == created
      ensures peerConnection == if created.Done? then Some(FreshPeer) else old(peerConnection)
      ensures OnlyPeerChanged()
    {
      if created.Failed? {
        return created;
      }
      peerConnection := Some(FreshPeer);
      r := Done;
    }

    /** The granted stream becomes the local stream; a refusal is raised again. */
    method GetUserMedia(media: Result<Stream>) returns (r: Result<Stream>)
      modifies this
      ensures r == media
      ensures localStream == if media.Ok? then Some(media.value) else old(localStream)
      ensures peerConnection == old(peerConnection) && remoteStream == old(remoteStream) && effects == old(effects)
    {
      if media.Err? {
        return media;
      }
      localStream := Some(media.value);
      r := media;
    }

    /**
     * Without a peer connection or a local stream nothing happens. Otherwise
     * every current sender is removed, then each local track is added in
     * order; adding a track that already has a sender raises an error that is
     * logged and skipped.
     */
    method AddLocalStreamToPeerConnection()
      modifies this
      ensures old(peerConnection).None? || old(localStream).None? ==> peerConnection == old(peerConnection)
      ensures old(peerConnection).Some? && old(localStream).Some? ==>
        peerConnection == Some(old(peerConnection).value.(sending := Seqs.Distinct(TrackIds(old(localStream).value.tracks))))
      ensures OnlyPeerChanged()
    {
      if peerConnection.None? || localStream.None? {
        return;
      }
      var senders := peerConnection.value.sending;
      var sending := senders;
      var i := 0;
      assert Seqs.Minus(senders, senders[..0]) == senders by {
        Seqs.FilterKeepsAll(senders, x => x !in senders[..0]);
      }
      while i < |senders|
        invariant i <= |senders|
        invariant sending == Seqs.Minus(senders, senders[..i])
        invariant unchanged(this)
      {
        Seqs.RemoveAfterMinus(senders, senders[..i], senders[i]);
        assert senders[..i] + [senders[i]] == senders[..i + 1];
        sending := Seqs.Remove(sending, senders[i]);
        i := i + 1;
      }
      Seqs.MinusAll(senders, senders[..i]);
      var tracks := localStream.value.tracks;
      var ids := TrackIds(tracks);
      var j := 0;
      while j < |tracks|
        invariant j <= |tracks|
        invariant sending == Seqs.Distinct(ids[..j])
      {
        assert ids[..j + 1][..j] == ids[..j];
        if tracks[j].id !in sending {
          sending := sending + [tracks[j].id];
        }
        j := j + 1;
      }
      assert ids[..|tracks|] == ids;
      peerConnection := Some(peerConnection.value.(sending := sending));
    }

    /** The shared contract of `createOffer` and `createAnswer`. */
    twostate predicate Described(created: Result<Description>, applied: Outcome, new r: Result<Description>)
      reads this
    {
      OnlyPeerChanged() &&
      (old(peerConnection).None? ==> r == Err(NotInitialized) && peerConnection == None) &&
      (old(peerConnection).Some? && created.Err? ==> r == created && peerConnection == old(peerConnection)) &&
      (old(peerConnection).Some? && created.Ok? && applied.Failed? ==>
         r == Err(applied.error) && peerConnection == old(peerConnection)) &&
      (old(peerConnection).Some? && created.Ok? && applied.Done? ==>
         r == created && peerConnection == Some(old(peerConnection).value.(localDescription := Some(created.value))))
    }

    /** The created offer is set as the local description before it is returned. */
    method CreateOffer(created: Result<Description>, applied: Outcome) returns (r: Result<Description>)
      modifies this
      ensures Described(created, applied, r)
      ensures r.Ok? ==> peerConnection.Some? && peerConnection.value.localDescription == Some(r.value)
    {
      if peerConnection.None? {
        return Err(NotInitialized);
      }
      if created.Err? {
        return created;
      }
      if applied.Failed? {
        return Err(applied.error);
      }
      peerConnection := Some(peerConnection.value.(localDescription := Some(created.value)));
      r := created;
    }

    /** The created answer is set as the local description before it is returned. */
    method CreateAnswer(created: Result<Description>, applied: Outcome) returns (r: Result<Description>)
      modifies this
      ensures Described(created, applied, r)
      ensures r.Ok? ==> peerConnection.Some? && peerConnection.value.localDescription == Some(r.value)
    {
      if peerConnection.None? {
        return Err(NotInitialized);
      }
      if created.Err? {
        return created;
      }
      if applied.Failed? {
        return Err(applied.error);
      }
      peerConnection := Some(peerConnection.value.(localDescription := Some(created.value)));
      r := created;
    }

    method SetRemoteDescription(d: Description, applied: Outcome) returns (r: Outcome)
      modifies this
      ensures old(peerConnection).None? ==> r == Outcome.Failed(NotInitialized) && peerConnection == None
      ensures old(peerConnection).Some? ==> (r == applied &&
        peerConnection == if applied.Done? then Some(old(peerConnection).value.(remoteDescription := Some(d))) else old(peerConnection))
      ensures OnlyPeerChanged()
    {
      if peerConnection.None? {
        return Outcome.Failed(NotInitialized);
      }
      if applied.Failed? {
        return applied;
      }
      peerConnection := Some(peerConnection.value.(remoteDescription := Some(d)));
      r := Done;
    }

    /** Raises only when there is no peer connection; a candidate the connection refuses is logged and dropped. */
    method AddIceCandidate(c: Candidate, accepted: bool) returns (r: Outcome)
      modifies this
      ensures old(peerConnection).None? ==> r == Outcome.Failed(NotInitialized) && peerConnection == None
      ensures old(peerConnection).Some? ==> (r == Done &&
        peerConnection == Some(old(peerConnection).value.(candidates := old(peerConnection).value.candidates + if accepted then [c] else [])))
      ensures OnlyPeerChanged()
    {
      if peerConnection.None? {
        return Outcome.Failed(NotInitialized);
      }
      if accepted {
        peerConnection := Some(peerConnection.value.(candidates := peerConnection.value.candidates + [c]));
      } else {
        assert peerConnection.value.candidates + [] == peerConnection.value.candidates;
      }
      r := Done;
    }

    method ToggleVideo() returns (enabled: bool)
      modifies this
      ensures Toggled(localStream, enabled) == Toggle(old(localStream), Video)
      ensures peerConnection == old(peerConnection) && remoteStream == old(remoteStream) && effects == old(effects)
    {
      var t := Toggle(localStream, Video);
      localStream, enabled := t.stream, t.enabled;
    }

    method ToggleAudio() returns (enabled: bool)
      modifies this
      ensures Toggled(localStream, enabled) == Toggle(old(localStream), Audio)
      ensures peerConnection == old(peerConnection) && remoteStream == old(remoteStream) && effects == old(effects)
    {
      var t := Toggle(localStream, Audio);
      localStream, enabled := t.stream, t.enabled;
    }

    /**
     * Stops every local track, closes the peer connection and forgets all
     * three; with nothing held, a second call does nothing.
     */
    method EndCall()
      modifies this
      ensures peerConnection == None && localStream == None && remoteStream == None
      ensures effects == old(effects) + StopsOf(old(localStream)) + (if old(peerConnection).Some? then [ClosePeer] else [])
      ensures old(localStream).None? && old(peerConnection).None? ==> effects == old(effects)
    {
      ghost var closing := if peerConnection.Some? then [ClosePeer] else [];
      if localStream.Some? {
        var tracks := localStream.value.tracks;
        var i := 0;
        while i < |tracks|
          invariant i <= |tracks|
          invariant effects == old(effects) + StopsOf(old(localStream))[..i]
          invariant peerConnection == old(peerConnection) && localStream == old(localStream)
        {
          assert StopsOf(old(localStream))[..i + 1] == StopsOf(old(localStream))[..i] + [StopTrack(tracks[i].id)];
          effects := effects + [StopTrack(tracks[i].id)];
          i := i + 1;
        }
        assert StopsOf(old(localStream))[..|tracks|] == StopsOf(old(localStream));
        localStream := None;
      } else {
        assert effects == old(effects) + StopsOf(old(localStream));
      }
      if peerConnection.Some? {
        effects := effects + [ClosePeer];
        peerConnection := None;
      }
      assert effects == old(effects) + StopsOf(old(localStream)) + closing;
      remoteStream := None;
    }

    /**
     * The `track` event: the first stream it carries becomes the remote stream
     * and is handed on, but only when it has at least one track.
     */
    method OnTrack(streams: seq<Stream>) returns (delivered: Option<Stream>)
      modifies this
      ensures delivered.Some? <==> |streams| > 0 && |streams[0].tracks| > 0
      ensures delivered.Some? ==> delivered.value == streams[0]
      ensures remoteStream == if delivered.Some? then delivered else old(remoteStream)
      ensures peerConnection == old(peerConnection) && localStream == old(localStream) && effects == old(effects)
    {
      if |streams| > 0 && |streams[0].tracks| > 0 {
        remoteStream := Some(streams[0]);
        return Some(streams[0]);
      }
      delivered := None;
    }

    /** The connection-state change is reported only while a peer connection is held. */
    method ReportedState(state: ConnectionState) returns (r: Option<ConnectionState>)
      ensures r.Some? <==> peerConnection.Some?
      ensures r.Some? ==> r.value == state
    {
      r := if peerConnection.Some? then Some(state) else None;
    }

    method IsPeerConnectionInitialized() returns (b: bool)
      ensures b <==> peerConnection.Some?
    {
      b := peerConnection.Some?;
    }
  }
}
