/** The session controller: the state and handlers of the VideoPlayer component
    in client/src/components/VideoPlayer.tsx, over the connection manager of
    client/src/utils/webRTC.js. The component's `localStream` and
    `peerConnection` are its own fields; they alias the manager's objects and
    are cleared by `endCall`, whereas the manager's are never reset. */
module VideoPlayer {
  import opened Signaling
  import opened Media
  import opened Rtc
  import opened WebRtc

  /** The mute and camera buttons agree with the tracks: audio tracks are
      enabled exactly when not muted, video tracks exactly when the camera is on. */
  predicate ButtonsAgree(ts: seq<Track>, isMuted: bool, isVideoOn: bool) {
    KindEnabled(ts, Audio, !isMuted) && KindEnabled(ts, Video, isVideoOn)
  }

  class SessionController {
    const mgr: ConnectionManager
    var localStream: MediaStream?
    var peerConnection: PeerConnection?
    var isMuted: bool
    var isVideoOn: bool
    var connectionStatus: string
    /** Whether setupMedia has set `oniceconnectionstatechange` on the connection. */
    var statusObserved: bool
    /** The mount effect's `await getMediaStream()` has not resolved yet. */
    ghost var mediaPending: bool

    ghost predicate Valid()
      reads this, mgr, mgr.localStream, mgr.peerConnection, localStream, peerConnection
    {
      mgr.Valid() &&
      (localStream != null ==>
         localStream == mgr.localStream && ButtonsAgree(localStream.tracks, isMuted, isVideoOn)) &&
      // the component never holds a closed connection: only endCall closes it, and clears it too
      (peerConnection != null ==> peerConnection == mgr.peerConnection && !peerConnection.closed) &&
      (statusObserved ==> mgr.peerConnection != null) &&
      (mediaPending ==>
         localStream == null && peerConnection == null && mgr.peerConnection == null &&
         !statusObserved && !isMuted && isVideoOn) &&
      // `close()` fires no state-change event, so the status never reads "closed"
      connectionStatus != StatusText(Closed)
    }

    /** Page load and mount: the module state is fresh, the component's state
        has its initial values, the capture request is pending and the three
        socket handlers are registered. */
    constructor ()
      ensures Valid() && fresh(mgr) && mediaPending
      ensures mgr.localStream == null && mgr.peerConnection == null && mgr.outbox == []
      ensures localStream == null && peerConnection == null && !statusObserved
      ensures !isMuted && isVideoOn && connectionStatus == Connecting
    {
      mgr := new ConnectionManager();
      localStream, peerConnection := null, null;
      isMuted, isVideoOn := false, true;
      connectionStatus := Connecting;
      statusObserved := false;
      mediaPending := true;
    }

    /** The rest of `setupMedia`, once the capture request settles (`granted`).
        On failure the effect rejects and nothing else happens. On success the
        stream is stored and only then the connection is created (so the tracks
        it attaches exist), stored, and observed for the status line. */
    method MediaResolved(granted: Option<seq<Track>>)
      requires Valid() && mediaPending
      requires granted.Some? ==> Live(granted.value)
      modifies this, mgr
      ensures Valid() && !mediaPending
      ensures isMuted == old(isMuted) && isVideoOn == old(isVideoOn)
      ensures connectionStatus == old(connectionStatus) && mgr.outbox == old(mgr.outbox)
      ensures granted.None? ==>
                localStream == null && peerConnection == null && !statusObserved &&
                mgr.localStream == old(mgr.localStream) && mgr.peerConnection == null
      ensures granted.Some? ==>
                localStream != null && fresh(localStream) && localStream == mgr.localStream &&
                localStream.tracks == granted.value &&
                peerConnection != null && fresh(peerConnection) && peerConnection == mgr.peerConnection &&
                peerConnection.State() == Initial.(attachedTracks := Ids(granted.value)) &&
                mgr.candidateObserver && statusObserved
    {
      var stream := mgr.GetMediaStream(granted);
      mediaPending := false;
      if stream.None? {
        return;
      }
      localStream := stream.value;
      var pc := mgr.CreatePeerConnection();
      peerConnection := pc.value;
      statusObserved := true;
    }

    /** Negate `enabled` on every track of kind `k` of the held stream. */
    method FlipTracks(k: Kind)
      requires localStream != null
      modifies localStream
      ensures localStream.tracks == ToggleKind(old(localStream.tracks), k)
    {
      var ts := localStream.tracks;
      ghost var want := ToggleKind(ts, k);
      var i := 0;
      while i < |ts|
        invariant 0 <= i <= |ts| && |localStream.tracks| == |ts|
        invariant forall j :: 0 <= j < i ==> localStream.tracks[j] == want[j]
        invariant forall j :: i <= j < |ts| ==> localStream.tracks[j] == ts[j]
        modifies localStream
      {
        var t := localStream.tracks[i];
        if t.kind == k {
          localStream.tracks := localStream.tracks[i := t.(enabled := !t.enabled)];
        }
        i := i + 1;
      }
      assert localStream.tracks == want;
    }

    /** Call `stop()` on every track of the held stream. */
    method StopTracks()
      requires localStream != null
      modifies localStream
      ensures localStream.tracks == StopAll(old(localStream.tracks))
    {
      var ts := localStream.tracks;
      ghost var want := StopAll(ts);
      var i := 0;
      while i < |ts|
        invariant 0 <= i <= |ts| && |localStream.tracks| == |ts|
        invariant forall j :: 0 <= j < i ==> localStream.tracks[j] == want[j]
        invariant forall j :: i <= j < |ts| ==> localStream.tracks[j] == ts[j]
        modifies localStream
      {
        localStream.tracks := localStream.tracks[i := localStream.tracks[i].(stopped := true)];
        i := i + 1;
      }
      assert localStream.tracks == want;
    }

    /** `toggleMute`: with a stream, every audio track's `enabled` is negated and
        `isMuted` flips; video tracks, track count, ids and `stopped` flags stay.
        Without a stream nothing changes. */
    method ToggleMute()
      requires Valid()
      modifies this, localStream
      ensures Valid()
      ensures localStream == old(localStream) && peerConnection == old(peerConnection)
      ensures isVideoOn == old(isVideoOn) && connectionStatus == old(connectionStatus)
      ensures statusObserved == old(statusObserved) && mediaPending == old(mediaPending)
      ensures old(localStream) == null ==> isMuted == old(isMuted)
      ensures old(localStream) != null ==>
                localStream.tracks == ToggleKind(old(localStream.tracks), Audio) && isMuted == !old(isMuted)
    {
      if localStream != null {
        ToggleKindAgreement(localStream.tracks, Audio, Audio, !isMuted);
        ToggleKindAgreement(localStream.tracks, Audio, Video, isVideoOn);
        ToggleKindKeepsIds(localStream.tracks, Audio);
        FlipTracks(Audio);
        isMuted := !isMuted;
      }
    }

    /** `toggleVideo`: with a stream, every video track's `enabled` is negated and
        `isVideoOn` flips; audio tracks, track count, ids and `stopped` flags stay.
        Without a stream nothing changes. */
    method ToggleVideo()
      requires Valid()
      modifies this, localStream
      ensures Valid()
      ensures localStream == old(localStream) && peerConnection == old(peerConnection)
      ensures isMuted == old(isMuted) && connectionStatus == old(connectionStatus)
      ensures statusObserved == old(statusObserved) && mediaPending == old(mediaPending)
      ensures old(localStream) == null ==> isVideoOn == old(isVideoOn)
      ensures old(localStream) != null ==>
                localStream.tracks == ToggleKind(old(localStream.tracks), Video) && isVideoOn == !old(isVideoOn)
    {
      if localStream != null {
        ToggleKindAgreement(localStream.tracks, Video, Audio, !isMuted);
        ToggleKindAgreement(localStream.tracks, Video, Video, isVideoOn);
        ToggleKindKeepsIds(localStream.tracks, Video);
        FlipTracks(Video);
        isVideoOn := !isVideoOn;
      }
    }

    /** `startCall`: only a held connection leads to `createOffer`, which then
        commits and relays the offer (a held connection is never closed).
        Otherwise nothing happens, even if the manager still has a connection. */
    method StartCall(sdp: string)
      requires Valid()
      modifies mgr, mgr.peerConnection
      ensures Valid()
      ensures mgr.localStream == old(mgr.localStream) && mgr.peerConnection == old(mgr.peerConnection)
      ensures mgr.candidateObserver == old(mgr.candidateObserver)
      ensures peerConnection == null ==>
                mgr.outbox == old(mgr.outbox) && mgr.trace == old(mgr.trace) &&
                (mgr.peerConnection != null ==> mgr.peerConnection.State() == old(mgr.peerConnection.State()))
      ensures peerConnection != null ==>
                var offer := Desc(OfferType, sdp);
                peerConnection.State() == old(peerConnection.State()).(localDesc := Some(offer)) &&
                mgr.outbox == old(mgr.outbox) + [Offer(offer)]
    {
      if peerConnection != null {
        var _ := mgr.CreateOffer(sdp);
      }
    }

    /** `endCall`: stops every track of the held stream, closes the held
        connection, clears both component fields and shows "Call Ended". The
        manager keeps its (now closed) connection and its stream. */
    method EndCall()
      requires Valid()
      modifies this, localStream, peerConnection
      ensures Valid()
      ensures localStream == null && peerConnection == null && connectionStatus == CallEnded
      ensures isMuted == old(isMuted) && isVideoOn == old(isVideoOn)
      ensures statusObserved == old(statusObserved) && mediaPending == old(mediaPending)
      ensures old(localStream) != null ==> old(localStream).tracks == StopAll(old(localStream.tracks))
      ensures old(peerConnection) != null ==>
                old(peerConnection).State() == old(peerConnection.State()).(closed := true)
    {
      if localStream != null {
        StopAllKeepsIds(localStream.tracks);
        StopTracks();
        localStream := null;
      }
      if peerConnection != null {
        peerConnection.Close();
        peerConnection := null;
      }
      connectionStatus := CallEnded;
    }

    /** The `oniceconnectionstatechange` handler set by setupMedia: the status
        line shows the reported state. The platform reports states only for an
        open connection. */
    method OnIceConnectionStateChange(s: IceState)
      requires Valid() && statusObserved && !mgr.peerConnection.closed
      requires s != Closed
      modifies this
      ensures Valid()
      ensures connectionStatus == StatusText(s)
      ensures localStream == old(localStream) && peerConnection == old(peerConnection)
      ensures isMuted == old(isMuted) && isVideoOn == old(isVideoOn) && statusObserved
      ensures mediaPending == old(mediaPending)
    {
      connectionStatus := StatusText(s);
    }

    /** The `offer` socket handler: straight to `createAnswer`, whatever the
        component holds, so it answers on the manager's connection even after
        `endCall` (where that connection is closed and rejects). */
    method OnOffer(offer: Desc, sdp: string) returns (r: Completion)
      requires Valid()
      modifies mgr, mgr.peerConnection
      ensures Valid()
      ensures mgr.localStream == old(mgr.localStream) && mgr.peerConnection == old(mgr.peerConnection)
      ensures mgr.candidateObserver == old(mgr.candidateObserver)
      ensures r == if mgr.peerConnection == null then NotInitialized
                   else if old(mgr.peerConnection.closed) then Rejected
                   else Done
      ensures r != Done ==> mgr.outbox == old(mgr.outbox) &&
                            (mgr.peerConnection != null ==> mgr.peerConnection.State() == old(mgr.peerConnection.State()))
      ensures r == Done ==>
                var answer := Desc(AnswerType, sdp);
                mgr.peerConnection.State() ==
                  old(mgr.peerConnection.State()).(remoteDesc := Some(offer), localDesc := Some(answer)) &&
                mgr.outbox == old(mgr.outbox) + [Answer(answer)]
    {
      r := mgr.CreateAnswer(offer, sdp);
    }

    /** The `answer` socket handler: straight to `setRemoteAnswer`. */
    method OnAnswer(answer: Desc) returns (r: Completion)
      requires Valid()
      modifies mgr, mgr.peerConnection
      ensures Valid()
      ensures mgr.localStream == old(mgr.localStream) && mgr.peerConnection == old(mgr.peerConnection)
      ensures mgr.candidateObserver == old(mgr.candidateObserver)
      ensures mgr.outbox == old(mgr.outbox)
      ensures r == if mgr.peerConnection == null then NoConnection
                   else if old(mgr.peerConnection.closed) then Rejected
                   else Done
      ensures r != Done && mgr.peerConnection != null ==>
                mgr.peerConnection.State() == old(mgr.peerConnection.State())
      ensures r == Done ==>
                mgr.peerConnection.State() == old(mgr.peerConnection.State()).(remoteDesc := Some(answer))
    {
      r := mgr.SetRemoteAnswer(answer);
    }

    /** The `ice-candidate` socket handler: straight to `addIceCandidate`; a
        candidate that arrives before the remote description is rejected by
        the connection and dropped, as nothing buffers it. */
    method OnRemoteCandidate(c: Option<Cand>, transportRejects: bool)
      requires Valid()
      modifies mgr, mgr.peerConnection
      ensures Valid()
      ensures mgr.localStream == old(mgr.localStream) && mgr.peerConnection == old(mgr.peerConnection)
      ensures mgr.candidateObserver == old(mgr.candidateObserver)
      ensures mgr.outbox == old(mgr.outbox)
      ensures var merged := mgr.peerConnection != null && c.Some? && !old(mgr.peerConnection.closed) &&
                            old(mgr.peerConnection.remoteDesc).Some? && !transportRejects;
              (merged ==>
                 mgr.peerConnection.State() ==
                   old(mgr.peerConnection.State()).(candidates := old(mgr.peerConnection.candidates) + [c.value])) &&
              (!merged && mgr.peerConnection != null ==>
                 mgr.peerConnection.State() == old(mgr.peerConnection.State()))
    {
      mgr.AddIceCandidate(c, transportRejects);
    }
  }
}
