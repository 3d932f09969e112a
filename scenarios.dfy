/** Whole-session runs of two clients over fresh state, proved from the
    contracts of the controller and the manager alone. Each relayed message is
    delivered by reading it from the sender's outbox. */
module Scenarios {
  import opened Signaling
  import opened Media
  import opened Rtc
  import opened WebRtc
  import opened VideoPlayer

  /** Two clients, each on its own fresh page, that have both acquired media
      and created their connections. */
  method TwoClients(tracksA: seq<Track>, tracksB: seq<Track>) returns (a: SessionController, b: SessionController)
    requires Live(tracksA) && Live(tracksB)
    ensures a.Valid() && b.Valid()
    ensures fresh(a) && fresh(a.mgr) && fresh(a.peerConnection) && fresh(b) && fresh(b.mgr) && fresh(b.peerConnection)
    ensures {a, a.mgr} !! {b, b.mgr}
    ensures a.peerConnection != null && b.peerConnection != null && a.peerConnection != b.peerConnection
    ensures a.mgr.peerConnection == a.peerConnection && b.mgr.peerConnection == b.peerConnection
    ensures a.peerConnection.State() == Initial.(attachedTracks := Ids(tracksA)) && a.mgr.candidateObserver
    ensures b.peerConnection.State() == Initial.(attachedTracks := Ids(tracksB)) && b.mgr.candidateObserver
    ensures a.mgr.outbox == [] && b.mgr.outbox == []
  {
    a := new SessionController();
    b := new SessionController();
    a.MediaResolved(Some(tracksA));
    b.MediaResolved(Some(tracksB));
  }

  /** Caller `a` starts the call and callee `b` answers the relayed offer. */
  method OfferAnswered(tracksA: seq<Track>, tracksB: seq<Track>, offerSdp: string, answerSdp: string)
    returns (a: SessionController, b: SessionController)
    requires Live(tracksA) && Live(tracksB)
    ensures a.Valid() && b.Valid()
    ensures fresh(a) && fresh(a.mgr) && fresh(a.peerConnection) && fresh(b) && fresh(b.mgr) && fresh(b.peerConnection)
    ensures {a, a.mgr} !! {b, b.mgr}
    ensures a.peerConnection != null && b.peerConnection != null && a.peerConnection != b.peerConnection
    ensures a.mgr.peerConnection == a.peerConnection && b.mgr.peerConnection == b.peerConnection
    ensures a.peerConnection.State() == PcState(Ids(tracksA), Some(Desc(OfferType, offerSdp)), None, [], false)
    ensures b.peerConnection.State() ==
              PcState(Ids(tracksB), Some(Desc(AnswerType, answerSdp)), Some(Desc(OfferType, offerSdp)), [], false)
    ensures a.mgr.outbox == [Offer(Desc(OfferType, offerSdp))] && b.mgr.outbox == [Answer(Desc(AnswerType, answerSdp))]
    ensures a.mgr.candidateObserver && b.mgr.candidateObserver
  {
    a, b := TwoClients(tracksA, tracksB);
    a.StartCall(offerSdp);
    var _ := b.OnOffer(a.mgr.outbox[0].desc, answerSdp);
  }

  /** After `OfferAnswered`, the callee's candidate observer relays two
      candidates and skips the null end-of-candidates marker. */
  method CandidatesGathered(tracksA: seq<Track>, tracksB: seq<Track>, offerSdp: string, answerSdp: string,
                            early: Cand, late: Cand)
    returns (a: SessionController, b: SessionController)
    requires Live(tracksA) && Live(tracksB)
    ensures a.Valid() && b.Valid()
    ensures fresh(a) && fresh(a.mgr) && fresh(a.peerConnection) && fresh(b) && fresh(b.mgr) && fresh(b.peerConnection)
    ensures {a, a.mgr} !! {b, b.mgr}
    ensures a.peerConnection != null && b.peerConnection != null && a.peerConnection != b.peerConnection
    ensures a.mgr.peerConnection == a.peerConnection && b.mgr.peerConnection == b.peerConnection
    ensures a.peerConnection.State() == PcState(Ids(tracksA), Some(Desc(OfferType, offerSdp)), None, [], false)
    ensures b.peerConnection.State() ==
              PcState(Ids(tracksB), Some(Desc(AnswerType, answerSdp)), Some(Desc(OfferType, offerSdp)), [], false)
    ensures a.mgr.outbox == [Offer(Desc(OfferType, offerSdp))]
    ensures b.mgr.outbox == [Answer(Desc(AnswerType, answerSdp)), IceCandidate(early), IceCandidate(late)]
  {
    a, b := OfferAnswered(tracksA, tracksB, offerSdp, answerSdp);
    b.mgr.OnIceCandidate(Some(early));
    b.mgr.OnIceCandidate(None);
    b.mgr.OnIceCandidate(Some(late));
  }

  /** The whole exchange: after `CandidatesGathered`, `a` applies the relayed
      answer. `b` sent its answer before its candidates, so the run has the
      relay deliver two messages of one sender out of order: `early` reaches
      `a` before the answer and is dropped, `late` arrives after it and is
      merged. Both sides end with the same offer and answer, each on its own
      side. */
  method OfferAnswerRoundTrip(tracksA: seq<Track>, tracksB: seq<Track>, offerSdp: string, answerSdp: string,
                              early: Cand, late: Cand)
    returns (a: SessionController, b: SessionController)
    requires Live(tracksA) && Live(tracksB)
    ensures a.mgr.peerConnection != null && b.mgr.peerConnection != null
    ensures a.mgr.peerConnection.State() ==
              PcState(Ids(tracksA), Some(Desc(OfferType, offerSdp)), Some(Desc(AnswerType, answerSdp)), [late], false)
    ensures b.mgr.peerConnection.State() ==
              PcState(Ids(tracksB), Some(Desc(AnswerType, answerSdp)), Some(Desc(OfferType, offerSdp)), [], false)
    ensures a.mgr.outbox == [Offer(Desc(OfferType, offerSdp))]
    ensures b.mgr.outbox == [Answer(Desc(AnswerType, answerSdp)), IceCandidate(early), IceCandidate(late)]
  {
    a, b := CandidatesGathered(tracksA, tracksB, offerSdp, answerSdp, early, late);
    a.OnRemoteCandidate(Some(b.mgr.outbox[1].cand), false);
    var _ := a.OnAnswer(b.mgr.outbox[0].desc);
    a.OnRemoteCandidate(Some(b.mgr.outbox[2].cand), false);
  }

  /** After `endCall` the component holds nothing, so `startCall` does
      nothing and a second `endCall` stops and closes nothing further; the
      manager still holds the closed connection, so an inbound offer reaches
      `createAnswer`, is rejected there and relays nothing. */
  method CallEndedThenOffer(tracks: seq<Track>, offerSdp: string, offer: Desc, answerSdp: string)
    returns (c: SessionController, r: Completion)
    requires Live(tracks)
    ensures c.localStream == null && c.peerConnection == null && c.connectionStatus == CallEnded
    ensures c.mgr.peerConnection != null && c.mgr.peerConnection.State() == Initial.(attachedTracks := Ids(tracks), closed := true)
    ensures c.mgr.localStream != null && c.mgr.localStream.tracks == StopAll(tracks)
    ensures r == Rejected && c.mgr.outbox == []
  {
    c := new SessionController();
    c.MediaResolved(Some(tracks));
    c.EndCall();
    c.StartCall(offerSdp);
    StopAllIdempotent(tracks);
    c.EndCall();
    r := c.OnOffer(offer, answerSdp);
  }

  /** `endCall` pressed while capture is still pending holds nothing to stop or
      close, so when capture then succeeds the call goes ahead: the stream is
      stored, a live connection is created and observed, and a later state
      change overwrites "Call Ended". */
  method EndedBeforeCapture(tracks: seq<Track>, s: IceState) returns (c: SessionController)
    requires Live(tracks) && s != Closed
    ensures c.localStream != null && c.localStream.tracks == tracks
    ensures c.peerConnection != null && c.peerConnection.State() == Initial.(attachedTracks := Ids(tracks))
    ensures c.connectionStatus == StatusText(s)
  {
    c := new SessionController();
    c.EndCall();
    c.MediaResolved(Some(tracks));
    c.OnIceConnectionStateChange(s);
  }

  /** Pressing mute twice and the camera button once: the audio tracks are back
      as captured, the video tracks are disabled, and the buttons agree. */
  method MuteTwiceVideoOnce(tracks: seq<Track>) returns (c: SessionController)
    requires Live(tracks)
    ensures c.localStream != null && !c.isMuted && !c.isVideoOn
    ensures c.localStream.tracks == ToggleKind(tracks, Video)
    ensures ButtonsAgree(c.localStream.tracks, c.isMuted, c.isVideoOn)
  {
    c := new SessionController();
    c.MediaResolved(Some(tracks));
    c.ToggleMute();
    c.ToggleMute();
    ToggleKindInvolutive(tracks, Audio);
    c.ToggleVideo();
  }
}
