/** The platform's RTCPeerConnection, reduced to what the client drives: the
    tracks attached to it, its two descriptions, the remote candidates merged
    into it and whether it is closed. SDP generation and ICE are the platform's;
    generated SDP bodies come in as parameters. */
module Rtc {
  import opened Signaling
  import opened Media

  /** A snapshot of a peer connection's observable state. */
  datatype PcState = PcState(
    attachedTracks: seq<TrackId>,
    localDesc: Option<Desc>,
    remoteDesc: Option<Desc>,
    candidates: seq<Cand>,
    closed: bool)

  /** A connection that has just been constructed. */
  const Initial: PcState := PcState([], None, None, [], false)

  class PeerConnection {
    var attachedTracks: seq<TrackId>
    var localDesc: Option<Desc>
    var remoteDesc: Option<Desc>
    var candidates: seq<Cand>
    var closed: bool

    function State(): (s: PcState)
      reads this
    {
      PcState(attachedTracks, localDesc, remoteDesc, candidates, closed)
    }

    constructor ()
      ensures State() == Initial
    {
      attachedTracks, localDesc, remoteDesc, candidates, closed := [], None, None, [], false;
    }

    /** `addTrack`: refused by the platform on a closed connection or for a track
        already attached. */
    method AddTrack(id: TrackId)
      requires !closed && id !in attachedTracks
      modifies this
      ensures State() == old(State()).(attachedTracks := old(attachedTracks) + [id])
    {
      attachedTracks := attachedTracks + [id];
    }

    /** `createOffer()`: rejects once the connection is closed; otherwise yields an
        offer whose body the platform generates (`sdp`). */
    method CreateOffer(sdp: string) returns (r: Option<Desc>)
      ensures r.Some? <==> !closed
      ensures r.Some? ==> r.value.sdpType == OfferType && r.value.sdp == sdp
    {
      r := if closed then None else Some(Desc(OfferType, sdp));
    }

    /** `createAnswer()` on an open connection: an answer with the generated body. */
    method CreateAnswer(sdp: string) returns (r: Desc)
      requires !closed
      ensures r.sdpType == AnswerType && r.sdp == sdp
    {
      r := Desc(AnswerType, sdp);
    }

    /** `setLocalDescription(d)` on an open connection. */
    method SetLocalDescription(d: Desc)
      requires !closed
      modifies this
      ensures State() == old(State()).(localDesc := Some(d))
    {
      localDesc := Some(d);
    }

    /** `setRemoteDescription(d)`: rejects once the connection is closed. */
    method SetRemoteDescription(d: Desc) returns (ok: bool)
      modifies this
      ensures ok == !old(closed)
      ensures State() == if ok then old(State()).(remoteDesc := Some(d)) else old(State())
    {
      ok := !closed;
      if ok {
        remoteDesc := Some(d);
      }
    }

    /** `addIceCandidate(c)`: rejects on a closed connection, before a remote
        description is set, or when the transport refuses the candidate. */
    method AddIceCandidate(c: Cand, transportRejects: bool) returns (ok: bool)
      modifies this
      ensures ok == (!old(closed) && old(remoteDesc).Some? && !transportRejects)
      ensures State() == if ok then old(State()).(candidates := old(candidates) + [c]) else old(State())
    {
      ok := !closed && remoteDesc.Some? && !transportRejects;
      if ok {
        candidates := candidates + [c];
      }
    }

    /** `close()`: marks the connection closed and keeps everything else. */
    method Close()
      modifies this
      ensures State() == old(State()).(closed := true)
    {
      closed := true;
    }
  }
}
