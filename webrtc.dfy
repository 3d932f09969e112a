/** The connection manager: the module state `localStream` and `peerConnection`
    of client/src/utils/webRTC.js and the operations guarded on them. The relay
    is the append-only `outbox` of everything `socket.emit` sent. */
module WebRtc {
  import opened Signaling
  import opened Media
  import opened Rtc

  /** How one asynchronous operation settled: it ran to the end (`Done`), it
      logged a missing connection and returned (`NotInitialized` from
      `createOffer` and `createAnswer`, `NoConnection` from `setRemoteAnswer`:
      the same outcome, told apart only by which message was logged), or a
      platform call rejected and the rejection escaped the operation
      (`Rejected`). */
  datatype Completion = Done | NotInitialized | NoConnection | Rejected

  /** A description committed, a remote candidate merged or a message relayed
      by the manager, in the order it happened. */
  datatype Effect = CommittedLocal(desc: Desc) | CommittedRemote(desc: Desc) | Merged(cand: Cand) | Relayed(msg: Msg)

  /** The message an effect relays, if any. */
  function RelayedBy(e: Effect): (ms: seq<Msg>) {
    if e.Relayed? then [e.msg] else []
  }

  /** The messages relayed in `t`, in order. */
  function RelayedIn(t: seq<Effect>): (ms: seq<Msg>) {
    if t == [] then [] else RelayedBy(t[0]) + RelayedIn(t[1..])
  }

  /** Relaying distributes over concatenated histories. */
  lemma {:induction false} RelayedInAppend(a: seq<Effect>, b: seq<Effect>)
    ensures RelayedIn(a + b) == RelayedIn(a) + RelayedIn(b)
  {
    if a == [] {
      assert a + b == b;
    } else {
      calc {
        RelayedIn(a + b);
      == { assert (a + b)[0] == a[0] && (a + b)[1..] == a[1..] + b; }
        RelayedBy(a[0]) + RelayedIn(a[1..] + b);
      == { RelayedInAppend(a[1..], b); }
        RelayedBy(a[0]) + (RelayedIn(a[1..]) + RelayedIn(b));
      ==
        RelayedIn(a) + RelayedIn(b);
      }
    }
  }

  /** An `offer` is relayed only straight after the same description was
      committed locally; an `answer` only straight after a remote commit followed
      by the local commit of that answer. */
  ghost predicate RelaysFollowCommits(t: seq<Effect>) {
    (forall i :: 0 <= i < |t| && t[i].Relayed? && t[i].msg.Offer? ==>
       0 < i && t[i - 1] == CommittedLocal(t[i].msg.desc)) &&
    (forall i :: 0 <= i < |t| && t[i].Relayed? && t[i].msg.Answer? ==>
       1 < i && t[i - 1] == CommittedLocal(t[i].msg.desc) && t[i - 2].CommittedRemote?)
  }

  /** The history stays ordered when the steps of one operation are appended. */
  lemma ExtendOrdered(t: seq<Effect>, steps: seq<Effect>)
    requires RelaysFollowCommits(t)
    requires RelaysFollowCommits(steps)
    ensures RelaysFollowCommits(t + steps)
  {
  }

  class ConnectionManager {
    var localStream: MediaStream?
    var peerConnection: PeerConnection?
    /** Whether `onicecandidate` has been installed on `peerConnection`. */
    var candidateObserver: bool
    /** Every message `socket.emit` has sent, in order. */
    var outbox: seq<Msg>
    ghost var trace: seq<Effect>

    ghost predicate Valid()
      reads this, localStream, peerConnection
    {
      (localStream != null ==> localStream.Valid()) &&
      (peerConnection != null ==> NoDuplicates(peerConnection.attachedTracks)) &&
      (candidateObserver ==> peerConnection != null) &&
      // nothing is committed, merged or relayed before a connection exists
      (peerConnection == null ==> trace == []) &&
      outbox == RelayedIn(trace) &&
      RelaysFollowCommits(trace)
    }

    /** The module as loaded: no stream, no connection, nothing sent. */
    constructor ()
      ensures Valid()
      ensures localStream == null && peerConnection == null && !candidateObserver
      ensures outbox == [] && trace == []
    {
      localStream, peerConnection, candidateObserver, outbox := null, null, false, [];
      trace := [];
    }

    /** `getMediaStream`: `granted` is the platform's answer to the capture
        request, `None` when permission is denied or no device exists. On
        success the new stream becomes `localStream`; on failure the error is
        rethrown and nothing changes. */
    method GetMediaStream(granted: Option<seq<Track>>) returns (r: Option<MediaStream>)
      requires Valid()
      requires granted.Some? ==> Live(granted.value)
      modifies this
      ensures Valid()
      ensures peerConnection == old(peerConnection) && candidateObserver == old(candidateObserver)
      ensures outbox == old(outbox) && trace == old(trace)
      ensures granted.None? ==> r.None? && localStream == old(localStream)
      ensures granted.Some? ==>
                r.Some? && r.value == localStream && fresh(localStream) && localStream.tracks == granted.value
    {
      match granted
      case None =>
        r := None;
      case Some(ts) =>
        var s := new MediaStream(ts);
        localStream := s;
        r := Some(s);
    }

    /** `createPeerConnection`: idempotent. A held connection is returned as it
        is. Otherwise a new one is assigned, every track of `localStream` is
        attached once in order and the candidate observer is installed; with no
        `localStream`, reading its tracks throws (`None`) after the new
        connection was already assigned. */
    method CreatePeerConnection() returns (r: Option<PeerConnection>)
      requires Valid()
      modifies this
      ensures Valid()
      ensures localStream == old(localStream) && outbox == old(outbox) && trace == old(trace)
      ensures old(peerConnection) != null ==>
                r == Some(old(peerConnection)) && peerConnection == old(peerConnection) &&
                candidateObserver == old(candidateObserver)
      ensures old(peerConnection) == null ==>
                peerConnection != null && fresh(peerConnection) &&
                peerConnection.State() == Initial.(attachedTracks := peerConnection.attachedTracks)
      ensures old(peerConnection) == null && localStream == null ==>
                r.None? && peerConnection.attachedTracks == [] && !candidateObserver
      ensures old(peerConnection) == null && localStream != null ==>
                r == Some(peerConnection) && peerConnection.attachedTracks == Ids(localStream.tracks) &&
                candidateObserver
    {
      if peerConnection != null {
        r := Some(peerConnection);
        return;
      }
      var pc := new PeerConnection();
      peerConnection := pc;
      if localStream == null {
        r := None;
        return;
      }
      var ts := localStream.tracks;
      var i := 0;
      while i < |ts|
        invariant 0 <= i <= |ts|
        invariant |pc.attachedTracks| == i
        invariant forall j :: 0 <= j < i ==> pc.attachedTracks[j] == ts[j].id
        invariant pc.State() == Initial.(attachedTracks := pc.attachedTracks)
        modifies pc
      {
        pc.AddTrack(ts[i].id);
        i := i + 1;
      }
      assert pc.attachedTracks == Ids(ts);
      candidateObserver := true;
      r := Some(pc);
    }

    /** `socket.emit`: the only code that relays. An `offer` may go out only
        straight after its description was committed locally, an `answer`
        only straight after a remote commit and the local commit of that
        answer; the message is appended to the outbox and to the history. */
    method Emit(m: Msg)
      requires Valid() && peerConnection != null
      requires m.Offer? ==> 0 < |trace| && trace[|trace| - 1] == CommittedLocal(m.desc)
      requires m.Answer? ==>
                 1 < |trace| && trace[|trace| - 1] == CommittedLocal(m.desc) && trace[|trace| - 2].CommittedRemote?
      modifies this
      ensures Valid()
      ensures localStream == old(localStream) && peerConnection == old(peerConnection)
      ensures candidateObserver == old(candidateObserver)
      ensures outbox == old(outbox) + [m] && trace == old(trace) + [Relayed(m)]
    {
      var step := [Relayed(m)];
      assert step[1..] == [];
      RelayedInAppend(trace, step);
      outbox := outbox + [m];
      trace := trace + step;
    }

    /** `await peerConnection.setLocalDescription(d)` on an open connection,
        recorded in the history as soon as it settles. */
    method CommitLocal(d: Desc)
      requires Valid() && peerConnection != null && !peerConnection.closed
      modifies this, peerConnection
      ensures Valid()
      ensures localStream == old(localStream) && peerConnection == old(peerConnection)
      ensures candidateObserver == old(candidateObserver) && outbox == old(outbox)
      ensures peerConnection.State() == old(peerConnection.State()).(localDesc := Some(d))
      ensures trace == old(trace) + [CommittedLocal(d)]
    {
      peerConnection.SetLocalDescription(d);
      var step := [CommittedLocal(d)];
      RelayedInAppend(trace, step);
      ExtendOrdered(trace, step);
      trace := trace + step;
    }

    /** `await peerConnection.setRemoteDescription(d)`: rejected on a closed
        connection with nothing changed; otherwise recorded in the history as
        soon as it settles. */
    method CommitRemote(d: Desc) returns (ok: bool)
      requires Valid() && peerConnection != null
      modifies this, peerConnection
      ensures Valid()
      ensures localStream == old(localStream) && peerConnection == old(peerConnection)
      ensures candidateObserver == old(candidateObserver) && outbox == old(outbox)
      ensures ok == !old(peerConnection.closed)
      ensures ok ==>
                peerConnection.State() == old(peerConnection.State()).(remoteDesc := Some(d)) &&
                trace == old(trace) + [CommittedRemote(d)]
      ensures !ok ==> peerConnection.State() == old(peerConnection.State()) && trace == old(trace)
    {
      ok := peerConnection.SetRemoteDescription(d);
      if ok {
        var step := [CommittedRemote(d)];
        RelayedInAppend(trace, step);
        ExtendOrdered(trace, step);
        trace := trace + step;
      }
    }

    /** `await peerConnection.addIceCandidate(c)`: merged exactly when the
        connection is open, has a remote description and the transport accepts
        the candidate, and then recorded in the history. */
    method Merge(c: Cand, transportRejects: bool) returns (ok: bool)
      requires Valid() && peerConnection != null
      modifies this, peerConnection
      ensures Valid()
      ensures localStream == old(localStream) && peerConnection == old(peerConnection)
      ensures candidateObserver == old(candidateObserver) && outbox == old(outbox)
      ensures ok == (!old(peerConnection.closed) && old(peerConnection.remoteDesc).Some? && !transportRejects)
      ensures ok ==>
                peerConnection.State() == old(peerConnection.State()).(candidates := old(peerConnection.candidates) + [c]) &&
                trace == old(trace) + [Merged(c)]
      ensures !ok ==> peerConnection.State() == old(peerConnection.State()) && trace == old(trace)
    {
      ok := peerConnection.AddIceCandidate(c, transportRejects);
      if ok {
        var step := [Merged(c)];
        RelayedInAppend(trace, step);
        ExtendOrdered(trace, step);
        trace := trace + step;
      }
    }

    /** The `onicecandidate` observer, which exists once `createPeerConnection`
        installed it: a non-null candidate is relayed as `ice-candidate`, the
        null end-of-candidates marker is not. */
    method OnIceCandidate(c: Option<Cand>)
      requires Valid() && candidateObserver
      modifies this
      ensures Valid()
      ensures localStream == old(localStream) && peerConnection == old(peerConnection)
      ensures candidateObserver == old(candidateObserver)
      ensures c.Some? ==> outbox == old(outbox) + [IceCandidate(c.value)] &&
                          trace == old(trace) + [Relayed(IceCandidate(c.value))]
      ensures c.None? ==> outbox == old(outbox) && trace == old(trace)
    {
      if c.Some? {
        Emit(IceCandidate(c.value));
      }
    }

    /** `createOffer`: with no connection it logs and returns. Otherwise the
        generated offer is committed as the local description and only then
        relayed; on a closed connection `createOffer()` rejects first. */
    method CreateOffer(sdp: string) returns (r: Completion)
      requires Valid()
      modifies this, peerConnection
      ensures Valid()
      ensures localStream == old(localStream) && peerConnection == old(peerConnection)
      ensures candidateObserver == old(candidateObserver)
      ensures r == if peerConnection == null then NotInitialized
                   else if old(peerConnection.closed) then Rejected
                   else Done
      ensures r != Done ==> outbox == old(outbox) && trace == old(trace)
      ensures r != Done && peerConnection != null ==> peerConnection.State() == old(peerConnection.State())
      ensures r == Done ==>
                var offer := Desc(OfferType, sdp);
                peerConnection.State() == old(peerConnection.State()).(localDesc := Some(offer)) &&
                outbox == old(outbox) + [Offer(offer)] &&
                trace == old(trace) + [CommittedLocal(offer), Relayed(Offer(offer))]
    {
      if peerConnection == null {
        r := NotInitialized;
        return;
      }
      var offer := peerConnection.CreateOffer(sdp);
      if offer.None? {
        r := Rejected;
        return;
      }
      CommitLocal(offer.value);
      Emit(Offer(offer.value));
      r := Done;
    }

    /** `createAnswer`: with no connection it logs and returns. Otherwise the
        offer is committed as the remote description, the generated answer as
        the local one, and only then the answer is relayed; on a closed
        connection `setRemoteDescription` rejects first. */
    method CreateAnswer(offer: Desc, sdp: string) returns (r: Completion)
      requires Valid()
      modifies this, peerConnection
      ensures Valid()
      ensures localStream == old(localStream) && peerConnection == old(peerConnection)
      ensures candidateObserver == old(candidateObserver)
      ensures r == if peerConnection == null then NotInitialized
                   else if old(peerConnection.closed) then Rejected
                   else Done
      ensures r != Done ==> outbox == old(outbox) && trace == old(trace)
      ensures r != Done && peerConnection != null ==> peerConnection.State() == old(peerConnection.State())
      ensures r == Done ==>
                var answer := Desc(AnswerType, sdp);
                peerConnection.State() == old(peerConnection.State()).(remoteDesc := Some(offer), localDesc := Some(answer)) &&
                outbox == old(outbox) + [Answer(answer)] &&
                trace == old(trace) + [CommittedRemote(offer), CommittedLocal(answer), Relayed(Answer(answer))]
    {
      if peerConnection == null {
        r := NotInitialized;
        return;
      }
      var ok := CommitRemote(offer);
      if !ok {
        r := Rejected;
        return;
      }
      var answer := peerConnection.CreateAnswer(sdp);
      CommitLocal(answer);
      Emit(Answer(answer));
      r := Done;
    }

    /** `setRemoteAnswer`: with no connection it only logs; otherwise the answer
        becomes the remote description. Nothing is relayed either way. */
    method SetRemoteAnswer(answer: Desc) returns (r: Completion)
      requires Valid()
      modifies this, peerConnection
      ensures Valid()
      ensures localStream == old(localStream) && peerConnection == old(peerConnection)
      ensures candidateObserver == old(candidateObserver) && outbox == old(outbox)
      ensures r == if peerConnection == null then NoConnection
                   else if old(peerConnection.closed) then Rejected
                   else Done
      ensures r != Done ==> trace == old(trace)
      ensures r != Done && peerConnection != null ==> peerConnection.State() == old(peerConnection.State())
      ensures r == Done ==>
                peerConnection.State() == old(peerConnection.State()).(remoteDesc := Some(answer)) &&
                trace == old(trace) + [CommittedRemote(answer)]
    {
      if peerConnection == null {
        r := NoConnection;
        return;
      }
      var ok := CommitRemote(answer);
      r := if ok then Done else Rejected;
    }

    /** `addIceCandidate`: acts only with a connection and a truthy candidate.
        The connection merges the candidate unless it rejects it (closed, no
        remote description yet, or refused by the transport); a rejection is
        caught and logged, so nothing changes and nothing propagates. */
    method AddIceCandidate(c: Option<Cand>, transportRejects: bool)
      requires Valid()
      modifies this, peerConnection
      ensures Valid()
      ensures localStream == old(localStream) && peerConnection == old(peerConnection)
      ensures candidateObserver == old(candidateObserver) && outbox == old(outbox)
      ensures var merged := peerConnection != null && c.Some? && !old(peerConnection.closed) &&
                            old(peerConnection.remoteDesc).Some? && !transportRejects;
              (merged ==>
                 peerConnection.State() == old(peerConnection.State()).(candidates := old(peerConnection.candidates) + [c.value]) &&
                 trace == old(trace) + [Merged(c.value)]) &&
              (!merged ==>
                 trace == old(trace) && (peerConnection != null ==> peerConnection.State() == old(peerConnection.State())))
    {
      if peerConnection != null && c.Some? {
        var _ := Merge(c.value, transportRejects);
      }
    }
  }
}
