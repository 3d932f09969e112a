# Two-party WebRTC client: signaling and connection lifecycle

This project models the signaling core of a browser client for one-to-one
audio/video calls. Two stateful pieces are modelled:

- **The connection manager** (`client/src/utils/webRTC.js`). This is the module
  state `localStream` and `peerConnection`, plus the operations guarded on it:
  - `getMediaStream`;
  - idempotent `createPeerConnection`, which attaches every local track once
    and installs the local-candidate observer;
  - `createOffer` and `createAnswer`;
  - `setRemoteAnswer`;
  - `addIceCandidate`, which swallows transport rejections.

  The socket relay is an append-only `outbox` of `offer`, `answer` and
  `ice-candidate` messages.
- **The session controller** (`client/src/components/VideoPlayer.tsx`). These
  are the component's state fields (`localStream`, `peerConnection`, `isMuted`,
  `isVideoOn`, `connectionStatus`) and its handlers:
  - the mute and camera toggles;
  - `startCall` and `endCall`;
  - the rest of `setupMedia` once capture settles;
  - the status observer;
  - the three inbound socket handlers.

The platform's `RTCPeerConnection` is a class `Rtc.PeerConnection`. Its state
is the record `PcState`: attached track ids, local and remote descriptions,
merged remote candidates, and a closed flag. A `MediaStream` is a class
holding a sequence of track values (`id`, `kind`, `enabled`, `stopped`). Both
are objects shared by reference:

- the component's `localStream` and `peerConnection` alias the manager's;
- `endCall` clears only the component's two fields;
- the manager's connection is closed through the alias but never reset.

So a later inbound offer still reaches `createAnswer` with the old, closed
connection. The model keeps this divergence visible, and
`Scenarios.CallEndedThenOffer` proves where it leads.

Each asynchronous function is one atomic step. Generated SDP bodies, the
capture result and the transport's verdict on a remote candidate come in as
parameters. The model uses these rules of the WebRTC API:

- a closed connection rejects `createOffer()` and `setRemoteDescription()`;
  these are the first awaited call of their operations;
- `addIceCandidate()` rejects on a closed connection and before a remote
  description is set.

An unhandled rejection ends the operation with nothing further done. The
model calls this `Rejected`.

What the client does not do, as the model makes visible:

- it has no early-candidate buffer. A candidate that arrives before the remote
  description is rejected by the connection and dropped (see the round-trip
  scenario);
- it has no terminal state and no cancellation token: after `endCall` the
  manager keeps its closed connection;
- it has no glare tie-break: an inbound offer always goes to `createAnswer`,
  whatever the local intent;
- the status line shows the platform's raw `iceConnectionState`. It can show
  six of the seven `RTCIceConnectionState` values, `completed` included, but
  never `closed`: the only `close()` is in `endCall`, and `close()` fires no
  state-change event.

Every relay goes through one method, `Emit`, and every commit of a
description or merge of a candidate goes through one helper that calls the
platform and records the effect in a ghost history at once. `Emit` can only
be called right after the commits its message depends on. The order of the
calls inside `createOffer` and `createAnswer` is therefore proved, not just
their end state.

Modules: `Signaling` (messages, descriptions, ICE states, status text),
`Media` (tracks, `MediaStream`, the toggle and stop functions and their
lemmas), `Rtc` (the peer connection), `WebRtc` (the connection manager),
`VideoPlayer` (the session controller), and `Scenarios` (whole-session runs
of one or two clients, proved from the contracts above).

## Model

| member | source | states |
|---|---|---|
| `Signaling.StatusText` | client/src/components/VideoPlayer.tsx:37-39 | the status text for a reported ICE state is that state's name and never equals "Connecting..." or "Call Ended" |
| `Signaling.StatusTextInjective` | client/src/components/VideoPlayer.tsx:38 | distinct ICE states give distinct status texts, so the status line identifies the latest reported state |
| `Media.ToggleKind` | client/src/components/VideoPlayer.tsx:66-68 | toggling kind k negates `enabled` on exactly the tracks of kind k and keeps every track's id, kind, position and `stopped` flag |
| `Media.ToggleKindInvolutive` | client/src/components/VideoPlayer.tsx:64-81 | toggling the same kind twice restores every track exactly |
| `Media.ToggleKindKeepsIds` | client/src/components/VideoPlayer.tsx:76-78 | toggling removes, adds and reorders no track, so the id list and id uniqueness are preserved |
| `Media.ToggleKindAgreement` | client/src/components/VideoPlayer.tsx:64-81 | if all tracks of kind j had `enabled == on`, after toggling kind k they have `!on` when j == k and still `on` otherwise |
| `Media.StopAll` | client/src/components/VideoPlayer.tsx:93 | stopping marks every track stopped and keeps its id, kind, position and `enabled` flag |
| `Media.StopAllIdempotent` | client/src/components/VideoPlayer.tsx:91-95 | stopping all tracks a second time changes nothing |
| `Media.StopAllKeepsIds` | client/src/components/VideoPlayer.tsx:93 | stopping keeps the id list, so id uniqueness is preserved |
| `Media.MediaStream.constructor` | client/src/utils/webRTC.js:17 | a captured stream holds exactly the granted tracks, with unique ids |
| `Rtc.PeerConnection.constructor` | client/src/utils/webRTC.js:29 | a new connection has no tracks, no descriptions, no candidates and is open |
| `Rtc.PeerConnection.AddTrack` | client/src/utils/webRTC.js:33 | appends one track id; the platform refuses a closed connection or a track already attached |
| `Rtc.PeerConnection.CreateOffer` | client/src/utils/webRTC.js:67 | yields an offer-typed description with the generated body exactly when the connection is open |
| `Rtc.PeerConnection.CreateAnswer` | client/src/utils/webRTC.js:81 | on an open connection yields an answer-typed description with the generated body |
| `Rtc.PeerConnection.SetLocalDescription` | client/src/utils/webRTC.js:68 | sets the local description and nothing else |
| `Rtc.PeerConnection.SetRemoteDescription` | client/src/utils/webRTC.js:80 | succeeds exactly when open, then sets the remote description; on rejection nothing changes |
| `Rtc.PeerConnection.AddIceCandidate` | client/src/utils/webRTC.js:100 | merges the candidate exactly when open, a remote description is set and the transport accepts it; otherwise nothing changes |
| `Rtc.PeerConnection.Close` | client/src/components/VideoPlayer.tsx:98 | marks the connection closed and keeps everything else |
| `WebRtc.RelayedInAppend` | client/src/utils/webRTC.js:46-84 | the messages relayed by a history split in two are those of the first part followed by those of the second |
| `WebRtc.ExtendOrdered` | client/src/utils/webRTC.js:67-84 | appending one operation's ordered steps keeps the whole history ordered: every offer relayed right after committing it locally, every answer right after a remote commit then the local commit of that answer |
| `WebRtc.ConnectionManager.constructor` | client/src/utils/webRTC.js:3-4 | the module starts with no stream, no connection, no observer and nothing sent |
| `WebRtc.ConnectionManager.GetMediaStream` | client/src/utils/webRTC.js:15-24 | on a granted capture `localStream` becomes a new stream of exactly those tracks and is returned; on failure nothing changes and the error propagates |
| `WebRtc.ConnectionManager.CreatePeerConnection` | client/src/utils/webRTC.js:27-58 | with a connection held, returns that same connection untouched and attaches nothing; otherwise assigns a new one, attaches every track id of `localStream` once in order and installs the candidate observer; with no stream it throws after assigning the bare connection |
| `WebRtc.ConnectionManager.OnIceCandidate` | client/src/utils/webRTC.js:46-51 | exists only once installed; relays exactly one `ice-candidate` for a non-null candidate and nothing for the null marker |
| `WebRtc.ConnectionManager.Emit` | client/src/utils/webRTC.js:49-84 | `socket.emit`: appends exactly the one message to the outbox and to the history; an `offer` only straight after its local commit, an `answer` only straight after a remote commit and its own local commit |
| `WebRtc.ConnectionManager.CommitLocal` | client/src/utils/webRTC.js:68-82 | `setLocalDescription` on an open connection: local := the description, nothing else changes, and the commit is recorded |
| `WebRtc.ConnectionManager.CommitRemote` | client/src/utils/webRTC.js:80-90 | `setRemoteDescription`: succeeds exactly when the connection is open; then remote := the description and the commit is recorded, otherwise nothing changes |
| `WebRtc.ConnectionManager.Merge` | client/src/utils/webRTC.js:100 | `addIceCandidate`: merges exactly when the connection is open, has a remote description and the transport accepts; then the merge is recorded, otherwise nothing changes |
| `WebRtc.ConnectionManager.CreateOffer` | client/src/utils/webRTC.js:61-71 | no connection: nothing changes; closed: rejected, nothing changes; otherwise local := offer, then `offer` with that same description is relayed, in that order |
| `WebRtc.ConnectionManager.CreateAnswer` | client/src/utils/webRTC.js:74-85 | no connection: nothing changes; closed: rejected, nothing changes; otherwise remote := offer, local := answer, then `answer` relayed, in that order, nothing relayed before both are set |
| `WebRtc.ConnectionManager.SetRemoteAnswer` | client/src/utils/webRTC.js:88-94 | no connection: nothing changes; otherwise remote := answer (unless closed); never relays anything |
| `WebRtc.ConnectionManager.AddIceCandidate` | client/src/utils/webRTC.js:97-106 | merges only with a connection and a truthy candidate the connection accepts; any rejection is swallowed with state unchanged; never relays |
| `VideoPlayer.SessionController.constructor` | client/src/components/VideoPlayer.tsx:18-22 | at mount: no stream or connection held, not muted, video on, status "Connecting...", capture pending, and the module state fresh |
| `VideoPlayer.SessionController.MediaResolved` | client/src/components/VideoPlayer.tsx:25-40 | failed capture: nothing else happens; success: the stream is stored, then the connection is created with exactly the granted tracks attached, stored, and observed for status |
| `VideoPlayer.SessionController.FlipTracks` | client/src/components/VideoPlayer.tsx:66-68 | the loop leaves the held stream's tracks equal to `ToggleKind` of the old tracks |
| `VideoPlayer.SessionController.StopTracks` | client/src/components/VideoPlayer.tsx:93 | the loop leaves the held stream's tracks equal to `StopAll` of the old tracks |
| `VideoPlayer.SessionController.ToggleMute` | client/src/components/VideoPlayer.tsx:64-71 | no stream: nothing changes; otherwise audio tracks toggled, video tracks untouched, `isMuted` flipped, and the buttons still agree with the tracks |
| `VideoPlayer.SessionController.ToggleVideo` | client/src/components/VideoPlayer.tsx:74-81 | no stream: nothing changes; otherwise video tracks toggled, audio tracks untouched, `isVideoOn` flipped, and the buttons still agree with the tracks |
| `VideoPlayer.SessionController.StartCall` | client/src/components/VideoPlayer.tsx:84-88 | without a held connection nothing changes, even if the manager still has one; with one the offer is committed and relayed |
| `VideoPlayer.SessionController.EndCall` | client/src/components/VideoPlayer.tsx:91-103 | stops every held track, closes the held connection, clears both component fields and sets the status to "Call Ended"; the manager's fields are untouched |
| `VideoPlayer.SessionController.OnIceConnectionStateChange` | client/src/components/VideoPlayer.tsx:37-39 | the status becomes the reported state's text (never `closed`) and nothing else changes |
| `VideoPlayer.SessionController.OnOffer` | client/src/components/VideoPlayer.tsx:44-46 | routes to `createAnswer` on the manager's connection whatever the component holds |
| `VideoPlayer.SessionController.OnAnswer` | client/src/components/VideoPlayer.tsx:48-50 | routes to `setRemoteAnswer` with no state check and relays nothing |
| `VideoPlayer.SessionController.OnRemoteCandidate` | client/src/components/VideoPlayer.tsx:52-54 | routes to `addIceCandidate` with no state check; an early candidate is dropped, not buffered |
| `Scenarios.TwoClients` | client/src/components/VideoPlayer.tsx:24-40 | two mounted clients whose capture succeeded each hold a new connection with their own tracks attached and have sent nothing |
| `Scenarios.OfferAnswered` | client/src/components/VideoPlayer.tsx:44-46 | after the caller's `startCall` and the callee's answer to the relayed offer, caller local = offer; callee remote = offer, local = answer |
| `Scenarios.CandidatesGathered` | client/src/utils/webRTC.js:46-51 | the callee's observer relays exactly its two non-null candidates after the answer |
| `Scenarios.OfferAnswerRoundTrip` | client/src/components/VideoPlayer.tsx:44-54 | the full exchange leaves both sides with the same offer and answer in mirrored roles; when the relay delivers one of the callee's candidates ahead of its earlier answer, that candidate is dropped; the one delivered after the answer is merged |
| `Scenarios.CallEndedThenOffer` | client/src/components/VideoPlayer.tsx:84-103 | after `endCall`: `startCall` and a second `endCall` change nothing; the manager still holds the closed connection and stopped stream; an inbound offer is rejected there and relays nothing |
| `Scenarios.EndedBeforeCapture` | client/src/components/VideoPlayer.tsx:24-39 | an `endCall` before capture settles closes nothing: the captured stream is then held, a live connection with its track ids is created, and the next state change replaces "Call Ended" |
| `Scenarios.MuteTwiceVideoOnce` | client/src/components/VideoPlayer.tsx:64-81 | muting twice restores the audio tracks and `isMuted`; one video toggle disables only video; the buttons agree with the tracks |

Invariants kept by every operation:

- `ConnectionManager.Valid`: nothing is committed, merged or relayed before a
  connection exists; attached track ids are unique; the outbox equals the
  messages relayed in the history; offers and answers are relayed only after
  their commits.
- `SessionController.Valid`: the component holds either nothing or the
  manager's own stream and connection; a held connection is never closed;
  the mute and camera flags agree with the held tracks; the status line never
  reads `closed`.

## Left out

- Rendering, CSS and buttons (client/src/components/VideoPlayer.tsx:105-163): presentation only.
- `srcObject` assignment for local and remote video and the `ontrack` sink (VideoPlayer.tsx:29-31, webRTC.js:37-43): to the model they are opaque sinks with no state.
- The manager's own `oniceconnectionstatechange` logger (webRTC.js:53-55): setupMedia overwrites it, and it only logs.
- SDP generation, ICE gathering, STUN configuration and `getUserMedia` internals (webRTC.js:6-12, 17, 67, 81): platform calls. They come in as parameters (generated bodies, capture result, transport verdict).
- The JSEP signaling-state rules (for instance, rejecting an answer while in the stable state): the model rejects only on a closed connection, and for candidates also before a remote description is set.
- Interleaving at `await` points and cancellation: each operation is one atomic step. So within one operation the connection cannot be closed between its platform calls, which is why `SetLocalDescription` and `CreateAnswer` require an open connection.
- React effect cleanup (`socket.off`, VideoPlayer.tsx:56-60) and re-mounting: the component is mounted once, and the capture continuation runs at most once (ghost `mediaPending`).
- The socket.io transport (`socket.js` is not part of this model): it appears only as the outbox and as calls to the inbound handlers.
- `console.log` and `console.error` calls.
- client/src/utils/webRTC.d.ts and client/src/App.tsx: type declarations and a wrapper with no behaviour.
- VideoPlayer.SessionController.OnIceConnectionStateChange: it requires an open connection and a state other than `closed`, because `close()` moves the state to `closed` without firing the event and no event fires after it. It is therefore not modelled as callable once `endCall` has closed the connection it observes, or with `closed`. An `endCall` that runs before capture settles closes nothing, so the call still goes ahead and its status is observed (`Scenarios.EndedBeforeCapture`).
- WebRtc.ConnectionManager.OnIceCandidate: it only requires the observer to be installed. It may therefore fire after the connection is closed, or before any local description is set (the platform gathers candidates only after `setLocalDescription`), neither of which the platform does. This is a wider environment than the real one.
