/** Values that travel over the relay (session descriptions, ICE candidates and
    the three socket events) and the ICE connection states that the status line
    shows. */
module Signaling {

  datatype Option<+T> = None | Some(value: T)

  datatype SdpType = OfferType | AnswerType

  /** An RTCSessionDescriptionInit: a type tag and an SDP body the platform generates. */
  datatype Desc = Desc(sdpType: SdpType, sdp: string)

  /** An RTCIceCandidateInit, kept opaque. */
  datatype Cand = Cand(candidate: string)

  /** The socket events `offer`, `answer` and `ice-candidate`, each with its payload. */
  datatype Msg = Offer(desc: Desc) | Answer(desc: Desc) | IceCandidate(cand: Cand)

  /** The platform's RTCIceConnectionState. */
  datatype IceState = New | Checking | Connected | Completed | Disconnected | Failed | Closed

  /** The status line before any ICE state is reported. */
  const Connecting: string := "Connecting..."

  /** The status line once the call has been ended. */
  const CallEnded: string := "Call Ended"

  /** The text the status line shows for a reported ICE connection state: the
      state's own name, which never reads like one of the two fixed texts. */
  function StatusText(s: IceState): (r: string)
    ensures r != Connecting && r != CallEnded
  {
    match s
    case New => "new"
    case Checking => "checking"
    case Connected => "connected"
    case Completed => "completed"
    case Disconnected => "disconnected"
    case Failed => "failed"
    case Closed => "closed"
  }

  /** Distinct states show distinct texts, so the status line identifies the
      latest reported state. */
  lemma StatusTextInjective(s: IceState, t: IceState)
    ensures StatusText(s) == StatusText(t) ==> s == t
  {
  }
}
