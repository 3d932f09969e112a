/** Local capture tracks and the MediaStream that holds them. */
module Media {

  type TrackId = string

  datatype Kind = Audio | Video

  /** A MediaStreamTrack as far as the client observes it. */
  datatype Track = Track(id: TrackId, kind: Kind, enabled: bool, stopped: bool)

  /** The ids of `ts`, in `getTracks()` order. */
  function Ids(ts: seq<Track>): (r: seq<TrackId>)
    ensures |r| == |ts|
    ensures forall i :: 0 <= i < |ts| ==> r[i] == ts[i].id
  {
    if ts == [] then [] else [ts[0].id] + Ids(ts[1..])
  }

  predicate NoDuplicates<T(==)>(s: seq<T>) {
    forall i, j :: 0 <= i < j < |s| ==> s[i] != s[j]
  }

  /** No two tracks of `ts` share an id. */
  predicate DistinctIds(ts: seq<Track>) {
    NoDuplicates(Ids(ts))
  }

  /** Tracks as a successful capture hands them over: unique ids, enabled, live. */
  predicate Live(ts: seq<Track>) {
    DistinctIds(ts) && forall i :: 0 <= i < |ts| ==> ts[i].enabled && !ts[i].stopped
  }

  /** Every track of kind `k` in `ts` has `enabled == on`. */
  predicate KindEnabled(ts: seq<Track>, k: Kind, on: bool) {
    forall i :: 0 <= i < |ts| && ts[i].kind == k ==> ts[i].enabled == on
  }

  /** The tracks after `track.enabled = !track.enabled` on each track of kind `k`. */
  function ToggleKind(ts: seq<Track>, k: Kind): (r: seq<Track>)
    ensures |r| == |ts|
    ensures forall i :: 0 <= i < |ts| ==>
              r[i].id == ts[i].id && r[i].kind == ts[i].kind && r[i].stopped == ts[i].stopped
    ensures forall i :: 0 <= i < |ts| ==>
              r[i].enabled == (if ts[i].kind == k then !ts[i].enabled else ts[i].enabled)
  {
    if ts == [] then []
    else
      var t := ts[0];
      [if t.kind == k then t.(enabled := !t.enabled) else t] + ToggleKind(ts[1..], k)
  }

  /** The tracks after `track.stop()` on each of them. */
  function StopAll(ts: seq<Track>): (r: seq<Track>)
    ensures |r| == |ts|
    ensures forall i :: 0 <= i < |ts| ==>
              r[i].id == ts[i].id && r[i].kind == ts[i].kind && r[i].enabled == ts[i].enabled && r[i].stopped
  {
    if ts == [] then [] else [ts[0].(stopped := true)] + StopAll(ts[1..])
  }

  /** Toggling one kind twice restores every track. */
  lemma ToggleKindInvolutive(ts: seq<Track>, k: Kind)
    ensures ToggleKind(ToggleKind(ts, k), k) == ts
  {
  }

  /** Toggling never adds, removes or reorders tracks, so unique ids stay unique. */
  lemma ToggleKindKeepsIds(ts: seq<Track>, k: Kind)
    ensures Ids(ToggleKind(ts, k)) == Ids(ts)
    ensures DistinctIds(ts) ==> DistinctIds(ToggleKind(ts, k))
  {
  }

  /** Toggling kind `k` flips the agreement of that kind and leaves the other kind's as it was. */
  lemma ToggleKindAgreement(ts: seq<Track>, k: Kind, j: Kind, on: bool)
    requires KindEnabled(ts, j, on)
    ensures KindEnabled(ToggleKind(ts, k), j, if j == k then !on else on)
  {
  }

  /** Stopping every track twice stops nothing further. */
  lemma StopAllIdempotent(ts: seq<Track>)
    ensures StopAll(StopAll(ts)) == StopAll(ts)
  {
  }

  /** Stopping keeps the tracks (and so their unique ids) in place. */
  lemma StopAllKeepsIds(ts: seq<Track>)
    ensures Ids(StopAll(ts)) == Ids(ts)
    ensures DistinctIds(ts) ==> DistinctIds(StopAll(ts))
  {
  }

  /** A MediaStream: one object whose tracks the module, the component and the
      peer connection (by id) all refer to. */
  class MediaStream {
    var tracks: seq<Track>

    ghost predicate Valid()
      reads this
    {
      DistinctIds(tracks)
    }

    constructor (ts: seq<Track>)
      requires DistinctIds(ts)
      ensures Valid() && tracks == ts
    {
      tracks := ts;
    }
  }
}
