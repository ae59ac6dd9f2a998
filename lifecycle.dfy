/**
  The lifecycle signals the media engine delivers to one channel, and what
  each of them does to the three fields the channel records: the media
  handle, the last stream handle and the pipeline state. Engine objects are
  opaque identifiers here.
 */
module Lifecycle {
  import opened CText

  /** An engine media object (GstRTSPMedia), known only by identity. */
  type MediaId = nat
  /** An engine stream object (GstRTSPStream), known only by identity. */
  type StreamId = nat

  /** GstState */
  datatype GstState = VoidPending | Null | Ready | Paused | Playing

  /** The fields of a channel that the signal handlers write. The channel is
      allocated without zeroing, so a field holds nothing meaningful (None)
      until the first signal that writes it. */
  datatype Observed = Observed(media: Option<MediaId>, stream: Option<StreamId>, state: Option<GstState>)

  const Unobserved: Observed := Observed(None, None, None)

  /** The signals a channel is subscribed to. */
  datatype Signal =
    | MediaConstructed(media: MediaId)
    | MediaConfigure(media: MediaId)
    | NewState(reported: GstState)
    | TargetState(reported: GstState)
    | NewStream(stream: StreamId)
    | RemovedStream(stream: StreamId)
    | Prepared
    | Unprepared
  {
    /** new-state and target-state both report into the one state field. */
    predicate ReportsState() {
      NewState? || TargetState?
    }

    /** new-stream and removed-stream both store the stream they carry. */
    predicate ReportsStream() {
      NewStream? || RemovedStream?
    }

    /** media-constructed and media-configure both store the media. */
    predicate ReportsMedia() {
      MediaConstructed? || MediaConfigure?
    }
  }

  /** The handler of a signal: one field assignment, or nothing at all. */
  function Apply(t: Observed, s: Signal): (r: Observed)
    ensures s.ReportsState() ==> r == t.(state := Some(s.reported))
    ensures s.ReportsStream() ==> r == t.(stream := Some(s.stream))
    ensures s.ReportsMedia() ==> r == t.(media := Some(s.media))
    ensures s.Prepared? || s.Unprepared? ==> r == t
  {
    match s
    case MediaConstructed(m) => t.(media := Some(m))
    case MediaConfigure(m) => t.(media := Some(m))
    case NewState(st) => t.(state := Some(st))
    case TargetState(st) => t.(state := Some(st))
    case NewStream(x) => t.(stream := Some(x))
    case RemovedStream(x) => t.(stream := Some(x))
    case Prepared => t
    case Unprepared => t
  }

  /** The record after the handlers ran for each signal in order. */
  function Replay(t: Observed, signals: seq<Signal>): (r: Observed)
    ensures (forall k :: 0 <= k < |signals| ==> signals[k].Prepared? || signals[k].Unprepared?) ==> r == t
  {
    if signals == [] then t
    else Apply(Replay(t, signals[..|signals| - 1]), signals[|signals| - 1])
  }

  /** Position k holds the last state report of the sequence. */
  predicate LastStateReport(signals: seq<Signal>, k: int) {
    0 <= k < |signals| && signals[k].ReportsState() &&
    forall j :: k < j < |signals| ==> !signals[j].ReportsState()
  }

  predicate LastStreamReport(signals: seq<Signal>, k: int) {
    0 <= k < |signals| && signals[k].ReportsStream() &&
    forall j :: k < j < |signals| ==> !signals[j].ReportsStream()
  }

  predicate LastMediaReport(signals: seq<Signal>, k: int) {
    0 <= k < |signals| && signals[k].ReportsMedia() &&
    forall j :: k < j < |signals| ==> !signals[j].ReportsMedia()
  }

  /** The recorded state is whatever the latest new-state or target-state
      signal reported, and is untouched while none arrives. */
  lemma {:induction false} ReplayState(t: Observed, signals: seq<Signal>)
    ensures (forall j :: 0 <= j < |signals| ==> !signals[j].ReportsState()) ==>
              Replay(t, signals).state == t.state
    ensures forall k :: LastStateReport(signals, k) ==>
              Replay(t, signals).state == Some(signals[k].reported)
  {
    if signals != [] {
      var init, last := signals[..|signals| - 1], signals[|signals| - 1];
      ReplayState(t, init);
      assert Replay(t, signals) == Apply(Replay(t, init), last);
      forall k | LastStateReport(signals, k)
        ensures Replay(t, signals).state == Some(signals[k].reported)
      {
        if k < |signals| - 1 {
          assert LastStateReport(init, k);
        }
      }
    }
  }

  /** A sequence with any state report in it has a last one. */
  lemma {:induction false} SomeStateReportIsLast(signals: seq<Signal>, j: int)
    requires 0 <= j < |signals| && signals[j].ReportsState()
    ensures exists k :: LastStateReport(signals, k)
  {
    var last := |signals| - 1;
    if signals[last].ReportsState() {
      assert LastStateReport(signals, last);
    } else {
      var init := signals[..last];
      assert init[j] == signals[j];
      SomeStateReportIsLast(init, j);
      var k :| LastStateReport(init, k);
      assert LastStateReport(signals, k);
    }
  }

  /** The recorded stream is whatever the latest new-stream or
      removed-stream signal carried: a removal stores the removed stream. */
  lemma {:induction false} ReplayStream(t: Observed, signals: seq<Signal>)
    ensures (forall j :: 0 <= j < |signals| ==> !signals[j].ReportsStream()) ==>
              Replay(t, signals).stream == t.stream
    ensures forall k :: LastStreamReport(signals, k) ==>
              Replay(t, signals).stream == Some(signals[k].stream)
  {
    if signals != [] {
      var init, last := signals[..|signals| - 1], signals[|signals| - 1];
      ReplayStream(t, init);
      assert Replay(t, signals) == Apply(Replay(t, init), last);
      forall k | LastStreamReport(signals, k)
        ensures Replay(t, signals).stream == Some(signals[k].stream)
      {
        if k < |signals| - 1 {
          assert LastStreamReport(init, k);
        }
      }
    }
  }

  /** The recorded media is whatever the latest media-constructed or
      media-configure signal carried; unprepared does not clear it. */
  lemma {:induction false} ReplayMedia(t: Observed, signals: seq<Signal>)
    ensures (forall j :: 0 <= j < |signals| ==> !signals[j].ReportsMedia()) ==>
              Replay(t, signals).media == t.media
    ensures forall k :: LastMediaReport(signals, k) ==>
              Replay(t, signals).media == Some(signals[k].media)
  {
    if signals != [] {
      var init, last := signals[..|signals| - 1], signals[|signals| - 1];
      ReplayMedia(t, init);
      assert Replay(t, signals) == Apply(Replay(t, init), last);
      forall k | LastMediaReport(signals, k)
        ensures Replay(t, signals).media == Some(signals[k].media)
      {
        if k < |signals| - 1 {
          assert LastMediaReport(init, k);
        }
      }
    }
  }
}
