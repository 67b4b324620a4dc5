/** The platform media objects the player drives, reduced to what the player
    observes of them: a container is a list of tracks, a demuxer is a cursor
    over the samples of the selected track, and a decoder is a queue of the
    input units it has accepted and not yet handed back. */
module Media {
  import opened Lang

  /** One compressed sample: its presentation time, its size in bytes and
      whether decoding can restart from it (a sync point). */
  datatype Sample = Sample(ptsUs: int, size: nat, sync: bool)

  /** One track of the container with the format keys the player reads. */
  datatype TrackFormat = TrackFormat(
    mime: Option<string>,
    durationUs: int,
    frameRate: Option<int>,
    width: int,
    height: int,
    sampleRate: int,
    channelCount: int,
    samples: seq<Sample>)

  const VideoPrefix: string := "video/"
  const AudioPrefix: string := "audio/"

  /** The mime of the track is present and starts with `prefix`. */
  predicate HasKind(f: TrackFormat, prefix: string) {
    f.mime.Some? && prefix <= f.mime.value
  }

  /** The index of the last track of the given kind, or -1 when there is none. */
  function LastOfKind(tracks: seq<TrackFormat>, prefix: string): (i: int)
    ensures -1 <= i < |tracks|
    ensures i >= 0 ==> HasKind(tracks[i], prefix)
    ensures forall j :: i < j < |tracks| ==> !HasKind(tracks[j], prefix)
    decreases |tracks|
  {
    if tracks == [] then -1
    else if HasKind(tracks[|tracks| - 1], prefix) then |tracks| - 1
    else LastOfKind(tracks[..|tracks| - 1], prefix)
  }

  /** The track scan run when a decode thread starts: every track whose mime
      has the prefix overwrites the choice, so the last one wins. */
  method SelectTrack(tracks: seq<TrackFormat>, prefix: string) returns (index: int, format: Option<TrackFormat>)
    ensures index == LastOfKind(tracks, prefix)
    ensures index < 0 <==> format == None
    ensures index >= 0 ==> format == Some(tracks[index])
  {
    index, format := -1, None;
    var i := 0;
    while i < |tracks|
      invariant 0 <= i <= |tracks|
      invariant index == LastOfKind(tracks[..i], prefix)
      invariant index < 0 <==> format == None
      invariant index >= 0 ==> format == Some(tracks[index])
    {
      assert tracks[..i + 1][..i] == tracks[..i];
      if tracks[i].mime != None && prefix <= tracks[i].mime.value {
        index, format := i, Some(tracks[i]);
      }
      i := i + 1;
    }
    assert tracks[..i] == tracks;
  }

  /** No track of the kind exists exactly when the scan finds none. */
  lemma {:induction false} NoTrackOfKind(tracks: seq<TrackFormat>, prefix: string)
    ensures LastOfKind(tracks, prefix) == -1 <==> forall j :: 0 <= j < |tracks| ==> !HasKind(tracks[j], prefix)
    decreases |tracks|
  {
    if tracks != [] && !HasKind(tracks[|tracks| - 1], prefix) {
      var init := tracks[..|tracks| - 1];
      NoTrackOfKind(init, prefix);
      assert forall j :: 0 <= j < |init| ==> init[j] == tracks[j];
    }
  }

  /** The index of the last sync sample at or before `targetUs`, or 0 when
      there is none: where a seek to the previous sync point lands. */
  function PreviousSync(samples: seq<Sample>, targetUs: int): (i: nat)
    ensures samples == [] ==> i == 0
    ensures samples != [] ==> i < |samples|
    ensures i > 0 ==> samples[i].sync && samples[i].ptsUs <= targetUs
    ensures forall j :: i < j < |samples| ==> !(samples[j].sync && samples[j].ptsUs <= targetUs)
    decreases |samples|
  {
    if samples == [] then 0
    else if samples[|samples| - 1].sync && samples[|samples| - 1].ptsUs <= targetUs then |samples| - 1
    else PreviousSync(samples[..|samples| - 1], targetUs)
  }

  /** A demuxer over the samples of the selected track and its read position. */
  datatype Demuxer = Demuxer(samples: seq<Sample>, cursor: nat) {

    /** readSampleData: the size of the current sample, negative past the end. */
    function ReadSampleSize(): (n: int)
      ensures n < 0 <==> cursor >= |samples|
      ensures n >= 0 ==> n == samples[cursor].size
    {
      if cursor < |samples| then samples[cursor].size else -1
    }

    /** getSampleTime: the presentation time of the current sample. */
    function SampleTime(): (t: int)
      requires cursor < |samples|
      ensures ReadSampleSize() >= 0 && t == samples[cursor].ptsUs
    {
      samples[cursor].ptsUs
    }

    /** advance: move to the next sample. */
    function Advance(): (d: Demuxer)
      ensures d.samples == samples && d.cursor == cursor + 1
    {
      Demuxer(samples, cursor + 1)
    }

    /** seekTo with the previous-sync mode. */
    function SeekTo(targetUs: int): (d: Demuxer)
      ensures d.samples == samples
      ensures d.cursor == PreviousSync(samples, targetUs)
    {
      Demuxer(samples, PreviousSync(samples, targetUs))
    }
  }

  /** What a decoder hands back for one input buffer (a BufferInfo): its
      presentation time, its size and whether it carries the end-of-stream flag. */
  datatype Unit = Unit(ptsUs: int, size: nat, eos: bool)

  /** The buffer queued when the demuxer runs dry: no data, time 0, end-of-stream flag. */
  const EosUnit := Unit(0, 0, true)

  /** A decoder, seen from outside: the units accepted and not yet drained,
      oldest first. Decoding itself is not modelled. */
  datatype Decoder = Decoder(pending: seq<Unit>)
}
