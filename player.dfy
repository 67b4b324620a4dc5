/** The playback engine: the transport flags shared by the two decode
    threads, the arithmetic on durations and timestamps, one iteration of the
    video and of the audio decode loop, and the player object whose methods
    are the transport commands. */
module Player {
  import opened Lang
  import opened Media

  // ---------------------------------------------------------------------
  // Playback speed

  /** The speed multipliers the player knows, 0.5, 1.0, 1.5 and 2.0. */
  datatype Speed = Half | Normal | OneAndHalf | Double

  /** The multiplier in tenths, so that the arithmetic stays in integers. */
  function Tenths(s: Speed): (n: nat)
    ensures 5 <= n <= 20
  {
    match s
    case Half => 5
    case Normal => 10
    case OneAndHalf => 15
    case Double => 20
  }

  /** The label the speed control shows for a speed. */
  function Label(s: Speed): string {
    match s
    case Half => "0.5x"
    case Normal => "1.0x"
    case OneAndHalf => "1.5x"
    case Double => "2.0x"
  }

  /** The speed chosen for a label: the four known labels select their
      speed, anything else falls back to 1.0. */
  function SpeedOfLabel(name: string): (s: Speed)
    ensures s != Normal ==> Label(s) == name
    ensures name == "1.0x" ==> s == Normal
    ensures forall t: Speed :: Label(t) == name ==> s == t
  {
    if name == "0.5x" then Half
    else if name == "1.5x" then OneAndHalf
    else if name == "2.0x" then Double
    else Normal
  }

  /** Every known label selects the speed it names, and the labels are
      distinct, so a label is unknown exactly when it selects the default
      without being "1.0x". */
  lemma LabelRoundTrip(s: Speed, name: string)
    ensures SpeedOfLabel(Label(s)) == s
    ensures (forall t: Speed :: Label(t) != name) ==> SpeedOfLabel(name) == Normal
  {
  }

  // ---------------------------------------------------------------------
  // Arithmetic on times

  const DefaultFrameRate := 30

  /** The duration in milliseconds from the format's duration in microseconds. */
  function DurationMs(durationUs: int): (ms: int)
    ensures durationUs >= 0 ==> 0 <= ms && ms * 1000 <= durationUs < ms * 1000 + 1000
  {
    Quot(durationUs, 1000)
  }

  /** The seek position in microseconds for a progress value and the total
      duration in milliseconds. */
  function SeekTargetUs(progress: int, totalDurationMs: int): (us: int)
    ensures progress == 0 ==> us == 0
    ensures progress == 100 ==> us == totalDurationMs * 1000
    ensures progress >= 0 && totalDurationMs >= 0 ==> us >= 0
  {
    progress * totalDurationMs * 10
  }

  /** The position reported to the progress bar, in milliseconds. */
  function PositionMs(ptsUs: int): (ms: int)
    ensures ptsUs >= 0 ==> 0 <= ms && ms * 1000 <= ptsUs < ms * 1000 + 1000
    ensures ptsUs < 0 ==> ms <= 0 && ms * 1000 - 1000 < ptsUs <= ms * 1000
  {
    Quot(ptsUs, 1000)
  }

  /** The frame count reported for a presentation time. */
  function FrameCountAt(ptsUs: int, frameRate: int): (n: int)
    ensures var elapsed := ptsUs * frameRate;
      elapsed >= 0 ==> 0 <= n && n * 1_000_000 <= elapsed < n * 1_000_000 + 1_000_000
  {
    Quot(ptsUs * frameRate, 1_000_000)
  }

  /** A presentation time divided by the speed multiplier, truncated. */
  function ScaledUs(ptsUs: int, speed: Speed): (us: int)
    ensures speed == Normal ==> us == ptsUs
    ensures ptsUs >= 0 ==> 0 <= us && us * Tenths(speed) <= ptsUs * 10 < us * Tenths(speed) + Tenths(speed)
  {
    Quot(ptsUs * 10, Tenths(speed))
  }

  /** Progress is a percentage of the stream: progress 0 seeks to the start,
      progress 100 to the whole duration in milliseconds, and in general the
      target is the given percentage of the duration in microseconds, short
      of it by the sub-millisecond part of the duration at most. */
  lemma SeekTargetIsPercentOfDuration(progress: int, durationUs: int)
    requires 0 <= progress && 0 <= durationUs
    ensures SeekTargetUs(0, DurationMs(durationUs)) == 0
    ensures SeekTargetUs(100, DurationMs(durationUs)) == DurationMs(durationUs) * 1000
    ensures var t := SeekTargetUs(progress, DurationMs(durationUs));
      t * 100 <= progress * durationUs <= t * 100 + progress * 999
  {
    var m := DurationMs(durationUs);
    var r := durationUs - m * 1000;
    assert 0 <= r < 1000;
    calc {
      progress * durationUs;
      progress * (m * 1000 + r);
      { assert progress * (m * 1000 + r) == progress * m * 1000 + progress * r; }
      progress * m * 1000 + progress * r;
      SeekTargetUs(progress, m) * 100 + progress * r;
    }
    assert progress * r <= progress * 999 by {
      assert progress * (999 - r) >= 0;
    }
  }

  lemma MulMonotone(x: int, y: int, k: int)
    requires x <= y && 0 <= k
    ensures x * k <= y * k
  {
    assert y * k - x * k == (y - x) * k;
  }

  lemma MulCancel(x: int, y: int, b: int)
    requires b > 0
    ensures x * b < y * b ==> x < y
  {
    assert y * b - x * b == (y - x) * b;
  }

  lemma QuotMonotone(a1: int, a2: int, b: int)
    requires 0 <= a1 <= a2 && b > 0
    ensures Quot(a1, b) <= Quot(a2, b)
  {
    var q1, q2 := Quot(a1, b), Quot(a2, b);
    assert q2 * b + b == (q2 + 1) * b;
    MulCancel(q1, q2 + 1, b);
  }

  /** The frame count is the number of whole frame periods elapsed at the
      presentation time, and it never decreases as the time grows. */
  lemma FrameCountMonotone(pts1: int, pts2: int, frameRate: int)
    requires 0 <= pts1 <= pts2 && 0 <= frameRate
    ensures FrameCountAt(pts1, frameRate) * 1_000_000 <= pts1 * frameRate
    ensures pts1 * frameRate < (FrameCountAt(pts1, frameRate) + 1) * 1_000_000
    ensures FrameCountAt(pts1, frameRate) <= FrameCountAt(pts2, frameRate)
  {
    MulMonotone(0, pts1, frameRate);
    MulMonotone(pts1, pts2, frameRate);
    var n1 := FrameCountAt(pts1, frameRate);
    assert n1 * 1_000_000 + 1_000_000 == (n1 + 1) * 1_000_000;
    QuotMonotone(pts1 * frameRate, pts2 * frameRate, 1_000_000);
  }

  // ---------------------------------------------------------------------
  // State

  /** A rendering surface as the player sees it. */
  datatype Surface = Surface(id: nat, valid: bool)

  /** The surface is set and valid. */
  predicate Usable(surface: Option<Surface>) {
    surface.Some? && surface.value.valid
  }

  /** The player fields both decode threads read and write every iteration.
      `anchorNs` is the wall-clock anchor of the playback clock, -1 when
      unanchored. */
  datatype TransportState = TransportState(
    isPlaying: bool,
    performSeek: bool,
    seekToProgress: int,
    totalDurationMs: int,
    frameRate: int,
    anchorNs: int,
    speed: Speed,
    stopRequested: bool)

  /** The PCM output the audio thread writes to, with its playback-rate parameter. */
  datatype Sink = Sink(sampleRate: int, stereo: bool, speed: Speed)

  /** The resources of one stream kind: its demuxer, its decoder, the audio
      sink (audio only), the "decoder ready" flag, whether a thread object is
      recorded for it, that thread's interrupt status, and every unit drained
      so far (released to the surface, or written to the sink). */
  datatype Session = Session(
    extractor: Option<Demuxer>,
    decoder: Option<Decoder>,
    sink: Option<Sink>,
    ready: bool,
    hasThread: bool,
    interrupted: bool,
    output: seq<Unit>)

  const NoSession := Session(None, None, None, false, false, false, [])

  /** The demuxer and the decoder exist: the state in which a loop runs. */
  predicate Configured(s: Session) {
    s.extractor.Some? && s.decoder.Some?
  }

  /** A call the player makes on its progress or video-info listener. */
  datatype Report = MaxDuration(ms: int) | VideoDim(width: int, height: int) | SeekBarProgress(ms: int) | FrameCount(count: int)

  /** The locals of a decode loop: the end-of-stream flag of the feed side
      (videoEOS / audioEOS) and the end-of-stream flag of the last dequeued
      output buffer. */
  datatype Locals = Locals(eos: bool, infoEos: bool)

  const FreshLocals := Locals(false, false)

  /** What the environment decides in one iteration: whether the decoder
      offers a free input buffer, whether it has an output buffer ready, and
      the wall clock. */
  datatype Tick = Tick(inputSlot: bool, outputReady: bool, nowNs: int)

  /** The state one loop iteration reads and writes; `brk` says the
      iteration left the loop. */
  datatype Loop = Loop(t: TransportState, s: Session, loc: Locals, reports: seq<Report>, brk: bool)

  // ---------------------------------------------------------------------
  // One loop iteration, phase by phase

  /** The pause branch: sleeping 50 ms ends the loop when the thread is
      interrupted (the interrupt is consumed), and otherwise unanchors the clock. */
  function PauseTick(st: Loop): (r: Loop)
    ensures r.s.extractor == st.s.extractor && r.s.decoder == st.s.decoder && r.s.output == st.s.output
    ensures r.s.sink == st.s.sink && r.s.ready == st.s.ready && r.s.hasThread == st.s.hasThread
    ensures r.loc == st.loc && r.reports == st.reports
    ensures r.brk == st.s.interrupted && !r.s.interrupted
    ensures r.brk ==> r.t == st.t
    ensures !r.brk ==> r.t == st.t.(anchorNs := -1)
  {
    if st.s.interrupted then st.(s := st.s.(interrupted := false), brk := true)
    else st.(t := st.t.(anchorNs := -1), brk := false)
  }

  /** Seek consumption: reposition the demuxer at the previous sync point of
      the target, unanchor the clock, flush the decoder and clear the request. */
  function ConsumeSeek(t: TransportState, s: Session): (r: (TransportState, Session))
    requires Configured(s)
    ensures Configured(r.1)
    ensures r.1.sink == s.sink && r.1.ready == s.ready && r.1.hasThread == s.hasThread
    ensures !r.0.performSeek
    ensures !t.performSeek ==> r == (t, s)
    ensures t.performSeek ==>
      r.0 == t.(anchorNs := -1, performSeek := false) &&
      r.1.extractor.value.samples == s.extractor.value.samples &&
      r.1.extractor.value.cursor == PreviousSync(s.extractor.value.samples, SeekTargetUs(t.seekToProgress, t.totalDurationMs)) &&
      r.1.decoder == Some(Decoder([])) &&
      r.1.output == s.output && r.1.interrupted == s.interrupted
  {
    if !t.performSeek then (t, s)
    else
      var d := s.extractor.value;
      (t.(anchorNs := -1, performSeek := false),
       s.(extractor := Some(d.SeekTo(SeekTargetUs(t.seekToProgress, t.totalDurationMs))), decoder := Some(Decoder([]))))
  }

  /** Whether this feed step reads a sample: not at end of stream, a free
      input buffer, and a sample under the cursor. */
  predicate FeedsSample(s: Session, loc: Locals, inputSlot: bool)
    requires Configured(s)
  {
    !loc.eos && inputSlot && s.extractor.value.cursor < |s.extractor.value.samples|
  }

  /** The feed step: queue the sample under the cursor with its time and
      advance, or, once the demuxer is dry, queue the end-of-stream buffer
      and stop feeding. */
  function Feed(s: Session, loc: Locals, inputSlot: bool): (r: (Session, Locals))
    requires Configured(s)
    ensures Configured(r.0)
    ensures r.0.extractor.value.samples == s.extractor.value.samples
    ensures r.0.output == s.output && r.0.interrupted == s.interrupted
    ensures r.0.sink == s.sink && r.0.ready == s.ready && r.0.hasThread == s.hasThread
    ensures (loc.eos || !inputSlot) ==> r == (s, loc)
    ensures r.0.extractor.value.cursor == s.extractor.value.cursor + (if FeedsSample(s, loc, inputSlot) then 1 else 0)
    ensures FeedsSample(s, loc, inputSlot) ==>
      var x := s.extractor.value.samples[s.extractor.value.cursor];
      r.0.decoder.value.pending == s.decoder.value.pending + [Unit(x.ptsUs, x.size, false)] && r.1 == loc
    ensures !loc.eos && inputSlot && !FeedsSample(s, loc, inputSlot) ==>
      r.0.decoder.value.pending == s.decoder.value.pending + [EosUnit] && r.1 == loc.(eos := true)
  {
    if loc.eos || !inputSlot then (s, loc)
    else
      var d := s.extractor.value;
      var q := s.decoder.value.pending;
      var size := d.ReadSampleSize();
      if size < 0 then (s.(decoder := Some(Decoder(q + [EosUnit]))), loc.(eos := true))
      else (s.(decoder := Some(Decoder(q + [Unit(d.SampleTime(), size, false)])), extractor := Some(d.Advance())), loc)
  }

  /** The progress calls made while feeding a video sample: position in
      milliseconds, then the frame count; none when no sample was read. */
  function FeedReports(s: Session, loc: Locals, inputSlot: bool, frameRate: int): (r: seq<Report>)
    requires Configured(s)
    ensures !FeedsSample(s, loc, inputSlot) ==> r == []
    ensures FeedsSample(s, loc, inputSlot) ==> |r| == 2 && r[0].SeekBarProgress? && r[1].FrameCount?
  {
    if FeedsSample(s, loc, inputSlot) then
      var pts := s.extractor.value.SampleTime();
      [SeekBarProgress(PositionMs(pts)), FrameCount(FrameCountAt(pts, frameRate))]
    else []
  }

  /** Whether the decoder hands back an output buffer this iteration. */
  predicate Drains(s: Session, tick: Tick)
    requires Configured(s)
  {
    tick.outputReady && s.decoder.value.pending != []
  }

  /** The video drain step: take the oldest unit, anchor the clock on it if
      unanchored, sleep until its scaled time (an interrupt arriving then is
      swallowed), and release it to the surface. */
  function DrainVideo(t: TransportState, s: Session, loc: Locals, tick: Tick): (r: (TransportState, Session, Locals))
    requires Configured(s)
    ensures Configured(r.1) && r.1.extractor == s.extractor
    ensures r.1.sink == s.sink && r.1.ready == s.ready && r.1.hasThread == s.hasThread
    ensures !Drains(s, tick) ==> r == (t, s, loc)
    ensures Drains(s, tick) ==>
      var u := s.decoder.value.pending[0];
      r.1.decoder.value.pending == s.decoder.value.pending[1..] &&
      r.1.output == s.output + [u] && r.2 == loc.(infoEos := u.eos) &&
      r.0 == t.(anchorNs := r.0.anchorNs) && (t.anchorNs >= 0 ==> r.0.anchorNs == t.anchorNs)
  {
    if !Drains(s, tick) then (t, s, loc)
    else
      var q := s.decoder.value.pending;
      var u := q[0];
      var shown := ScaledUs(u.ptsUs, t.speed);
      var anchor := if t.anchorNs < 0 then tick.nowNs - shown * 1000 else t.anchorNs;
      var delay := anchor + shown * 1000 - tick.nowNs;
      (t.(anchorNs := anchor),
       s.(decoder := Some(Decoder(q[1..])), output := s.output + [u], interrupted := if delay > 0 then false else s.interrupted),
       loc.(infoEos := u.eos))
  }

  /** The audio drain step: take the oldest unit and write its bytes to the sink. */
  function DrainAudio(s: Session, tick: Tick): (r: Session)
    requires Configured(s)
    ensures Configured(r) && r.extractor == s.extractor && r.sink == s.sink && r.interrupted == s.interrupted
    ensures r.ready == s.ready && r.hasThread == s.hasThread
    ensures !Drains(s, tick) ==> r == s
    ensures Drains(s, tick) ==>
      r.decoder.value.pending == s.decoder.value.pending[1..] && r.output == s.output + [s.decoder.value.pending[0]]
  {
    if !Drains(s, tick) then s
    else
      var q := s.decoder.value.pending;
      s.(decoder := Some(Decoder(q[1..])), output := s.output + [q[0]])
  }

  /** One iteration of the video decode loop: pause tick, seek consumption,
      feed, drain, and the end-of-stream test on the last output buffer. */
  function VideoIteration(st: Loop, tick: Tick): (r: Loop)
    requires Configured(st.s)
    ensures Configured(r.s)
    ensures r.t.isPlaying == st.t.isPlaying && r.t.stopRequested == st.t.stopRequested
    ensures r.t.seekToProgress == st.t.seekToProgress && r.t.speed == st.t.speed
    ensures r.t.performSeek == (st.t.performSeek && !st.t.isPlaying)
    ensures r.s.sink == st.s.sink && r.s.ready == st.s.ready && r.s.hasThread == st.s.hasThread
  {
    if !st.t.isPlaying then PauseTick(st)
    else
      var sought := ConsumeSeek(st.t, st.s);
      var fed := Feed(sought.1, st.loc, tick.inputSlot);
      var reports := st.reports + FeedReports(sought.1, st.loc, tick.inputSlot, sought.0.frameRate);
      var drained := DrainVideo(sought.0, fed.0, fed.1, tick);
      Loop(drained.0, drained.1, drained.2, reports, drained.2.infoEos)
  }

  /** One iteration of the audio decode loop: pause tick, seek consumption,
      the sink's rate follows the speed while the clock is unanchored, feed,
      drain. There is no end-of-stream exit. */
  function AudioIteration(st: Loop, tick: Tick): (r: Loop)
    requires Configured(st.s) && st.s.sink.Some?
    ensures Configured(r.s) && r.s.sink.Some?
    ensures r.t.isPlaying == st.t.isPlaying && r.t.stopRequested == st.t.stopRequested
    ensures r.reports == st.reports
    ensures r.t.performSeek == (st.t.performSeek && !st.t.isPlaying)
    ensures r.s.ready == st.s.ready && r.s.hasThread == st.s.hasThread
  {
    if !st.t.isPlaying then PauseTick(st)
    else
      var sought := ConsumeSeek(st.t, st.s);
      var tuned := if sought.0.anchorNs == -1 then sought.1.(sink := Some(sought.1.sink.value.(speed := sought.0.speed))) else sought.1;
      var fed := Feed(tuned, st.loc, tick.inputSlot);
      Loop(sought.0, DrainAudio(fed.0, tick), fed.1, st.reports, false)
  }

  /** The loop run over a script of ticks, stopping at the first iteration
      that leaves the loop. */
  function VideoRun(st: Loop, ticks: seq<Tick>): (r: Loop)
    requires Configured(st.s)
    ensures Configured(r.s)
    ensures st.brk ==> r == st
    ensures r.t.isPlaying == st.t.isPlaying && r.t.stopRequested == st.t.stopRequested
    ensures r.t.seekToProgress == st.t.seekToProgress && r.t.speed == st.t.speed
    ensures r.s.sink == st.s.sink && r.s.ready == st.s.ready && r.s.hasThread == st.s.hasThread
    ensures st.t.isPlaying && ticks != [] && !st.brk ==> !r.t.performSeek
    decreases |ticks|
  {
    if ticks == [] || st.brk then st
    else VideoRun(VideoIteration(st, ticks[0]), ticks[1..])
  }

  /** The audio loop run over a script of ticks. */
  function AudioRun(st: Loop, ticks: seq<Tick>): (r: Loop)
    requires Configured(st.s) && st.s.sink.Some?
    ensures Configured(r.s) && r.s.sink.Some?
    ensures st.brk ==> r == st
    ensures r.t.isPlaying == st.t.isPlaying && r.t.stopRequested == st.t.stopRequested
    ensures r.reports == st.reports
    ensures r.s.ready == st.s.ready && r.s.hasThread == st.s.hasThread
    ensures st.t.isPlaying && ticks != [] && !st.brk ==> !r.t.performSeek
    decreases |ticks|
  {
    if ticks == [] || st.brk then st
    else AudioRun(AudioIteration(st, ticks[0]), ticks[1..])
  }

  /** The tail after a loop ends: decoder and demuxer released and nulled,
      the ready flag and the thread reference cleared, the stop request
      cleared. The audio sink is left as it is. */
  function Cleanup(t: TransportState, s: Session): (r: (TransportState, Session))
    ensures r.0 == t.(stopRequested := false)
    ensures r.1.extractor == None && r.1.decoder == None && !r.1.ready && !r.1.hasThread
    ensures r.1.sink == s.sink && r.1.output == s.output && r.1.interrupted == s.interrupted
  {
    (t.(stopRequested := false), s.(extractor := None, decoder := None, ready := false, hasThread := false))
  }

  // ---------------------------------------------------------------------
  // The player object

  /** The result of a decode thread's setup before it enters its loop. */
  datatype Opened = Started | NoTrack | InvalidSurface

  class MediaCodecPlayer {
    var surface: Option<Surface>
    var isPlaying: bool
    var seekToProgress: int
    var performSeek: bool
    var totalDurationMs: int
    var frameRate: int
    var playbackStartTimeNs: int
    var playBackSpeed: Speed
    var stopRequested: bool
    var video: Session
    var audio: Session
    var reports: seq<Report>

    /** The transport fields as one value. */
    function Transport(): TransportState
      reads this
    {
      TransportState(isPlaying, performSeek, seekToProgress, totalDurationMs, frameRate,
                     playbackStartTimeNs, playBackSpeed, stopRequested)
    }

    constructor (surface: Option<Surface>)
      ensures this.surface == surface
      ensures Transport() == TransportState(false, false, 0, 0, 0, -1, Normal, false)
      ensures video == NoSession && audio == NoSession && reports == []
    {
      this.surface := surface;
      isPlaying, seekToProgress, performSeek := false, 0, false;
      totalDurationMs, frameRate := 0, 0;
      playbackStartTimeNs, playBackSpeed, stopRequested := -1, Normal, false;
      video, audio, reports := NoSession, NoSession, [];
    }

    /** Replace the surface reference; nothing else changes. */
    method UpdateSurface(surface: Option<Surface>)
      modifies this
      ensures this.surface == surface
      ensures Transport() == old(Transport()) && video == old(video) && audio == old(audio) && reports == old(reports)
    {
      this.surface := surface;
    }

    /** start (and onInitiate): create both decode threads, then set playing.
        What each thread does first is OpenVideo / OpenAudio. */
    method Start()
      modifies this
      ensures Transport() == old(Transport()).(isPlaying := true)
      ensures video == old(video).(hasThread := true, interrupted := false)
      ensures audio == old(audio).(hasThread := true, interrupted := false)
      ensures surface == old(surface) && reports == old(reports)
    {
      video := video.(hasThread := true, interrupted := false);
      audio := audio.(hasThread := true, interrupted := false);
      isPlaying := true;
    }

    method OnPlay()
      modifies this
      ensures Transport() == old(Transport()).(isPlaying := true)
      ensures surface == old(surface) && video == old(video) && audio == old(audio) && reports == old(reports)
    {
      isPlaying := true;
    }

    method OnPause()
      modifies this
      ensures Transport() == old(Transport()).(isPlaying := false)
      ensures surface == old(surface) && video == old(video) && audio == old(audio) && reports == old(reports)
    {
      isPlaying := false;
    }

    /** Record a seek request, with no range check: the last request before
        a loop consumes it is the one that takes effect. */
    method OnSeek(progress: int)
      modifies this
      ensures Transport() == old(Transport()).(seekToProgress := progress, performSeek := true)
      ensures surface == old(surface) && video == old(video) && audio == old(audio) && reports == old(reports)
    {
      seekToProgress := progress;
      performSeek := true;
    }

    /** Select the speed for a label and unanchor the clock. */
    method OnPlaybackChanged(speed: string)
      modifies this
      ensures Transport() == old(Transport()).(speed := SpeedOfLabel(speed), anchorNs := -1)
      ensures surface == old(surface) && video == old(video) && audio == old(audio) && reports == old(reports)
    {
      if speed == "0.5x" {
        playBackSpeed := Half;
      } else if speed == "1.0x" {
        playBackSpeed := Normal;
      } else if speed == "1.5x" {
        playBackSpeed := OneAndHalf;
      } else if speed == "2.0x" {
        playBackSpeed := Double;
      } else {
        playBackSpeed := Normal;
      }
      playbackStartTimeNs := -1;
    }

    /** Clear playing, set the stop request, and interrupt each recorded thread. */
    method Stop()
      modifies this
      ensures Transport() == old(Transport()).(isPlaying := false, stopRequested := true)
      ensures video == old(video).(interrupted := old(video).interrupted || old(video).hasThread)
      ensures audio == old(audio).(interrupted := old(audio).interrupted || old(audio).hasThread)
      ensures surface == old(surface) && reports == old(reports)
    {
      isPlaying := false;
      stopRequested := true;
      if video.hasThread {
        video := video.(interrupted := true);
      }
      if audio.hasThread {
        audio := audio.(interrupted := true);
      }
    }

    /** Select the video track on the demuxer, read its frame rate (30 when
        the format has none) and its duration, and report the duration and
        the dimensions to the listeners. */
    method AdoptVideoTrack(f: TrackFormat)
      modifies this
      ensures Transport() == old(Transport()).(frameRate := f.frameRate.GetOr(DefaultFrameRate), totalDurationMs := DurationMs(f.durationUs))
      ensures reports == old(reports) + [MaxDuration(DurationMs(f.durationUs)), VideoDim(f.width, f.height)]
      ensures video == old(video).(extractor := Some(Demuxer(f.samples, 0)))
      ensures surface == old(surface) && audio == old(audio)
    {
      video := video.(extractor := Some(Demuxer(f.samples, 0)));
      frameRate := DefaultFrameRate;
      if f.frameRate.Some? {
        frameRate := f.frameRate.value;
      }
      totalDurationMs := DurationMs(f.durationUs);
      reports := reports + [MaxDuration(totalDurationMs), VideoDim(f.width, f.height)];
    }

    /** The video thread's setup: open the source, pick the last video track,
        read the frame rate (30 when absent) and the duration, report the
        duration and the dimensions, then configure the decoder if the
        surface is usable. Without a video track it returns before reporting
        or configuring anything. */
    method OpenVideo(tracks: seq<TrackFormat>) returns (r: Opened)
      modifies this
      ensures surface == old(surface) && audio == old(audio)
      ensures video.sink == old(video.sink) && video.hasThread == old(video.hasThread)
      ensures video.interrupted == old(video.interrupted) && video.output == old(video.output)
      ensures var i := LastOfKind(tracks, VideoPrefix);
        if i < 0 then
          r == NoTrack && Transport() == old(Transport()) && reports == old(reports) &&
          video.extractor == Some(Demuxer([], 0)) &&
          video.decoder == old(video.decoder) && video.ready == old(video.ready)
        else
          var f := tracks[i];
          Transport() == old(Transport()).(frameRate := f.frameRate.GetOr(DefaultFrameRate), totalDurationMs := DurationMs(f.durationUs)) &&
          reports == old(reports) + [MaxDuration(DurationMs(f.durationUs)), VideoDim(f.width, f.height)] &&
          video.extractor == Some(Demuxer(f.samples, 0)) &&
          (r == Started <==> Usable(surface)) && (r != Started ==> r == InvalidSurface) &&
          (r == Started ==> video.decoder == Some(Decoder([])) && video.ready) &&
          (r != Started ==> video.decoder == old(video.decoder) && video.ready == old(video.ready))
    {
      video := video.(extractor := Some(Demuxer([], 0)));
      var index, format := SelectTrack(tracks, VideoPrefix);
      if index < 0 || format == None {
        return NoTrack;
      }
      var f := format.value;
      AdoptVideoTrack(f);
      if surface == None || !surface.value.valid {
        return InvalidSurface;
      }
      video := video.(decoder := Some(Decoder([])), ready := true);
      r := Started;
    }

    /** The audio thread's setup: open the source and pick the last audio
        track (without one, selecting track -1 throws and the thread ends),
        require a usable surface, then configure the decoder and a fresh sink
        playing at 1.0. */
    method OpenAudio(tracks: seq<TrackFormat>) returns (r: Opened)
      modifies this
      ensures surface == old(surface) && video == old(video)
      ensures Transport() == old(Transport()) && reports == old(reports)
      ensures audio.hasThread == old(audio.hasThread) && audio.interrupted == old(audio.interrupted)
      ensures audio.output == old(audio.output)
      ensures var i := LastOfKind(tracks, AudioPrefix);
        if i < 0 then
          r == NoTrack && audio.extractor == Some(Demuxer([], 0)) &&
          audio.decoder == old(audio.decoder) && audio.sink == old(audio.sink) && audio.ready == old(audio.ready)
        else
          var f := tracks[i];
          audio.extractor == Some(Demuxer(f.samples, 0)) &&
          (r == Started <==> Usable(surface)) && (r != Started ==> r == InvalidSurface) &&
          (r == Started ==> audio.decoder == Some(Decoder([])) && audio.ready &&
                            audio.sink == Some(Sink(f.sampleRate, f.channelCount != 1, Normal))) &&
          (r != Started ==> audio.decoder == old(audio.decoder) && audio.sink == old(audio.sink) && audio.ready == old(audio.ready))
    {
      audio := audio.(extractor := Some(Demuxer([], 0)));
      var index, format := SelectTrack(tracks, AudioPrefix);
      if index < 0 || format == None {
        return NoTrack;
      }
      var f := format.value;
      audio := audio.(extractor := Some(Demuxer(f.samples, 0)));
      if surface == None || !surface.value.valid {
        return InvalidSurface;
      }
      audio := audio.(decoder := Some(Decoder([])), sink := Some(Sink(f.sampleRate, f.channelCount != 1, Normal)), ready := true);
      r := Started;
    }

    /** The seek step of either loop: consume a pending request on `video`
        (when `forVideo`) or on `audio`. */
    method SeekStep(forVideo: bool)
      requires Configured(if forVideo then video else audio)
      modifies this
      ensures var r := ConsumeSeek(old(Transport()), old(if forVideo then video else audio));
        Transport() == r.0 && (if forVideo then video else audio) == r.1
      ensures forVideo ==> audio == old(audio)
      ensures !forVideo ==> video == old(video)
      ensures surface == old(surface) && reports == old(reports)
    {
      if performSeek {
        var s := if forVideo then video else audio;
        var d := s.extractor.value;
        s := s.(extractor := Some(d.SeekTo(SeekTargetUs(seekToProgress, totalDurationMs))));
        playbackStartTimeNs := -1;
        s := s.(decoder := Some(Decoder([])));
        if forVideo {
          video := s;
        } else {
          audio := s;
        }
        performSeek := false;
      }
    }

    /** The feed step of either loop; only the video loop reports progress. */
    method FeedStep(forVideo: bool, loc: Locals, inputSlot: bool) returns (next: Locals)
      requires Configured(if forVideo then video else audio)
      modifies this
      ensures var r := Feed(old(if forVideo then video else audio), loc, inputSlot);
        (if forVideo then video else audio) == r.0 && next == r.1
      ensures forVideo ==> reports == old(reports) + FeedReports(old(video), loc, inputSlot, frameRate)
      ensures !forVideo ==> reports == old(reports)
      ensures forVideo ==> audio == old(audio)
      ensures !forVideo ==> video == old(video)
      ensures Transport() == old(Transport()) && surface == old(surface)
    {
      next := loc;
      var s := if forVideo then video else audio;
      if !next.eos && inputSlot {
        var d := s.extractor.value;
        var q := s.decoder.value.pending;
        var size := d.ReadSampleSize();
        if size < 0 {
          s := s.(decoder := Some(Decoder(q + [EosUnit])));
          next := next.(eos := true);
        } else {
          var pts := d.SampleTime();
          if forVideo {
            reports := reports + [SeekBarProgress(PositionMs(pts)), FrameCount(FrameCountAt(pts, frameRate))];
          }
          s := s.(decoder := Some(Decoder(q + [Unit(pts, size, false)])), extractor := Some(d.Advance()));
        }
      }
      if forVideo {
        video := s;
      } else {
        audio := s;
      }
    }

    /** The video drain step: pace the oldest decoded frame against the
        clock and release it to the surface. */
    method DrainVideoStep(loc: Locals, tick: Tick) returns (next: Locals)
      requires Configured(video)
      modifies this
      ensures var r := DrainVideo(old(Transport()), old(video), loc, tick);
        Transport() == r.0 && video == r.1 && next == r.2
      ensures surface == old(surface) && audio == old(audio) && reports == old(reports)
    {
      next := loc;
      var q := video.decoder.value.pending;
      if tick.outputReady && q != [] {
        var u := q[0];
        var shown := ScaledUs(u.ptsUs, playBackSpeed);
        if playbackStartTimeNs < 0 {
          playbackStartTimeNs := tick.nowNs - shown * 1000;
        }
        var delay := playbackStartTimeNs + shown * 1000 - tick.nowNs;
        if delay > 0 {
          // the pacing sleep: an interrupt ends it early and is swallowed
          video := video.(interrupted := false);
        }
        video := video.(decoder := Some(Decoder(q[1..])), output := video.output + [u]);
        next := next.(infoEos := u.eos);
      }
    }

    /** The pause branch of either loop. */
    method PauseStep(forVideo: bool) returns (brk: bool)
      modifies this
      ensures var s := old(if forVideo then video else audio);
        var r := PauseTick(Loop(old(Transport()), s, FreshLocals, [], false));
        brk == r.brk && Transport() == r.t && (if forVideo then video else audio) == r.s
      ensures forVideo ==> audio == old(audio)
      ensures !forVideo ==> video == old(video)
      ensures surface == old(surface) && reports == old(reports)
    {
      var s := if forVideo then video else audio;
      if s.interrupted {
        // Thread.sleep throws on a pending interrupt, which clears it
        brk := true;
        if forVideo {
          video := s.(interrupted := false);
        } else {
          audio := s.(interrupted := false);
        }
      } else {
        brk := false;
        playbackStartTimeNs := -1;
      }
    }

    /** One pass of the body of the video decode loop. */
    method VideoIterate(loc: Locals, tick: Tick) returns (next: Locals, brk: bool)
      requires Configured(video)
      modifies this
      ensures Loop(Transport(), video, next, reports, brk) == VideoIteration(Loop(old(Transport()), old(video), loc, old(reports), false), tick)
      ensures surface == old(surface) && audio == old(audio)
    {
      if !isPlaying {
        next := loc;
        brk := PauseStep(true);
        return;
      }
      SeekStep(true);
      next := FeedStep(true, loc, tick.inputSlot);
      next := DrainVideoStep(next, tick);
      brk := next.infoEos;
    }

    /** One pass of the body of the audio decode loop. */
    method AudioIterate(loc: Locals, tick: Tick) returns (next: Locals, brk: bool)
      requires Configured(audio) && audio.sink.Some?
      modifies this
      ensures Loop(Transport(), audio, next, reports, brk) == AudioIteration(Loop(old(Transport()), old(audio), loc, old(reports), false), tick)
      ensures surface == old(surface) && video == old(video)
    {
      if !isPlaying {
        next := loc;
        brk := PauseStep(false);
        return;
      }
      SeekStep(false);
      if playbackStartTimeNs == -1 {
        audio := audio.(sink := Some(audio.sink.value.(speed := playBackSpeed)));
      }
      next := FeedStep(false, loc, tick.inputSlot);
      var q := audio.decoder.value.pending;
      if tick.outputReady && q != [] {
        audio := audio.(decoder := Some(Decoder(q[1..])), output := audio.output + [q[0]]);
      }
      brk := false;
    }

    /** The video decode loop run for the given ticks: unanchor the clock,
        iterate until an iteration breaks, then run the cleanup tail. */
    method VideoDecodeLoop(ticks: seq<Tick>) returns (brk: bool)
      requires Configured(video)
      modifies this
      ensures var r := VideoRun(Loop(old(Transport()).(anchorNs := -1), old(video), FreshLocals, old(reports), false), ticks);
        brk == r.brk && reports == r.reports &&
        (Transport(), video) == (if brk then Cleanup(r.t, r.s) else (r.t, r.s))
      ensures surface == old(surface) && audio == old(audio)
    {
      var loc := FreshLocals;
      playbackStartTimeNs := -1;
      ghost var goal := VideoRun(Loop(Transport(), video, loc, reports, false), ticks);
      brk := false;
      var i := 0;
      while i < |ticks| && !brk
        invariant 0 <= i <= |ticks|
        invariant Configured(video)
        invariant goal == VideoRun(Loop(Transport(), video, loc, reports, brk), ticks[i..])
        invariant surface == old(surface) && audio == old(audio)
      {
        loc, brk := VideoIterate(loc, ticks[i]);
        assert ticks[i..][1..] == ticks[i + 1..];
        i := i + 1;
      }
      if brk {
        video := video.(extractor := None, decoder := None, ready := false, hasThread := false);
        stopRequested := false;
      }
    }

    /** The audio decode loop run for the given ticks, with its cleanup tail. */
    method AudioDecodeLoop(ticks: seq<Tick>) returns (brk: bool)
      requires Configured(audio) && audio.sink.Some?
      modifies this
      ensures var r := AudioRun(Loop(old(Transport()).(anchorNs := -1), old(audio), FreshLocals, old(reports), false), ticks);
        brk == r.brk && reports == r.reports &&
        (Transport(), audio) == (if brk then Cleanup(r.t, r.s) else (r.t, r.s))
      ensures surface == old(surface) && video == old(video)
    {
      var loc := FreshLocals;
      playbackStartTimeNs := -1;
      ghost var goal := AudioRun(Loop(Transport(), audio, loc, reports, false), ticks);
      brk := false;
      var i := 0;
      while i < |ticks| && !brk
        invariant 0 <= i <= |ticks|
        invariant Configured(audio) && audio.sink.Some?
        invariant goal == AudioRun(Loop(Transport(), audio, loc, reports, brk), ticks[i..])
        invariant surface == old(surface) && video == old(video)
      {
        loc, brk := AudioIterate(loc, ticks[i]);
        assert ticks[i..][1..] == ticks[i + 1..];
        i := i + 1;
      }
      if brk {
        audio := audio.(extractor := None, decoder := None, ready := false, hasThread := false);
        stopRequested := false;
      }
    }
  }
}
