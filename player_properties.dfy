/** What the decode loops guarantee over whole runs: without a seek every
    sample is handed to the decoder once and in order, pausing moves nothing,
    a seek restarts the stream at the previous sync point and is seen by one
    loop only, the audio loop only ends through an interrupt, a seek issued
    after the video end-of-stream buffer was queued leaves the video loop
    unable to finish, and the stop request is never read by either loop. */
module PlayerProperties {
  import opened Lang
  import opened Media
  import opened Player

  /** The units a session has taken in: those drained so far, then those the
      decoder still holds. */
  function Stream(s: Session): seq<Unit>
    requires Configured(s)
  {
    s.output + s.decoder.value.pending
  }

  /** The units the feed step queues for a run of samples. */
  function AsUnits(xs: seq<Sample>): (us: seq<Unit>)
    ensures |us| == |xs|
  {
    if xs == [] then [] else [Unit(xs[0].ptsUs, xs[0].size, false)] + AsUnits(xs[1..])
  }

  /** The end-of-stream buffer, when the feed side reached the end between
      the two locals. */
  function EosMark(before: Locals, after: Locals): seq<Unit> {
    if after.eos && !before.eos then [EosUnit] else []
  }

  function Cursor(s: Session): nat
    requires Configured(s)
  {
    s.extractor.value.cursor
  }

  function Samples(s: Session): seq<Sample>
    requires Configured(s)
  {
    s.extractor.value.samples
  }

  /** The cursor is within the track (or just past its last sample). */
  predicate InTrack(s: Session) {
    Configured(s) && Cursor(s) <= |Samples(s)|
  }

  lemma {:induction false} AsUnitsAppend(a: seq<Sample>, b: seq<Sample>)
    ensures AsUnits(a + b) == AsUnits(a) + AsUnits(b)
    decreases |a|
  {
    if a == [] {
      assert a + b == b;
    } else {
      assert (a + b)[0] == a[0] && (a + b)[1..] == a[1..] + b;
      AsUnitsAppend(a[1..], b);
    }
  }

  lemma AsUnitsSplit(xs: seq<Sample>, i: nat, j: nat, k: nat)
    requires i <= j <= k <= |xs|
    ensures AsUnits(xs[i..j]) + AsUnits(xs[j..k]) == AsUnits(xs[i..k])
  {
    assert xs[i..j] + xs[j..k] == xs[i..k];
    AsUnitsAppend(xs[i..j], xs[j..k]);
  }

  /** Feeding adds to the stream exactly the sample under the cursor, or the
      end-of-stream buffer once the track is exhausted, and nothing after that. */
  lemma FeedConserves(s: Session, loc: Locals, inputSlot: bool)
    requires InTrack(s)
    ensures var r := Feed(s, loc, inputSlot);
      InTrack(r.0) && Samples(r.0) == Samples(s) && Cursor(s) <= Cursor(r.0) &&
      Stream(r.0) == Stream(s) + AsUnits(Samples(s)[Cursor(s)..Cursor(r.0)]) + EosMark(loc, r.1) &&
      (loc.eos ==> r.1 == loc) &&
      (r.1.eos && !loc.eos ==> Cursor(r.0) == Cursor(s)) &&
      r.1.infoEos == loc.infoEos
  {
    var r := Feed(s, loc, inputSlot);
    if FeedsSample(s, loc, inputSlot) {
      var c := Cursor(s);
      assert Samples(s)[c..c + 1] == [Samples(s)[c]];
      assert Stream(r.0) == s.output + (s.decoder.value.pending + AsUnits(Samples(s)[c..c + 1]));
    } else {
      assert Samples(s)[Cursor(s)..Cursor(r.0)] == [];
    }
  }

  /** Draining moves the oldest held unit to the output and changes neither
      the stream nor the demuxer. */
  lemma DrainVideoConserves(t: TransportState, s: Session, loc: Locals, tick: Tick)
    requires InTrack(s)
    ensures var r := DrainVideo(t, s, loc, tick);
      InTrack(r.1) && Samples(r.1) == Samples(s) && Cursor(r.1) == Cursor(s) &&
      Stream(r.1) == Stream(s) && r.2.eos == loc.eos
  {
    if Drains(s, tick) {
      var q := s.decoder.value.pending;
      assert q == [q[0]] + q[1..];
    }
  }

  lemma DrainAudioConserves(s: Session, tick: Tick)
    requires InTrack(s)
    ensures var r := DrainAudio(s, tick);
      InTrack(r) && Samples(r) == Samples(s) && Cursor(r) == Cursor(s) && Stream(r) == Stream(s)
  {
    if Drains(s, tick) {
      var q := s.decoder.value.pending;
      assert q == [q[0]] + q[1..];
    }
  }

  /** One video iteration without a pending seek: the stream grows by the
      samples the cursor passed over, in order, plus the end-of-stream buffer
      if it was queued. */
  lemma VideoIterationConserves(st: Loop, tick: Tick)
    requires InTrack(st.s) && !st.t.performSeek
    ensures var r := VideoIteration(st, tick);
      InTrack(r.s) && Samples(r.s) == Samples(st.s) && Cursor(st.s) <= Cursor(r.s) &&
      Stream(r.s) == Stream(st.s) + AsUnits(Samples(st.s)[Cursor(st.s)..Cursor(r.s)]) + EosMark(st.loc, r.loc) &&
      (st.loc.eos ==> r.loc.eos && Cursor(r.s) == Cursor(st.s))
  {
    if st.t.isPlaying {
      var fed := Feed(st.s, st.loc, tick.inputSlot);
      FeedConserves(st.s, st.loc, tick.inputSlot);
      DrainVideoConserves(st.t, fed.0, fed.1, tick);
    } else {
      assert Samples(st.s)[Cursor(st.s)..Cursor(st.s)] == [];
    }
  }

  lemma AudioIterationConserves(st: Loop, tick: Tick)
    requires InTrack(st.s) && st.s.sink.Some? && !st.t.performSeek
    ensures var r := AudioIteration(st, tick);
      InTrack(r.s) && Samples(r.s) == Samples(st.s) && Cursor(st.s) <= Cursor(r.s) &&
      Stream(r.s) == Stream(st.s) + AsUnits(Samples(st.s)[Cursor(st.s)..Cursor(r.s)]) + EosMark(st.loc, r.loc) &&
      (st.loc.eos ==> r.loc.eos && Cursor(r.s) == Cursor(st.s))
  {
    if st.t.isPlaying {
      var tuned := if st.t.anchorNs == -1 then st.s.(sink := Some(st.s.sink.value.(speed := st.t.speed))) else st.s;
      var fed := Feed(tuned, st.loc, tick.inputSlot);
      FeedConserves(tuned, st.loc, tick.inputSlot);
      DrainAudioConserves(fed.0, tick);
    } else {
      assert Samples(st.s)[Cursor(st.s)..Cursor(st.s)] == [];
    }
  }

  lemma Reassociate<T>(a: seq<T>, b: seq<T>, c: seq<T>, d: seq<T>)
    ensures a + b + c + d == a + (b + c) + d
  {
  }

  /** Joins two consecutive stretches of a run. */
  lemma JoinStretches(xs: seq<Sample>, c0: nat, c1: nat, c2: nat, s0: seq<Unit>, s1: seq<Unit>, s2: seq<Unit>,
                      l0: Locals, l1: Locals, l2: Locals)
    requires c0 <= c1 <= c2 <= |xs|
    requires s1 == s0 + AsUnits(xs[c0..c1]) + EosMark(l0, l1)
    requires s2 == s1 + AsUnits(xs[c1..c2]) + EosMark(l1, l2)
    requires l0.eos ==> l1.eos
    requires l1.eos ==> l2.eos && c2 == c1
    ensures s2 == s0 + AsUnits(xs[c0..c2]) + EosMark(l0, l2)
  {
    if l1.eos {
      assert xs[c1..c2] == [];
      assert AsUnits(xs[c1..c2]) == [];
      assert EosMark(l1, l2) == [] && EosMark(l0, l2) == EosMark(l0, l1);
    } else {
      AsUnitsSplit(xs, c0, c1, c2);
      Reassociate(s0, AsUnits(xs[c0..c1]), AsUnits(xs[c1..c2]), EosMark(l0, l2));
    }
  }

  /** Without a seek, a run of the video loop, pauses included, hands the
      decoder every sample from the starting cursor on, once each and in
      order: no sample is skipped or repeated. */
  lemma {:induction false} VideoRunConserves(st: Loop, ticks: seq<Tick>)
    requires InTrack(st.s) && !st.t.performSeek
    ensures var r := VideoRun(st, ticks);
      InTrack(r.s) && Samples(r.s) == Samples(st.s) && Cursor(st.s) <= Cursor(r.s) &&
      Stream(r.s) == Stream(st.s) + AsUnits(Samples(st.s)[Cursor(st.s)..Cursor(r.s)]) + EosMark(st.loc, r.loc) &&
      (st.loc.eos ==> r.loc.eos && Cursor(r.s) == Cursor(st.s))
    decreases |ticks|
  {
    if ticks == [] || st.brk {
      assert Samples(st.s)[Cursor(st.s)..Cursor(st.s)] == [];
    } else {
      var n := VideoIteration(st, ticks[0]);
      VideoIterationConserves(st, ticks[0]);
      VideoRunConserves(n, ticks[1..]);
      var r := VideoRun(n, ticks[1..]);
      JoinStretches(Samples(st.s), Cursor(st.s), Cursor(n.s), Cursor(r.s), Stream(st.s), Stream(n.s), Stream(r.s), st.loc, n.loc, r.loc);
    }
  }

  /** The same for the audio loop. */
  lemma {:induction false} AudioRunConserves(st: Loop, ticks: seq<Tick>)
    requires InTrack(st.s) && st.s.sink.Some? && !st.t.performSeek
    ensures var r := AudioRun(st, ticks);
      InTrack(r.s) && Samples(r.s) == Samples(st.s) && Cursor(st.s) <= Cursor(r.s) &&
      Stream(r.s) == Stream(st.s) + AsUnits(Samples(st.s)[Cursor(st.s)..Cursor(r.s)]) + EosMark(st.loc, r.loc) &&
      (st.loc.eos ==> r.loc.eos && Cursor(r.s) == Cursor(st.s))
    decreases |ticks|
  {
    if ticks == [] || st.brk {
      assert Samples(st.s)[Cursor(st.s)..Cursor(st.s)] == [];
    } else {
      var n := AudioIteration(st, ticks[0]);
      AudioIterationConserves(st, ticks[0]);
      AudioRunConserves(n, ticks[1..]);
      var r := AudioRun(n, ticks[1..]);
      JoinStretches(Samples(st.s), Cursor(st.s), Cursor(n.s), Cursor(r.s), Stream(st.s), Stream(n.s), Stream(r.s), st.loc, n.loc, r.loc);
    }
  }

  /** While paused, any number of iterations moves neither the demuxer nor
      the decoder, renders nothing and reports nothing; the loop is left
      only through a pending interrupt. */
  lemma {:induction false} PausedVideoRunHoldsStreams(st: Loop, ticks: seq<Tick>)
    requires Configured(st.s) && !st.t.isPlaying
    ensures var r := VideoRun(st, ticks);
      r.s.extractor == st.s.extractor && r.s.decoder == st.s.decoder && r.s.output == st.s.output &&
      r.reports == st.reports && r.loc == st.loc && !r.t.isPlaying &&
      (r.brk ==> st.brk || st.s.interrupted)
    decreases |ticks|
  {
    if ticks != [] && !st.brk {
      PausedVideoRunHoldsStreams(VideoIteration(st, ticks[0]), ticks[1..]);
    }
  }

  /** A seek consumed by a playing video iteration: the request is cleared,
      what the decoder held is dropped, and the stream restarts from the last
      sync point at or before the target. */
  lemma VideoSeekRestarts(st: Loop, tick: Tick)
    requires InTrack(st.s) && st.t.isPlaying && st.t.performSeek
    ensures var r := VideoIteration(st, tick);
      var p := PreviousSync(Samples(st.s), SeekTargetUs(st.t.seekToProgress, st.t.totalDurationMs));
      !r.t.performSeek && InTrack(r.s) && Samples(r.s) == Samples(st.s) && p <= Cursor(r.s) &&
      Stream(r.s) == st.s.output + AsUnits(Samples(st.s)[p..Cursor(r.s)]) + EosMark(st.loc, r.loc)
  {
    var sought := ConsumeSeek(st.t, st.s);
    assert Stream(sought.1) == st.s.output;
    var fed := Feed(sought.1, st.loc, tick.inputSlot);
    FeedConserves(sought.1, st.loc, tick.inputSlot);
    DrainVideoConserves(sought.0, fed.0, fed.1, tick);
  }

  /** The shared request is cleared by whichever loop sees it first: after a
      video iteration has consumed it, the next audio iteration does not
      reposition or flush, it only continues its own stream. */
  lemma SeekSeenByFirstLoopOnly(t: TransportState, v: Session, a: Session, lv: Locals, la: Locals,
                                reports: seq<Report>, tv: Tick, ta: Tick)
    requires InTrack(v) && InTrack(a) && a.sink.Some? && t.isPlaying && t.performSeek
    ensures var rv := VideoIteration(Loop(t, v, lv, reports, false), tv);
      var ra := AudioIteration(Loop(rv.t, a, la, rv.reports, false), ta);
      !rv.t.performSeek && !ra.t.performSeek && Cursor(a) <= Cursor(ra.s) &&
      Stream(ra.s) == Stream(a) + AsUnits(Samples(a)[Cursor(a)..Cursor(ra.s)]) + EosMark(la, ra.loc)
  {
    var rv := VideoIteration(Loop(t, v, lv, reports, false), tv);
    AudioIterationConserves(Loop(rv.t, a, la, rv.reports, false), ta);
  }

  /** While playing, the audio loop never leaves: it has no end-of-stream
      exit, and the only exit is the interrupted pause branch. */
  lemma {:induction false} AudioNeverEndsWhilePlaying(st: Loop, ticks: seq<Tick>)
    requires Configured(st.s) && st.s.sink.Some? && st.t.isPlaying && !st.brk
    ensures !AudioRun(st, ticks).brk
    decreases |ticks|
  {
    if ticks != [] {
      AudioNeverEndsWhilePlaying(AudioIteration(st, ticks[0]), ticks[1..]);
    }
  }

  /** The video loop leaves only in two ways: paused with an interrupt
      pending, or playing when the buffer it just drained carries the
      end-of-stream flag. */
  lemma VideoBreaksOnlyAtEosOrInterrupt(st: Loop, tick: Tick)
    requires Configured(st.s) && !st.loc.infoEos
    ensures var r := VideoIteration(st, tick);
      r.brk <==> (!st.t.isPlaying && st.s.interrupted) ||
                 (st.t.isPlaying && |r.s.output| == |st.s.output| + 1 && r.s.output[|st.s.output|].eos)
  {
    if st.t.isPlaying {
      var sought := ConsumeSeek(st.t, st.s);
      var fed := Feed(sought.1, st.loc, tick.inputSlot);
      assert fed.1.infoEos == st.loc.infoEos;
    }
  }

  /** Once the feed side has queued its end-of-stream buffer and the decoder
      holds no end-of-stream unit any more, the playing video loop can never
      leave: nothing is fed, so no end-of-stream buffer can come out. */
  lemma {:induction false} VideoStallsWithoutEosUnit(st: Loop, ticks: seq<Tick>)
    requires Configured(st.s) && st.t.isPlaying && !st.brk && st.loc.eos && !st.loc.infoEos
    requires forall i :: 0 <= i < |st.s.decoder.value.pending| ==> !st.s.decoder.value.pending[i].eos
    ensures !VideoRun(st, ticks).brk
    decreases |ticks|
  {
    if ticks != [] {
      var n := VideoIteration(st, ticks[0]);
      var sought := ConsumeSeek(st.t, st.s);
      var fed := Feed(sought.1, st.loc, ticks[0].inputSlot);
      assert fed.0.decoder.value.pending == [] || fed.0.decoder.value.pending == st.s.decoder.value.pending;
      assert forall i :: 0 <= i < |n.s.decoder.value.pending| ==> !n.s.decoder.value.pending[i].eos;
      VideoStallsWithoutEosUnit(n, ticks[1..]);
    }
  }

  /** A seek consumed after the end-of-stream buffer was queued but before it
      came out of the decoder flushes that buffer away; since the feed side
      keeps its end-of-stream flag, the video loop then never finishes while
      playing. */
  lemma SeekAfterQueuedEosNeverFinishes(st: Loop, ticks: seq<Tick>)
    requires Configured(st.s) && st.t.isPlaying && st.t.performSeek
    requires !st.brk && st.loc.eos && !st.loc.infoEos
    ensures !VideoRun(st, ticks).brk
  {
    if ticks != [] {
      var n := VideoIteration(st, ticks[0]);
      assert n.s.decoder.value.pending == [];
      VideoStallsWithoutEosUnit(n, ticks[1..]);
    }
  }

  /** Neither loop reads the stop request: a run from a state that differs
      only in that flag differs only in that flag. */
  lemma {:induction false} StopRequestIsNeverRead(st: Loop, ticks: seq<Tick>, flag: bool)
    requires Configured(st.s)
    ensures var r := VideoRun(st, ticks);
      VideoRun(st.(t := st.t.(stopRequested := flag)), ticks) == r.(t := r.t.(stopRequested := flag))
    decreases |ticks|
  {
    if ticks != [] && !st.brk {
      var n := VideoIteration(st, ticks[0]);
      assert VideoIteration(st.(t := st.t.(stopRequested := flag)), ticks[0]) == n.(t := n.t.(stopRequested := flag));
      StopRequestIsNeverRead(n, ticks[1..], flag);
    }
  }

  /** The same for the audio loop. */
  lemma {:induction false} AudioIgnoresStopRequest(st: Loop, ticks: seq<Tick>, flag: bool)
    requires Configured(st.s) && st.s.sink.Some?
    ensures var r := AudioRun(st, ticks);
      AudioRun(st.(t := st.t.(stopRequested := flag)), ticks) == r.(t := r.t.(stopRequested := flag))
    decreases |ticks|
  {
    if ticks != [] && !st.brk {
      var n := AudioIteration(st, ticks[0]);
      assert AudioIteration(st.(t := st.t.(stopRequested := flag)), ticks[0]) == n.(t := n.t.(stopRequested := flag));
      AudioIgnoresStopRequest(n, ticks[1..], flag);
    }
  }

  /** The audio sink takes the current speed on a playing iteration whose
      clock is unanchored, which every speed change, seek and pause causes. */
  lemma SinkFollowsSpeed(st: Loop, tick: Tick)
    requires Configured(st.s) && st.s.sink.Some? && st.t.isPlaying
    requires st.t.anchorNs == -1 || st.t.performSeek
    ensures AudioIteration(st, tick).s.sink.value.speed == st.t.speed
  {
  }

  /** Feeding a video sample reports its position in milliseconds and the
      frame count at its time, in that order. */
  lemma ProgressReportedAtFeed(st: Loop, tick: Tick)
    requires Configured(st.s) && st.t.isPlaying && !st.t.performSeek
    ensures var r := VideoIteration(st, tick);
      if FeedsSample(st.s, st.loc, tick.inputSlot) then
        var x := Samples(st.s)[Cursor(st.s)];
        r.reports == st.reports + [SeekBarProgress(PositionMs(x.ptsUs)), FrameCount(FrameCountAt(x.ptsUs, st.t.frameRate))]
      else r.reports == st.reports
  {
  }
}
