# FlamVR player core, modelled in Dafny

FlamVR is an Android video player. This project models its playback core in Dafny and proves properties of that model. The core has three parts:

- **`MediaCodecPlayer`** (modules `Media` and `Player`). It runs one decode thread for video and one for audio. Each thread picks its track from the container, configures a decoder and then runs a decode loop. One iteration of the loop does four things:
  - it sleeps while paused;
  - it consumes a pending seek;
  - it feeds one compressed sample to the decoder;
  - it drains one decoded unit. Video frames are paced against a wall-clock anchor scaled by the playback speed. Audio units are written to an audio sink.

  The transport commands (play, pause, seek, speed, stop) set fields that both loops read. The playback engine is a class, `Player.MediaCodecPlayer`, whose methods update those fields. Each loop iteration is also written as a pure function, `Player.VideoIteration` and `Player.AudioIteration`. The class's iteration and loop methods are proved equal to those functions. The properties of whole runs are proved about the functions, in module `PlayerProperties`.
- **`StateHandler`** (module `Dispatch`). It holds listener registries: fixed arrays of capacity 4, each with a counter. It also holds the play/pause state, the chosen filter and the picked file. It forwards every command to its listeners in registration order. Each listener call is recorded in a log of `Call`s.
- **`UIHandler`** (module `Ui`). It stores the total duration, position and frame count that the player reports. Its `formatTime` renders a time in milliseconds as `"%02d:%02d"` minutes and seconds. Java's `%02d` and `String.valueOf(long)` are written out as functions on strings, with ASCII digits: `String.valueOf` always uses them, and `%02d` uses them in a locale whose zero digit is `'0'`.

### Java semantics the model keeps

- Java's `long` division truncates toward zero. `Lang.Quot` and `Lang.Rem` model it, and every division in the core uses them.
- In `a[i++] = x`, the counter is incremented before the bounds check. So a fifth registration throws `ArrayIndexOutOfBoundsException` and still increments the counter. After that, every fan-out reaches the four registered listeners and then throws.
- A thread has an interrupt status, modelled as `Session.interrupted`:
  - `stop` sets it.
  - The 50 ms sleep in the pause branch throws on it, which clears it and leaves the loop.
  - The pacing sleep before a frame is released swallows it.
- The video loop exits on the end-of-stream flag of the last dequeued `BufferInfo`. That flag stays set across iterations in which no output buffer is dequeued.

### Behaviour of the code a reader might not expect

- **Track choice.** The track scan overwrites its choice on every match. So the last video track and the last audio track are used, not the first (`Media.LastOfKind`).
- **Seek range.** `onSeek` stores any value, with no range check (`Player.MediaCodecPlayer.OnSeek`).
- **Seek target.** The target `progress * totalDurationMs * 10` is `progress` percent of the duration in microseconds, up to the sub-millisecond part of the duration (`Player.SeekTargetIsPercentOfDuration`).
- **Clearing a seek.** There is a single shared `performSeek` flag, and whichever loop sees it first clears it. The other loop does not reposition (`PlayerProperties.SeekSeenByFirstLoopOnly`).
- **Missing audio track.** The audio thread calls `selectTrack(-1)`, which throws, and the thread ends (`Player.MediaCodecPlayer.OpenAudio` returns `NoTrack`). The audio thread also needs a valid video surface before it starts.
- **End of stream.** The audio loop has no end-of-stream exit: while playing it never leaves (`PlayerProperties.AudioNeverEndsWhilePlaying`).
- **Stop.** `stopRequested` is written but never read by either loop (`PlayerProperties.StopRequestIsNeverRead`, `PlayerProperties.AudioIgnoresStopRequest`). Only the interrupt ends a paused loop.
- **Restarting.** `start` creates new threads and does not stop the ones already running.

### A behaviour of the code worth knowing

A seek can be consumed after the video feed side has queued its end-of-stream buffer but before that buffer came out of the decoder. The flush then drops the buffer, and `videoEOS` stays set. Nothing is fed again, and the playing video loop never finishes (`PlayerProperties.SeekAfterQueuedEosNeverFinishes`).

## Model

| member | source | states |
|---|---|---|
| Lang.Quot | app/src/main/java/com/example/flamvr/ui/UIHandler.java:107-108 | Java's `long` division by a positive divisor: the quotient rounded toward zero, below the dividend by less than one divisor for a dividend that is not negative, above it by less than one for a negative dividend |
| Lang.Rem | app/src/main/java/com/example/flamvr/ui/UIHandler.java:109 | Java's `%` by a positive divisor: quotient × divisor + remainder is the dividend, and the remainder has the dividend's sign and is smaller than the divisor in magnitude |
| Media.LastOfKind | app/src/main/java/com/example/flamvr/core/MediaCodecPlayer.java:89-96 | the chosen index is -1 or a track whose mime starts with the prefix, and no later track has such a mime (the last match wins) |
| Media.SelectTrack | app/src/main/java/com/example/flamvr/core/MediaCodecPlayer.java:86-96 | the scan loop ends with the index of the last matching track, and it has a format exactly when the index is not negative; that format is the track at the index |
| Media.NoTrackOfKind | app/src/main/java/com/example/flamvr/core/MediaCodecPlayer.java:98-101 | the scan finds no track exactly when no track's mime has the prefix |
| Media.PreviousSync | app/src/main/java/com/example/flamvr/core/MediaCodecPlayer.java:215 | a seek to the previous sync point lands on a sync sample at or before the target, or on the start; no later sample is a sync sample at or before the target |
| Media.Demuxer.ReadSampleSize | app/src/main/java/com/example/flamvr/core/MediaCodecPlayer.java:226-228 | reading gives a negative size exactly when the cursor is past the last sample, and otherwise the size of the current sample |
| Media.Demuxer.SampleTime | app/src/main/java/com/example/flamvr/core/MediaCodecPlayer.java:233 | the sample time is read only at a sample the cursor is on, and it is that sample's presentation time |
| Media.Demuxer.Advance | app/src/main/java/com/example/flamvr/core/MediaCodecPlayer.java:237 | advancing moves the cursor by one over the same samples |
| Media.Demuxer.SeekTo | app/src/main/java/com/example/flamvr/core/MediaCodecPlayer.java:215 | seeking places the cursor at the previous sync point of the target over the same samples |
| Player.SpeedOfLabel | app/src/main/java/com/example/flamvr/core/MediaCodecPlayer.java:404-421 | a known label selects the speed it names; "1.0x" and every unknown label select 1.0 |
| Player.LabelRoundTrip | app/src/main/java/com/example/flamvr/core/MediaCodecPlayer.java:405-420 | each speed's label selects that speed, and a label that names no speed selects 1.0 |
| Player.DurationMs | app/src/main/java/com/example/flamvr/core/MediaCodecPlayer.java:113 | the duration in ms is the format's microseconds divided by 1000, rounded down for a duration that is not negative |
| Player.SeekTargetUs | app/src/main/java/com/example/flamvr/core/MediaCodecPlayer.java:215 | the seek target in µs is 0 for progress 0, the whole duration in µs for progress 100, and never negative for a progress and a duration that are not negative |
| Player.PositionMs | app/src/main/java/com/example/flamvr/core/MediaCodecPlayer.java:234 | the reported position is the sample time in whole ms, rounded toward zero on either side of 0 |
| Player.FrameCountAt | app/src/main/java/com/example/flamvr/core/MediaCodecPlayer.java:235 | the reported frame count is the number of whole seconds' worth of frames, pts × frame rate / 1 000 000, rounded down when that product is not negative |
| Player.ScaledUs | app/src/main/java/com/example/flamvr/core/MediaCodecPlayer.java:245 | the pacing time is the sample time divided by the speed, rounded down for a time that is not negative, and is the sample time itself at speed 1.0 |
| Player.SeekTargetIsPercentOfDuration | app/src/main/java/com/example/flamvr/core/MediaCodecPlayer.java:215 | with the duration in ms taken from the format's microseconds, progress 0 seeks to 0 and 100 to the whole duration; in general the target is progress percent of the duration, short of it by at most progress × 999 / 100 µs |
| Player.FrameCountMonotone | app/src/main/java/com/example/flamvr/core/MediaCodecPlayer.java:235 | the reported frame count is the number of whole frame periods elapsed at the sample time, and it never decreases as the time grows |
| Player.PauseTick | app/src/main/java/com/example/flamvr/core/MediaCodecPlayer.java:204-212 | a paused iteration leaves the loop exactly when an interrupt is pending, and that consumes the interrupt; otherwise it only unanchors the clock; streams and reports are untouched |
| Player.ConsumeSeek | app/src/main/java/com/example/flamvr/core/MediaCodecPlayer.java:213-219 | with a request pending: the cursor goes to the previous sync point of the target, the decoder is flushed, the clock is unanchored and the request is cleared; with none, nothing changes |
| Player.Feed | app/src/main/java/com/example/flamvr/core/MediaCodecPlayer.java:221-240 | with a free input buffer and before end of stream, the feed queues the sample under the cursor and advances, or queues the end-of-stream buffer and sets the flag once the track is exhausted; otherwise nothing changes |
| Player.FeedReports | app/src/main/java/com/example/flamvr/core/MediaCodecPlayer.java:233-235 | exactly two progress calls are made when a sample is fed (the position, then the frame count) and none otherwise |
| Player.DrainVideo | app/src/main/java/com/example/flamvr/core/MediaCodecPlayer.java:242-263 | with an output ready, the oldest unit is released to the surface and its end-of-stream flag is recorded; an existing clock anchor is kept; otherwise nothing changes |
| Player.DrainAudio | app/src/main/java/com/example/flamvr/core/MediaCodecPlayer.java:339-347 | with an output ready, the oldest unit is written to the sink; the sink and the demuxer are unchanged |
| Player.VideoIteration | app/src/main/java/com/example/flamvr/core/MediaCodecPlayer.java:203-268 | a video iteration changes neither the play state nor the stop request, the seek target or the speed, and a pending seek survives it only while paused |
| Player.AudioIteration | app/src/main/java/com/example/flamvr/core/MediaCodecPlayer.java:292-348 | an audio iteration reports nothing and changes neither the play state nor the stop request, and a pending seek survives it only while paused |
| Player.VideoRun | app/src/main/java/com/example/flamvr/core/MediaCodecPlayer.java:203-269 | a run of video iterations stops changing the state once one breaks; it keeps the play state, stop request, seek target, speed, sink, ready flag and thread; a playing run of at least one iteration leaves no seek pending |
| Player.AudioRun | app/src/main/java/com/example/flamvr/core/MediaCodecPlayer.java:292-348 | a run of audio iterations stops changing the state once one breaks; it keeps the play state, stop request, reports, ready flag and thread, and a sink; a playing run of at least one iteration leaves no seek pending |
| Player.Cleanup | app/src/main/java/com/example/flamvr/core/MediaCodecPlayer.java:270-282 | after a loop ends, the decoder and demuxer are released, the ready flag and the thread reference are cleared, and the stop request is cleared; the audio sink is kept |
| Player.MediaCodecPlayer.constructor | app/src/main/java/com/example/flamvr/core/MediaCodecPlayer.java:41-72 | a new player keeps its surface, is not playing, has no pending seek, has an unanchored clock at speed 1.0 and has no sessions |
| Player.MediaCodecPlayer.UpdateSurface | app/src/main/java/com/example/flamvr/core/MediaCodecPlayer.java:74-76 | only the surface reference changes |
| Player.MediaCodecPlayer.Start | app/src/main/java/com/example/flamvr/core/MediaCodecPlayer.java:191-194 | both threads are recorded, each with a clear interrupt status, and the player is set playing |
| Player.MediaCodecPlayer.OnPlay | app/src/main/java/com/example/flamvr/core/MediaCodecPlayer.java:385-387 | sets playing and changes nothing else |
| Player.MediaCodecPlayer.OnPause | app/src/main/java/com/example/flamvr/core/MediaCodecPlayer.java:391-393 | clears playing and changes nothing else |
| Player.MediaCodecPlayer.OnSeek | app/src/main/java/com/example/flamvr/core/MediaCodecPlayer.java:397-400 | stores any progress value and sets the request flag; nothing else changes |
| Player.MediaCodecPlayer.OnPlaybackChanged | app/src/main/java/com/example/flamvr/core/MediaCodecPlayer.java:404-423 | the speed becomes the one chosen for the label, the clock is unanchored, and nothing else changes |
| Player.MediaCodecPlayer.Stop | app/src/main/java/com/example/flamvr/core/MediaCodecPlayer.java:367-376 | clears playing, sets the stop request, and sets the interrupt status of each thread that is recorded |
| Player.MediaCodecPlayer.AdoptVideoTrack | app/src/main/java/com/example/flamvr/core/MediaCodecPlayer.java:103-117 | the demuxer is on the chosen track; the frame rate is the format's, or 30 when it has none; the duration is in ms; the duration and then the dimensions are reported |
| Player.MediaCodecPlayer.OpenVideo | app/src/main/java/com/example/flamvr/core/MediaCodecPlayer.java:80-133 | without a video track, nothing is reported or configured; otherwise the last video track is adopted, and the decoder starts exactly when the surface is set and valid |
| Player.MediaCodecPlayer.OpenAudio | app/src/main/java/com/example/flamvr/core/MediaCodecPlayer.java:139-185 | without an audio track, the thread ends; otherwise it starts exactly when the surface is usable, with a fresh sink at the track's rate, stereo unless mono, at speed 1.0 |
| Player.MediaCodecPlayer.SeekStep | app/src/main/java/com/example/flamvr/core/MediaCodecPlayer.java:213-219 | the seek branch of either loop does what ConsumeSeek states to that loop's session and leaves the other session alone |
| Player.MediaCodecPlayer.FeedStep | app/src/main/java/com/example/flamvr/core/MediaCodecPlayer.java:221-240 | the feed branch of either loop does what Feed states, and only the video loop reports progress |
| Player.MediaCodecPlayer.DrainVideoStep | app/src/main/java/com/example/flamvr/core/MediaCodecPlayer.java:242-263 | the video output branch does what DrainVideo states |
| Player.MediaCodecPlayer.PauseStep | app/src/main/java/com/example/flamvr/core/MediaCodecPlayer.java:204-212 | the pause branch of either loop does what PauseTick states |
| Player.MediaCodecPlayer.VideoIterate | app/src/main/java/com/example/flamvr/core/MediaCodecPlayer.java:203-268 | one pass of the video loop body moves the player exactly as VideoIteration does |
| Player.MediaCodecPlayer.AudioIterate | app/src/main/java/com/example/flamvr/core/MediaCodecPlayer.java:292-348 | one pass of the audio loop body moves the player exactly as AudioIteration does |
| Player.MediaCodecPlayer.VideoDecodeLoop | app/src/main/java/com/example/flamvr/core/MediaCodecPlayer.java:199-285 | the video loop unanchors the clock, runs iterations until one breaks, and on a break runs the cleanup tail |
| Player.MediaCodecPlayer.AudioDecodeLoop | app/src/main/java/com/example/flamvr/core/MediaCodecPlayer.java:288-364 | the audio loop does the same with audio iterations and the audio cleanup tail |
| PlayerProperties.FeedConserves | app/src/main/java/com/example/flamvr/core/MediaCodecPlayer.java:221-240 | feeding adds exactly the sample under the cursor, or the end-of-stream buffer once, to what the decoder has taken in; the cursor stays within the track |
| PlayerProperties.DrainVideoConserves | app/src/main/java/com/example/flamvr/core/MediaCodecPlayer.java:242-263 | draining video moves a unit from the decoder to the output, and what the decoder has taken in is unchanged |
| PlayerProperties.DrainAudioConserves | app/src/main/java/com/example/flamvr/core/MediaCodecPlayer.java:339-347 | the same for audio |
| PlayerProperties.VideoIterationConserves | app/src/main/java/com/example/flamvr/core/MediaCodecPlayer.java:203-268 | without a seek, one video iteration extends the stream by the samples the cursor passed, in order, plus the end-of-stream buffer if it was queued |
| PlayerProperties.AudioIterationConserves | app/src/main/java/com/example/flamvr/core/MediaCodecPlayer.java:292-348 | the same for one audio iteration |
| PlayerProperties.VideoRunConserves | app/src/main/java/com/example/flamvr/core/MediaCodecPlayer.java:199-269 | without a seek, a whole video run hands the decoder every sample from the starting cursor on, once each and in order, and the end-of-stream buffer at most once |
| PlayerProperties.AudioRunConserves | app/src/main/java/com/example/flamvr/core/MediaCodecPlayer.java:288-348 | the same for an audio run |
| PlayerProperties.PausedVideoRunHoldsStreams | app/src/main/java/com/example/flamvr/core/MediaCodecPlayer.java:204-212 | while paused, any number of iterations moves neither the demuxer nor the decoder, releases and reports nothing, and leaves only on an interrupt |
| PlayerProperties.VideoSeekRestarts | app/src/main/java/com/example/flamvr/core/MediaCodecPlayer.java:213-240 | a consumed seek clears the request, drops what the decoder held, and restarts the stream at the previous sync point of the target |
| PlayerProperties.SeekSeenByFirstLoopOnly | app/src/main/java/com/example/flamvr/core/MediaCodecPlayer.java:302-308 | after the video loop consumed a seek, the next audio iteration does not reposition; it continues its own stream |
| PlayerProperties.AudioNeverEndsWhilePlaying | app/src/main/java/com/example/flamvr/core/MediaCodecPlayer.java:292-348 | while playing, an audio run never leaves the loop |
| PlayerProperties.VideoBreaksOnlyAtEosOrInterrupt | app/src/main/java/com/example/flamvr/core/MediaCodecPlayer.java:265-268 | a video iteration leaves the loop exactly when it is paused with an interrupt pending, or when it is playing and the unit it just released carries the end-of-stream flag |
| PlayerProperties.VideoStallsWithoutEosUnit | app/src/main/java/com/example/flamvr/core/MediaCodecPlayer.java:221-268 | once end of stream has been fed and the decoder holds no end-of-stream unit, a playing video run never leaves |
| PlayerProperties.SeekAfterQueuedEosNeverFinishes | app/src/main/java/com/example/flamvr/core/MediaCodecPlayer.java:213-231 | a seek consumed after the end-of-stream buffer was queued, and before it came out, leaves the playing video loop unable to finish |
| PlayerProperties.StopRequestIsNeverRead | app/src/main/java/com/example/flamvr/core/MediaCodecPlayer.java:199-285 | a video run from a state that differs only in the stop request ends in a state that differs only in it |
| PlayerProperties.AudioIgnoresStopRequest | app/src/main/java/com/example/flamvr/core/MediaCodecPlayer.java:288-364 | the same for an audio run |
| PlayerProperties.SinkFollowsSpeed | app/src/main/java/com/example/flamvr/core/MediaCodecPlayer.java:309-320 | a playing audio iteration whose clock is unanchored, or that consumes a seek, sets the sink to the current speed |
| PlayerProperties.ProgressReportedAtFeed | app/src/main/java/com/example/flamvr/core/MediaCodecPlayer.java:233-235 | when a video iteration feeds a sample, it reports that sample's position in ms and then its frame count; otherwise it reports nothing |
| Dispatch.FilterOfName | app/src/main/java/com/example/flamvr/core/StateHandler.java:106-122 | a filter other than NONE is chosen only by its own name, and every filter name chooses its filter |
| Dispatch.FilterNameRoundTrip | app/src/main/java/com/example/flamvr/core/StateHandler.java:106-124 | each filter's name selects that filter, and distinct filters send distinct ordinals |
| Dispatch.FanoutAt | app/src/main/java/com/example/flamvr/core/StateHandler.java:70-73 | a fan-out makes listeners × commands calls, and listener k receives command j as call number k × (number of commands) + j |
| Dispatch.Fanout | app/src/main/java/com/example/flamvr/core/StateHandler.java:70-73 | the calls the dispatch loops make: one call per listener and command, listeners × commands in all |
| Dispatch.FanoutAppend | app/src/main/java/com/example/flamvr/core/StateHandler.java:70-73 | fanning out over listeners registered one after another makes the calls for the earlier ones first |
| Dispatch.StateHandler.constructor | app/src/main/java/com/example/flamvr/core/StateHandler.java:33-55 | two fresh registries of capacity 4, both empty; no I/O or progress listener; not playing; no file; filter NONE |
| Dispatch.StateHandler.AddListener | app/src/main/java/com/example/flamvr/core/StateHandler.java:42-44 | the count always increments; under capacity the listener is appended in order; at capacity the call throws and the reachable listeners are unchanged |
| Dispatch.StateHandler.AddStreamVS | app/src/main/java/com/example/flamvr/core/StateHandler.java:39-41 | the same for video-info listeners |
| Dispatch.StateHandler.AddIOListener | app/src/main/java/com/example/flamvr/core/StateHandler.java:45-47 | the I/O listener is replaced |
| Dispatch.StateHandler.AddStream | app/src/main/java/com/example/flamvr/core/StateHandler.java:48-50 | the progress listener is replaced |
| Dispatch.StateHandler.FanOut | app/src/main/java/com/example/flamvr/core/StateHandler.java:78-80 | the loop sends the commands to the first count listeners in order; a count past the capacity throws after the whole array has been served |
| Dispatch.StateHandler.OpenFilePicker | app/src/main/java/com/example/flamvr/core/StateHandler.java:57-59 | with no I/O listener the call throws a null-pointer error and sends nothing; otherwise the picker request goes to that listener |
| Dispatch.StateHandler.OnFilePicked | app/src/main/java/com/example/flamvr/core/StateHandler.java:61-65 | stores the picked file, or no file when the picker gave none (Java's null), and marks one available in either case; then every playback listener is sent initiate with what was stored, and then play |
| Dispatch.StateHandler.OnInitiate | app/src/main/java/com/example/flamvr/core/StateHandler.java:67-74 | sets playing, and each playback listener in turn is sent initiate with the stored file and then play |
| Dispatch.StateHandler.OnPlaybackChanged | app/src/main/java/com/example/flamvr/core/StateHandler.java:77-81 | the speed label goes to every playback listener in order |
| Dispatch.StateHandler.OnPlayPauseToggled | app/src/main/java/com/example/flamvr/core/StateHandler.java:84-96 | flips the play state and sends play or pause, to match the new state, to every playback listener |
| Dispatch.StateHandler.OnSeekChanged | app/src/main/java/com/example/flamvr/core/StateHandler.java:98-102 | the seek value goes unchanged to every playback listener in order |
| Dispatch.StateHandler.OnFilterChange | app/src/main/java/com/example/flamvr/core/StateHandler.java:105-126 | the filter becomes the one chosen for the name, and its ordinal goes to every video-info listener |
| Dispatch.StateHandler.Forward | app/src/main/java/com/example/flamvr/core/StateHandler.java:16-28 | a progress call is passed on unchanged to the progress listener, or throws a null-pointer error when there is none |
| Dispatch.StateHandler.UpdateSeekBarProgress | app/src/main/java/com/example/flamvr/core/StateHandler.java:16-18 | the position is passed on, or the call throws when there is no progress listener |
| Dispatch.StateHandler.SetMaxDuration | app/src/main/java/com/example/flamvr/core/StateHandler.java:21-23 | the duration is passed on, or the call throws when there is no progress listener |
| Dispatch.StateHandler.UpdateFrameCount | app/src/main/java/com/example/flamvr/core/StateHandler.java:26-28 | the frame count is passed on, or the call throws when there is no progress listener |
| Ui.Decimal | app/src/main/java/com/example/flamvr/ui/UIHandler.java:110 | the decimal digits of a natural number, most significant first: never empty, all digits, a single digit exactly below 10, at most two below 100, and no leading zero |
| Ui.DecimalRoundTrip | app/src/main/java/com/example/flamvr/ui/UIHandler.java:110 | the decimal digits of a number read back as that number |
| Ui.SignedDecimal | app/src/main/java/com/example/flamvr/ui/UIHandler.java:37 | `String.valueOf(long)`: never empty, all digits exactly when the number is not negative, otherwise a minus sign followed by the digits of its magnitude |
| Ui.SignedDecimalRoundTrip | app/src/main/java/com/example/flamvr/ui/UIHandler.java:37 | the frame-count text reads back as the count, and it is all digits exactly when the count is not negative |
| Ui.Pad2 | app/src/main/java/com/example/flamvr/ui/UIHandler.java:110 | `%02d` text has at least two characters, exactly two for 0..99, and is all digits exactly when the number is not negative |
| Ui.Pad2RoundTrip | app/src/main/java/com/example/flamvr/ui/UIHandler.java:110 | `%02d` text reads back as the number; it has at least two characters and exactly two iff the number is in -9..99; it is all digits iff the number is not negative |
| Ui.FormatTime | app/src/main/java/com/example/flamvr/ui/UIHandler.java:106-111 | the time text has at least five characters, and for a time that is not negative the colon is the third character from the end |
| Ui.FormatTimeReadsBack | app/src/main/java/com/example/flamvr/ui/UIHandler.java:106-111 | for any time, the text splits at a colon into minutes and seconds of the time's sign, with seconds within a minute, that make up the time in whole seconds rounded toward zero |
| Ui.FormatTimeWidth | app/src/main/java/com/example/flamvr/ui/UIHandler.java:106-111 | a time that is not negative shows as digits, a colon and two digits of seconds; it is exactly "mm:ss" iff the time is under 100 minutes, and the fields are the whole minutes and the remaining seconds |
| Ui.UIHandler.constructor | app/src/main/java/com/example/flamvr/ui/UIHandler.java:28-30 | duration, position and frame count start at 0 |
| Ui.UIHandler.Display | app/src/main/java/com/example/flamvr/ui/UIHandler.java:35-37 | the total and current labels are clock texts of at least five characters, and for a time that is not negative the colon is the third character from the end; the frame label is not empty |
| Ui.UIHandler.UpdateSeekBarProgress | app/src/main/java/com/example/flamvr/ui/UIHandler.java:89-93 | the reported position is stored |
| Ui.UIHandler.SetMaxDuration | app/src/main/java/com/example/flamvr/ui/UIHandler.java:96-98 | the duration is stored |
| Ui.UIHandler.UpdateFrameCount | app/src/main/java/com/example/flamvr/ui/UIHandler.java:101-103 | the frame count is stored |

## Left out

- The two decode threads run at the same time and share fields with no synchronisation. The model runs each loop on its own as a sequence of iterations. `SeekSeenByFirstLoopOnly` covers one interleaving; the others are not modelled.
- The environment is a parameter. Each iteration's `Tick` carries whether a decoder input buffer is free, whether an output buffer is ready, and `System.nanoTime`. The dequeue timeouts and the durations of the sleeps are not modelled. Only a sleep's effect on the interrupt status is kept.
- Decoding is modelled as a first-in, first-out queue: each queued input unit comes out unchanged. Frame reordering, output-format-change and try-again codes, decoder errors, and the bytes themselves are left out.
- `playBackSpeed` is a `float`. The model uses the four speeds as exact tenths, and `ScaledUs` divides exactly and then truncates. Float rounding is not modelled. The seek bar percentage in `UIHandler.updateSeekBarProgress` is float arithmetic and is not modelled either.
- Arithmetic on `long` and `int` is unbounded in the model. 64-bit overflow of `pts * frameRate` and of the seek target is not modelled.
- `MediaExtractor.setDataSource`, I/O failures and decoder creation failures are not modelled. Those exceptions end the thread through its catch-all. The only exception path modelled in the player is the missing audio track.
- The sink speed call is assumed to run on API level 23 or later, and the exception it may throw and swallow is not modelled. `AudioTrack.write` is modelled as appending to the sink's output; its blocking is not modelled. The `AudioTrack` is never released by the code, and the model keeps it.
- `Player.DrainVideo`: its contract does not state the new clock anchor when the clock was unanchored, or the new interrupt status. Those are fixed by its body, and `VideoIterate` states them through it.
- `Player.VideoIteration` and `Player.AudioIteration`: their own contracts state only the frame conditions listed. What an iteration does to the streams is proved in the `PlayerProperties` lemmas.
- `Ui.UIHandler.UpdateSeekBarProgress`: it states only the stored position, because the percentage pushed to the seek bar is float arithmetic.
- The listeners are opaque identities. Each call on one is recorded in `sent` for `StateHandler`, and in `reports` for the player's progress and video-info listeners. The player's two `addStream` setters (MediaCodecPlayer.java:60-66) are therefore not modelled, and a missing player listener (a null-pointer exception in the thread) is not modelled.
- `Dispatch.StateHandler` never registers a null listener, and `onFilterChange` is never called with a null string. A null picked file is modelled: `OnFilePicked` takes an `Option<Uri>`. The Java assertion `assert buffer != null` is disabled at run time and is not modelled.
- The `FILTERS` enum is not part of this model. Its four values, NONE, FILTER1, FILTER2 and FILTER3, in that order, are inferred from their uses. The video-info listener's `getFilter` is modelled as the `ShowFilter` call it receives.
- `StateHandler.surfaceCreated` is only initialised and is kept as a field. `UIHandler`'s `onInitiate`, `onPlay`, `onPause`, `onSeek` and `onPlaybackChanged` only touch widgets or show a toast, and are left out.
- `Ui.Pad2` and `Ui.FormatTime`: the model assumes a default locale whose digits are ASCII. `String.format` writes the locale's own digits (Arabic-Indic digits in an Arabic locale, for instance), and then the "all digits" and read-back contracts of `Pad2`, `FormatTime`, `FormatTimeReadsBack` and `FormatTimeWidth` do not describe the text shown.
- The refresh task that `UIHandler` re-posts every second is not modelled. `Ui.UIHandler.Display` gives the three texts it writes.
- Logging, the OpenGL renderer and shader, `InputController`, `IOInterface` and `MainActivity` are outside the modelled core.
