/** The command dispatcher between the controls and the player: it keeps
    fixed-capacity listener registries, the play/pause state, the chosen
    filter and the picked file, and fans every command out to its listeners
    in registration order. Listeners are external objects; the model records
    each call made on one, in order. */
module Dispatch {
  import opened Lang

  /** One slot per handler kind (UI, media codec, I/O, OpenGL). */
  const HandlerCount := 4

  type ListenerId = nat
  type Uri = string

  /** The renderer filters, in declaration order. */
  datatype Filter = NoFilter | Filter1 | Filter2 | Filter3

  function Ordinal(f: Filter): (n: nat)
    ensures n < 4
  {
    match f
    case NoFilter => 0
    case Filter1 => 1
    case Filter2 => 2
    case Filter3 => 3
  }

  /** The name the filter control sends for a filter. */
  function FilterName(f: Filter): string {
    match f
    case NoFilter => "NONE"
    case Filter1 => "FILTER1"
    case Filter2 => "FILTER2"
    case Filter3 => "FILTER3"
  }

  /** The filter chosen for a name: the four names select their filter,
      anything else selects no filter. */
  function FilterOfName(name: string): (f: Filter)
    ensures f != NoFilter ==> FilterName(f) == name
    ensures forall g: Filter :: FilterName(g) == name ==> f == g
  {
    if name == "FILTER1" then Filter1
    else if name == "FILTER2" then Filter2
    else if name == "FILTER3" then Filter3
    else NoFilter
  }

  /** Each filter's name selects it, and distinct filters have distinct ordinals. */
  lemma FilterNameRoundTrip(f: Filter, g: Filter)
    ensures FilterOfName(FilterName(f)) == f
    ensures Ordinal(f) == Ordinal(g) ==> f == g
  {
  }

  /** A call on a listener. */
  datatype Command =
    | Initiate(uri: Option<Uri>)
    | Play
    | Pause
    | Seek(progress: int)
    | PlaybackChanged(speed: string)
    | ShowFilter(ordinal: nat)
    | SeekBarProgress(progress: int)
    | MaxDuration(duration: int)
    | FrameCount(count: int)
    | PickFile

  datatype Call = Call(target: ListenerId, command: Command)

  /** The unchecked exceptions a dispatch can end in. */
  datatype JavaError = NullPointer | IndexOutOfBounds

  /** How a dispatch ended: normally, or by an exception that escapes it. */
  datatype Status = Done | Thrown(error: JavaError)

  function Min(a: int, b: int): int {
    if a <= b then a else b
  }

  /** The calls one listener receives for a command list. */
  function CallsTo(target: ListenerId, cmds: seq<Command>): (r: seq<Call>)
    ensures |r| == |cmds|
  {
    if cmds == [] then [] else [Call(target, cmds[0])] + CallsTo(target, cmds[1..])
  }

  /** The listener receives the commands in their order. */
  lemma {:induction false} CallsToAt(target: ListenerId, cmds: seq<Command>, j: nat)
    requires j < |cmds|
    ensures CallsTo(target, cmds)[j] == Call(target, cmds[j])
    decreases |cmds|
  {
    if j > 0 {
      CallsToAt(target, cmds[1..], j - 1);
    }
  }

  /** The calls a loop over the listeners makes: each listener in turn
      receives the whole command list, so there is one call per listener
      and command. */
  function Fanout(targets: seq<ListenerId>, cmds: seq<Command>): (r: seq<Call>)
    ensures |r| == |targets| * |cmds|
  {
    if targets == [] then []
    else
      assert |cmds| + (|targets| - 1) * |cmds| == |targets| * |cmds|;
      CallsTo(targets[0], cmds) + Fanout(targets[1..], cmds)
  }

  /** Fanning out to two lists of listeners one after the other sends the
      same calls as fanning out to their concatenation. */
  lemma {:induction false} FanoutAppend(a: seq<ListenerId>, b: seq<ListenerId>, cmds: seq<Command>)
    ensures Fanout(a + b, cmds) == Fanout(a, cmds) + Fanout(b, cmds)
  {
    if a == [] {
      assert a + b == b;
    } else {
      assert (a + b)[1..] == a[1..] + b;
      FanoutAppend(a[1..], b, cmds);
    }
  }

  /** Row k of a k-by-m grid ends before row `rows` starts. */
  lemma RowOffset(k: nat, j: nat, rows: nat, m: nat)
    requires k < rows && j < m
    ensures k * m + j < rows * m
  {
    assert k * m + m == (k + 1) * m;
    assert (k + 1) * m <= rows * m;
  }

  /** Fan-out keeps registration order: listener k receives command j as
      call number k * |cmds| + j. */
  lemma {:induction false} FanoutAt(targets: seq<ListenerId>, cmds: seq<Command>, k: nat, j: nat)
    requires k < |targets| && j < |cmds|
    ensures |Fanout(targets, cmds)| == |targets| * |cmds|
    ensures k * |cmds| + j < |Fanout(targets, cmds)|
    ensures Fanout(targets, cmds)[k * |cmds| + j] == Call(targets[k], cmds[j])
  {
    var m := |cmds|;
    RowOffset(k, j, |targets|, m);
    if k == 0 {
      CallsToAt(targets[0], cmds, j);
    } else {
      var tail, x := Fanout(targets[1..], cmds), (k - 1) * m + j;
      FanoutAt(targets[1..], cmds, k - 1, j);
      NextRow(k, j, m);
      assert Fanout(targets, cmds) == CallsTo(targets[0], cmds) + tail;
      assert Fanout(targets, cmds)[m + x] == tail[x];
    }
  }

  /** Call number k * m + j of a row-by-row list lies one row after call
      (k - 1) * m + j. */
  lemma NextRow(k: nat, j: nat, m: nat)
    requires k > 0
    ensures k * m + j == m + ((k - 1) * m + j)
  {
  }

  class StateHandler {
    var videoPlayBackListeners: array<ListenerId>
    var totalVPListeners: nat
    var videoInfoStream: array<ListenerId>
    var totalVSListeners: nat
    var ioInterfaceListener: Option<ListenerId>
    var progressBarStream: Option<ListenerId>
    var isPlaying: bool
    var surfaceCreated: bool
    var videoFileAvailable: bool
    var filter: Filter
    var fileUri: Option<Uri>
    /** Every call made on a listener so far, oldest first. */
    var sent: seq<Call>

    ghost predicate Valid()
      reads this
    {
      videoPlayBackListeners.Length == HandlerCount && videoInfoStream.Length == HandlerCount &&
      videoPlayBackListeners != videoInfoStream
    }

    /** The playback listeners a fan-out reaches, in registration order. */
    function PlaybackListeners(): seq<ListenerId>
      reads this, videoPlayBackListeners
    {
      videoPlayBackListeners[..Min(totalVPListeners, videoPlayBackListeners.Length)]
    }

    /** The video-info listeners a fan-out reaches, in registration order. */
    function InfoListeners(): seq<ListenerId>
      reads this, videoInfoStream
    {
      videoInfoStream[..Min(totalVSListeners, videoInfoStream.Length)]
    }

    constructor ()
      ensures Valid() && fresh(videoPlayBackListeners) && fresh(videoInfoStream)
      ensures totalVPListeners == 0 && totalVSListeners == 0
      ensures ioInterfaceListener == None && progressBarStream == None
      ensures !isPlaying && !surfaceCreated && !videoFileAvailable && filter == NoFilter && fileUri == None
      ensures sent == []
    {
      videoPlayBackListeners := new ListenerId[HandlerCount];
      videoInfoStream := new ListenerId[HandlerCount];
      totalVPListeners, totalVSListeners := 0, 0;
      ioInterfaceListener, progressBarStream := None, None;
      isPlaying, surfaceCreated, videoFileAvailable := false, false, false;
      filter, fileUri := NoFilter, None;
      sent := [];
    }

    /** Register a playback listener: write it at the count and increment.
        The index is evaluated with its increment before the bounds check,
        so a registration past the capacity throws yet still increments. */
    method AddListener(listener: ListenerId) returns (st: Status)
      requires Valid()
      modifies this`totalVPListeners, videoPlayBackListeners
      ensures Valid() && videoPlayBackListeners == old(videoPlayBackListeners) && videoInfoStream == old(videoInfoStream)
      ensures totalVPListeners == old(totalVPListeners) + 1
      ensures st == (if old(totalVPListeners) < HandlerCount then Done else Thrown(IndexOutOfBounds))
      ensures PlaybackListeners() == if st == Done then old(PlaybackListeners()) + [listener] else old(PlaybackListeners())
      ensures InfoListeners() == old(InfoListeners()) && sent == old(sent)
    {
      var i := totalVPListeners;
      totalVPListeners := totalVPListeners + 1;
      if i < videoPlayBackListeners.Length {
        videoPlayBackListeners[i] := listener;
        st := Done;
      } else {
        st := Thrown(IndexOutOfBounds);
      }
    }

    /** Register a video-info listener, as AddListener does for playback listeners. */
    method AddStreamVS(listener: ListenerId) returns (st: Status)
      requires Valid()
      modifies this`totalVSListeners, videoInfoStream
      ensures Valid() && videoPlayBackListeners == old(videoPlayBackListeners) && videoInfoStream == old(videoInfoStream)
      ensures totalVSListeners == old(totalVSListeners) + 1
      ensures st == (if old(totalVSListeners) < HandlerCount then Done else Thrown(IndexOutOfBounds))
      ensures InfoListeners() == if st == Done then old(InfoListeners()) + [listener] else old(InfoListeners())
      ensures PlaybackListeners() == old(PlaybackListeners()) && sent == old(sent)
    {
      var i := totalVSListeners;
      totalVSListeners := totalVSListeners + 1;
      if i < videoInfoStream.Length {
        videoInfoStream[i] := listener;
        st := Done;
      } else {
        st := Thrown(IndexOutOfBounds);
      }
    }

    /** Set the single I/O listener, replacing any earlier one. */
    method AddIOListener(listener: ListenerId)
      modifies this`ioInterfaceListener
      ensures ioInterfaceListener == Some(listener)
    {
      ioInterfaceListener := Some(listener);
    }

    /** Set the single progress listener, replacing any earlier one. */
    method AddStream(listener: ListenerId)
      modifies this`progressBarStream
      ensures progressBarStream == Some(listener)
    {
      progressBarStream := Some(listener);
    }

    /** Send each command to each listener among the first `count` slots of
        `targets`, listener by listener; reaching a slot past the array
        throws. */
    method FanOut(targets: array<ListenerId>, count: nat, cmds: seq<Command>) returns (st: Status)
      modifies this`sent
      ensures sent == old(sent) + Fanout(targets[..Min(count, targets.Length)], cmds)
      ensures st == (if count <= targets.Length then Done else Thrown(IndexOutOfBounds))
    {
      var i := 0;
      while i < count
        invariant 0 <= i <= Min(count, targets.Length)
        invariant sent == old(sent) + Fanout(targets[..i], cmds)
      {
        if i >= targets.Length {
          return Thrown(IndexOutOfBounds);
        }
        assert targets[..i + 1] == targets[..i] + [targets[i]];
        FanoutAppend(targets[..i], [targets[i]], cmds);
        assert Fanout([targets[i]], cmds) == CallsTo(targets[i], cmds) + [];
        sent := sent + CallsTo(targets[i], cmds);
        i := i + 1;
      }
      st := Done;
    }

    method OpenFilePicker() returns (st: Status)
      modifies this`sent
      ensures ioInterfaceListener == None ==> st == Thrown(NullPointer) && sent == old(sent)
      ensures ioInterfaceListener != None ==> st == Done && sent == old(sent) + [Call(ioInterfaceListener.value, PickFile)]
    {
      if ioInterfaceListener == None {
        return Thrown(NullPointer);
      }
      sent := sent + [Call(ioInterfaceListener.value, PickFile)];
      st := Done;
    }

    /** Set playing, then tell each playback listener to initiate with the
        picked file and to play. */
    method OnInitiate() returns (st: Status)
      requires Valid()
      modifies this`isPlaying, this`sent
      ensures isPlaying
      ensures sent == old(sent) + Fanout(PlaybackListeners(), [Initiate(fileUri), Play])
      ensures st == (if totalVPListeners <= HandlerCount then Done else Thrown(IndexOutOfBounds))
    {
      isPlaying := true;
      st := FanOut(videoPlayBackListeners, totalVPListeners, [Initiate(fileUri), Play]);
    }

    /** Store the picked file, mark a file available, then initiate. The
        picker may report no file (`None`, Java's null); that is stored,
        marked available and sent on all the same. */
    method OnFilePicked(uri: Option<Uri>) returns (st: Status)
      requires Valid()
      modifies this`fileUri, this`videoFileAvailable, this`isPlaying, this`sent
      ensures fileUri == uri && videoFileAvailable && isPlaying
      ensures sent == old(sent) + Fanout(PlaybackListeners(), [Initiate(uri), Play])
      ensures st == (if totalVPListeners <= HandlerCount then Done else Thrown(IndexOutOfBounds))
    {
      fileUri := uri;
      videoFileAvailable := true;
      st := OnInitiate();
    }

    /** Forward a speed label to every playback listener. */
    method OnPlaybackChanged(speed: string) returns (st: Status)
      requires Valid()
      modifies this`sent
      ensures sent == old(sent) + Fanout(PlaybackListeners(), [PlaybackChanged(speed)])
      ensures st == (if totalVPListeners <= HandlerCount then Done else Thrown(IndexOutOfBounds))
    {
      st := FanOut(videoPlayBackListeners, totalVPListeners, [PlaybackChanged(speed)]);
    }

    /** Flip the play state and tell every playback listener to play or to
        pause accordingly; two toggles restore the state. */
    method OnPlayPauseToggled() returns (st: Status)
      requires Valid()
      modifies this`isPlaying, this`sent
      ensures isPlaying == !old(isPlaying)
      ensures sent == old(sent) + Fanout(PlaybackListeners(), [if isPlaying then Play else Pause])
      ensures st == (if totalVPListeners <= HandlerCount then Done else Thrown(IndexOutOfBounds))
    {
      isPlaying := !isPlaying;
      if isPlaying {
        st := FanOut(videoPlayBackListeners, totalVPListeners, [Play]);
      } else {
        st := FanOut(videoPlayBackListeners, totalVPListeners, [Pause]);
      }
    }

    /** Forward a seek position to every playback listener. */
    method OnSeekChanged(progress: int) returns (st: Status)
      requires Valid()
      modifies this`sent
      ensures sent == old(sent) + Fanout(PlaybackListeners(), [Seek(progress)])
      ensures st == (if totalVPListeners <= HandlerCount then Done else Thrown(IndexOutOfBounds))
    {
      st := FanOut(videoPlayBackListeners, totalVPListeners, [Seek(progress)]);
    }

    /** Select the filter for a name and send its ordinal to every video-info listener. */
    method OnFilterChange(filterId: string) returns (st: Status)
      requires Valid()
      modifies this`filter, this`sent
      ensures filter == FilterOfName(filterId)
      ensures sent == old(sent) + Fanout(InfoListeners(), [ShowFilter(Ordinal(filter))])
      ensures st == (if totalVSListeners <= HandlerCount then Done else Thrown(IndexOutOfBounds))
    {
      if filterId == "NONE" {
        filter := NoFilter;
      } else if filterId == "FILTER1" {
        filter := Filter1;
      } else if filterId == "FILTER2" {
        filter := Filter2;
      } else if filterId == "FILTER3" {
        filter := Filter3;
      } else {
        filter := NoFilter;
      }
      st := FanOut(videoInfoStream, totalVSListeners, [ShowFilter(Ordinal(filter))]);
    }

    /** Pass one progress call on to the progress listener, unchanged. */
    method Forward(cmd: Command) returns (st: Status)
      modifies this`sent
      ensures progressBarStream == None ==> st == Thrown(NullPointer) && sent == old(sent)
      ensures progressBarStream != None ==> st == Done && sent == old(sent) + [Call(progressBarStream.value, cmd)]
    {
      if progressBarStream == None {
        return Thrown(NullPointer);
      }
      sent := sent + [Call(progressBarStream.value, cmd)];
      st := Done;
    }

    method UpdateSeekBarProgress(progress: int) returns (st: Status)
      modifies this`sent
      ensures progressBarStream == None ==> st == Thrown(NullPointer) && sent == old(sent)
      ensures progressBarStream != None ==> st == Done && sent == old(sent) + [Call(progressBarStream.value, SeekBarProgress(progress))]
    {
      st := Forward(SeekBarProgress(progress));
    }

    method SetMaxDuration(duration: int) returns (st: Status)
      modifies this`sent
      ensures progressBarStream == None ==> st == Thrown(NullPointer) && sent == old(sent)
      ensures progressBarStream != None ==> st == Done && sent == old(sent) + [Call(progressBarStream.value, MaxDuration(duration))]
    {
      st := Forward(MaxDuration(duration));
    }

    method UpdateFrameCount(frameCount: int) returns (st: Status)
      modifies this`sent
      ensures progressBarStream == None ==> st == Thrown(NullPointer) && sent == old(sent)
      ensures progressBarStream != None ==> st == Done && sent == old(sent) + [Call(progressBarStream.value, FrameCount(frameCount))]
    {
      st := Forward(FrameCount(frameCount));
    }
  }
}
