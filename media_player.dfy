/** The frame-number state machine of `app/modules/media_player.py`: a video
    capture read frame by frame, a timer whose timeouts read the next frame,
    and the signals the player emits. Opening the file is I/O: the decoded
    frames, the frame count moviepy reports and its frame rate come in as
    parameters of `SetSource`. */
module MediaPlayer {
  import opened Common

  /** One decoded image: its height, its width and its pixel values. */
  datatype Frame = Frame(height: nat, width: nat, pixels: seq<int>)

  /** `np.empty((0, 0, 3))`, the image shown by a cleared player. */
  const EmptyFrame := Frame(0, 0, [])

  /** `cv2.VideoCapture` of a file: its frames and the index of the next
      frame `read` returns. */
  datatype Capture = Capture(frames: seq<Frame>, pos: nat)

  /** `cap.read()`: the next frame and the capture moved past it, or no
      frame (and no move) at the end of the file. */
  function Read(c: Capture): (Option<Frame>, Capture) {
    if c.pos < |c.frames| then (Some(c.frames[c.pos]), c.(pos := c.pos + 1)) else (None, c)
  }

  /** `k` reads in a row: the frames returned, in order, and the capture
      after them. */
  function Reads(c: Capture, k: nat): (seq<Frame>, Capture)
    decreases k
  {
    if k == 0 then ([], c)
    else
      var (f, c') := Read(c);
      var (fs, c'') := Reads(c', k - 1);
      (if f.Some? then [f.value] + fs else fs, c'')
  }

  function Min(a: int, b: int): int { if a <= b then a else b }

  /** Reads return the frames of the file in order from the current
      position, one per read, until the end of the file; every read after
      that returns nothing and leaves the capture where it is. */
  lemma {:induction false} ReadsInOrder(c: Capture, k: nat)
    requires c.pos <= |c.frames|
    ensures var (fs, c') := Reads(c, k);
            && c'.frames == c.frames && c'.pos == Min(c.pos + k, |c.frames|)
            && fs == c.frames[c.pos..c'.pos]
    decreases k
  {
    if k > 0 {
      var (f, c1) := Read(c);
      ReadsInOrder(c1, k - 1);
      if c.pos < |c.frames| {
        assert c.frames[c.pos..Min(c.pos + k, |c.frames|)]
               == [c.frames[c.pos]] + c.frames[c1.pos..Min(c1.pos + (k - 1), |c.frames|)];
      }
    }
  }

  /** `PlaybackState`. */
  datatype PlaybackState = Play | Pause | Stop

  /** What the player emits: `video_frame_changed` and `state_changed`. */
  datatype Signal = FrameChanged(frame: Frame, number: int) | StateChanged(state: PlaybackState)

  /** The message of the AttributeError raised by a method call on `None`. */
  function NoAttribute(name: string): string {
    "'NoneType' object has no attribute '" + name + "'"
  }

  const NoFrameRate := "unsupported operand type(s) for /: 'int' and 'NoneType'"
  const DivisionByZero := "division by zero"

  /** `MediaPlayer`. `timerActive` and `interval` are the state of its
      `QTimer`; `emitted` logs the signals in the order they were sent. */
  class Player {
    var frameCount: int
    var fps: Option<real>
    var cap: Option<Capture>
    var currentFrame: Option<Frame>
    var currentFrameNumber: int
    var timerActive: bool
    var interval: int
    var emitted: seq<Signal>

    /** The player's invariant: a player without a capture is at frame 0
        of 0, and with a capture the frame shown is frame number
        `currentFrameNumber` of the file (counting from 1), and the capture
        either reads the frame after it next or is past the end of the
        file. */
    ghost predicate Valid()
      reads this
    {
      && currentFrameNumber >= 0
      && (cap.None? ==> frameCount == 0 && currentFrameNumber == 0)
      && (cap.Some? ==>
            var c := cap.value;
            && currentFrameNumber <= |c.frames|
            && (currentFrameNumber > 0 ==> currentFrame == Some(c.frames[currentFrameNumber - 1]))
            && (c.pos == currentFrameNumber || c.pos >= |c.frames|))
    }

    /** `MediaPlayer()`: cleared, with a stopped timer. */
    constructor()
      ensures Valid()
      ensures frameCount == 0 && fps.None? && cap.None?
      ensures currentFrameNumber == 0 && currentFrame == Some(EmptyFrame)
      ensures !timerActive && interval == 0
      ensures emitted == [FrameChanged(EmptyFrame, 0)]
    {
      frameCount := 0;
      fps := None;
      cap := None;
      currentFrameNumber := 0;
      currentFrame := Some(EmptyFrame);
      timerActive := false;
      interval := 0;
      emitted := [FrameChanged(EmptyFrame, 0)];
    }

    /** `__update_frame`: show a frame under a number and announce it. */
    method UpdateFrame(frame: Frame, number: int)
      modifies this
      ensures currentFrameNumber == number && currentFrame == Some(frame)
      ensures emitted == old(emitted) + [FrameChanged(frame, number)]
      ensures frameCount == old(frameCount) && fps == old(fps) && cap == old(cap)
      ensures timerActive == old(timerActive) && interval == old(interval)
    {
      currentFrameNumber := number;
      currentFrame := Some(frame);
      emitted := emitted + [FrameChanged(frame, number)];
    }

    /** `clear`: no file, frame 0 of 0, the empty image shown. The timer is
        left as it is. */
    method Clear()
      modifies this
      ensures Valid()
      ensures frameCount == 0 && fps.None? && cap.None?
      ensures currentFrameNumber == 0 && currentFrame == Some(EmptyFrame)
      ensures emitted == old(emitted) + [FrameChanged(EmptyFrame, 0)]
      ensures timerActive == old(timerActive) && interval == old(interval)
    {
      frameCount := 0;
      fps := None;
      cap := None;
      currentFrame := None;
      currentFrameNumber := 0;
      UpdateFrame(EmptyFrame, 0);
    }

    /** `__next_frame`, run by `set_source` and by every timeout of the
        timer: show the next frame under the next number, or at the end of
        the file stop the timer and announce the stop. Without a capture
        (a player cleared while playing) the read is an AttributeError. */
    method NextFrame() returns (r: Result<()>)
      requires Valid()
      modifies this
      ensures Valid()
      ensures old(cap).None? ==> r == Failure(Raised(NoAttribute("read"))) && unchanged(this)
      ensures old(cap).Some? ==> r.Success? && cap.Some? && cap.value.frames == old(cap.value.frames)
      ensures old(cap).Some? && old(cap.value.pos) < |old(cap.value.frames)| ==>
                && currentFrameNumber == old(currentFrameNumber) + 1
                && currentFrame == Some(old(cap.value.frames[cap.value.pos]))
                && cap.value.pos == old(cap.value.pos) + 1
                && timerActive == old(timerActive)
                && emitted == old(emitted) + [FrameChanged(currentFrame.value, currentFrameNumber)]
      ensures old(cap).Some? && old(cap.value.pos) >= |old(cap.value.frames)| ==>
                && currentFrameNumber == old(currentFrameNumber) && currentFrame == old(currentFrame)
                && cap == old(cap) && !timerActive
                && emitted == old(emitted) + [StateChanged(PlaybackState.Stop)]
      ensures frameCount == old(frameCount) && fps == old(fps) && interval == old(interval)
    {
      if cap.None? {
        return Failure(Raised(NoAttribute("read")));
      }
      var (frame, c) := Read(cap.value);
      cap := Some(c);
      if frame.None? {
        timerActive := false;
        emitted := emitted + [StateChanged(PlaybackState.Stop)];
        return Success(());
      }
      UpdateFrame(frame.value, currentFrameNumber + 1);
      return Success(());
    }

    /** `set_source`: open a file of the given frames, whose frame count
        moviepy reports as `nFrames` and whose frame rate is `rate`, and
        show its first frame as number 1 (or, for a file without frames,
        stop the timer). */
    method SetSource(frames: seq<Frame>, nFrames: int, rate: real)
      requires Valid()
      modifies this
      ensures Valid()
      ensures fps == Some(rate) && frameCount == nFrames - 1
      ensures cap.Some? && cap.value.frames == frames
      ensures interval == old(interval)
      ensures |frames| > 0 ==>
                && currentFrameNumber == 1 && currentFrame == Some(frames[0]) && cap.value.pos == 1
                && timerActive == old(timerActive)
                && emitted == old(emitted) + [FrameChanged(frames[0], 1)]
      ensures |frames| == 0 ==>
                && currentFrameNumber == 0 && currentFrame == old(currentFrame) && cap.value.pos == 0
                && !timerActive && emitted == old(emitted) + [StateChanged(PlaybackState.Stop)]
    {
      currentFrameNumber := 0;
      cap := Some(Capture(frames, 0));
      fps := Some(rate);
      frameCount := nFrames - 1;
      var _ := NextFrame();
    }

    /** `set_position`: a frame number from 1 to `frameCount` moves the
        capture to it and shows that frame under that number; past the end
        of the file the read fails and only the capture moves; any other
        number changes nothing. */
    method SetPosition(n: int)
      requires Valid()
      modifies this
      ensures Valid()
      ensures !(0 < n <= old(frameCount)) ==> unchanged(this)
      ensures 0 < n <= old(frameCount) ==>
                && old(cap).Some? && cap.Some? && cap.value.frames == old(cap.value.frames)
                && if n - 1 < |cap.value.frames| then
                     && currentFrameNumber == n && currentFrame == Some(cap.value.frames[n - 1])
                     && cap.value.pos == n
                     && emitted == old(emitted) + [FrameChanged(cap.value.frames[n - 1], n)]
                   else
                     && currentFrameNumber == old(currentFrameNumber) && currentFrame == old(currentFrame)
                     && cap.value.pos == n - 1 && emitted == old(emitted)
      ensures frameCount == old(frameCount) && fps == old(fps)
      ensures timerActive == old(timerActive) && interval == old(interval)
    {
      if 0 < n <= frameCount {
        var (frame, c) := Read(cap.value.(pos := n - 1));
        cap := Some(c);
        if frame.Some? {
          UpdateFrame(frame.value, n);
        }
      }
    }

    /** `play`: nothing while the timer runs. Otherwise a player at its
        last frame goes back to frame 0 first, announces that it plays and
        starts the timer with one frame period in whole milliseconds. On a
        cleared player the rewind is an AttributeError; without a frame
        rate, or with a zero one, the period cannot be computed after the
        announcement. */
    method Play() returns (r: Result<()>)
      requires Valid()
      modifies this
      ensures Valid()
      ensures old(timerActive) ==> r.Success? && unchanged(this)
      ensures !old(timerActive) && old(cap).None? ==>
                && r == Failure(Raised(NoAttribute("set")))
                && currentFrameNumber == 0 && !timerActive && emitted == old(emitted)
                && cap == old(cap) && interval == old(interval)
      ensures !old(timerActive) && old(cap).Some? ==>
                && cap.Some? && cap.value.frames == old(cap.value.frames)
                && emitted == old(emitted) + [StateChanged(PlaybackState.Play)]
                && (if old(currentFrameNumber) == old(frameCount)
                    then currentFrameNumber == 0 && cap.value.pos == 0
                    else currentFrameNumber == old(currentFrameNumber) && cap == old(cap))
                && match old(fps)
                   case None => r == Failure(Raised(NoFrameRate)) && !timerActive && interval == old(interval)
                   case Some(rate) =>
                     if rate == 0.0
                     then r == Failure(Raised(DivisionByZero)) && !timerActive && interval == old(interval)
                     else r.Success? && timerActive && interval == Trunc(1000.0 / rate)
      ensures frameCount == old(frameCount) && fps == old(fps) && currentFrame == old(currentFrame)
    {
      if timerActive {
        return Success(());
      }
      if currentFrameNumber == frameCount {
        currentFrameNumber := 0;
        if cap.None? {
          return Failure(Raised(NoAttribute("set")));
        }
        cap := Some(cap.value.(pos := 0));
      }
      emitted := emitted + [StateChanged(PlaybackState.Play)];
      if fps.None? {
        return Failure(Raised(NoFrameRate));
      }
      if fps.value == 0.0 {
        return Failure(Raised(DivisionByZero));
      }
      timerActive := true;
      interval := Trunc(1000.0 / fps.value);
      return Success(());
    }

    /** `pause`: while the timer runs, announce the pause and stop it;
        otherwise nothing. */
    method Pause()
      modifies this
      ensures !old(timerActive) ==> unchanged(this)
      ensures old(timerActive) ==>
                && !timerActive && emitted == old(emitted) + [StateChanged(PlaybackState.Pause)]
                && frameCount == old(frameCount) && fps == old(fps) && cap == old(cap)
                && currentFrame == old(currentFrame) && currentFrameNumber == old(currentFrameNumber)
                && interval == old(interval)
    {
      if timerActive {
        emitted := emitted + [StateChanged(PlaybackState.Pause)];
        timerActive := false;
      }
    }

    /** `is_playing`: whether the timer runs. */
    function IsPlaying(): (r: bool)
      reads this
      ensures r <==> timerActive
    {
      timerActive
    }
  }
}
