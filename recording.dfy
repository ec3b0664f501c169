/**
 * The live comparison of pose_comparison.py: the recording state kept in the
 * fields video_writer, is_recording and output_filename, the reference video
 * that rewinds when it runs out, and the run loop that reads the camera,
 * scores each frame, records it and reacts to the keyboard.
 *
 * Frames are opaque; the pose estimator, the clock and the keyboard are
 * inputs of the loop (see Env).
 */
module Recording {
  import opened Wrappers
  import opened Scoring
  import opened Annotation

  /** A video frame; its pixels are not modelled. */
  datatype Frame = Frame(id: nat)

  /** A frame as written to the recording: the user's frame with its pose marks and the score overlay. */
  datatype Stamped = Stamped(frame: Frame, marks: seq<Mark>, percent: int, colour: Bgr, correct: int, time: string)

  /** An open video writer and the frames written to it so far. */
  datatype Writer = Writer(path: string, fps: real, width: int, height: int, frames: seq<Stamped>)

  /**
   * The recording fields: video_writer (None when no writer), is_recording,
   * output_filename, and the recordings already released to disk.
   */
  datatype Recorder = Recorder(writer: Option<Writer>, isRecording: bool, outputFilename: Option<string>, saved: seq<Writer>)

  const Idle := Recorder(None, false, None, [])

  /** is_recording holds exactly while a writer exists. */
  predicate Consistent(r: Recorder) {
    r.isRecording <==> r.writer.Some?
  }

  /** The name of a recording started at the given timestamp. */
  function RecordingName(timestamp: string): string {
    "your_pose_" + timestamp + ".mp4"
  }

  /** All frames of the given writers, in order. */
  function AllFrames(ws: seq<Writer>): seq<Stamped> {
    if ws == [] then [] else AllFrames(ws[..|ws| - 1]) + ws[|ws| - 1].frames
  }

  /** Every frame recorded so far: the released recordings, then the open one. */
  function Footage(r: Recorder): seq<Stamped> {
    AllFrames(r.saved) + (if r.writer.Some? then r.writer.value.frames else [])
  }

  /** _start_recording: a new, empty writer under a timestamped name. */
  function Started(r: Recorder, width: int, height: int, fps: real, timestamp: string): (r': Recorder)
    ensures r'.isRecording && r'.writer.Some? && r'.writer.value.frames == [] && Consistent(r')
    ensures r'.outputFilename == Some(r'.writer.value.path) == Some(RecordingName(timestamp))
    ensures r'.saved == r.saved
  {
    var name := RecordingName(timestamp);
    r.(outputFilename := Some(name), writer := Some(Writer(name, fps, width, height, [])), isRecording := true)
  }

  /** _stop_recording: release the writer, if there is one. */
  function Stopped(r: Recorder): (r': Recorder)
    ensures r'.writer.None?
    ensures r.writer.Some? ==> !r'.isRecording && r'.saved == r.saved + [r.writer.value]
    ensures r.writer.None? ==> r' == r
    ensures r'.outputFilename == r.outputFilename
    ensures Consistent(r) ==> Consistent(r') && !r'.isRecording
  {
    if r.writer.Some? then r.(saved := r.saved + [r.writer.value], writer := None, isRecording := false) else r
  }

  /** _write_frame: append a frame iff recording with a writer. */
  function WithFrame(r: Recorder, f: Stamped): (r': Recorder)
    ensures r'.isRecording == r.isRecording && r'.saved == r.saved && r'.outputFilename == r.outputFilename
    ensures r'.writer.Some? == r.writer.Some?
    ensures Consistent(r) ==> Consistent(r')
  {
    if r.isRecording && r.writer.Some? then
      r.(writer := Some(r.writer.value.(frames := r.writer.value.frames + [f])))
    else r
  }

  /** Stopping twice is stopping once. */
  lemma StopRecordingIdempotent(r: Recorder)
    ensures Stopped(Stopped(r)) == Stopped(r)
  {
  }

  /** Releasing the writer keeps every frame recorded so far. */
  lemma StopRecordingKeepsFootage(r: Recorder)
    ensures Footage(Stopped(r)) == Footage(r)
  {
    if r.writer.Some? {
      var ws := r.saved + [r.writer.value];
      assert ws[..|ws| - 1] == r.saved;
    }
  }

  /** Writing adds exactly one frame iff recording with a writer, and nothing otherwise. */
  lemma WriteFrameAddsOne(r: Recorder, f: Stamped)
    ensures Footage(WithFrame(r, f)) == Footage(r) + (if r.isRecording && r.writer.Some? then [f] else [])
  {
  }

  /** Starting a recording while none is open loses no frame. */
  lemma StartRecordingKeepsFootage(r: Recorder, width: int, height: int, fps: real, timestamp: string)
    requires r.writer.None?
    ensures Footage(Started(r, width, height, fps, timestamp)) == Footage(r)
  {
  }

  // ---------------------------------------------------------------------
  // Reading the reference video

  /** One read of a capture positioned at pos: the frame and the new position, or a failed read. */
  function CaptureRead(reference: seq<Frame>, pos: nat): (r: (Option<Frame>, nat))
    ensures r.0.Some? <==> pos < |reference|
    ensures r.0.Some? ==> r.0.value == reference[pos] && r.1 == pos + 1
    ensures r.0.None? ==> r.1 == pos
  {
    if pos < |reference| then (Some(reference[pos]), pos + 1) else (None, pos)
  }

  /** A read that, when it fails, rewinds the capture to frame 0 and reads once more. */
  function ReadWithRewind(reference: seq<Frame>, pos: nat): (r: (Option<Frame>, nat))
    ensures |reference| > 0 ==> r.0.Some? && 1 <= r.1 <= |reference|
    ensures |reference| == 0 ==> r == (None, 0)
  {
    var (f, p) := CaptureRead(reference, pos);
    if f.Some? then (f, p) else CaptureRead(reference, 0)
  }

  /** The frames of n successive reads with rewind, starting at pos. */
  function ReferenceReads(reference: seq<Frame>, pos: nat, n: nat): seq<Option<Frame>>
    decreases n
  {
    if n == 0 then []
    else
      var (f, p) := ReadWithRewind(reference, pos);
      [f] + ReferenceReads(reference, p, n - 1)
  }

  /** Each frame as a successful read. */
  function Successes(fs: seq<Frame>): (r: seq<Option<Frame>>)
    ensures |r| == |fs| && forall i :: 0 <= i < |fs| ==> r[i] == Some(fs[i])
  {
    if fs == [] then [] else [Some(fs[0])] + Successes(fs[1..])
  }

  lemma SuccessesCons(f: Frame, fs: seq<Frame>)
    ensures Successes([f] + fs) == [Some(f)] + Successes(fs)
  {
    assert ([f] + fs)[1..] == fs;
  }

  /** The successes of a non-empty slice: its first frame, then the rest. */
  lemma SuccessesOfSlice(fs: seq<Frame>, lo: nat, hi: nat)
    requires lo < hi <= |fs|
    ensures Successes(fs[lo..hi]) == [Some(fs[lo])] + Successes(fs[lo + 1..hi])
  {
    assert fs[lo..hi] == [fs[lo]] + fs[lo + 1..hi];
    SuccessesCons(fs[lo], fs[lo + 1..hi]);
  }

  /** A read inside the video yields the frame at the cursor and moves past it. */
  lemma ReadInside(reference: seq<Frame>, pos: nat, n: nat)
    requires pos < |reference| && n > 0
    ensures ReferenceReads(reference, pos, n) == [Some(reference[pos])] + ReferenceReads(reference, pos + 1, n - 1)
  {
    assert ReadWithRewind(reference, pos) == (Some(reference[pos]), pos + 1);
  }

  /** A non-empty reference never fails to deliver a frame, however often it is read. */
  lemma {:induction false} ReferenceNeverRunsOut(reference: seq<Frame>, pos: nat, n: nat)
    requires |reference| > 0 && pos <= |reference|
    ensures |ReferenceReads(reference, pos, n)| == n
    ensures forall i :: 0 <= i < n ==> ReferenceReads(reference, pos, n)[i].Some?
    decreases n
  {
    if n > 0 {
      var (f, p) := ReadWithRewind(reference, pos);
      ReferenceNeverRunsOut(reference, p, n - 1);
    }
  }

  /** Reads from pos that stay within the video yield its next frames in order. */
  lemma {:induction false} ReferenceReadsInOrder(reference: seq<Frame>, pos: nat, n: nat)
    requires pos + n <= |reference|
    ensures ReferenceReads(reference, pos, n) == Successes(reference[pos..pos + n])
    decreases n
  {
    if n > 0 {
      ReadInside(reference, pos, n);
      ReferenceReadsInOrder(reference, pos + 1, n - 1);
      SuccessesOfSlice(reference, pos, pos + n);
    } else {
      assert reference[pos..pos + n] == [];
    }
  }

  /**
   * Reads from pos that go past the end yield the rest of the video and then
   * continue as reads from the first frame: the reference loops.
   */
  lemma {:induction false} ReferenceLoops(reference: seq<Frame>, pos: nat, n: nat)
    requires |reference| > 0 && pos <= |reference| && n > |reference| - pos
    ensures ReferenceReads(reference, pos, n)
         == Successes(reference[pos..]) + ReferenceReads(reference, 0, n - (|reference| - pos))
    decreases |reference| - pos
  {
    var rest := n - (|reference| - pos);
    if pos == |reference| {
      var (f, p) := ReadWithRewind(reference, 0);
      assert ReadWithRewind(reference, pos) == (f, p);
      assert ReferenceReads(reference, pos, n) == [f] + ReferenceReads(reference, p, n - 1) == ReferenceReads(reference, 0, n);
      assert Successes(reference[pos..]) == [];
    } else {
      var r := Some(reference[pos]);
      ReadInside(reference, pos, n);
      ReferenceLoops(reference, pos + 1, n - 1);
      assert (n - 1) - (|reference| - (pos + 1)) == rest;
      assert reference[pos..] == [reference[pos]] + reference[pos + 1..];
      SuccessesCons(reference[pos], reference[pos + 1..]);
      assert [r] + (Successes(reference[pos + 1..]) + ReferenceReads(reference, 0, rest))
          == ([r] + Successes(reference[pos + 1..])) + ReferenceReads(reference, 0, rest);
    }
  }

  // ---------------------------------------------------------------------
  // The run loop

  /** Key codes after masking with 0xFF. */
  const KeyQuit := 113     // 'q'
  const KeyRestart := 114  // 'r'
  const KeyRecord := 118   // 'v'
  const KeyPause := 32     // ' '

  /** Size and rate of a recording: the user side of the display is resized to 640x480. */
  const DisplayWidth := 640
  const DisplayHeight := 480
  const RecordingFps := 30.0

  /** A reading of the clock: the file-name form and the time of day. */
  datatype Instant = Instant(stamp: string, timeOfDay: string)

  /**
   * What the loop receives from outside: the camera's frames, the value of
   * waitKey after each iteration (an exhausted list stands for Ctrl-C), the
   * pose estimator, the skeleton's connections and the clock at each iteration.
   */
  datatype Env = Env(
    camera: seq<Frame>,
    keys: seq<int>,
    detect: Frame -> Option<seq<Landmark>>,
    connections: seq<(int, int)>,
    now: nat -> Instant)

  /** The estimator reports 33 landmarks, and the skeleton joins only those. */
  ghost predicate WellFormedEnv(env: Env) {
    (forall f :: env.detect(f).Some? ==> |env.detect(f).value| == TotalKeypoints) &&
    ValidTopology(env.connections, TotalKeypoints)
  }

  /** The state the loop carries from one iteration to the next. */
  datatype Loop = Loop(
    rec: Recorder,
    refPos: nat,
    cam: nat,
    paused: bool,
    score: real,
    wrong: set<int>,
    tick: nat,
    running: bool)

  /** The loop's state before its first iteration. */
  function Begin(rec: Recorder, refPos: nat): Loop {
    Loop(rec, refPos, 0, false, 0.0, {}, 0, true)
  }

  /** The frame written for a user frame: its marks and the score overlay. */
  function StampFrame(frame: Frame, marks: seq<Mark>, cmp: Comparison, time: string): Stamped
    requires 0.0 <= cmp.score <= 1.0
  {
    Stamped(frame, marks, ScorePercent(cmp.score), ScoreColour(cmp.score), DisplayedCorrect(cmp.wrong), time)
  }

  /** The user frame's comparison with the reference frame read alongside it. */
  function Compare(env: Env, user: Frame, refFrame: Option<Frame>): (cmp: Comparison)
    requires WellFormedEnv(env)
    ensures 0.0 <= cmp.score <= 1.0
  {
    var refPose := if refFrame.Some? then env.detect(refFrame.value) else None;
    CalculateScore(KeypointsOf(env.detect(user)), KeypointsOf(refPose), DefaultThreshold)
  }

  /** An unpaused iteration's work: read, score, and record the next camera frame. */
  function Process(reference: seq<Frame>, env: Env, s: Loop): (s': Loop)
    requires WellFormedEnv(env) && s.cam < |env.camera|
    ensures s'.cam == s.cam + 1 && s'.paused == s.paused && s'.tick == s.tick && s'.running == s.running
  {
    var user := env.camera[s.cam];
    var (refFrame, pos) := ReadWithRewind(reference, s.refPos);
    var cmp := Compare(env, user, refFrame);
    var marks := PoseMarks(env.detect(user), env.connections, Green, Some(cmp.wrong));
    var rec := if s.rec.isRecording then WithFrame(s.rec, StampFrame(user, marks, cmp, env.now(s.tick).timeOfDay)) else s.rec;
    s.(cam := s.cam + 1, refPos := pos, score := cmp.score, wrong := cmp.wrong, rec := rec)
  }

  /**
   * The effect of the key read at the end of an iteration: 'q' ends the loop,
   * 'r' rewinds the reference, 'v' toggles recording, space toggles the
   * pause, and any other key changes nothing; no key touches the camera
   * position, the score or the clock.
   */
  function HandleKey(env: Env, s: Loop, key: int): (s': Loop)
    ensures s'.cam == s.cam && s'.score == s.score && s'.wrong == s.wrong && s'.tick == s.tick
    ensures s'.running == (s.running && key != KeyQuit)
    ensures s'.refPos == if key == KeyRestart then 0 else s.refPos
    ensures s'.paused == if key == KeyPause then !s.paused else s.paused
    ensures key != KeyRecord ==> s'.rec == s.rec
    ensures key == KeyRecord && Consistent(s.rec) ==> s'.rec.isRecording == !s.rec.isRecording && Consistent(s'.rec)
  {
    if key == KeyQuit then s.(running := false)
    else if key == KeyRestart then s.(refPos := 0)
    else if key == KeyRecord then
      if !s.rec.isRecording then s.(rec := Started(s.rec, DisplayWidth, DisplayHeight, RecordingFps, env.now(s.tick).stamp))
      else s.(rec := Stopped(s.rec))
    else if key == KeyPause then s.(paused := !s.paused)
    else s
  }

  /** One iteration: stop when the camera yields no frame, else process (unless paused) and handle the key. */
  function Iterate(reference: seq<Frame>, env: Env, s: Loop): (s': Loop)
    requires WellFormedEnv(env) && s.running && s.tick < |env.keys|
    ensures s'.running ==> s'.tick == s.tick + 1
    ensures s'.tick == s.tick || s'.tick == s.tick + 1
    ensures s'.cam == s.cam || (s'.cam == s.cam + 1 && s.cam < |env.camera|)
  {
    if !s.paused && s.cam >= |env.camera| then s.(running := false)
    else
      var s1 := if s.paused then s else Process(reference, env, s);
      HandleKey(env, s1, env.keys[s.tick] % 256).(tick := s.tick + 1)
  }

  /**
   * The loop from state s until it stops or the keys run out: it ends stopped
   * or interrupted, never goes back in time, and consumes camera frames in
   * order without reading past the last one.
   */
  function RunFrom(reference: seq<Frame>, env: Env, s: Loop): (s': Loop)
    requires WellFormedEnv(env)
    ensures !s'.running || s'.tick >= |env.keys|
    ensures s'.tick >= s.tick && s'.cam >= s.cam
    ensures s.cam <= |env.camera| ==> s'.cam <= |env.camera|
    decreases |env.keys| - s.tick, s.running
  {
    if !s.running || s.tick >= |env.keys| then s else RunFrom(reference, env, Iterate(reference, env, s))
  }

  /** The cleanup on leaving the loop: stop recording if still active, keeping every recorded frame. */
  function Finish(s: Loop): (f: Loop)
    ensures Consistent(s.rec) ==> f.rec.writer.None? && !f.rec.isRecording
    ensures Footage(f.rec) == Footage(s.rec)
    ensures f.refPos == s.refPos
  {
    StopRecordingKeepsFootage(s.rec);
    if s.rec.isRecording then s.(rec := Stopped(s.rec)) else s
  }

  /**
   * A key never touches the camera position, the score or the recorded
   * frames, keeps is_recording in step with the writer, and moves the
   * reference cursor only back to frame 0.
   */
  lemma HandleKeyKeepsFootage(env: Env, s: Loop, key: int)
    requires Consistent(s.rec)
    ensures var s' := HandleKey(env, s, key);
      s'.cam == s.cam && s'.score == s.score && s'.wrong == s.wrong &&
      Footage(s'.rec) == Footage(s.rec) && Consistent(s'.rec) &&
      (s'.refPos == s.refPos || s'.refPos == 0)
  {
    if key == KeyRecord {
      var stamp := env.now(s.tick).stamp;
      if !s.rec.isRecording {
        StartRecordingKeepsFootage(s.rec, DisplayWidth, DisplayHeight, RecordingFps, stamp);
      } else {
        StopRecordingKeepsFootage(s.rec);
      }
    }
  }

  /**
   * The frame an unpaused iteration records: the next camera frame with the
   * user's pose drawn (wrong points red) and the score of its comparison with
   * the next reference frame, stamped with the time of day.
   */
  function Recorded(reference: seq<Frame>, env: Env, s: Loop): Stamped
    requires WellFormedEnv(env) && s.cam < |env.camera|
  {
    var user := env.camera[s.cam];
    var cmp := Compare(env, user, ReadWithRewind(reference, s.refPos).0);
    StampFrame(user, PoseMarks(env.detect(user), env.connections, Green, Some(cmp.wrong)), cmp, env.now(s.tick).timeOfDay)
  }

  /**
   * The unpaused work appends exactly the stamped frame to the footage iff
   * recording, takes the score and the wrong points of that comparison,
   * keeps is_recording in step with the writer and leaves the cursor within
   * the video.
   */
  lemma ProcessRecordsOne(reference: seq<Frame>, env: Env, s: Loop)
    requires WellFormedEnv(env) && s.cam < |env.camera| && Consistent(s.rec)
    ensures var p, cmp := Process(reference, env, s), Compare(env, env.camera[s.cam], ReadWithRewind(reference, s.refPos).0);
      Consistent(p.rec) && p.refPos <= |reference| &&
      p.score == cmp.score && p.wrong == cmp.wrong &&
      Footage(p.rec) == Footage(s.rec) + (if s.rec.isRecording then [Recorded(reference, env, s)] else [])
  {
    var f := Recorded(reference, env, s);
    var rec := if s.rec.isRecording then WithFrame(s.rec, f) else s.rec;
    assert Process(reference, env, s).rec == rec;
    WriteFrameAddsOne(s.rec, f);
  }

  /** A paused iteration reads nothing, scores nothing and writes nothing. */
  lemma PausedIterationWritesNothing(reference: seq<Frame>, env: Env, s: Loop)
    requires WellFormedEnv(env) && s.running && s.tick < |env.keys| && s.paused && Consistent(s.rec)
    ensures var s' := Iterate(reference, env, s);
      s'.cam == s.cam && s'.score == s.score && s'.wrong == s.wrong &&
      Footage(s'.rec) == Footage(s.rec) &&
      (s'.refPos == s.refPos || s'.refPos == 0)
  {
    var key := env.keys[s.tick] % 256;
    assert Iterate(reference, env, s) == HandleKey(env, s, key).(tick := s.tick + 1);
    HandleKeyKeepsFootage(env, s, key);
  }

  /**
   * An unpaused iteration that gets a camera frame consumes it, shows the
   * score of its comparison with the next reference frame, and records
   * exactly that frame, stamped with that score, iff recording.
   */
  lemma UnpausedIterationRecordsOne(reference: seq<Frame>, env: Env, s: Loop)
    requires WellFormedEnv(env) && s.running && s.tick < |env.keys| && !s.paused && s.cam < |env.camera|
    requires Consistent(s.rec)
    ensures var s', cmp := Iterate(reference, env, s), Compare(env, env.camera[s.cam], ReadWithRewind(reference, s.refPos).0);
      s'.cam == s.cam + 1 && s'.score == cmp.score && s'.wrong == cmp.wrong &&
      Footage(s'.rec) == Footage(s.rec) + (if s.rec.isRecording then [Recorded(reference, env, s)] else [])
  {
    var p := Process(reference, env, s);
    var key := env.keys[s.tick] % 256;
    assert Iterate(reference, env, s) == HandleKey(env, p, key).(tick := s.tick + 1);
    ProcessRecordsOne(reference, env, s);
    HandleKeyKeepsFootage(env, p, key);
  }

  /** Every iteration keeps is_recording in step with the writer and the reference cursor within the video. */
  lemma IterateKeepsInvariant(reference: seq<Frame>, env: Env, s: Loop)
    requires WellFormedEnv(env) && s.running && s.tick < |env.keys|
    requires Consistent(s.rec) && s.refPos <= |reference|
    ensures Consistent(Iterate(reference, env, s).rec) && Iterate(reference, env, s).refPos <= |reference|
  {
    var key := env.keys[s.tick] % 256;
    if s.paused {
      HandleKeyKeepsFootage(env, s, key);
    } else if s.cam < |env.camera| {
      var p := Process(reference, env, s);
      assert Iterate(reference, env, s) == HandleKey(env, p, key).(tick := s.tick + 1);
      ProcessRecordsOne(reference, env, s);
      HandleKeyKeepsFootage(env, p, key);
    }
  }

  /** However the loop ends, the session leaves no writer open and is_recording false. */
  lemma {:induction false} SessionEndsStopped(reference: seq<Frame>, env: Env, s: Loop)
    requires WellFormedEnv(env) && Consistent(s.rec) && s.refPos <= |reference|
    ensures var f := Finish(RunFrom(reference, env, s));
      f.rec.writer.None? && !f.rec.isRecording && f.refPos <= |reference|
    decreases |env.keys| - s.tick, s.running
  {
    if s.running && s.tick < |env.keys| {
      IterateKeepsInvariant(reference, env, s);
      SessionEndsStopped(reference, env, Iterate(reference, env, s));
    }
  }

  /** The comparison object: the reference capture and the recording fields. */
  class PoseComparison {
    const reference: seq<Frame>
    var refPos: nat
    var refOpen: bool
    var videoWriter: Option<Writer>
    var isRecording: bool
    var outputFilename: Option<string>
    var saved: seq<Writer>

    /** The recording fields as a value. */
    function Rec(): Recorder
      reads this
    {
      Recorder(videoWriter, isRecording, outputFilename, saved)
    }

    /** Opens the reference video at its first frame; nothing is being recorded. */
    constructor (reference: seq<Frame>)
      ensures this.reference == reference && refPos == 0 && refOpen
      ensures Rec() == Idle
    {
      this.reference := reference;
      refPos := 0;
      refOpen := true;
      videoWriter, isRecording, outputFilename, saved := None, false, None, [];
    }

    method StartRecording(width: int, height: int, fps: real, timestamp: string)
      modifies this
      ensures Rec() == Started(old(Rec()), width, height, fps, timestamp)
      ensures refPos == old(refPos) && refOpen == old(refOpen)
    {
      outputFilename := Some(RecordingName(timestamp));
      videoWriter := Some(Writer(outputFilename.value, fps, width, height, []));
      isRecording := true;
    }

    method StopRecording()
      modifies this
      ensures Rec() == Stopped(old(Rec()))
      ensures refPos == old(refPos) && refOpen == old(refOpen)
    {
      if videoWriter.Some? {
        saved := saved + [videoWriter.value];
        videoWriter := None;
        isRecording := false;
      }
    }

    method WriteFrame(f: Stamped)
      modifies this
      ensures Rec() == WithFrame(old(Rec()), f)
      ensures refPos == old(refPos) && refOpen == old(refOpen)
    {
      if isRecording && videoWriter.Some? {
        var w := videoWriter.value;
        videoWriter := Some(w.(frames := w.frames + [f]));
      }
    }

    /** One read of the reference capture. */
    method ReadReference() returns (frame: Option<Frame>)
      modifies this
      ensures (frame, refPos) == CaptureRead(reference, old(refPos))
      ensures Rec() == old(Rec()) && refOpen == old(refOpen)
    {
      if refPos < |reference| {
        frame := Some(reference[refPos]);
        refPos := refPos + 1;
      } else {
        frame := None;
      }
    }

    /** A reference read that, when the video has run out, rewinds to frame 0 and reads once more. */
    method ReadReferenceWithRewind() returns (frame: Option<Frame>)
      modifies this
      ensures (frame, refPos) == ReadWithRewind(reference, old(refPos))
      ensures Rec() == old(Rec()) && refOpen == old(refOpen)
    {
      frame := ReadReference();
      if frame.None? {
        refPos := 0;
        frame := ReadReference();
      }
    }

    /** The loop's state as seen from the fields and the loop's own variables. */
    function Snapshot(cam: nat, paused: bool, score: real, wrong: set<int>, tick: nat, running: bool): Loop
      reads this
    {
      Loop(Rec(), refPos, cam, paused, score, wrong, tick, running)
    }

    /**
     * The unpaused part of an iteration: read the camera frame at cam and the
     * next reference frame (rewinding once if the reference ran out), score
     * them, draw the user's pose and write the frame if recording.
     */
    method ProcessFrame(env: Env, cam: nat, tick: nat) returns (score: real, wrong: set<int>)
      requires WellFormedEnv(env) && cam < |env.camera|
      modifies this
      ensures Snapshot(cam + 1, false, score, wrong, tick, true)
           == Process(reference, env, old(Snapshot(cam, false, 0.0, {}, tick, true)))
      ensures refOpen == old(refOpen)
    {
      ghost var s := old(Snapshot(cam, false, 0.0, {}, tick, true));
      var user := env.camera[cam];
      var refFrame := ReadReferenceWithRewind();
      var userPose := env.detect(user);
      var refPose := if refFrame.Some? then env.detect(refFrame.value) else None;
      var cmp := CalculateScore(KeypointsOf(userPose), KeypointsOf(refPose), DefaultThreshold);
      assert cmp == Compare(env, user, refFrame);
      score, wrong := cmp.score, cmp.wrong;
      var marks := DrawPose(userPose, env.connections, Green, Some(wrong));
      ghost var stamped := StampFrame(user, marks, cmp, env.now(tick).timeOfDay);
      ghost var rec := if s.rec.isRecording then WithFrame(s.rec, stamped) else s.rec;
      assert Process(reference, env, s) == s.(cam := cam + 1, refPos := refPos, score := score, wrong := wrong, rec := rec);
      if isRecording {
        WriteFrame(StampFrame(user, marks, cmp, env.now(tick).timeOfDay));
      }
    }

    /** The keyboard controls: quit, restart the reference, toggle recording, pause. */
    method HandleKeyPress(env: Env, key: int, cam: nat, paused: bool, score: real, wrong: set<int>, tick: nat)
      returns (paused': bool, running: bool)
      modifies this
      ensures Snapshot(cam, paused', score, wrong, tick, running)
           == HandleKey(env, old(Snapshot(cam, paused, score, wrong, tick, true)), key)
      ensures refOpen == old(refOpen)
    {
      paused', running := paused, true;
      if key == KeyQuit {
        running := false;
      } else if key == KeyRestart {
        refPos := 0;
      } else if key == KeyRecord {
        if !isRecording {
          StartRecording(DisplayWidth, DisplayHeight, RecordingFps, env.now(tick).stamp);
        } else {
          StopRecording();
        }
      } else if key == KeyPause {
        paused' := !paused;
      }
    }

    /**
     * run: compare camera frames with the looping reference until the camera
     * stops, 'q' is pressed or the session is interrupted, then stop recording
     * and release the reference.
     */
    method Run(env: Env)
      requires WellFormedEnv(env)
      modifies this
      ensures var f := Finish(RunFrom(reference, env, Begin(old(Rec()), old(refPos))));
        Rec() == f.rec && refPos == f.refPos
      ensures !refOpen
    {
      var paused, score, wrong := false, 0.0, {};
      var cam, tick, running := 0, 0, true;
      while running && tick < |env.keys|
        invariant RunFrom(reference, env, Snapshot(cam, paused, score, wrong, tick, running))
               == RunFrom(reference, env, Begin(old(Rec()), old(refPos)))
        decreases |env.keys| - tick, running
      {
        ghost var before := Snapshot(cam, paused, score, wrong, tick, running);
        if !paused && cam >= |env.camera| {
          running := false;
        } else {
          if !paused {
            score, wrong := ProcessFrame(env, cam, tick);
            cam := cam + 1;
          }
          ghost var mid := Snapshot(cam, paused, score, wrong, tick, true);
          assert mid == if before.paused then before else Process(reference, env, before);
          var key := env.keys[tick] % 256;
          paused, running := HandleKeyPress(env, key, cam, paused, score, wrong, tick);
          assert Snapshot(cam, paused, score, wrong, tick, running) == HandleKey(env, mid, key);
          tick := tick + 1;
        }
        assert Snapshot(cam, paused, score, wrong, tick, running) == Iterate(reference, env, before);
      }
      if isRecording {
        StopRecording();
      }
      refOpen := false;
    }
  }
}
