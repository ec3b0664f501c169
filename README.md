# Pose comparison and job streaming, modelled in Dafny

This project models the two self-contained cores of the PoseEstimation3D
repository and proves properties about them.

- **Live pose comparison** (`pose_comparison.py`):
  - **Scoring rule.** Two poses are compared keypoint by keypoint. A keypoint is *wrong* when it lies farther than the threshold from its counterpart. The score is the fraction of keypoints that are not wrong.
  - **Drawing decisions.** These cover which limbs and keypoints are drawn, which keypoints are ringed in red, and the "Score: p%" / "Correct: k/33" overlay with its three colour bands.
  - **Recording fields.** `video_writer`, `is_recording` and `output_filename`, and their start, stop and write transitions.
  - **The `run` loop.** It reads the camera and a reference video that rewinds when it runs out. It scores each frame, records it unless paused, and reacts to the `q`, `r`, `v` and space keys. On every exit it stops the recording.
- **Job event protocol** (`main_api.py`):
  - **Upload validator.** It checks the uploaded file's extension and builds the stored path.
  - **`QueueIO`.** This is the stand-in for `sys.stdout`, which forwards non-blank text to a queue.
  - **The worker `run_pipeline_in_thread`.** It pushes the captured log lines, then one result or error (neither when a `BaseException` that is not an `Exception` escapes the pipeline), then `done`.
  - **The `event_generator` consumer.** It relays the queue as server-sent events until `done`, an error, an exception, a dead worker or the client's departure ends it, then joins the worker and cleans up the job's files.

Modules, one file each:

| file | module | contents |
|---|---|---|
| `wrappers.dfy` | `Wrappers` | `Option`, `Result` |
| `scoring.dfy` | `Scoring` | `_calculate_score` |
| `annotation.dfy` | `Annotation` | `_draw_pose` and the overlay values of `_create_display` / `_write_frame` |
| `recording.dfy` | `Recording` | the recorder transitions, the reference cursor, and the `run` loop as a specification function. `class PoseComparison` holds the same fields, with methods proved against those functions. |
| `upload.dfy` | `Upload` | `os.path.splitext`, `os.path.join`, the extension check of `save_upload_file` |
| `job_stream.dfy` | `JobStream` | `QueueIO`, `run_pipeline_in_thread`, `event_generator` |

Abstractions:
- **Frames** are opaque identifiers.
- **The pose estimator** (MediaPipe) is a function from frames to an optional sequence of landmarks.
- **The clock** is a function from iteration number to a timestamp.
- **The keyboard** is the sequence of `waitKey` results, masked to 8 bits. Running out of keys stands for Ctrl-C.
- **The pipeline** run by the worker is its sequence of writes to standard output plus its outcome. The outcome is a returned value (possibly `None`), a raised `Exception`'s trace, or `Aborted` for a `BaseException` such as `SystemExit`, which the worker's `except Exception` does not catch.
- **The interleaving of worker and consumer** is a sequence of polls. Each poll finds a message; or finds the queue empty, together with what the `is_alive()` call that follows answered; or is the client going away while the generator waits at a `yield` or at its sleep. `JobStream.Interleaves` says which sequences a worker and the generator can produce: the worker may push its last messages and end between the empty get and `is_alive()`.

Distances are compared through their squares: "distance > threshold" is `t < 0 || dx²+dy² > t²`. `Scoring.ExceedsIffFartherThan` proves this agrees with `norm > threshold` for the true norm.

Behaviours of the source that the model keeps on purpose:
- **A pose missing from either frame** gives score 0 and no wrong keypoints. The overlay then shows "Correct: 33/33" next to a red "Score: 0%" (`Annotation.MissingPoseShowsFullCount`).
- **A `result` message whose data is `None`** makes the generator raise when it unpacks it. `run_full_pipeline` in `run_pipeline.py` returns `None` when it extracts no pose at all, and also when none of the extracted poses is valid. The same holds when the result's JSON file cannot be read. In both cases the client gets no `done` event, but the files are still cleaned up (`JobStream.Expected`).
- **A `BaseException` that is not an `Exception`** (`SystemExit`, say) escapes the worker's `except` clause. Its `finally` clause still pushes `done`, so the client gets the log lines and `done`, with no result and no error (`JobStream.Expected`).
- **A client that goes away** closes the generator at its next `yield` or sleep. The `finally` clause still joins the worker and deletes the files collected so far. The files of a result not yet read stay on disk (`JobStream.JobStreamEndToEnd`: the cleanup list is a prefix of the expected one).
- **A `result` message does not end the loop; the `done` message after it does.** The loop ends on `done`, on `error`, on an exception in the generator, on a worker found ended, or when the client leaves.

## Model

| member | source | states |
|---|---|---|
| Scoring.Keypoints | pose_comparison.py:38-42 | one point per landmark, in order, carrying its x and y |
| Scoring.KeypointsOf | pose_comparison.py:37-44 | keypoints exist iff a pose was detected, and are then exactly the landmarks' (x, y), one per landmark, in order |
| Scoring.SqDist | pose_comparison.py:67 | the squared keypoint distance is non-negative |
| Scoring.ExceedsIffFartherThan | pose_comparison.py:67-73 | comparing squares flags a keypoint iff its Euclidean distance exceeds the threshold |
| Scoring.CorrectCount | pose_comparison.py:70-76 | the number of keypoints within the threshold is at most the number of keypoints |
| Scoring.WrongAndCorrectPartition | pose_comparison.py:70-77 | every keypoint is either correct or wrong: the wrong set's size plus the correct count is the total |
| Scoring.CalculateScore | pose_comparison.py:46-80 | a missing pose gives (0.0, {}); otherwise i is wrong iff 0 <= i < N and its distance exceeds the threshold, score = (N - \|wrong\|)/N, and 0 <= score <= 1 |
| Scoring.IdenticalPosesScorePerfectly | pose_comparison.py:67-80 | a pose compared with itself at a non-negative threshold scores 1 with no wrong keypoint |
| Scoring.StricterThresholdFlagsMore | pose_comparison.py:70-73 | a keypoint wrong at a threshold is wrong at every smaller threshold |
| Scoring.ThresholdMonotone | pose_comparison.py:70-78 | lowering the threshold flags a superset of keypoints and never raises the score |
| Annotation.DrawPose | pose_comparison.py:82-115 | the two drawing loops make exactly the marks of PoseMarks: the limbs in connection order, then the keypoints in index order |
| Annotation.LimbMarksMembers | pose_comparison.py:91-99 | a line is drawn by the connection loop iff some connection has both endpoints visible |
| Annotation.PointMarksMembers | pose_comparison.py:102-113 | a circle is drawn by the keypoint loop iff it is one of a visible keypoint's circles |
| Annotation.CircleMembership | pose_comparison.py:102-113 | a circle at a landmark is drawn iff it is one of that landmark's own dot marks; the limb loop draws no circle |
| Annotation.LimbDrawnIffBothVisible | pose_comparison.py:96-99 | a limb is drawn, in the pose colour, iff it is a connection whose two endpoints have visibility > 0.5 |
| Annotation.PointClassification | pose_comparison.py:102-113 | a keypoint gets a dot iff visibility > 0.5; it is ringed in red iff also flagged wrong; its dot is red if flagged, else the pose colour |
| Annotation.NoOtherCircles | pose_comparison.py:103-110 | every circle belongs to a visible keypoint, and every ring belongs to a flagged keypoint and is red |
| Annotation.Trunc | pose_comparison.py:145 | int() truncates toward zero: the result is within one below a non-negative value, within one above a negative value |
| Annotation.ScorePercent | pose_comparison.py:193 | the displayed percentage is the floor of score*100 and lies in 0..100 |
| Annotation.ScoreColour | pose_comparison.py:194 | green iff score > 0.7, orange iff 0.4 < score <= 0.7, red iff score <= 0.4 |
| Annotation.DisplayedCountMatchesScore | pose_comparison.py:208-209 | for 33-keypoint poses the displayed "Correct" count is the number of keypoints within the threshold, lies in 0..33, and the score is that count over 33 |
| Annotation.MissingPoseShowsFullCount | pose_comparison.py:153-154 | with a pose missing, the overlay shows 33 correct, 0% and the red band |
| Annotation.ColourBandByCorrectCount | pose_comparison.py:146 | for 33-keypoint poses the band is green iff at least 24 are correct, orange iff 14..23, red iff at most 13 |
| Recording.Started | pose_comparison.py:161-175 | a new empty writer named your_pose_<timestamp>.mp4, output_filename set to that name, is_recording true, so is_recording is in step with the writer |
| Recording.Stopped | pose_comparison.py:178-184 | with a writer: it is released to the saved recordings, writer None, is_recording false; without one: nothing changes; from a consistent state it leaves is_recording false and in step with the writer |
| Recording.WithFrame | pose_comparison.py:186-188 | writing keeps is_recording, the file name, the saved recordings and the writer's presence, so it keeps is_recording in step with the writer |
| Recording.StopRecordingIdempotent | pose_comparison.py:180 | a second stop is a no-op |
| Recording.StopRecordingKeepsFootage | pose_comparison.py:178-184 | stopping loses no recorded frame |
| Recording.WriteFrameAddsOne | pose_comparison.py:188-221 | writing appends exactly the given frame iff recording with a writer, and nothing otherwise |
| Recording.StartRecordingKeepsFootage | pose_comparison.py:298-301 | starting while no writer is open loses no recorded frame |
| Recording.CaptureRead | pose_comparison.py:255 | a read succeeds iff the cursor is inside the video; it then yields the frame at the cursor and advances it by one, and otherwise leaves the cursor |
| Recording.ReadWithRewind | pose_comparison.py:255-259 | a read that fails rewinds to frame 0 and reads once more: a non-empty reference always yields a frame, leaving the cursor in 1..length |
| Recording.ReferenceNeverRunsOut | pose_comparison.py:255-259 | any number of successive reads of a non-empty reference all yield a frame |
| Recording.ReferenceReadsInOrder | pose_comparison.py:255 | reads that stay within the video yield its next frames in order |
| Recording.ReferenceLoops | pose_comparison.py:256-259 | reads past the end yield the rest of the video and then continue from the first frame |
| Recording.Compare | pose_comparison.py:262-269 | the comparison of the user frame with the reference frame read alongside it has a score in 0..1 |
| Recording.Process | pose_comparison.py:245-269 | an unpaused iteration consumes exactly one camera frame and leaves the pause flag and key position alone |
| Recording.Iterate | pose_comparison.py:244-306 | an iteration consumes at most one key, and exactly one unless it stops the loop; it consumes at most one camera frame, and only one that exists |
| Recording.HandleKey | pose_comparison.py:289-306 | q ends the loop, r rewinds the reference to frame 0, v toggles is_recording (keeping it in step with the writer), space toggles the pause, any other key changes nothing; no key touches the camera position, the score, the wrong set or the key position |
| Recording.RunFrom | pose_comparison.py:244-306 | the loop ends only stopped or with the keys exhausted (Ctrl-C); the key and camera positions never go back, and the camera is never read past its last frame |
| Recording.Finish | pose_comparison.py:310-313 | leaving the loop stops an active recording: no writer stays open and is_recording is false; every recorded frame is kept and the reference cursor is untouched |
| Recording.HandleKeyKeepsFootage | pose_comparison.py:288-306 | no key changes the camera position, the score, the wrong set or the recorded frames; v keeps is_recording in step with the writer; the cursor stays or goes back to frame 0 |
| Recording.ProcessRecordsOne | pose_comparison.py:245-283 | the unpaused work takes the score and wrong set of comparing the next camera frame with the next reference frame, appends exactly that frame (its pose drawn, stamped with that score and the time) to the footage iff recording, keeps is_recording in step with the writer and leaves the cursor within the video |
| Recording.PausedIterationWritesNothing | pose_comparison.py:245 | while paused, no camera frame is read, the score and wrong set stay, no frame is recorded, and the cursor only moves by a rewind |
| Recording.UnpausedIterationRecordsOne | pose_comparison.py:245-283 | an unpaused iteration with a camera frame consumes it, shows the score and wrong set of its comparison with the next reference frame, and records exactly that frame, stamped with that score, iff recording |
| Recording.IterateKeepsInvariant | pose_comparison.py:244-306 | every iteration keeps is_recording in step with the writer and the reference cursor within the video |
| Recording.SessionEndsStopped | pose_comparison.py:310-313 | however the loop ends (camera exhausted, q, interrupt) no writer stays open and is_recording is false |
| Recording.PoseComparison.constructor | pose_comparison.py:18-30 | the reference is open at frame 0 and nothing is being recorded |
| Recording.PoseComparison.StartRecording | pose_comparison.py:161-176 | the fields become Started of their old values; the reference cursor is untouched |
| Recording.PoseComparison.StopRecording | pose_comparison.py:178-184 | the fields become Stopped of their old values |
| Recording.PoseComparison.WriteFrame | pose_comparison.py:186-221 | the fields become WithFrame of their old values |
| Recording.PoseComparison.ReadReference | pose_comparison.py:255 | one read returns the frame at the cursor and advances it, or fails at the end and leaves it |
| Recording.PoseComparison.ReadReferenceWithRewind | pose_comparison.py:255-259 | the frame and cursor after a read with rewind are exactly those of ReadWithRewind |
| Recording.PoseComparison.ProcessFrame | pose_comparison.py:245-269 | the fields, score and wrong set after the unpaused work are exactly those of Process |
| Recording.PoseComparison.HandleKeyPress | pose_comparison.py:288-306 | q stops, r rewinds the reference, v toggles recording, space toggles pause, exactly as HandleKey |
| Recording.PoseComparison.Run | pose_comparison.py:223-316 | the final fields are those of the loop specification followed by the stop in finally, and the reference is released |
| Upload.SplitExt | main_api.py:78 | splitext: the two parts concatenate to the name; the extension is empty or a dot followed by no dot or slash; it is non-empty only when the stem's last component has a non-dot character |
| Upload.Lower | main_api.py:79 | lowercasing maps A..Z to a..z and keeps every other character |
| Upload.Join | main_api.py:83 | os.path.join: the result ends with the name; an absolute name is the result; otherwise the result starts with the directory and adds one '/' unless the directory is empty or ends with one |
| Upload.SaveUpload | main_api.py:75-92 | accepted iff the lowercased extension is .mp4, .mov or .avi; otherwise 400 with the fixed message; an accepted file is stored as uploads/<request_id><extension> |
| Upload.AcceptedExtensionShape | main_api.py:79 | an accepted extension has four characters, starts with a dot and has no other dot or slash |
| Upload.SplitAtExtension | main_api.py:78 | a stem with a non-dot character after its last separator, followed by a dot and a suffix free of dots and separators, splits into exactly that stem and suffix |
| Upload.StoredPathKeepsExtension | main_api.py:82-83 | the stored path is uploads/<request_id><extension> and splits back into that stem and the original extension |
| Upload.UpperCaseExtensionAccepted | main_api.py:79 | the check ignores case: squat.MOV is accepted |
| Upload.DotFileRejected | main_api.py:78-80 | a leading dot does not start an extension: .mp4 is rejected |
| Upload.InnerExtensionIgnored | main_api.py:78-80 | only the last extension counts: clip.mp4.txt is rejected |
| JobStream.TrimStart | main_api.py:35 | lstrip: a suffix of the text, preceded only by whitespace, and starting with a non-whitespace character if any |
| JobStream.TrimEnd | main_api.py:35 | rstrip: a prefix of the text, followed only by whitespace, and ending with a non-whitespace character if any |
| JobStream.Strip | main_api.py:35 | strip: empty iff every character is whitespace; otherwise it starts and ends with a non-whitespace character |
| JobStream.Captured | main_api.py:35-36 | a write reaches the queue iff the text is not blank |
| JobStream.LogMessages | main_api.py:33-36 | the queued log messages are non-blank text, at most one per write |
| JobStream.LogMessagesAppend | main_api.py:33-36 | each further write adds exactly its own message, after the earlier ones |
| JobStream.QueueIO.Write | main_api.py:33-36 | write, testing s.strip(), enqueues the text unchanged iff it is not blank, else leaves the queue unchanged |
| JobStream.WriteStdout | main_api.py:45-46 | a write through sys.stdout goes to the queue while redirected and to the console otherwise |
| JobStream.RunPipeline | main_api.py:49 | while stdout is redirected, the pipeline's writes add exactly LogMessages of them to the queue and nothing reaches the console |
| JobStream.RunPipelineInThread | main_api.py:41-61 | the queue gains exactly ProducerMessages of the run (on the return, Exception and BaseException paths alike), and stdout and the console are as before |
| JobStream.ProducerProtocol | main_api.py:43-61 | the worker's messages are non-blank logs, then one result iff the pipeline returned, one error iff it raised an Exception, neither if a BaseException escaped, then done, once and last |
| JobStream.Dispatch | main_api.py:124-140 | text becomes one log event; the events and the cleanup list only grow, by at most one event |
| JobStream.Consume | main_api.py:119-146 | the events and the cleanup list only grow; once the loop has ended (done, error, exception, dead worker or departed client) nothing changes |
| JobStream.EventGenerator | main_api.py:107-150 | the events and exit are those of Consume from [video_path]; the files are cleaned up exactly when the loop has ended, including when the client went away |
| JobStream.DispatchKeepsOneTerminal | main_api.py:126-137 | handling a message keeps at most one terminal event, and only as the last |
| JobStream.ConsumeKeepsOneTerminal | main_api.py:119-146 | after any polls there is at most one done or error event and it is last; done iff finished, error iff failed |
| JobStream.GeneratorYieldsOneTerminal | main_api.py:107-150 | the generator yields at most one terminal event, last, and video_path is always first in the cleanup list |
| JobStream.DeliveringSchedulesInterleave | main_api.py:119-146 | every schedule that delivers all messages, never sees the worker ended early and keeps its client is one the worker and the generator can produce |
| JobStream.PollsDeliverInOrder | main_api.py:142-146 | on such a schedule waiting on an empty queue changes nothing: the outcome is that of the messages in FIFO order |
| JobStream.ConsumeIsPrefixRun | main_api.py:119-146 | on every schedule the generator can meet, it relays a prefix of the messages' events and collects a prefix of their cleanup list, and all of both unless it is still polling, found the worker ended or lost its client |
| JobStream.LogEventsAreLogs | main_api.py:138-140 | relayed log lines are never done or error events and never blank |
| JobStream.LogsRelayed | main_api.py:138-140 | every non-blank line the pipeline wrote is relayed as a log event, in order |
| JobStream.Expected | main_api.py:41-150 | the stream a job should give: at most one terminal event, last; the upload first in the cleanup list; done iff the pipeline returned a result with readable JSON or a BaseException escaped; error iff it raised an Exception; otherwise the generator raised |
| JobStream.OutcomeRelayed | main_api.py:124-137 | relaying the outcome's message and done gives the ending of Expected |
| JobStream.ProducerMessagesRelayed | main_api.py:43-140 | relaying everything the worker pushes, in order, gives exactly Expected |
| JobStream.JobStreamEndToEnd | main_api.py:41-150 | on every schedule the worker and the generator can produce, the client gets a prefix of Expected's events (the log lines, then the outcome) and a prefix of its files is deleted; exactly Expected unless the generator still polls, found the worker ended or lost its client |
| JobStream.JobStreamWithoutRace | main_api.py:41-150 | when every message is got, the client gets exactly Expected: the log lines, then result and done, or error, or done alone, or nothing more when the generator raises; the cleanup list is the upload then the generated files |
| JobStream.RaceSchedule | main_api.py:122-145 | for every run, getting the log lines, finding the queue empty and then the worker ended is a possible schedule, and on it the loop stops with only the logs relayed |
| JobStream.RaceDropsOutcome | main_api.py:122-145 | on that schedule the stream differs from Expected for every run: no result, no error, no done, and only the upload deleted |
| JobStream.ConsumeDraining | main_api.py:119-146 | the loop with one more get after the worker is seen ended: events and the cleanup list only grow; once ended nothing changes |
| JobStream.DrainingRelaysAll | main_api.py:119-146 | with that extra get, on every schedule the loop relays a prefix of the messages' stream and all of it unless still polling or the client left; it never ends on a dead worker |
| JobStream.DrainingJobStream | main_api.py:41-150 | with that extra get, on every schedule the client gets exactly Expected unless the generator still polls or lost its client, and never stops with messages unread |

## Left out

- MediaPipe pose estimation (`_extract_keypoints`) is a foreign model call. It is a function parameter returning landmarks or none.
- OpenCV pixel work is left out. This covers resizing, the mirror flip, `putText` positions and fonts, `getTextSize`, the background rectangle, the recording indicator dot, `hstack`, `imshow` and `destroyAllWindows`. Drawings are modelled as the marks they make, and the overlay as its percentage, colour, count and time.
- Pixel coordinates of marks (`int(x * w)`) are left out. Marks refer to landmark indices.
- Text formatting of the overlay strings is left out. Only the numbers they show are modelled.
- Camera, video file and writer I/O are left out. The camera is a sequence of frames; the reference is a sequence with a cursor; a writer is the sequence of frames written to it. The codec and the console messages are not modelled.
- The clock (`datetime.now()`) is an input: a function from iteration number to the two strings the source formats.
- Floating point and `np.linalg.norm` are left out. Coordinates are reals and distances are compared squared. Rounding is not modelled.
- Scoring.CalculateScore requires two present poses to have the same, non-zero number of keypoints. The pose estimator always reports 33. Outside that, numpy decides (pose_comparison.py:62-78): a one-keypoint pose broadcasts against every keypoint of the other, other unequal counts raise at the subtraction, a flat array of odd length already fails in the reshape, and zero keypoints give 0/0. None of these cases is modelled.
- Recording.PoseComparison.Run assumes the reference capture is open when the loop starts. A capture that failed to open is not modelled.
- Upload.Lower lowercases ASCII letters only. Python's `str.lower` is Unicode-aware, but only an ASCII extension can lower to `.mp4`, `.mov` or `.avi`, so the accept/reject decision is the same.
- The UUID request id is an input of `Upload.SaveUpload`. Copying the upload to disk is left out.
- Upload.SplitExt and Upload.Join model the POSIX `posixpath` functions. Windows paths (backslash separators, drive letters) are not modelled.
- `QueueIO.flush` is modelled as a method with no effect (`JobStream.QueueIO.Flush`). It may change nothing, so it has no contract to state.
- Threads and `asyncio.sleep` are not modelled as concurrency. The worker's effect is `JobStream.RunPipelineInThread`, and the consumer sees a sequence of polls. `JobStream.Interleaves` says which sequences a worker and the generator can produce; the length of the sleep and the thread scheduler's choices are not modelled.
- JobStream.EventGenerator starts from the worker already started. A response closed before the generator first runs starts no worker and deletes nothing; that case is not modelled.
- The report of a `BaseException` that ends the worker thread (`threading.excepthook`) is console output and is not modelled.
- Other threads' writes that reach the redirected `sys.stdout` are left out. The model takes only the pipeline's writes.
- `join` is modelled as the point after which cleanup happens; its wait is not.
- `cleanup_files` deletes files and reports errors on the console. The model stops at the list of files passed to it.
- JSON loading and `json.dumps` of the final result are an input function from a path to the serialised text, or none when the file cannot be read.
- The HTTP endpoints and `process_video_simple` are left out; they are plumbing around the modelled parts.
- `run_pipeline.py` is not part of this model. It is only the outcome and writes of a pipeline run.

## Findings

| source | as written | input that shows it | evidently intended | confidence | as-written member | corrected member |
|---|---|---|---|---|---|---|
| main_api.py:122-145 | on an empty get the loop ends as soon as `is_alive()` is false, although the worker may have pushed its last messages between the get and that call | a run that writes "line" and returns a result: the generator gets "line", its next get finds the queue empty, the worker then pushes the result and `done` and exits, and `is_alive()` answers false | the client gets the result and `done` (or the error), and the generated files are deleted: after seeing the worker ended, read the queue once more before leaving | high; not executed | JobStream.RaceDropsOutcome | JobStream.DrainingJobStream |
