/**
 * The streaming endpoint of main_api.py: a worker runs the pipeline with its
 * standard output redirected into a queue, then pushes one result or error
 * message and a final done message; the event generator pops that queue
 * without blocking and relays what it finds as server-sent events, then joins
 * the worker and deletes the files of the job.
 *
 * The pipeline is represented by what it writes to standard output and how it
 * ends. The consumer's view of the concurrently filled queue is a sequence of
 * polls, each finding a message or finding the queue empty with the worker
 * alive or dead.
 */
module JobStream {
  import opened Wrappers

  /** What run_full_pipeline returns on success: the final JSON path and the files it generated. */
  datatype PipelineResult = PipelineResult(jsonPath: string, generated: seq<string>)

  /**
   * How the pipeline call ended: a return value (None when it found no pose),
   * the trace of an Exception, or a BaseException that is not an Exception
   * (SystemExit, say), which passes the worker's except clause untouched.
   */
  datatype Outcome = Returned(value: Option<PipelineResult>) | Raised(trace: string) | Aborted

  /** One pipeline execution: the strings it writes to standard output, in order, and its outcome. */
  datatype PipelineRun = PipelineRun(writes: seq<string>, outcome: Outcome)

  /** A queue entry: captured text, or one of the dictionaries of type result, error or done. */
  datatype Message = Text(text: string) | ResultMsg(data: Option<PipelineResult>) | ErrorMsg(trace: string) | DoneMsg

  /** Characters str.strip() removes. */
  predicate IsSpace(c: char) {
    c in {' ', '\t', '\n', '\r', '\U{0B}', '\U{0C}', '\U{1C}', '\U{1D}', '\U{1E}', '\U{1F}',
          '\U{85}', '\U{A0}', '\U{1680}', '\U{2000}', '\U{2001}', '\U{2002}', '\U{2003}',
          '\U{2004}', '\U{2005}', '\U{2006}', '\U{2007}', '\U{2008}', '\U{2009}', '\U{200A}',
          '\U{2028}', '\U{2029}', '\U{202F}', '\U{205F}', '\U{3000}'}
  }

  /** Every character of s is whitespace. */
  predicate Blank(s: string) {
    forall i :: 0 <= i < |s| ==> IsSpace(s[i])
  }

  /** s.lstrip(): s without its leading whitespace. */
  function TrimStart(s: string): (r: string)
    ensures |r| <= |s| && r == s[|s| - |r|..]
    ensures Blank(s[..|s| - |r|])
    ensures r == [] || !IsSpace(r[0])
  {
    if s != [] && IsSpace(s[0]) then TrimStart(s[1..]) else s
  }

  /** s.rstrip(): s without its trailing whitespace. */
  function TrimEnd(s: string): (r: string)
    ensures |r| <= |s| && r == s[..|r|]
    ensures Blank(s[|r|..])
    ensures r == [] || !IsSpace(r[|r| - 1])
  {
    if s != [] && IsSpace(s[|s| - 1]) then TrimEnd(s[..|s| - 1]) else s
  }

  /**
   * s.strip(): empty exactly when s is all whitespace; otherwise it begins and
   * ends with a character that is not whitespace.
   */
  function Strip(s: string): (r: string)
    ensures |r| <= |s|
    ensures r == [] <==> Blank(s)
    ensures r != [] ==> !IsSpace(r[0]) && !IsSpace(r[|r| - 1])
  {
    var t := TrimStart(s);
    assert s == s[..|s| - |t|] + t;
    TrimEnd(t)
  }

  /** What QueueIO.write puts on the queue for one write: the string, unchanged, unless it is all whitespace. */
  function Captured(s: string): (ms: seq<Message>)
    ensures ms == [] <==> Blank(s)
  {
    if Blank(s) then [] else [Text(s)]
  }

  /** The queue entries for a sequence of writes: each non-blank string, unchanged, in order. */
  function LogMessages(writes: seq<string>): (ms: seq<Message>)
    ensures |ms| <= |writes|
    ensures forall i :: 0 <= i < |ms| ==> ms[i].Text? && !Blank(ms[i].text)
  {
    if writes == [] then [] else Captured(writes[0]) + LogMessages(writes[1..])
  }

  lemma {:induction false} LogMessagesAppend(writes: seq<string>, s: string)
    ensures LogMessages(writes + [s]) == LogMessages(writes) + Captured(s)
  {
    if writes != [] {
      assert (writes + [s])[1..] == writes[1..] + [s];
      LogMessagesAppend(writes[1..], s);
    } else {
      assert writes + [s] == [s];
    }
  }

  /** What the try or the except clause pushes for the pipeline's outcome: nothing when the exception escapes both. */
  function OutcomeMessages(o: Outcome): seq<Message> {
    match o
    case Returned(v) => [ResultMsg(v)]
    case Raised(t) => [ErrorMsg(t)]
    case Aborted => []
  }

  /** Everything the worker puts on the queue, in order; the finally clause pushes done on every path. */
  function ProducerMessages(run: PipelineRun): seq<Message> {
    LogMessages(run.writes) + (OutcomeMessages(run.outcome) + [DoneMsg])
  }

  /**
   * The worker's messages are non-blank logs, then one result or error (a
   * result iff the pipeline returned, an error iff it raised an Exception,
   * neither when a BaseException escaped), then done, which occurs once and
   * last.
   */
  lemma ProducerProtocol(run: PipelineRun)
    ensures var ms := ProducerMessages(run);
      var k := if run.outcome.Aborted? then 0 else 1;
      |ms| >= 1 + k &&
      (forall i :: 0 <= i < |ms| ==> (ms[i] == DoneMsg <==> i == |ms| - 1)) &&
      (forall i :: 0 <= i < |ms| ==> (ms[i].ResultMsg? || ms[i].ErrorMsg? <==> k == 1 && i == |ms| - 2)) &&
      (forall i :: 0 <= i < |ms| - 1 - k ==> ms[i].Text? && !Blank(ms[i].text)) &&
      (run.outcome.Returned? <==> |ms| >= 2 && ms[|ms| - 2].ResultMsg?) &&
      (run.outcome.Raised? <==> |ms| >= 2 && ms[|ms| - 2].ErrorMsg?)
  {
    var logs := LogMessages(run.writes);
    var ms := ProducerMessages(run);
    forall i | 0 <= i < |logs| ensures ms[i] == logs[i] {}
  }

  /** queue.Queue: an unbounded FIFO. */
  class JobQueue {
    var items: seq<Message>

    constructor ()
      ensures items == []
    {
      items := [];
    }

    method Put(m: Message)
      modifies this
      ensures items == old(items) + [m]
    {
      items := items + [m];
    }
  }

  /** The file-like object standing in for sys.stdout while the pipeline runs. */
  class QueueIO {
    const q: JobQueue

    constructor (q: JobQueue)
      ensures this.q == q
    {
      this.q := q;
    }

    /** Only strings that are not blank reach the queue. */
    method Write(s: string)
      modifies q
      ensures q.items == old(q.items) + Captured(s)
    {
      if Strip(s) != [] {
        q.Put(Text(s));
      }
    }

    /** flush: nothing to do. */
    method Flush() {
    }
  }

  /** Where sys.stdout points: the console, or a QueueIO. */
  datatype Stdout = Console | Redirected(io: QueueIO)

  /** The interpreter's sys module: its stdout and what has reached the console. */
  class Sys {
    var stdout: Stdout
    var console: seq<string>

    constructor ()
      ensures stdout == Console && console == []
    {
      stdout, console := Console, [];
    }
  }

  /** A write through sys.stdout, as print performs it. */
  method WriteStdout(sys: Sys, s: string)
    modifies sys, if sys.stdout.Redirected? then {sys.stdout.io.q} else {}
    ensures sys.stdout == old(sys.stdout)
    ensures old(sys.stdout).Redirected? ==>
      sys.console == old(sys.console) && sys.stdout.io.q.items == old(sys.stdout.io.q.items) + Captured(s)
    ensures old(sys.stdout).Console? ==> sys.console == old(sys.console) + [s]
  {
    match sys.stdout
    case Console => sys.console := sys.console + [s];
    case Redirected(io) => io.Write(s);
  }

  /** The pipeline's output: each of its writes goes through sys.stdout, in order. */
  method RunPipeline(sys: Sys, run: PipelineRun)
    requires sys.stdout.Redirected?
    modifies sys, sys.stdout.io.q
    ensures sys.stdout == old(sys.stdout) && sys.console == old(sys.console)
    ensures sys.stdout.io.q.items == old(sys.stdout.io.q.items) + LogMessages(run.writes)
  {
    var q := sys.stdout.io.q;
    for i := 0 to |run.writes|
      invariant sys.stdout == old(sys.stdout) && sys.console == old(sys.console)
      invariant q.items == old(q.items) + LogMessages(run.writes[..i])
    {
      WriteStdout(sys, run.writes[i]);
      LogMessagesAppend(run.writes[..i], run.writes[i]);
      assert run.writes[..i + 1] == run.writes[..i] + [run.writes[i]];
    }
    assert run.writes[..|run.writes|] == run.writes;
  }

  /**
   * run_pipeline_in_thread: redirect stdout into the queue, run the pipeline,
   * push its result or its error, restore stdout and push done, on every path.
   * A BaseException that is not an Exception pushes no result and no error;
   * after the finally clause it ends the thread.
   */
  method RunPipelineInThread(sys: Sys, q: JobQueue, run: PipelineRun)
    modifies sys, q
    ensures q.items == old(q.items) + ProducerMessages(run)
    ensures sys.stdout == old(sys.stdout) && sys.console == old(sys.console)
  {
    var original := sys.stdout;
    var io := new QueueIO(q);
    sys.stdout := Redirected(io);
    RunPipeline(sys, run);
    ghost var logged := q.items;
    assert logged == old(q.items) + LogMessages(run.writes);
    match run.outcome {
      case Returned(v) => q.Put(ResultMsg(v));
      case Raised(t) => q.Put(ErrorMsg(t));
      case Aborted =>
    }
    assert q.items == logged + OutcomeMessages(run.outcome);
    sys.stdout := original;
    q.Put(DoneMsg);
    assert q.items == old(q.items) + (LogMessages(run.writes) + (OutcomeMessages(run.outcome) + [DoneMsg]));
  }


  // ---------------------------------------------------------------------
  // The consumer

  /**
   * What the generator meets at one turn of its loop: a message from the
   * non-blocking get; an empty queue, together with what the later is_alive
   * call answered; or the client going away while the generator is suspended
   * at a yield or at its sleep, which closes the generator.
   */
  datatype Poll = Got(message: Message) | Empty(workerAlive: bool) | Disconnected

  /** A server-sent event: {"event": ..., "data": ...}. */
  datatype SseEvent = SseEvent(event: string, data: string)

  const DoneEvent := SseEvent("done", "Processing finished.")

  /** How the generator's loop ended, or Running while it is still polling. */
  datatype Exit = Running | Finished | Failed | Crashed | WorkerGone | Cancelled

  /** The events yielded so far, the files to clean up, and the loop's exit. */
  datatype Stream = Stream(events: seq<SseEvent>, cleanup: seq<string>, exit: Exit)

  /** The generator's state before its first poll: the uploaded video is the only file to clean up. */
  function Initial(videoPath: string): Stream {
    Stream([], [videoPath], Running)
  }

  /**
   * The handling of one message: text becomes a log event; done and error
   * are relayed and end the loop; a result adds its files to the cleanup list
   * and relays the JSON read from its path. A result without data, or whose
   * JSON cannot be read, raises and ends the loop with no event.
   */
  function Dispatch(m: Message, readJson: string -> Option<string>, acc: Stream): (r: Stream)
    requires acc.exit == Running
    ensures acc.cleanup <= r.cleanup && acc.events <= r.events && |r.events| <= |acc.events| + 1
    ensures m.Text? ==> r == acc.(events := acc.events + [SseEvent("log", m.text)])
  {
    match m
    case Text(s) => acc.(events := acc.events + [SseEvent("log", s)])
    case DoneMsg => acc.(events := acc.events + [DoneEvent], exit := Finished)
    case ErrorMsg(t) => acc.(events := acc.events + [SseEvent("error", t)], exit := Failed)
    case ResultMsg(None) => acc.(exit := Crashed)
    case ResultMsg(Some(res)) =>
      var grown := acc.(cleanup := acc.cleanup + res.generated);
      match readJson(res.jsonPath)
      case None => grown.(exit := Crashed)
      case Some(json) => grown.(events := grown.events + [SseEvent("result", json)])
  }

  /**
   * The generator's loop over a sequence of polls: an empty queue with a live
   * worker is waited on and retried, an empty queue with a dead worker ends
   * the loop, and so does a client that went away; the events and the cleanup
   * list only ever grow.
   */
  function Consume(polls: seq<Poll>, readJson: string -> Option<string>, acc: Stream): (r: Stream)
    ensures acc.cleanup <= r.cleanup && acc.events <= r.events
    ensures acc.exit != Running ==> r == acc
    decreases |polls|
  {
    if acc.exit != Running || polls == [] then acc
    else match polls[0]
      case Empty(alive) => if alive then Consume(polls[1..], readJson, acc) else acc.(exit := WorkerGone)
      case Got(m) => Consume(polls[1..], readJson, Dispatch(m, readJson, acc))
      case Disconnected => acc.(exit := Cancelled)
  }

  /**
   * event_generator: poll the queue until done, an error, an exception, a
   * dead worker or the client's departure ends the loop; then join the worker
   * and delete the files (finalized holds the deleted list; None while the
   * generator still waits).
   */
  method EventGenerator(videoPath: string, polls: seq<Poll>, readJson: string -> Option<string>)
    returns (events: seq<SseEvent>, exit: Exit, finalized: Option<seq<string>>)
    ensures var r := Consume(polls, readJson, Initial(videoPath));
      events == r.events && exit == r.exit &&
      finalized == if r.exit == Running then None else Some(r.cleanup)
  {
    var filesToCleanup := [videoPath];
    events, exit := [], Running;
    var i := 0;
    while exit == Running && i < |polls|
      invariant 0 <= i <= |polls|
      invariant Consume(polls[i..], readJson, Stream(events, filesToCleanup, exit))
             == Consume(polls, readJson, Initial(videoPath))
      decreases |polls| - i
    {
      match polls[i] {
        case Disconnected =>
          exit := Cancelled;
        case Empty(alive) =>
          if !alive {
            exit := WorkerGone;
          }
        case Got(m) =>
          match m {
            case DoneMsg =>
              events := events + [DoneEvent];
              exit := Finished;
            case ResultMsg(data) =>
              if data.None? {
                exit := Crashed;
              } else {
                filesToCleanup := filesToCleanup + data.value.generated;
                var json := readJson(data.value.jsonPath);
                if json.None? {
                  exit := Crashed;
                } else {
                  events := events + [SseEvent("result", json.value)];
                }
              }
            case ErrorMsg(t) =>
              events := events + [SseEvent("error", t)];
              exit := Failed;
            case Text(s) =>
              events := events + [SseEvent("log", s)];
          }
      }
      i := i + 1;
    }
    finalized := if exit == Running then None else Some(filesToCleanup);
  }

  /** A terminal event: done or error. */
  predicate IsTerminal(e: SseEvent) {
    e.event == "done" || e.event == "error"
  }

  /**
   * At most one terminal event, and it is the last: done exactly when the
   * loop finished, error exactly when it failed, none otherwise.
   */
  predicate OneTerminal(s: Stream) {
    var n := |s.events|;
    (forall i :: 0 <= i < n - 1 ==> !IsTerminal(s.events[i])) &&
    (n > 0 && IsTerminal(s.events[n - 1]) <==> s.exit == Finished || s.exit == Failed) &&
    (s.exit == Finished ==> n > 0 && s.events[n - 1] == DoneEvent) &&
    (s.exit == Failed ==> n > 0 && s.events[n - 1].event == "error")
  }

  lemma DispatchKeepsOneTerminal(m: Message, readJson: string -> Option<string>, acc: Stream)
    requires acc.exit == Running && OneTerminal(acc)
    ensures OneTerminal(Dispatch(m, readJson, acc))
  {
  }

  /** Whatever the queue delivers, the stream carries at most one terminal event, as its last. */
  lemma {:induction false} ConsumeKeepsOneTerminal(polls: seq<Poll>, readJson: string -> Option<string>, acc: Stream)
    requires OneTerminal(acc)
    ensures OneTerminal(Consume(polls, readJson, acc))
    decreases |polls|
  {
    if acc.exit == Running && polls != [] {
      match polls[0]
      case Empty(alive) =>
        if alive {
          ConsumeKeepsOneTerminal(polls[1..], readJson, acc);
        }
      case Got(m) =>
        DispatchKeepsOneTerminal(m, readJson, acc);
        ConsumeKeepsOneTerminal(polls[1..], readJson, Dispatch(m, readJson, acc));
      case Disconnected =>
    }
  }

  /** For every sequence of polls the generator yields at most one done or error event, and only last; the upload is always cleaned up. */
  lemma GeneratorYieldsOneTerminal(videoPath: string, polls: seq<Poll>, readJson: string -> Option<string>)
    ensures var r := Consume(polls, readJson, Initial(videoPath));
      OneTerminal(r) && |r.cleanup| > 0 && r.cleanup[0] == videoPath
  {
    ConsumeKeepsOneTerminal(polls, readJson, Initial(videoPath));
  }

  // ---------------------------------------------------------------------
  // The schedules a worker and the generator can produce

  /**
   * The polls are ones the generator can make while a worker pushes msgs in
   * order and then ends: each message is got in push order; an empty queue
   * may be met at any time, and the is_alive call that follows may already
   * find the worker ended, with messages it pushed in between still queued.
   */
  predicate Interleaves(polls: seq<Poll>, msgs: seq<Message>)
    decreases |polls|
  {
    if polls == [] then true
    else match polls[0]
      case Got(m) => msgs != [] && msgs[0] == m && Interleaves(polls[1..], msgs[1..])
      case Empty(alive) => if alive then Interleaves(polls[1..], msgs) else AfterExit(polls[1..], msgs)
      case Disconnected => true
  }

  /** The polls after the worker was seen ended: every message is queued, so a get finds the next one until none is left. */
  predicate AfterExit(polls: seq<Poll>, msgs: seq<Message>)
    decreases |polls|
  {
    if polls == [] then true
    else match polls[0]
      case Got(m) => msgs != [] && msgs[0] == m && AfterExit(polls[1..], msgs[1..])
      case Empty(alive) => !alive && msgs == [] && AfterExit(polls[1..], msgs)
      case Disconnected => true
  }

  /**
   * The schedules where every message is got and the worker is never seen
   * ended while a message is still to come, and the client stays.
   */
  predicate DeliversAll(polls: seq<Poll>, msgs: seq<Message>)
    decreases |polls|
  {
    if polls == [] then msgs == []
    else match polls[0]
      case Got(m) => msgs != [] && msgs[0] == m && DeliversAll(polls[1..], msgs[1..])
      case Empty(alive) => if alive then DeliversAll(polls[1..], msgs) else msgs == [] && AfterExit(polls[1..], msgs)
      case Disconnected => false
  }

  /** Every schedule that delivers all messages is one the worker and the generator can produce. */
  lemma {:induction false} DeliveringSchedulesInterleave(polls: seq<Poll>, msgs: seq<Message>)
    requires DeliversAll(polls, msgs)
    ensures Interleaves(polls, msgs)
    decreases |polls|
  {
    if polls != [] {
      match polls[0]
      case Got(m) =>
        DeliveringSchedulesInterleave(polls[1..], msgs[1..]);
      case Empty(alive) =>
        if alive {
          DeliveringSchedulesInterleave(polls[1..], msgs);
        }
    }
  }

  /** The loop over messages alone, as if each poll found the next one. */
  function ConsumeAll(msgs: seq<Message>, readJson: string -> Option<string>, acc: Stream): Stream
    decreases |msgs|
  {
    if acc.exit != Running || msgs == [] then acc
    else ConsumeAll(msgs[1..], readJson, Dispatch(msgs[0], readJson, acc))
  }

  /** Relaying messages only adds events and files, and stops at once if the loop has already ended. */
  lemma {:induction false} ConsumeAllGrows(msgs: seq<Message>, readJson: string -> Option<string>, acc: Stream)
    ensures var r := ConsumeAll(msgs, readJson, acc);
      acc.cleanup <= r.cleanup && acc.events <= r.events && (acc.exit != Running ==> r == acc)
    decreases |msgs|
  {
    if acc.exit == Running && msgs != [] {
      ConsumeAllGrows(msgs[1..], readJson, Dispatch(msgs[0], readJson, acc));
    }
  }

  /** Waiting on an empty queue changes nothing: when every message is delivered, the outcome depends only on the messages, in FIFO order. */
  lemma {:induction false} PollsDeliverInOrder(polls: seq<Poll>, msgs: seq<Message>, readJson: string -> Option<string>, acc: Stream)
    requires DeliversAll(polls, msgs) && DoneMsg in msgs
    ensures Consume(polls, readJson, acc) == ConsumeAll(msgs, readJson, acc)
    decreases |polls|
  {
    if acc.exit == Running {
      match polls[0]
      case Empty(alive) =>
        if alive {
          PollsDeliverInOrder(polls[1..], msgs, readJson, acc);
        }
      case Got(m) =>
        var next := Dispatch(m, readJson, acc);
        if next.exit == Running {
          assert m != DoneMsg;
          assert DoneMsg in msgs[1..];
          PollsDeliverInOrder(polls[1..], msgs[1..], readJson, next);
        }
    }
  }

  /**
   * On any schedule the generator relays a prefix of what the messages alone
   * give, and collects a prefix of their cleanup list; unless it is still
   * polling, found the worker ended or lost its client, it relays all of it.
   */
  lemma {:induction false} ConsumeIsPrefixRun(polls: seq<Poll>, msgs: seq<Message>, readJson: string -> Option<string>, acc: Stream)
    requires Interleaves(polls, msgs)
    ensures var r, f := Consume(polls, readJson, acc), ConsumeAll(msgs, readJson, acc);
      r.events <= f.events && r.cleanup <= f.cleanup &&
      (r.exit == Running || r.exit == WorkerGone || r.exit == Cancelled || r == f)
    decreases |polls|
  {
    ConsumeAllGrows(msgs, readJson, acc);
    if acc.exit == Running && polls != [] {
      match polls[0]
      case Empty(alive) =>
        if alive {
          ConsumeIsPrefixRun(polls[1..], msgs, readJson, acc);
        }
      case Got(m) =>
        ConsumeIsPrefixRun(polls[1..], msgs[1..], readJson, Dispatch(m, readJson, acc));
      case Disconnected =>
    }
  }

  /** The log event for one write: none for a blank one. */
  function LogEvent(w: string): seq<SseEvent> {
    if Blank(w) then [] else [SseEvent("log", w)]
  }

  /** The log events for a sequence of writes: one per non-blank string, in order. */
  function LogEvents(writes: seq<string>): seq<SseEvent> {
    if writes == [] then [] else LogEvent(writes[0]) + LogEvents(writes[1..])
  }

  /** Log events are neither done nor error, and carry text that is not blank. */
  lemma {:induction false} LogEventsAreLogs(writes: seq<string>)
    ensures forall i :: 0 <= i < |LogEvents(writes)| ==>
      LogEvents(writes)[i].event == "log" && !Blank(LogEvents(writes)[i].data)
  {
    if writes != [] {
      LogEventsAreLogs(writes[1..]);
      var es, head, rest := LogEvents(writes), LogEvent(writes[0]), LogEvents(writes[1..]);
      assert es == head + rest;
      forall i | 0 <= i < |es| ensures es[i].event == "log" && !Blank(es[i].data) {
        if i < |head| {
          assert es[i] == head[i];
        } else {
          assert es[i] == rest[i - |head|];
        }
      }
    }
  }

  /** Log events before a stream's events keep it carrying at most one terminal event, as its last. */
  lemma LogsKeepOneTerminal(writes: seq<string>, last: Stream)
    requires OneTerminal(last)
    ensures OneTerminal(last.(events := LogEvents(writes) + last.events))
  {
    LogEventsAreLogs(writes);
    var logs := LogEvents(writes);
    var es := logs + last.events;
    forall i | 0 <= i < |es| ensures es[i] == if i < |logs| then logs[i] else last.events[i - |logs|] {}
  }

  /** Relaying one write: a blank one yields nothing, any other one log event. */
  lemma LogRelayed(w: string, later: seq<Message>, readJson: string -> Option<string>, acc: Stream)
    requires acc.exit == Running
    ensures ConsumeAll(Captured(w) + later, readJson, acc)
         == ConsumeAll(later, readJson, acc.(events := acc.events + LogEvent(w)))
  {
    if Blank(w) {
      assert Captured(w) + later == later;
      assert acc.events + LogEvent(w) == acc.events;
    } else {
      var all := [Text(w)] + later;
      assert Captured(w) + later == all;
      assert all[0] == Text(w) && all[1..] == later;
    }
  }

  lemma {:induction false} LogsRelayed(writes: seq<string>, tail: seq<Message>, readJson: string -> Option<string>, acc: Stream)
    requires acc.exit == Running
    ensures ConsumeAll(LogMessages(writes) + tail, readJson, acc)
         == ConsumeAll(tail, readJson, acc.(events := acc.events + LogEvents(writes)))
  {
    if writes == [] {
      assert LogMessages(writes) + tail == tail;
      assert acc.events + LogEvents(writes) == acc.events;
    } else {
      var w, rest := writes[0], writes[1..];
      var acc' := acc.(events := acc.events + LogEvent(w));
      Associative(Captured(w), LogMessages(rest), tail);
      LogRelayed(w, LogMessages(rest) + tail, readJson, acc);
      LogsRelayed(rest, tail, readJson, acc');
      Associative(acc.events, LogEvent(w), LogEvents(rest));
    }
  }

  /** Sequence concatenation is associative; stated as a lemma so that LogsRelayed's proof stays small and stable. */
  lemma Associative<T>(a: seq<T>, b: seq<T>, c: seq<T>)
    ensures (a + b) + c == a + (b + c)
  {
  }

  /** What the outcome and done add to the stream: the events after the logs, the files to delete and the exit. */
  function Ending(o: Outcome, readJson: string -> Option<string>, videoPath: string): Stream {
    match o
    case Aborted => Stream([DoneEvent], [videoPath], Finished)
    case Raised(t) => Stream([SseEvent("error", t)], [videoPath], Failed)
    case Returned(None) => Stream([], [videoPath], Crashed)
    case Returned(Some(res)) =>
      match readJson(res.jsonPath)
      case None => Stream([], [videoPath] + res.generated, Crashed)
      case Some(json) => Stream([SseEvent("result", json), DoneEvent], [videoPath] + res.generated, Finished)
  }

  /**
   * What a client of one job receives and what is deleted, by the pipeline's
   * outcome: the log lines, then the result and done, or the error, or done
   * alone when a BaseException escaped the worker, or nothing more when the
   * generator raises on a missing result or an unreadable JSON file.
   */
  function Expected(run: PipelineRun, readJson: string -> Option<string>, videoPath: string): (r: Stream)
    ensures OneTerminal(r) && |r.cleanup| > 0 && r.cleanup[0] == videoPath
    ensures r.exit == Finished <==>
      run.outcome.Aborted? || (run.outcome.Returned? && run.outcome.value.Some? && readJson(run.outcome.value.value.jsonPath).Some?)
    ensures r.exit == Failed <==> run.outcome.Raised?
    ensures r.exit == Finished || r.exit == Failed || r.exit == Crashed
  {
    var last := Ending(run.outcome, readJson, videoPath);
    LogsKeepOneTerminal(run.writes, last);
    last.(events := LogEvents(run.writes) + last.events)
  }

  /** Relaying the outcome's message and done after the logs gives the ending. */
  lemma OutcomeRelayed(o: Outcome, readJson: string -> Option<string>, logs: seq<SseEvent>, videoPath: string)
    ensures var last := Ending(o, readJson, videoPath);
      ConsumeAll(OutcomeMessages(o) + [DoneMsg], readJson, Stream(logs, [videoPath], Running))
        == last.(events := logs + last.events)
  {
    var acc := Stream(logs, [videoPath], Running);
    var tail := OutcomeMessages(o) + [DoneMsg];
    if o.Aborted? {
      assert tail == [DoneMsg] && tail[1..] == [];
    } else {
      var outcome := OutcomeMessages(o)[0];
      assert tail[0] == outcome && tail[1..] == [DoneMsg];
      var after := Dispatch(outcome, readJson, acc);
      assert ConsumeAll(tail, readJson, acc) == ConsumeAll([DoneMsg], readJson, after);
      if after.exit == Running {
        assert [DoneMsg][1..] == [];
        assert ConsumeAll([DoneMsg], readJson, after) == Dispatch(DoneMsg, readJson, after);
      }
    }
  }

  /** Relaying everything the worker pushes gives the expected stream. */
  lemma ProducerMessagesRelayed(run: PipelineRun, readJson: string -> Option<string>, videoPath: string)
    ensures ConsumeAll(ProducerMessages(run), readJson, Initial(videoPath)) == Expected(run, readJson, videoPath)
  {
    LogsRelayed(run.writes, OutcomeMessages(run.outcome) + [DoneMsg], readJson, Initial(videoPath));
    assert Initial(videoPath).(events := [] + LogEvents(run.writes)) == Stream(LogEvents(run.writes), [videoPath], Running);
    OutcomeRelayed(run.outcome, readJson, LogEvents(run.writes), videoPath);
  }

  /**
   * End to end, on every schedule: the client gets a prefix of the expected
   * events (every non-blank line the pipeline wrote, in order, then the
   * outcome) and the files deleted are a prefix of the expected list (the
   * upload, then the generated files); they are exactly the expected ones
   * unless the generator still polls, found the worker ended first, or lost
   * its client.
   */
  lemma JobStreamEndToEnd(run: PipelineRun, polls: seq<Poll>, readJson: string -> Option<string>, videoPath: string)
    requires Interleaves(polls, ProducerMessages(run))
    ensures var r, e := Consume(polls, readJson, Initial(videoPath)), Expected(run, readJson, videoPath);
      r.events <= e.events && r.cleanup <= e.cleanup &&
      (r.exit == Running || r.exit == WorkerGone || r.exit == Cancelled || r == e)
  {
    ConsumeIsPrefixRun(polls, ProducerMessages(run), readJson, Initial(videoPath));
    ProducerMessagesRelayed(run, readJson, videoPath);
  }

  /** When the generator gets every message, the client receives exactly the expected stream and the expected files are deleted. */
  lemma JobStreamWithoutRace(run: PipelineRun, polls: seq<Poll>, readJson: string -> Option<string>, videoPath: string)
    requires DeliversAll(polls, ProducerMessages(run))
    ensures Consume(polls, readJson, Initial(videoPath)) == Expected(run, readJson, videoPath)
  {
    var msgs := ProducerMessages(run);
    assert msgs[|msgs| - 1] == DoneMsg;
    PollsDeliverInOrder(polls, msgs, readJson, Initial(videoPath));
    ProducerMessagesRelayed(run, readJson, videoPath);
  }

  // ---------------------------------------------------------------------
  // The worker ending between the empty get and is_alive

  /** One poll per message, each finding it. */
  function Gots(msgs: seq<Message>): (polls: seq<Poll>)
    ensures |polls| == |msgs|
  {
    if msgs == [] then [] else [Got(msgs[0])] + Gots(msgs[1..])
  }

  lemma {:induction false} GotsInterleave(msgs: seq<Message>, rest: seq<Message>, tail: seq<Poll>)
    requires Interleaves(tail, rest)
    ensures Interleaves(Gots(msgs) + tail, msgs + rest)
    decreases |msgs|
  {
    if msgs != [] {
      GotsInterleave(msgs[1..], rest, tail);
      assert (Gots(msgs) + tail)[0] == Got(msgs[0]);
      assert (Gots(msgs) + tail)[1..] == Gots(msgs[1..]) + tail;
      assert (msgs + rest)[1..] == msgs[1..] + rest;
    } else {
      assert Gots(msgs) + tail == tail && msgs + rest == rest;
    }
  }

  lemma {:induction false} ConsumeGots(msgs: seq<Message>, tail: seq<Poll>, readJson: string -> Option<string>, acc: Stream)
    ensures Consume(Gots(msgs) + tail, readJson, acc) == Consume(tail, readJson, ConsumeAll(msgs, readJson, acc))
    decreases |msgs|
  {
    if msgs != [] && acc.exit == Running {
      assert (Gots(msgs) + tail)[0] == Got(msgs[0]);
      assert (Gots(msgs) + tail)[1..] == Gots(msgs[1..]) + tail;
      ConsumeGots(msgs[1..], tail, readJson, Dispatch(msgs[0], readJson, acc));
    } else if msgs == [] {
      assert Gots(msgs) + tail == tail;
    }
  }

  /**
   * The generator gets every log line, finds the queue empty, and the worker
   * then pushes its outcome and done and ends before is_alive is called: this
   * schedule is possible for every run, and on it the loop stops with the logs
   * relayed and nothing else.
   */
  lemma RaceSchedule(run: PipelineRun, readJson: string -> Option<string>, videoPath: string)
    ensures var polls := Gots(LogMessages(run.writes)) + [Empty(false)];
      Interleaves(polls, ProducerMessages(run)) &&
      Consume(polls, readJson, Initial(videoPath)) == Stream(LogEvents(run.writes), [videoPath], WorkerGone)
  {
    var logs := LogMessages(run.writes);
    GotsInterleave(logs, OutcomeMessages(run.outcome) + [DoneMsg], [Empty(false)]);
    ConsumeGots(logs, [Empty(false)], readJson, Initial(videoPath));
    LogsRelayed(run.writes, [], readJson, Initial(videoPath));
    assert logs + [] == logs;
    var acc := Stream(LogEvents(run.writes), [videoPath], Running);
    assert Initial(videoPath).(events := [] + LogEvents(run.writes)) == acc;
    assert Consume([Empty(false)], readJson, acc) == acc.(exit := WorkerGone);
  }

  /**
   * On that schedule the outcome and done are never read, whatever the run:
   * the client gets no result, no error and no done, and the files the
   * pipeline generated are never deleted.
   */
  lemma RaceDropsOutcome(run: PipelineRun, readJson: string -> Option<string>, videoPath: string)
    ensures var polls := Gots(LogMessages(run.writes)) + [Empty(false)];
      var r, e := Consume(polls, readJson, Initial(videoPath)), Expected(run, readJson, videoPath);
      Interleaves(polls, ProducerMessages(run)) && r != e &&
      r.events == LogEvents(run.writes) && r.cleanup == [videoPath] &&
      (run.outcome.Returned? && run.outcome.value.Some? && run.outcome.value.value.generated != [] ==>
        |r.cleanup| < |e.cleanup|)
  {
    RaceSchedule(run, readJson, videoPath);
  }

  /**
   * The loop with the race closed: an empty queue with the worker found ended
   * is read once more, and only a second empty get ends the loop, because by
   * then every message the worker pushed has been got.
   */
  function ConsumeDraining(polls: seq<Poll>, readJson: string -> Option<string>, acc: Stream, exited: bool): (r: Stream)
    ensures acc.cleanup <= r.cleanup && acc.events <= r.events
    ensures acc.exit != Running ==> r == acc
    decreases |polls|
  {
    if acc.exit != Running || polls == [] then acc
    else match polls[0]
      case Empty(alive) =>
        if exited then acc.(exit := WorkerGone) else ConsumeDraining(polls[1..], readJson, acc, !alive)
      case Got(m) => ConsumeDraining(polls[1..], readJson, Dispatch(m, readJson, acc), exited)
      case Disconnected => acc.(exit := Cancelled)
  }

  lemma {:induction false} DrainingRelaysAll(polls: seq<Poll>, msgs: seq<Message>, readJson: string -> Option<string>, acc: Stream, exited: bool)
    requires if exited then AfterExit(polls, msgs) else Interleaves(polls, msgs)
    requires DoneMsg in msgs
    ensures var r, f := ConsumeDraining(polls, readJson, acc, exited), ConsumeAll(msgs, readJson, acc);
      r.events <= f.events && r.cleanup <= f.cleanup &&
      (r.exit == Running || r.exit == Cancelled || r == f)
    decreases |polls|
  {
    ConsumeAllGrows(msgs, readJson, acc);
    if acc.exit == Running && polls != [] {
      match polls[0]
      case Empty(alive) =>
        if !exited {
          DrainingRelaysAll(polls[1..], msgs, readJson, acc, !alive);
        }
      case Got(m) =>
        var next := Dispatch(m, readJson, acc);
        if next.exit == Running {
          assert m != DoneMsg;
          assert DoneMsg in msgs[1..];
          DrainingRelaysAll(polls[1..], msgs[1..], readJson, next, exited);
        }
      case Disconnected =>
    }
  }

  /**
   * With the race closed, on every schedule the worker and the generator can
   * produce, the client gets the whole expected stream and the whole expected
   * list is deleted, unless the generator still polls or lost its client; the
   * loop never ends on a dead worker with messages unread.
   */
  lemma DrainingJobStream(run: PipelineRun, polls: seq<Poll>, readJson: string -> Option<string>, videoPath: string)
    requires Interleaves(polls, ProducerMessages(run))
    ensures var r, e := ConsumeDraining(polls, readJson, Initial(videoPath), false), Expected(run, readJson, videoPath);
      r.events <= e.events && r.cleanup <= e.cleanup &&
      (r.exit == Running || r.exit == Cancelled || r == e) && r.exit != WorkerGone
  {
    var msgs := ProducerMessages(run);
    assert msgs[|msgs| - 1] == DoneMsg;
    DrainingRelaysAll(polls, msgs, readJson, Initial(videoPath), false);
    ProducerMessagesRelayed(run, readJson, videoPath);
  }
}
