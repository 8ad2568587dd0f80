/**
 * The detector's state and its operations as values: callback registration,
 * the audio-capture callback (producer), one iteration of the processing loop
 * (consumer), and the start/stop lifecycle. The audio device, the processing
 * thread and the inference engine appear only through the state they leave
 * behind (`stream`, `thread`) and through inputs (`openSucceeds`, the
 * predictions and the callbacks' outcomes).
 */
module Lifecycle {
  import opened Dispatch

  /** Raw PCM bytes as delivered by the audio subsystem; never inspected. */
  type Chunk = seq<bv8>

  /** `self.stream`: never opened (None), opened, or stopped and closed. */
  datatype StreamState = NoStream | StreamOpen | StreamClosed

  /** `self.processing_thread`: never created, running `_process_audio`, or joined. */
  datatype ThreadState = NoThread | ThreadRunning | ThreadJoined

  datatype State = State(
    listening: bool,                    // is_listening
    queue: seq<Chunk>,                  // audio_queue, head first
    callbacks: map<Word, ActionId>,     // callbacks
    stream: StreamState,
    thread: ThreadState)

  /** What the constructor leaves behind. */
  function Initial(): State
  {
    State(false, [], map[], NoStream, NoThread)
  }

  /**
   * Every state the operations reach satisfies this (given that closing the
   * stream returns, see `Stop`): a stopped detector holds no queued audio,
   * an open stream always comes with a running processing thread, and both only
   * while listening.
   */
  predicate Inv(s: State)
  {
    && (!s.listening ==> s.queue == [])
    && (s.stream == StreamOpen <==> s.thread == ThreadRunning)
    && (s.stream == StreamOpen ==> s.listening)
  }

  /**
   * The two-state lifecycle as intended: the stream is open and the processing
   * thread runs exactly while the detector is listening. `Start` breaks this when
   * the device fails to open; `StartChecked` does not.
   */
  predicate Consistent(s: State)
  {
    s.listening <==> (s.stream == StreamOpen && s.thread == ThreadRunning)
  }

  // ---------------------------------------------------------------- registry

  /** `register_callback`: last write wins, every other entry is kept. */
  function RegisterCallback(s: State, w: Word, a: ActionId): (t: State)
    ensures w in t.callbacks && t.callbacks[w] == a
    ensures t.callbacks.Keys == s.callbacks.Keys + {w}
    ensures forall v :: v in s.callbacks && v != w ==> t.callbacks[v] == s.callbacks[v]
    ensures t.(callbacks := s.callbacks) == s
  {
    s.(callbacks := s.callbacks[w := a])
  }

  /** Registering twice for one wake word keeps only the second callback. */
  lemma RegisterLastWriteWins(s: State, w: Word, a: ActionId, b: ActionId)
    ensures RegisterCallback(RegisterCallback(s, w, a), w, b) == RegisterCallback(s, w, b)
  {
  }

  // ---------------------------------------------------------------- producer

  /** `_audio_callback`: the chunk joins the back of the queue iff the detector is listening. */
  function AudioCallback(s: State, data: Chunk): (t: State)
    ensures s.listening ==> t.queue == s.queue + [data]
    ensures !s.listening ==> t == s
    ensures t.(queue := s.queue) == s
  {
    if s.listening then s.(queue := s.queue + [data]) else s
  }

  // ---------------------------------------------------------------- consumer

  /** What `model.predict` gave for the popped chunk: scores, or an exception
      (from the conversion or from inference) that the loop logs and survives. */
  datatype Prediction = Scores(pairs: seq<Pair>) | PredictRaised

  /** One callback outcome per predicted pair. */
  predicate WellFormed(p: Prediction, raises: seq<bool>)
  {
    p.Scores? ==> |raises| == |p.pairs|
  }

  /** How one iteration of the `while self.is_listening` loop ended. */
  datatype StepOutcome =
    | LoopExited                  // the loop condition was false
    | TimedOut                    // queue.Empty after the poll timeout
    | Processed(chunk: Chunk)     // predictions dispatched
    | PredictFailed(chunk: Chunk) // chunk consumed, the exception logged

  datatype StepResult = StepResult(state: State, outcome: StepOutcome, trace: seq<Event>)

  /** The chunks an iteration took off the queue. */
  function Consumed(o: StepOutcome): seq<Chunk>
  {
    if o.Processed? || o.PredictFailed? then [o.chunk] else []
  }

  /** One iteration of `_process_audio`. */
  function ProcessStep(s: State, threshold: real, p: Prediction, raises: seq<bool>): (r: StepResult)
    requires WellFormed(p, raises)
    ensures r.outcome == LoopExited <==> !s.listening
    ensures r.outcome == TimedOut <==> s.listening && s.queue == []
    ensures r.outcome.LoopExited? || r.outcome.TimedOut? ==> r.state == s && r.trace == []
    ensures r.outcome.Processed? || r.outcome.PredictFailed? ==>
              [r.outcome.chunk] + r.state.queue == s.queue && (r.outcome.Processed? <==> p.Scores?)
    ensures r.outcome.Processed? ==> r.trace == DispatchTrace(p.pairs, raises, s.callbacks, threshold)
    ensures r.outcome.PredictFailed? ==> r.trace == []
    ensures r.state.(queue := s.queue) == s
  {
    if !s.listening then StepResult(s, LoopExited, [])
    else if s.queue == [] then StepResult(s, TimedOut, [])
    else
      var chunk, rest := s.queue[0], s.queue[1..];
      var s' := s.(queue := rest);
      match p
      case Scores(ps) => StepResult(s', Processed(chunk), DispatchTrace(ps, raises, s.callbacks, threshold))
      case PredictRaised => StepResult(s', PredictFailed(chunk), [])
  }

  /** A callback that was overwritten, and is registered under no other wake word,
      is not invoked by the next processing step (OverwrittenCallbackNeverInvokedInRun
      extends this to whole runs). */
  lemma {:induction false} OverwrittenCallbackNeverInvoked(s: State, threshold: real, p: Prediction, raises: seq<bool>,
                                                           w: Word, a: ActionId, b: ActionId)
    requires WellFormed(p, raises)
    requires a != b
    requires forall v :: v in s.callbacks && v != w ==> s.callbacks[v] != a
    ensures var s2 := RegisterCallback(RegisterCallback(s, w, a), w, b);
            forall e :: e in ProcessStep(s2, threshold, p, raises).trace ==> !(e.Invoke? && e.action == a)
  {
    var s2 := RegisterCallback(RegisterCallback(s, w, a), w, b);
    var r := ProcessStep(s2, threshold, p, raises);
    if r.outcome.Processed? {
      forall e | e in r.trace && e.Invoke?
        ensures e.action != a
      {
        InvokedIff(p.pairs, raises, s2.callbacks, threshold, e.action, e.word, e.score, e.raised);
      }
    }
  }

  // ---------------------------------------------------------------- lifecycle

  datatype StartResult =
    | AlreadyListening   // warning logged, nothing done
    | Started
    | DeviceError        // `audio.open` raised; the exception reaches the caller

  datatype StartReturn = StartReturn(state: State, result: StartResult)

  /**
   * `start` as written: `is_listening` is set before the device is opened, so a
   * failed open leaves the detector marked as listening with neither stream nor
   * new processing thread.
   */
  function Start(s: State, openSucceeds: bool): (r: StartReturn)
    ensures s.listening ==> r == StartReturn(s, AlreadyListening)
    ensures r.state.listening
    ensures !s.listening && openSucceeds ==>
              r.result == Started && r.state.stream == StreamOpen && r.state.thread == ThreadRunning
    ensures !s.listening && !openSucceeds ==> r.result == DeviceError && r.state == s.(listening := true)
    ensures r.state.queue == s.queue && r.state.callbacks == s.callbacks
  {
    if s.listening then StartReturn(s, AlreadyListening)
    else
      var flagged := s.(listening := true);
      if !openSucceeds then StartReturn(flagged, DeviceError)
      else StartReturn(flagged.(stream := StreamOpen, thread := ThreadRunning), Started)
  }

  /**
   * `stop`: when listening, clear the flag, join the thread if one was ever
   * created, close the stream if one was ever opened, and discard every queued
   * chunk; otherwise do nothing.
   */
  function Stop(s: State): (t: State)
    ensures !s.listening ==> t == s
    ensures s.listening ==> !t.listening && t.queue == [] && t.stream != StreamOpen && t.thread != ThreadRunning
    ensures s.listening ==> (t.stream == NoStream <==> s.stream == NoStream) && (t.thread == NoThread <==> s.thread == NoThread)
    ensures t.callbacks == s.callbacks
  {
    if !s.listening then s
    else
      State(false, [], s.callbacks,
            if s.stream == NoStream then NoStream else StreamClosed,
            if s.thread == NoThread then NoThread else ThreadJoined)
  }

  /** A second `start` changes nothing, whatever the first one did. */
  lemma StartTwiceIsStartOnce(s: State, first: bool, second: bool)
    ensures Start(Start(s, first).state, second) == StartReturn(Start(s, first).state, AlreadyListening)
  {
  }

  /** A second `stop` changes nothing. */
  lemma StopTwiceIsStopOnce(s: State)
    ensures Stop(Stop(s)) == Stop(s)
  {
  }

  /**
   * A failed device open leaves a stopped detector marked as listening without a
   * stream or a running thread, and every later `start` then returns at once:
   * the detector cannot be restarted without an intervening `stop`.
   */
  lemma StartFailureBlocksRetry(s: State, retryOpens: bool)
    requires Inv(s) && Consistent(s) && !s.listening
    ensures var failed := Start(s, false).state;
            failed.listening && failed.stream != StreamOpen && !Consistent(failed)
            && Start(failed, retryOpens) == StartReturn(failed, AlreadyListening)
  {
  }

  /** `start` with the flag raised only once the device has opened. */
  function StartChecked(s: State, openSucceeds: bool): (r: StartReturn)
    ensures s.listening ==> r == StartReturn(s, AlreadyListening)
    ensures !s.listening && openSucceeds ==>
              r.result == Started && r.state.listening && r.state.stream == StreamOpen && r.state.thread == ThreadRunning
    ensures !s.listening && !openSucceeds ==> r == StartReturn(s, DeviceError)
    ensures r.state.queue == s.queue && r.state.callbacks == s.callbacks
  {
    if s.listening then StartReturn(s, AlreadyListening)
    else if !openSucceeds then StartReturn(s, DeviceError)
    else StartReturn(s.(listening := true, stream := StreamOpen, thread := ThreadRunning), Started)
  }

  /** With the corrected start, a device failure leaves the detector stopped and
      a retry that opens the device starts it. */
  lemma StartCheckedRetries(s: State)
    requires Consistent(s) && !s.listening
    ensures var failed := StartChecked(s, false).state;
            Consistent(failed) && !failed.listening && StartChecked(failed, true).result == Started
  {
  }

  // ---------------------------------------------------------------- sessions

  /** An operation on the detector, as callers and the two threads issue them. */
  datatype Op =
    | OpRegister(word: Word, action: ActionId)
    | OpAudio(data: Chunk)
    | OpStep(prediction: Prediction, raises: seq<bool>)
    | OpStart(openSucceeds: bool)
    | OpStartChecked(opens: bool)
    | OpStop

  predicate OpWellFormed(op: Op)
  {
    op.OpStep? ==> WellFormed(op.prediction, op.raises)
  }

  /** Final state, the chunks the processing loop took in order, and the dispatch trace. */
  datatype RunResult = RunResult(state: State, consumed: seq<Chunk>, trace: seq<Event>)

  function Apply(s: State, threshold: real, op: Op): RunResult
    requires OpWellFormed(op)
  {
    match op
    case OpRegister(w, a) => RunResult(RegisterCallback(s, w, a), [], [])
    case OpAudio(d) => RunResult(AudioCallback(s, d), [], [])
    case OpStep(p, rs) =>
      var r := ProcessStep(s, threshold, p, rs);
      RunResult(r.state, Consumed(r.outcome), r.trace)
    case OpStart(o) => RunResult(Start(s, o).state, [], [])
    case OpStartChecked(o) => RunResult(StartChecked(s, o).state, [], [])
    case OpStop => RunResult(Stop(s), [], [])
  }

  function Run(s: State, threshold: real, ops: seq<Op>): RunResult
    requires forall i :: 0 <= i < |ops| ==> OpWellFormed(ops[i])
    decreases |ops|
  {
    if ops == [] then RunResult(s, [], [])
    else
      var first := Apply(s, threshold, ops[0]);
      var rest := Run(first.state, threshold, ops[1..]);
      RunResult(rest.state, first.consumed + rest.consumed, first.trace + rest.trace)
  }

  /** The chunk an operation hands to the queue, if it is the audio callback. */
  function Arrived(op: Op): seq<Chunk>
  {
    if op.OpAudio? then [op.data] else []
  }

  /** The chunks the audio subsystem delivered during a run. */
  function Delivered(ops: seq<Op>): seq<Chunk>
  {
    if ops == [] then [] else Arrived(ops[0]) + Delivered(ops[1..])
  }

  /** No wake word is registered to callback `a`. */
  predicate Unregistered(s: State, a: ActionId)
  {
    forall v :: v in s.callbacks ==> s.callbacks[v] != a
  }

  /** A callback registered under no wake word is never invoked in a run that does
      not register it again, whatever else happens in between. */
  lemma {:induction false} UnregisteredNeverInvoked(s: State, threshold: real, ops: seq<Op>, a: ActionId)
    requires forall i :: 0 <= i < |ops| ==> OpWellFormed(ops[i]) && !(ops[i].OpRegister? && ops[i].action == a)
    requires Unregistered(s, a)
    ensures forall e :: e in Run(s, threshold, ops).trace ==> !(e.Invoke? && e.action == a)
    decreases |ops|
  {
    if ops != [] {
      var first := Apply(s, threshold, ops[0]);
      if ops[0].OpStep? {
        var r := ProcessStep(s, threshold, ops[0].prediction, ops[0].raises);
        if r.outcome.Processed? {
          forall e | e in r.trace && e.Invoke?
            ensures e.action != a
          {
            InvokedIff(ops[0].prediction.pairs, ops[0].raises, s.callbacks, threshold,
                       e.action, e.word, e.score, e.raised);
          }
        }
      }
      assert Unregistered(first.state, a);
      var tail := ops[1..];
      assert forall i :: 0 <= i < |tail| ==> tail[i] == ops[i + 1];
      UnregisteredNeverInvoked(first.state, threshold, tail, a);
    }
  }

  /**
   * Once the callback registered for `w` is overwritten, and it is registered under
   * no other wake word, no later operation of a run invokes it, unless the run
   * registers it again.
   */
  lemma OverwrittenCallbackNeverInvokedInRun(s: State, threshold: real, ops: seq<Op>,
                                             w: Word, a: ActionId, b: ActionId)
    requires forall i :: 0 <= i < |ops| ==> OpWellFormed(ops[i]) && !(ops[i].OpRegister? && ops[i].action == a)
    requires a != b
    requires forall v :: v in s.callbacks && v != w ==> s.callbacks[v] != a
    ensures var s2 := RegisterCallback(RegisterCallback(s, w, a), w, b);
            forall e :: e in Run(s2, threshold, ops).trace ==> !(e.Invoke? && e.action == a)
  {
    var s2 := RegisterCallback(RegisterCallback(s, w, a), w, b);
    assert Unregistered(s2, a);
    UnregisteredNeverInvoked(s2, threshold, ops, a);
  }

  /** Every operation keeps the invariant, whichever start is used. */
  lemma ApplyKeepsInv(s: State, threshold: real, op: Op)
    requires OpWellFormed(op) && Inv(s)
    ensures Inv(Apply(s, threshold, op).state)
  {
  }

  lemma {:induction false} RunKeepsInv(s: State, threshold: real, ops: seq<Op>)
    requires forall i :: 0 <= i < |ops| ==> OpWellFormed(ops[i])
    requires Inv(s)
    ensures Inv(Run(s, threshold, ops).state)
    decreases |ops|
  {
    if ops != [] {
      ApplyKeepsInv(s, threshold, ops[0]);
      RunKeepsInv(Apply(s, threshold, ops[0]).state, threshold, ops[1..]);
    }
  }

  /** With `start` corrected, every reachable state is Consistent. */
  lemma {:induction false} CheckedRunKeepsConsistent(s: State, threshold: real, ops: seq<Op>)
    requires forall i :: 0 <= i < |ops| ==> OpWellFormed(ops[i]) && !ops[i].OpStart?
    requires Inv(s) && Consistent(s)
    ensures Consistent(Run(s, threshold, ops).state)
    decreases |ops|
  {
    if ops != [] {
      var next := Apply(s, threshold, ops[0]).state;
      ApplyKeepsInv(s, threshold, ops[0]);
      assert Consistent(next);
      CheckedRunKeepsConsistent(next, threshold, ops[1..]);
    }
  }

  /** One operation other than `stop` keeps the detector listening and moves chunks
      only by appending the arrival or taking the head. */
  lemma ApplyIsFifo(s: State, threshold: real, op: Op)
    requires OpWellFormed(op) && !op.OpStop? && s.listening
    ensures var r := Apply(s, threshold, op);
            r.state.listening && r.consumed + r.state.queue == s.queue + Arrived(op)
  {
  }

  /**
   * While the detector is not stopped, the processing loop consumes every chunk
   * the audio callback delivered, each exactly once and in arrival order: what it
   * took, followed by what is still queued, is what was queued at the start
   * followed by what arrived.
   */
  lemma {:induction false} RunIsFifo(s: State, threshold: real, ops: seq<Op>)
    requires forall i :: 0 <= i < |ops| ==> OpWellFormed(ops[i]) && !ops[i].OpStop?
    requires s.listening
    ensures var r := Run(s, threshold, ops);
            r.state.listening && r.consumed + r.state.queue == s.queue + Delivered(ops)
    decreases |ops|
  {
    if ops != [] {
      var first := Apply(s, threshold, ops[0]);
      ApplyIsFifo(s, threshold, ops[0]);
      var tail := ops[1..];
      assert forall i :: 0 <= i < |tail| ==> tail[i] == ops[i + 1];
      var rest := Run(first.state, threshold, tail);
      RunIsFifo(first.state, threshold, tail);
      var here, later := Arrived(ops[0]), Delivered(tail);
      assert Delivered(ops) == here + later;
      assert Run(s, threshold, ops) == RunResult(rest.state, first.consumed + rest.consumed, first.trace + rest.trace);
      Handover(s.queue, first.consumed, first.state.queue, rest.consumed, rest.state.queue, here, later);
    }
  }

  /** Chaining two FIFO hand-overs: what the first step took, what the rest took and
      what is left is the original queue followed by both arrivals. */
  lemma Handover<T>(q0: seq<T>, c1: seq<T>, q1: seq<T>, c2: seq<T>, q2: seq<T>, here: seq<T>, later: seq<T>)
    requires c1 + q1 == q0 + here
    requires c2 + q2 == q1 + later
    ensures (c1 + c2) + q2 == q0 + (here + later)
  {
    calc {
      (c1 + c2) + q2;
      c1 + (c2 + q2);
      c1 + (q1 + later);
      (c1 + q1) + later;
      (q0 + here) + later;
    }
  }
}
