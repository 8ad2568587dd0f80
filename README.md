# Wake-word detector: verified model of `WakeWordDetector`

This project models the sequential behaviour of `WakeWordDetector` from
`wakeword_detector.py`. The class listens to the microphone and calls
user-registered actions when a wake word is detected. It has four parts:

- a producer gate. The audio callback queues a chunk only while the detector
  is listening.
- a FIFO audio queue.
- a consumer step. One iteration of the processing loop pops a chunk, keeps the
  predictions whose score is strictly above the threshold, calls the callback
  registered for each such wake word and resets the inference engine.
- a two-state start/stop lifecycle. It is also used as a context manager.

The audio device, the processing thread and the inference engine are not
modelled. They appear only as the state they leave behind and as inputs:

- `openSucceeds` says whether the device opened;
- each popped chunk comes with its predictions as `(wake word, score)` pairs,
  or with the fact that prediction raised;
- each callback comes with whether it raised.

Files:

- `dispatch.dfy` (module `Dispatch`). Threshold filtering and the dispatch
  trace of one chunk. The trace holds `Invoke(action, word, score, raised)` and
  `Reset` events. `DispatchChunk` is the loop itself, proved against the
  function `DispatchTrace`.
- `lifecycle.dfy` (module `Lifecycle`). The detector's state as a value and
  every operation as a transition function. It also holds the reachable-state
  invariant `Inv` and runs of operations (`Run`), with the FIFO and invariant
  lemmas about them.
- `detector.dfy` (module `Detector`). The class `WakeWordDetector` with the
  fields the source updates in place. Each method is proved to change the
  fields exactly as the matching `Lifecycle` transition changes the abstract
  state, and to keep `Inv`.

Behaviour of the code worth noting:

- **Resets.** The engine is reset once per detection, not once per chunk.
  `model.reset()` sits inside the `score > threshold` branch
  (wakeword_detector.py:92-102). It runs whether or not a callback is registered
  and whether or not the callback raised. Two detections in one chunk therefore
  give two resets (`Dispatch.TwoHitsTwoResets`).
- **Failed start.** A device-open failure does not leave the detector stopped.
  `is_listening` is set before `audio.open` (wakeword_detector.py:116-119). See
  "Findings".
- **Queue bound.** The queue is unbounded (`queue.Queue()`, wakeword_detector.py:55).

## Model

| member | source | states |
|---|---|---|
| Dispatch.Hits | wakeword_detector.py:91-92 | A pair is a detection iff its score is strictly above the threshold. The detections are exactly those pairs of the chunk, and there are no more of them than pairs. |
| Dispatch.DispatchChunk | wakeword_detector.py:91-102 | The loop over a chunk's predictions produces exactly the trace `DispatchTrace`: for each pair in order, nothing at or below the threshold; otherwise the registered callback (if any), then one reset. |
| Dispatch.ResetsEqualHits | wakeword_detector.py:92-102 | The number of resets equals the number of detections, registered or not, whatever the callbacks did. |
| Dispatch.InvokedIff | wakeword_detector.py:91-97 | A callback is invoked with `(word, score)` iff some pair of the chunk is `(word, score)`, the score is above the threshold and the word is registered to that callback (both directions). |
| Dispatch.SilentIffNoHits | wakeword_detector.py:92 | A chunk produces events iff it contains a detection. A chunk whose scores are all at or below the threshold (equality included) produces none. |
| Dispatch.InvokeThenReset | wakeword_detector.py:95-102 | Every callback invocation is followed immediately by an engine reset. |
| Dispatch.OutcomesDoNotChangeDispatch | wakeword_detector.py:96-102 | Callback isolation. Once the raised/returned flags are forgotten, the trace is the one where every callback returns. A raising callback skips no reset and no later pair. |
| Dispatch.DispatchAppend | wakeword_detector.py:91-102 | The trace of a chunk is the trace of its first pairs followed by the trace of the rest. Pairs are handled independently, in order. |
| Dispatch.TwoHitsTwoResets | wakeword_detector.py:91-102 | Example: `alexa` 0.9 and `hey_companion` 0.6 at threshold 0.5, both registered. The trace invokes both callbacks in order, each followed by its own reset. |
| Lifecycle.RegisterCallback | wakeword_detector.py:58-67 | Registering maps the word to the new callback, keeps every other entry and adds no other key. Nothing else in the state changes. |
| Lifecycle.RegisterLastWriteWins | wakeword_detector.py:66 | Registering twice for one word gives the same state as registering only the second callback. |
| Lifecycle.OverwrittenCallbackNeverInvoked | wakeword_detector.py:95-97 | Take a callback that was overwritten and is not registered under any other word. The next processing step does not invoke it. |
| Lifecycle.UnregisteredNeverInvoked | wakeword_detector.py:95-97 | A callback registered under no wake word is never invoked during any run of operations that does not register it again. |
| Lifecycle.OverwrittenCallbackNeverInvokedInRun | wakeword_detector.py:58-97 | Take a callback that was overwritten and is not registered under any other word. No later operation of a run invokes it, unless the run registers it again. |
| Lifecycle.AudioCallback | wakeword_detector.py:69-73 | While listening, the chunk joins the back of the queue. Otherwise the state is unchanged. Only the queue can change. |
| Lifecycle.ProcessStep | wakeword_detector.py:79-107 | The loop exits iff not listening and times out iff the queue is empty. Both leave the state unchanged with no events. Otherwise exactly the head chunk is removed: dispatched by `DispatchTrace` on the callbacks, or, if prediction raised, dropped with no events. Only the queue changes. |
| Lifecycle.Start | wakeword_detector.py:109-132 | If already listening, nothing changes. Otherwise the detector ends up listening in every case. If the open succeeds, the stream is open and the thread running. If the open fails, only the flag changed and the device error is reported. |
| Lifecycle.Stop | wakeword_detector.py:134-155 | If not listening, nothing changes. Otherwise the detector ends up not listening, with an empty queue, no open stream and no running thread. A stream or thread that existed is closed or joined. Callbacks are kept. Closing the stream is taken to return (see "## Left out"). |
| Lifecycle.StartTwiceIsStartOnce | wakeword_detector.py:111-113 | After any `start`, a second `start` changes nothing and reports "already listening". |
| Lifecycle.StopTwiceIsStopOnce | wakeword_detector.py:136-137 | Stopping twice is stopping once. |
| Lifecycle.StartFailureBlocksRetry | wakeword_detector.py:111-126 | From a stopped, consistent state, a failed open leaves the detector listening, with no stream, and not Consistent. Every later `start` then reports "already listening" and changes nothing. |
| Lifecycle.StartChecked | wakeword_detector.py:109-130 | Corrected start. On a failed open the state is unchanged and the device error is reported. On success the detector is listening with the stream open and the thread running. |
| Lifecycle.StartCheckedRetries | wakeword_detector.py:109-130 | With the corrected start, a failed open leaves the detector stopped and Consistent, and a retry that opens the device starts it. |
| Lifecycle.ApplyKeepsInv | wakeword_detector.py:58-155 | Every operation (register, audio callback, processing step, either start, stop) keeps the invariant `Inv`. `Inv` means: a stopped detector has an empty queue, an open stream goes with a running thread, and both only while listening. |
| Lifecycle.RunKeepsInv | wakeword_detector.py:58-155 | `Inv` holds after any sequence of operations that starts from a state satisfying it. |
| Lifecycle.CheckedRunKeepsConsistent | wakeword_detector.py:109-155 | Take any run that uses only the corrected start. The stream is open and the thread running exactly while listening, throughout. |
| Lifecycle.ApplyIsFifo | wakeword_detector.py:69-82 | One operation other than `stop` on a listening detector keeps it listening. It changes the queue only by appending the delivered chunk or taking the head. |
| Lifecycle.RunIsFifo | wakeword_detector.py:69-82 | Take any run without `stop` on a listening detector. The chunks consumed, followed by those still queued, equal the initial queue followed by the chunks delivered. Every delivered chunk is consumed at most once, in arrival order, and none is lost. |
| Detector.WakeWordDetector.constructor | wakeword_detector.py:50-56 | A new detector is stopped, with an empty queue, no callbacks, and no stream or thread. It satisfies the invariant and is Consistent. |
| Detector.WakeWordDetector.RegisterCallback | wakeword_detector.py:58-67 | Updates the fields as `Lifecycle.RegisterCallback` and keeps the invariant. |
| Detector.WakeWordDetector.AudioCallback | wakeword_detector.py:69-73 | Updates the queue as `Lifecycle.AudioCallback`. Always returns the same data with the continue flag. |
| Detector.WakeWordDetector.ProcessStep | wakeword_detector.py:79-107 | Pops the head chunk in place and runs `DispatchChunk`. Outcome, trace and new fields are exactly those of `Lifecycle.ProcessStep`. |
| Detector.WakeWordDetector.Start | wakeword_detector.py:109-132 | Changes the fields and returns the result exactly as `Lifecycle.Start` says, flag first. |
| Detector.WakeWordDetector.StartChecked | wakeword_detector.py:109-130 | Changes the fields as `Lifecycle.StartChecked` says, and keeps the object Consistent. |
| Detector.WakeWordDetector.Stop | wakeword_detector.py:134-155 | Changes the fields as `Lifecycle.Stop` says. The draining loop empties the queue. |
| Detector.WakeWordDetector.Enter | wakeword_detector.py:157-160 | Entering the context is `Start`. |
| Detector.WakeWordDetector.Exit | wakeword_detector.py:162-164 | Leaving the context is always `Stop`. Afterwards the detector is not listening and the queue is empty. |

## Findings

| source | as written | input that shows it | evidently intended | confidence | as-written member | corrected member |
|---|---|---|---|---|---|---|
| wakeword_detector.py:116-126 | `is_listening = True` runs before `self.audio.open(...)`. When the open raises, the flag stays set, with no stream and no processing thread. | On a fresh detector, `start()` while the device cannot be opened, then `start()` with a working device. The second call logs a warning that the detector is already running and returns, so nothing ever listens until `stop()` is called. | A failed open leaves the detector stopped, so the caller can retry `start()` | not executed; follows directly from the statement order | Lifecycle.StartFailureBlocksRetry | Lifecycle.StartChecked |

`Detector.WakeWordDetector.Start` and `Enter` keep the as-written behaviour,
because that is what the system does. `Detector.WakeWordDetector.StartChecked`
and `Lifecycle.CheckedRunKeepsConsistent` show that the corrected start keeps
the lifecycle Consistent.

## Left out

- Threads and interleavings. The audio callback, the processing loop and the
  callers are modelled as atomic operations applied one after another
  (`Lifecycle.Run`). Races are not modelled, such as a chunk queued between the
  `is_listening = False` of `stop` and the drain.
- The whole `_process_audio` loop (wakeword_detector.py:79). It is modelled one
  iteration at a time (`ProcessStep`). In a sequential model only another
  thread's `stop` can end it.
- The 0.1 s poll timeout and the blocking `join` (wakeword_detector.py:82, 144).
  A timeout is the `TimedOut` outcome. Waiting is not modelled.
- Device I/O: the `pyaudio.PyAudio()` handle, the parameters passed to
  `audio.open`, `stop_stream` and `close` (wakeword_detector.py:50, 119-126,
  147-149). The stream is a three-valued state. The model treats closing a
  stream that was already closed (a failed start followed by `stop` after an
  earlier session) as leaving it closed.
- Lifecycle.Stop (and `Detector.WakeWordDetector.Stop` and `Exit`, which follow
  it) assumes `stream.stop_stream()` and `stream.close()` return. In the code a
  raise there (wakeword_detector.py:147-149) escapes `stop()`, and `__exit__`
  through it, with `is_listening` already False (line 140) and the queue not
  drained (lines 152-153). That state breaks the empty-queue part of
  `Lifecycle.Inv`, and the empty-queue results of `Stop` and `Exit` do not
  hold for it.
- `cleanup` and `audio.terminate()` (wakeword_detector.py:166-170). This is
  device release with no effect on the modelled state beyond `stop`.
- The inference engine: model construction, `predict` and `reset` internals
  (wakeword_detector.py:43-46, 88, 102). `np.frombuffer` (line 85) is not
  modelled either. Predictions are an input. A raise from conversion or
  prediction is the `PredictRaised` input. `reset` is the `Reset` event.
- `reset()` raising. The model assumes it returns. In the code it would skip
  the rest of the chunk's pairs through the handler at wakeword_detector.py:106.
- A callback raising an exception that does not derive from `Exception`
  (such as `KeyboardInterrupt`). It would escape the handler at
  wakeword_detector.py:98 and end the processing thread.
- Constructor configuration other than the threshold (whose default, 0.25, the
  constructor keeps): model names, inference
  framework, chunk size, sample rate, channels and logger
  (wakeword_detector.py:13-46). These only reach the device and the engine.
- Logging. It has no effect on the state.
- Scores and the threshold are `real`. Floating-point rounding is not modelled.
  Only the strict comparison matters.
- Callbacks are opaque identifiers. Their side effects are not modelled. Only
  whether each one raised is modelled. One consequence: the code looks up
  `self.callbacks` afresh for each pair (wakeword_detector.py:95-97), so a
  callback that calls `register_callback` changes how the rest of the same chunk
  is dispatched. The model dispatches the whole chunk against the callbacks
  registered when the step began.
- `__enter__` returns the detector itself. `Enter` returns the start result
  instead. When `start` raises inside `__enter__`, the `with` body and
  `__exit__` do not run. The caller sees `DeviceError` and decides.
- main.py, the demonstration program (model download, example actions, sleep
  loop). It is not part of this model.
