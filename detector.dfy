/**
 * The wake-word detector object. Its fields are the ones the processing code
 * updates in place; every method is proved to move the object exactly as the
 * corresponding transition of module Lifecycle moves its abstract state, and to
 * keep the object invariant Lifecycle.Inv.
 */
module Detector {
  import opened Dispatch
  import L = Lifecycle

  /** The status the audio callback returns to the audio subsystem (`paContinue`). */
  datatype StreamFlag = Continue

  class WakeWordDetector {
    const threshold: real
    var isListening: bool
    var audioQueue: seq<L.Chunk>
    var callbacks: map<Word, ActionId>
    var stream: L.StreamState
    var processingThread: L.ThreadState

    /** The object's fields as an abstract state. */
    function Snapshot(): L.State
      reads this
    {
      L.State(isListening, audioQueue, callbacks, stream, processingThread)
    }

    ghost predicate Valid()
      reads this
    {
      L.Inv(Snapshot())
    }

    constructor (threshold: real := 0.25)
      ensures Valid() && L.Consistent(Snapshot())
      ensures this.threshold == threshold && Snapshot() == L.Initial()
    {
      this.threshold := threshold;
      isListening := false;
      audioQueue := [];
      callbacks := map[];
      stream := L.NoStream;
      processingThread := L.NoThread;
    }

    method RegisterCallback(wakeword: Word, callback: ActionId)
      requires Valid()
      modifies this
      ensures Valid()
      ensures Snapshot() == L.RegisterCallback(old(Snapshot()), wakeword, callback)
    {
      callbacks := callbacks[wakeword := callback];
    }

    /** Runs on the audio subsystem's thread: enqueue only while listening, and
        always hand the data back with the continue flag. */
    method AudioCallback(inData: L.Chunk) returns (outData: L.Chunk, flag: StreamFlag)
      requires Valid()
      modifies this
      ensures Valid()
      ensures Snapshot() == L.AudioCallback(old(Snapshot()), inData)
      ensures outData == inData && flag == Continue
    {
      if isListening {
        audioQueue := audioQueue + [inData];
      }
      outData, flag := inData, Continue;
    }

    /** One iteration of the processing thread's loop, with `predictions` standing
        for what the inference engine returns on the popped chunk. */
    method ProcessStep(predictions: L.Prediction, raises: seq<bool>) returns (outcome: L.StepOutcome, trace: seq<Event>)
      requires Valid() && L.WellFormed(predictions, raises)
      modifies this
      ensures Valid()
      ensures L.StepResult(Snapshot(), outcome, trace) == L.ProcessStep(old(Snapshot()), threshold, predictions, raises)
    {
      if !isListening {
        return L.LoopExited, [];
      }
      if audioQueue == [] {
        return L.TimedOut, [];
      }
      var audioData := audioQueue[0];
      audioQueue := audioQueue[1..];
      match predictions
      case PredictRaised =>
        outcome, trace := L.PredictFailed(audioData), [];
      case Scores(pairs) =>
        trace := DispatchChunk(pairs, raises, callbacks, threshold);
        outcome := L.Processed(audioData);
    }

    /** `start`: the listening flag goes up before the device is opened. */
    method Start(openSucceeds: bool) returns (result: L.StartResult)
      requires Valid()
      modifies this
      ensures Valid()
      ensures L.StartReturn(Snapshot(), result) == L.Start(old(Snapshot()), openSucceeds)
    {
      if isListening {
        return L.AlreadyListening;
      }
      isListening := true;
      if !openSucceeds {
        return L.DeviceError;
      }
      stream := L.StreamOpen;
      processingThread := L.ThreadRunning;
      result := L.Started;
    }

    /** `start` with the flag raised only once the device has opened: keeps the
        lifecycle Consistent, so a failed open can be retried. */
    method StartChecked(openSucceeds: bool) returns (result: L.StartResult)
      requires Valid()
      modifies this
      ensures Valid()
      ensures L.StartReturn(Snapshot(), result) == L.StartChecked(old(Snapshot()), openSucceeds)
      ensures old(L.Consistent(Snapshot())) ==> L.Consistent(Snapshot())
    {
      if isListening {
        return L.AlreadyListening;
      }
      if !openSucceeds {
        return L.DeviceError;
      }
      isListening := true;
      stream := L.StreamOpen;
      processingThread := L.ThreadRunning;
      result := L.Started;
    }

    /** `stop`: lower the flag, join the thread, close the stream, drain the queue. */
    method Stop()
      requires Valid()
      modifies this
      ensures Valid()
      ensures Snapshot() == L.Stop(old(Snapshot()))
    {
      if !isListening {
        return;
      }
      isListening := false;
      if processingThread != L.NoThread {
        processingThread := L.ThreadJoined;
      }
      if stream != L.NoStream {
        stream := L.StreamClosed;
      }
      while audioQueue != []
        invariant Snapshot().(queue := []) == L.Stop(old(Snapshot()))
        decreases |audioQueue|
      {
        audioQueue := audioQueue[1..];
      }
    }

    /** Entering a `with` block starts the detector. */
    method Enter(openSucceeds: bool) returns (result: L.StartResult)
      requires Valid()
      modifies this
      ensures Valid()
      ensures L.StartReturn(Snapshot(), result) == L.Start(old(Snapshot()), openSucceeds)
    {
      result := Start(openSucceeds);
    }

    /** Leaving a `with` block, normally or by an exception, stops the detector. */
    method Exit()
      requires Valid()
      modifies this
      ensures Valid()
      ensures Snapshot() == L.Stop(old(Snapshot()))
      ensures !isListening && audioQueue == []
    {
      Stop();
    }
  }
}
