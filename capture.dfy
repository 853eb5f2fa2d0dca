/**
 * Output capture around one test: `CaptureOutputFuture` points the
 * polling thread's output hook at its own buffer for the length of each poll of
 * the wrapped test future, turns a caught panic into an error, and hands
 * over (and empties) the buffer once the future is done. `Testable::run`
 * awaits it and folds a panic into the test's result.
 */
module Capture {
  import opened Wrappers
  import opened Failures

  /** `std::task::Poll`. */
  datatype Poll<T> = Pending | Ready(value: T)

  /**
   * One poll of the wrapped test future: the text it prints while being
   * polled, and how `catch_unwind` around the poll ends, with the inner
   * `Poll` or with the payload of a panic.
   */
  datatype Step<T> = Step(written: string, caught: Result<Poll<T>, Payload>)

  predicate IsPending<T>(step: Step<T>) {
    step.caught.Ok? && step.caught.value.Pending?
  }

  /** What a finished poll yields: the future's value, or the recovered panic. */
  function Settled<T>(caught: Result<Poll<T>, Payload>): (r: Result<T, CaughtPanic>)
    requires !(caught.Ok? && caught.value.Pending?)
    ensures r.Ok? <==> caught.Ok?
    ensures caught.Ok? ==> r.value == caught.value.value
    ensures caught.Err? ==> r.error == NewCaughtPanic(caught.error)
  {
    match caught
    case Ok(p) => Ok(p.value)
    case Err(payload) => Err(NewCaughtPanic(payload))
  }

  /** The shared buffer `Arc<Mutex<Vec<u8>>>` a capture future owns. */
  class Buffer {
    var bytes: string

    constructor ()
      ensures bytes == []
    {
      bytes := [];
    }

    method Append(s: string)
      modifies this
      ensures bytes == old(bytes) + s
    {
      bytes := bytes + s;
    }

    /** `std::mem::replace(buffer, Vec::new())`. */
    method Take() returns (taken: string)
      modifies this
      ensures taken == old(bytes) && bytes == []
    {
      taken := bytes;
      bytes := [];
    }
  }

  /**
   * The thread-local capture hook of `std::io::set_output_capture` on the
   * thread that polls the test, and the standard output that thread
   * prints to when no hook is installed.
   */
  class OutputCapture {
    var target: Buffer?
    var stdout: string

    constructor ()
      ensures target == null && stdout == []
    {
      target := null;
      stdout := [];
    }

    method SetOutputCapture(buffer: Buffer?)
      modifies this
      ensures target == buffer && stdout == old(stdout)
    {
      target := buffer;
    }

    /** A `print!`: it goes to the installed buffer if there is one, else to standard output. */
    method Write(s: string)
      modifies this, target
      ensures target == old(target)
      ensures old(target) == null ==> stdout == old(stdout) + s
      ensures old(target) != null ==> stdout == old(stdout) && target.bytes == old(target.bytes) + s
    {
      if target == null {
        stdout := stdout + s;
      } else {
        target.Append(s);
      }
    }
  }

  class CaptureOutputFuture<T> {
    const output: Buffer

    /** `CaptureOutputFuture::new`: a fresh, empty buffer. */
    constructor ()
      ensures fresh(output) && output.bytes == []
    {
      output := new Buffer();
    }

    /**
     * `poll`: install this future's buffer as the hook, poll the inner
     * future under `catch_unwind`, remove the hook, then either stay
     * pending with the buffer kept, or finish with the value (or the
     * recovered panic) and everything the buffer holds, leaving it empty.
     */
    method Poll(hook: OutputCapture, step: Step<T>) returns (r: Poll<(Result<T, CaughtPanic>, string)>)
      modifies hook, output
      ensures hook.target == null && hook.stdout == old(hook.stdout)
      ensures IsPending(step) ==> r == Pending && output.bytes == old(output.bytes) + step.written
      ensures !IsPending(step) ==>
        r == Ready((Settled(step.caught), old(output.bytes) + step.written)) && output.bytes == []
    {
      hook.SetOutputCapture(output);
      hook.Write(step.written);
      hook.SetOutputCapture(null);
      match step.caught {
        case Ok(Pending) =>
          r := Pending;
        case Ok(Ready(value)) =>
          var drained := output.Take();
          r := Ready((Ok(value), drained));
        case Err(payload) =>
          var drained := output.Take();
          r := Ready((Err(NewCaughtPanic(payload)), drained));
      }
    }
  }

  /** A run of polls that the future answers `Pending` until its last one, which finishes it. */
  predicate Completes<T>(steps: seq<Step<T>>) {
    && |steps| > 0
    && !IsPending(steps[|steps| - 1])
    && forall i :: 0 <= i < |steps| - 1 ==> IsPending(steps[i])
  }

  /** Everything the future printed over a run of polls, in order. */
  function Written<T>(steps: seq<Step<T>>): string {
    if steps == [] then [] else Written(steps[..|steps| - 1]) + steps[|steps| - 1].written
  }

  /**
   * `.await` on a fresh capture future: poll it until it is ready. The
   * result is the final poll's value and the output is exactly what the
   * test printed across all its polls; nothing reaches standard output and
   * the hook is left removed.
   */
  method Await<T>(hook: OutputCapture, steps: seq<Step<T>>) returns (value: Result<T, CaughtPanic>, output: string)
    requires Completes(steps)
    modifies hook
    ensures hook.target == null && hook.stdout == old(hook.stdout)
    ensures value == Settled(steps[|steps| - 1].caught)
    ensures output == Written(steps)
  {
    var future := new CaptureOutputFuture<T>();
    var i := 0;
    var r: Poll<(Result<T, CaughtPanic>, string)> := Pending;
    while r.Pending?
      invariant 0 <= i <= |steps|
      invariant fresh(future.output)
      invariant hook.stdout == old(hook.stdout)
      invariant i > 0 ==> hook.target == null
      invariant r.Pending? ==> i < |steps| && future.output.bytes == Written(steps[..i])
      invariant r.Ready? ==> i == |steps| && r.value == (Settled(steps[|steps| - 1].caught), Written(steps))
      decreases |steps| - i
    {
      assert steps[..i + 1][..i] == steps[..i];
      r := future.Poll(hook, steps[i]);
      i := i + 1;
      assert i == |steps| ==> steps[..i] == steps;
    }
    value, output := r.value.0, r.value.1;
  }

  /** `Testable::run`'s last step: a caught panic becomes the test's error; the output is passed on as it is. */
  function RunOutcome(value: Result<Result<(), Error>, CaughtPanic>, output: string): (r: (Result<(), Error>, string))
    ensures r.1 == output
    ensures value.Ok? ==> r.0 == value.value
    ensures value.Err? ==> r.0 == Err(Panic(value.error))
  {
    match value
    case Ok(result) => (result, output)
    case Err(caught) => (Err(Panic(caught)), output)
  }

  /** `Testable::run`: await the captured test future and fold a panic into its result. */
  method RunTestable(hook: OutputCapture, steps: seq<Step<Result<(), Error>>>) returns (result: Result<(), Error>, output: string)
    requires Completes(steps)
    modifies hook
    ensures hook.target == null && hook.stdout == old(hook.stdout)
    ensures (result, output) == RunOutcome(Settled(steps[|steps| - 1].caught), Written(steps))
  {
    var value, captured := Await(hook, steps);
    var outcome := RunOutcome(value, captured);
    result, output := outcome.0, outcome.1;
  }

  lemma {:induction false} WrittenNothing<T>(steps: seq<Step<T>>)
    requires forall i :: 0 <= i < |steps| ==> steps[i].written == []
    ensures Written(steps) == []
  {
    if steps != [] {
      WrittenNothing(steps[..|steps| - 1]);
    }
  }

  /** A test that prints nothing and returns `Ok` passes with an empty output. */
  lemma SilentPass(steps: seq<Step<Result<(), Error>>>)
    requires Completes(steps)
    requires forall i :: 0 <= i < |steps| ==> steps[i].written == []
    requires steps[|steps| - 1].caught == Ok(Ready(Ok(())))
    ensures RunOutcome(Settled(steps[|steps| - 1].caught), Written(steps)) == (Ok(()), [])
  {
    WrittenNothing(steps);
  }

  /**
   * A test that panics fails, and its error reads the panic's message, or
   * "Unknown error" for a payload that is not a string; everything written
   * to its buffer across its polls is kept.
   */
  lemma PanicFails(steps: seq<Step<Result<(), Error>>>)
    requires Completes(steps)
    requires steps[|steps| - 1].caught.Err?
    ensures var r := RunOutcome(Settled(steps[|steps| - 1].caught), Written(steps));
      var p := steps[|steps| - 1].caught.error;
      && r.0.Err?
      && r.1 == Written(steps)
      && ErrorText(r.0.error, true) == (if p.OtherPayload? then "Unknown error" else p.text)
  {
    PanicMessageShown(steps[|steps| - 1].caught.error, true);
  }
}
