/**
  The nested stopper that the sequence operators run their workers on, as far as the
  operators use it.
 */
module SeqStopper {
  /** `ErrorHandlerStop` records a task's error and stops, `ErrorHandlerRecord` records it,
      any other handler is taken to do neither. */
  datatype Handler = HandlerStop | HandlerRecord | HandlerOther

  /** The errors that reach the nested stopper: Go refused a worker; a worker found its
      context done; it sent on the closed channel; its pull panicked; user code added one. */
  datatype Fault = StartRefused | ContextEnded | SendPanic | InputPanic | UserError

  /** The nested stopper's own hard stop: not taken, close due, cancel due, done. */
  datatype Phase = Armed | Firing | Closing | Over

  datatype Nested = Nested(stopping: bool, parentStopping: bool, onIdle: bool,
                           phase: Phase, registered: bool,
                           grace: bool,        // the hard stop was taken by an expired grace period
                           ctxDone: bool,
                           graceCause: bool,   // the context's cause is an expired grace period
                           errs: seq<Fault>)

  /** A stopper that is stopping, or stops when idle, takes its cancel at zero tasks. */
  function Settle(n: Nested, live: nat): Nested {
    if (n.stopping || n.onIdle) && n.phase.Armed? && live == 0
    then n.(stopping := true, phase := Firing)
    else n
  }

  /** The first cancellation of a context gives its cause. */
  function Cancelled(n: Nested, grace: bool): Nested {
    if n.ctxDone then n else n.(ctxDone := true, graceCause := grace)
  }

  /** How the body of the caller's loop ends: it goes on, breaks, or unwinds the stack by a
      panic or Goexit. */
  datatype Answer = More | Enough | Unwinds
}
