/**
  `Map` (seq/map.go): workers pull items under a mutex and enqueue, still holding it,
  one single-slot result channel per item; a consumer drains the channels in order.
  The result channel of item i is known by i.
 */
module OrderedMap {
  import opened Options
  import opened SeqStopper

  /** The element type of the input sequence, and what a callback returns. */
  type Item(!new)
  type Result(!new)

  /** `panics` says how the input iterator ends after its items: it panics, or returns. */
  datatype Input = Input(items: seq<Item>, panics: bool, fn: (nat, Item) -> Result, workers: nat,
                         handler: Handler)

  datatype Worker =
    | NotStarted
    | Refused                              // Go reported ErrStopped
    | Top                                  // the head of the loop
    | Locking
    | Holding(i: nat, item: nat)           // holds the mutex, at the select; item is a position
    | Release(i: nat, item: nat, ok: bool) // holds the mutex, past the select
    | Empty                                // holds the mutex, nothing was left
    | Calling(i: nat, item: nat)
    | Sending(i: nat, r: Result)
    | Failed(fault: Fault)                 // the task ended with an error: the handler is called
    | Halting                              // the handler has recorded it and calls Stop
    | Leaving                              // the task has returned
    | Exited                               // and has been released

  datatype Consumer =
    | Setup
    | Spawning(k: nat)
    | CallIdle
    | Receiving
    | Waiting(i: nat)
    | Yielding(i: nat, r: Result)
    | WaitDone
    | Breaking
    | Stopping
    | Unpull
    | Finished

  /** `iter.Pull` over the input, the shared index, and the mutex over both. */
  datatype Puller = Puller(idx: nat, pos: nat, closed: bool, mutex: Option<nat>)

  /** The results channel, the single-slot channels and the early-break channel. */
  datatype Channels = Channels(queue: seq<nat>, slots: map<nat, Result>, closed: bool, earlyBreak: bool)

  /** What Wait returns when it is not nil. */
  datatype Report = Report(errs: seq<Fault>, grace: bool)

  /** What has happened; no step depends on it.  `faults` are all errors so far, whether or
      not they were recorded; user errors count, here and in `added`, only until Wait has
      returned. */
  datatype History = History(sent: seq<nat>, dropped: nat,
                             cancelled: bool, broke: bool, threw: bool, expired: bool,
                             refused: bool, added: bool, failed: bool, faults: multiset<Fault>)

  datatype World = World(pull: Puller, chans: Channels, nested: Nested,
                         workers: seq<Worker>, consumer: Consumer,
                         yielded: seq<(nat, Result)>, extra: Option<Report>, hist: History)

  datatype Select = SelSend | SelBreak | SelDone

  datatype Label =
    | Work(w: nat, sel: Select)
    | Consume(ans: Answer)        // matters only when a result is yielded
    | Finish                      // the deferred close, then the cancel
    | EnvStop                     // someone calls Stop on the nested stopper
    | EnvParentStop               // an ancestor starts to refuse tasks
    | EnvCancel(grace: bool)      // the enclosing context is cancelled, perhaps by an expired grace
    | EnvExpire                   // the grace period of a stop expires
    | EnvError                    // user code adds an error

  predicate Internal(l: Label) {
    l.Work? || l.Consume? || l.Finish?
  }

  predicate Active(w: Worker) {
    !w.NotStarted? && !w.Refused? && !w.Exited?
  }

  /** The tasks that the nested stopper still counts. */
  function Live(workers: seq<Worker>): nat {
    if workers == [] then 0
    else Live(workers[..|workers| - 1]) + (if Active(workers[|workers| - 1]) then 1 else 0)
  }

  function Init(n: nat): World {
    World(Puller(0, 0, false, None), Channels([], map[], false, false),
          Nested(false, false, false, Armed, false, false, false, false, []),
          seq(n, _ => NotStarted), Setup, [], None,
          History([], 0, false, false, false, false, false, false, false, multiset{}))
  }

  predicate WorkEnabled(input: Input, s: World, w: nat, sel: Select) {
    && w < |s.workers| && Active(s.workers[w])
    && (s.workers[w].Locking? ==> s.pull.mutex.None?)
    && (s.workers[w].Calling? ==> s.workers[w].item < |input.items|)
    && (s.workers[w].Holding? ==> SelectReady(s, input.workers, sel))
  }

  /** A send on a closed channel is ready too: it panics. */
  predicate SelectReady(s: World, cap: nat, sel: Select) {
    match sel
    case SelSend => s.chans.closed || |s.chans.queue| < cap
    case SelBreak => s.chans.earlyBreak
    case SelDone => s.nested.ctxDone
  }

  function Unlock(p: Puller): Puller {
    p.(mutex := None)
  }

  /** The next pull panics, with the mutex locked. */
  predicate PullPanics(input: Input, p: Puller) {
    input.panics && !p.closed && p.pos >= |input.items|
  }

  /** `next` under the mutex: the puller and the worker's new state. */
  function Pull(input: Input, p: Puller, w: nat): (Puller, Worker) {
    var q := p.(mutex := Some(w), idx := p.idx + 1);
    if PullPanics(input, p) then (q, Failed(InputPanic))
    else if p.closed || p.pos >= |input.items| then (q, Empty)
    else (q.(pos := p.pos + 1), Holding(p.idx, p.pos))
  }

  /** The select on the results channel, the early break and the context. */
  function AtSelect(s: World, w: nat, i: nat, item: nat, sel: Select): World
    requires w < |s.workers|
  {
    var drop := s.hist.(dropped := s.hist.dropped + 1);
    if !sel.SelSend? then
      s.(workers := s.workers[w := Release(i, item, false)], hist := drop)
    else if s.chans.closed then
      // The panic is handled outside the loop: the task ends and the mutex stays locked.
      s.(workers := s.workers[w := Failed(SendPanic)], hist := Failure(drop, SendPanic))
    else
      s.(workers := s.workers[w := Release(i, item, true)],
         chans := s.chans.(queue := s.chans.queue + [i]),
         hist := s.hist.(sent := s.hist.sent + [i]))
  }

  function Become(s: World, w: nat, x: Worker): World
    requires w < |s.workers|
  {
    s.(workers := s.workers[w := x])
  }

  function Fail(s: World, w: nat, f: Fault): World
    requires w < |s.workers|
  {
    Become(s, w, Failed(f)).(hist := Failure(s.hist, f))
  }

  function Failure(h: History, f: Fault): History {
    h.(failed := true, faults := h.faults + multiset{f})
  }

  /** The worker's task has ended with an error or is being released. */
  predicate Ended(x: Worker) {
    x.Failed? || x.Halting? || x.Leaving?
  }

  /** A step of the worker's loop, other than its select. */
  function LoopStep(input: Input, s: World, w: nat, sel: Select): World
    requires WorkEnabled(input, s, w, sel) && !s.workers[w].Holding? && !Ended(s.workers[w])
  {
    match s.workers[w]
    case Top => if s.nested.ctxDone then Fail(s, w, ContextEnded) else Become(s, w, Locking)
    case Locking =>
      var r := Pull(input, s.pull, w);
      (if r.1.Failed? then Fail(s, w, r.1.fault) else Become(s, w, r.1)).(pull := r.0)
    case Release(i, item, ok) =>
      Become(s, w, if ok then Calling(i, item) else Leaving).(pull := Unlock(s.pull))
    case Empty => Become(s, w, Leaving).(pull := Unlock(s.pull))
    case Calling(i, item) => Become(s, w, Sending(i, input.fn(i, input.items[item])))
    case Sending(i, r) => Become(s, w, Top).(chans := s.chans.(slots := s.chans.slots[i := r]))
  }

  /** The error handler, its Stop, and the release of the task. */
  function EndStep(input: Input, s: World, w: nat): World
    requires w < |s.workers| && Ended(s.workers[w])
  {
    match s.workers[w]
    case Failed(f) =>
      var errs := if input.handler.HandlerOther? then s.nested.errs else s.nested.errs + [f];
      Become(s, w, if input.handler.HandlerStop? then Halting else Leaving).(nested := s.nested.(errs := errs))
    case Halting =>
      Become(s, w, Leaving).(nested := Settle(s.nested.(stopping := true), Live(s.workers)))
    case Leaving =>
      var u := Become(s, w, Exited);
      u.(nested := Settle(s.nested, Live(u.workers)))
  }

  function WorkStep(input: Input, s: World, w: nat, sel: Select): World
    requires WorkEnabled(input, s, w, sel)
  {
    var x := s.workers[w];
    if x.Holding? then AtSelect(s, w, x.i, x.item, sel)
    else if Ended(x) then EndStep(input, s, w)
    else LoopStep(input, s, w, sel)
  }

  predicate ConsumeEnabled(s: World) {
    match s.consumer
    case Receiving => s.chans.queue != [] || s.chans.closed
    case Waiting(i) => i in s.chans.slots
    case WaitDone => s.nested.ctxDone
    case Unpull => s.pull.mutex.None?
    case Finished => false
    case _ => true
  }

  function Spawn(s: World, k: nat): World {
    if k >= |s.workers| then s.(consumer := CallIdle)
    else if !s.nested.stopping && !s.nested.parentStopping then
      s.(workers := s.workers[k := Top], consumer := Spawning(k + 1))
    else s.(workers := s.workers[k := Refused], consumer := Spawning(k + 1),
            nested := s.nested.(errs := s.nested.errs + [StartRefused]),
            hist := s.hist.(refused := true, faults := s.hist.faults + multiset{StartRefused}))
  }

  function Register(s: World): World {
    // Defer keeps the close for the hard stop, or runs it at once.
    if s.nested.phase.Armed? then s.(nested := s.nested.(registered := true), consumer := Spawning(0))
    else s.(chans := s.chans.(closed := true), consumer := Spawning(0))
  }

  function Receive(s: World): World {
    if s.chans.queue != [] then
      s.(consumer := Waiting(s.chans.queue[0]), chans := s.chans.(queue := s.chans.queue[1..]))
    else s.(consumer := WaitDone)
  }

  /** An unwinding loop body leaves yieldOrdered, and so skips the early break. */
  function Yield(s: World, i: nat, r: Result, ans: Answer): World {
    var u := s.(yielded := s.yielded + [(i, r)]);
    match ans
    case More => u.(consumer := Receiving)
    case Enough => u.(consumer := Breaking, hist := s.hist.(broke := true))
    case Unwinds => u.(consumer := Stopping, hist := s.hist.(threw := true))
  }

  /** Wait joins the recorded errors and an expired grace period; only if there are any is
      the extra element yielded. */
  function WaitResult(n: Nested): Option<Report> {
    if n.errs == [] && !n.graceCause then None else Some(Report(n.errs, n.graceCause))
  }

  function ConsumeStep(s: World, ans: Answer): World
    requires ConsumeEnabled(s)
  {
    match s.consumer
    case Setup => Register(s)
    case Spawning(k) => Spawn(s, k)
    case CallIdle =>
      s.(nested := Settle(s.nested.(onIdle := true), Live(s.workers)), consumer := Receiving)
    case Receiving => Receive(s)
    case Waiting(i) => s.(consumer := Yielding(i, s.chans.slots[i]))
    case Yielding(i, r) => Yield(s, i, r, ans)
    case WaitDone => s.(consumer := Stopping, extra := WaitResult(s.nested))
    case Breaking => s.(consumer := Stopping, chans := s.chans.(earlyBreak := true))
    case Stopping =>
      s.(nested := Settle(s.nested.(stopping := true), Live(s.workers)), consumer := Unpull)
    case Unpull => s.(pull := s.pull.(closed := true), consumer := Finished)
    case Finished => s
  }

  /** The loop is over; what is left are the deferred calls. */
  predicate Ending(c: Consumer) {
    c.Stopping? || c.Unpull? || c.Finished?
  }

  function FinishStep(s: World): World {
    if s.nested.phase.Firing? then
      s.(nested := s.nested.(phase := Closing),
         chans := s.chans.(closed := s.chans.closed || s.nested.registered))
    else s.(nested := Cancelled(s.nested, s.nested.grace).(phase := Over))
  }

  predicate Enabled(input: Input, s: World, l: Label) {
    match l
    case Work(w, sel) => WorkEnabled(input, s, w, sel)
    case Consume(_) => ConsumeEnabled(s)
    case Finish => s.nested.phase.Firing? || s.nested.phase.Closing?
    case EnvExpire => s.nested.stopping && s.nested.phase.Armed?
    case _ => true
  }

  function EnvStep(s: World, l: Label): World {
    match l
    case EnvStop => s.(nested := Settle(s.nested.(stopping := true), Live(s.workers)))
    case EnvParentStop => s.(nested := s.nested.(parentStopping := true))
    case EnvCancel(grace) => s.(nested := Cancelled(s.nested, grace), hist := s.hist.(cancelled := true))
    case EnvExpire => s.(nested := s.nested.(phase := Firing, grace := true), hist := s.hist.(expired := true))
    case EnvError =>
      s.(nested := s.nested.(errs := s.nested.errs + [UserError]),
         hist := if Ending(s.consumer) then s.hist
                 else s.hist.(added := true, faults := s.hist.faults + multiset{UserError}))
    case _ => s
  }

  function Step(input: Input, s: World, l: Label): World
    requires Enabled(input, s, l)
  {
    match l
    case Work(w, sel) => WorkStep(input, s, w, sel)
    case Consume(ans) => ConsumeStep(s, ans)
    case Finish => FinishStep(s)
    case _ => EnvStep(s, l)
  }

  ghost predicate IsRun(input: Input, s: World, ls: seq<Label>, u: World)
    decreases |ls|
  {
    if ls == [] then s == u
    else Enabled(input, s, ls[0]) && IsRun(input, Step(input, s, ls[0]), ls[1..], u)
  }

  ghost predicate Reachable(input: Input, s: World) {
    exists ls :: IsRun(input, Init(input.workers), ls, s)
  }

  /** Nothing is left to do anywhere. */
  predicate Final(s: World) {
    s.consumer.Finished? && Live(s.workers) == 0 && s.nested.phase.Over?
  }
}
