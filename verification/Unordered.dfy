/**
  `MapUnordered` (seq/map.go) and `ForEach` (seq/each.go): workers pull items under a
  mutex and deliver each result as soon as they have it, over a bounded channel to a
  consumer, or to the stopper's list of errors.
 */
module Unordered {
  import opened Options
  import opened SeqStopper

  type Item(!new)
  type Result(==, !new)
  type Pair = (nat, Result)

  /** `collects` is ForEach: results are not sent, and the failing ones are recorded. */
  datatype Input = Input(items: seq<Item>, panics: bool, fn: (nat, Item) -> Result, failed: Result -> bool,
                         workers: nat, collects: bool, handler: Handler)

  datatype Worker =
    | NotStarted
    | Refused
    | Top
    | Pulling
    | Calling(i: nat, item: nat)
    | Sending(i: nat, r: Result)
    | Failed(fault: Fault)
    | Halting
    | Leaving
    | Exited

  /** The goroutine that runs the operator: the consumer of MapUnordered, the caller of ForEach. */
  datatype Consumer =
    | Setup
    | Spawning(k: nat)
    | CallIdle
    | Receiving
    | Yielding(y: Pair)
    | WaitDone
    | Breaking
    | Stopping
    | Unpull
    | Finished

  /** The section under the mutex is one step, unless the input panics and the mutex stays
      locked for good. */
  datatype Puller = Puller(idx: nat, pos: nat, closed: bool, jammed: bool)

  /** Results on their way: those delivered, in order of delivery, and dropped indices are
      history; what is delivered is queued and then yielded, or recorded if it failed. */
  datatype Output = Output(delivered: seq<Pair>, dropped: seq<nat>,
                           queue: seq<Pair>, yielded: seq<Pair>, errs: seq<Pair>,
                           closed: bool, earlyBreak: bool)

  /** What Wait returns when it is not nil: the recorded faults, the errors of failing items,
      an expired grace period, and for ForEach the error of its own context. */
  datatype Report = Report(faults: seq<Fault>, failures: seq<Pair>, grace: bool, outer: bool)

  /** What has happened; no step depends on it.  `faults` are all errors so far, whether or
      not they were recorded; user errors count, here and in `added`, only until Wait has
      returned. */
  datatype History = History(broke: bool, threw: bool, expired: bool,
                             refused: bool, added: bool, failed: bool, faults: multiset<Fault>)

  datatype World = World(pull: Puller, workers: seq<Worker>, consumer: Consumer, nested: Nested,
                         out: Output, report: Option<Report>,
                         cancelled: bool,    // the enclosing context is
                         hist: History)

  datatype Select = SelSend | SelBreak | SelDone

  datatype Label =
    | Work(w: nat, sel: Select)
    | Consume(ans: Answer)        // yield's answer; Enough also lets WaitCtx see its own context first
    | Finish
    | EnvStop
    | EnvParentStop
    | EnvCancel(grace: bool, reaches: bool)   // the enclosing context's Done closes first, then the nested one's
    | EnvExpire
    | EnvError

  predicate Internal(l: Label) {
    l.Work? || l.Consume? || l.Finish?
  }

  function Init(n: nat): World {
    World(Puller(0, 0, false, false), seq(n, _ => NotStarted), Setup,
          Nested(false, false, false, Armed, false, false, false, false, []),
          Output([], [], [], [], [], false, false), None, false,
          History(false, false, false, false, false, false, multiset{}))
  }

  predicate Active(x: Worker) {
    !x.NotStarted? && !x.Refused? && !x.Exited?
  }

  /** The tasks that the nested stopper still counts. */
  function Live(workers: seq<Worker>): nat {
    if workers == [] then 0
    else Live(workers[..|workers| - 1]) + (if Active(workers[|workers| - 1]) then 1 else 0)
  }

  predicate SelectReady(input: Input, s: World, sel: Select) {
    if input.collects then true
    else
      match sel
      case SelSend => s.out.closed || |s.out.queue| < input.workers
      case SelBreak => s.out.earlyBreak
      case SelDone => s.nested.ctxDone
  }

  predicate WorkEnabled(input: Input, s: World, w: nat, sel: Select) {
    && w < |s.workers| && Active(s.workers[w])
    && (s.workers[w].Pulling? ==> !s.pull.jammed)
    && (s.workers[w].Calling? ==> s.workers[w].item < |input.items|)
    && (s.workers[w].Sending? ==> SelectReady(input, s, sel))
  }

  predicate PullPanics(input: Input, p: Puller) {
    input.panics && !p.closed && p.pos >= |input.items|
  }

  /** `next` under the mutex: the puller and the worker's new state. */
  function Pull(input: Input, p: Puller): (Puller, Worker) {
    var q := p.(idx := p.idx + 1);
    if PullPanics(input, p) then (q.(jammed := true), Failed(InputPanic))
    else if p.closed || p.pos >= |input.items| then (q, Leaving)
    else (q.(pos := p.pos + 1), Calling(p.idx, p.pos))
  }

  /** Where a result goes: recorded by ForEach, sent, or dropped. */
  function Deliver(input: Input, out: Output, y: Pair, sends: bool): Output {
    if input.collects then
      out.(delivered := out.delivered + [y], errs := if input.failed(y.1) then out.errs + [y] else out.errs)
    else if sends then
      out.(delivered := out.delivered + [y], queue := out.queue + [y])
    else
      out.(dropped := out.dropped + [y.0])
  }

  function Become(s: World, w: nat, x: Worker): World
    requires w < |s.workers|
  {
    s.(workers := s.workers[w := x])
  }

  function Fail(s: World, w: nat, f: Fault): World
    requires w < |s.workers|
  {
    Become(s, w, Failed(f)).(hist := s.hist.(failed := true, faults := s.hist.faults + multiset{f}))
  }

  /** An early break ends the task, and so does the panic of a send on the closed channel; a
      cancelled context only unblocks it. */
  function SendStep(input: Input, s: World, w: nat, sel: Select): World
    requires w < |s.workers| && s.workers[w].Sending?
  {
    var sends := sel.SelSend? && !s.out.closed;
    var u :=
      if input.collects || sends || sel.SelDone? then Become(s, w, Top)
      else if sel.SelSend? then Fail(s, w, SendPanic)
      else Become(s, w, Leaving);
    u.(out := Deliver(input, s.out, (s.workers[w].i, s.workers[w].r), sends))
  }

  predicate Ended(x: Worker) {
    x.Failed? || x.Halting? || x.Leaving?
  }

  /** The error handler, its Stop, and the release of the task. */
  function EndStep(input: Input, s: World, w: nat): World
    requires w < |s.workers| && Ended(s.workers[w])
  {
    match s.workers[w]
    case Failed(f) =>
      var errs := if input.handler.HandlerOther? then s.nested.errs else s.nested.errs + [f];
      Become(s, w, if input.handler.HandlerStop? then Halting else Leaving).(nested := s.nested.(errs := errs))
    case Halting =>
      Become(s, w, Leaving).(nested := Settle(s.nested.(stopping := true), Live(s.workers)))
    case Leaving =>
      var u := Become(s, w, Exited);
      u.(nested := Settle(s.nested, Live(u.workers)))
  }

  function LoopStep(input: Input, s: World, w: nat): World
    requires w < |s.workers| && Active(s.workers[w])
    requires !s.workers[w].Sending? && !Ended(s.workers[w])
    requires s.workers[w].Calling? ==> s.workers[w].item < |input.items|
  {
    match s.workers[w]
    case Top => if s.nested.ctxDone then Fail(s, w, ContextEnded) else Become(s, w, Pulling)
    case Pulling =>
      var r := Pull(input, s.pull);
      (if r.1.Failed? then Fail(s, w, r.1.fault) else Become(s, w, r.1)).(pull := r.0)
    case Calling(i, item) => Become(s, w, Sending(i, input.fn(i, input.items[item])))
  }

  function WorkStep(input: Input, s: World, w: nat, sel: Select): World
    requires WorkEnabled(input, s, w, sel)
  {
    if s.workers[w].Sending? then SendStep(input, s, w, sel)
    else if Ended(s.workers[w]) then EndStep(input, s, w)
    else LoopStep(input, s, w)
  }

  predicate ConsumeEnabled(input: Input, s: World) {
    match s.consumer
    case Receiving => s.out.queue != [] || s.out.closed
    case WaitDone => s.nested.ctxDone || (input.collects && s.cancelled)
    case Unpull => !s.pull.jammed
    case Finished => false
    case _ => true
  }

  function Spawn(s: World, k: nat): World {
    if k >= |s.workers| then s.(consumer := CallIdle)
    else if !s.nested.stopping && !s.nested.parentStopping then
      s.(workers := s.workers[k := Top], consumer := Spawning(k + 1))
    else s.(workers := s.workers[k := Refused], consumer := Spawning(k + 1),
            nested := s.nested.(errs := s.nested.errs + [StartRefused]),
            hist := s.hist.(refused := true, faults := s.hist.faults + multiset{StartRefused}))
  }

  /** MapUnordered defers the close of its results; ForEach has none. */
  function Register(input: Input, s: World): World {
    var u := s.(consumer := Spawning(0));
    if input.collects then u
    else if s.nested.phase.Armed? then u.(nested := s.nested.(registered := true))
    else u.(out := s.out.(closed := true))
  }

  function Receive(s: World): World {
    if s.out.queue != [] then
      s.(consumer := Yielding(s.out.queue[0]), out := s.out.(queue := s.out.queue[1..]))
    else s.(consumer := WaitDone)
  }

  function Yield(s: World, y: Pair, ans: Answer): World {
    var u := s.(out := s.out.(yielded := s.out.yielded + [y]));
    match ans
    case More => u.(consumer := Receiving)
    case Enough => u.(consumer := Breaking, hist := s.hist.(broke := true))
    case Unwinds => u.(consumer := Stopping, hist := s.hist.(threw := true))
  }

  /** What Wait, or for ForEach WaitCtx, returns; None is nil. */
  function WaitResult(input: Input, s: World, ans: Answer): Option<Report> {
    var outer := input.collects && s.cancelled && (ans.Enough? || !s.nested.ctxDone);
    var grace := s.nested.graceCause && !outer;
    if s.nested.errs == [] && s.out.errs == [] && !grace && !outer then None
    else Some(Report(s.nested.errs, s.out.errs, grace, outer))
  }

  function ConsumeStep(input: Input, s: World, ans: Answer): World
    requires ConsumeEnabled(input, s)
  {
    match s.consumer
    case Setup => Register(input, s)
    case Spawning(k) => Spawn(s, k)
    case CallIdle =>
      s.(nested := Settle(s.nested.(onIdle := true), Live(s.workers)),
         consumer := if input.collects then WaitDone else Receiving)
    case Receiving => Receive(s)
    case Yielding(y) => Yield(s, y, ans)
    case WaitDone => s.(consumer := Stopping, report := WaitResult(input, s, ans))
    case Breaking => s.(consumer := Stopping, out := s.out.(earlyBreak := true))
    case Stopping =>
      s.(nested := Settle(s.nested.(stopping := true), Live(s.workers)), consumer := Unpull)
    case Unpull => s.(pull := s.pull.(closed := true), consumer := Finished)
    case Finished => s
  }

  /** The loop is over; what is left are the deferred calls. */
  predicate Ending(c: Consumer) {
    c.Stopping? || c.Unpull? || c.Finished?
  }

  function FinishStep(s: World): World {
    if s.nested.phase.Firing? then
      s.(nested := s.nested.(phase := Closing), out := s.out.(closed := s.out.closed || s.nested.registered))
    else s.(nested := Cancelled(s.nested, s.nested.grace).(phase := Over))
  }

  predicate Enabled(input: Input, s: World, l: Label) {
    match l
    case Work(w, sel) => WorkEnabled(input, s, w, sel)
    case Consume(_) => ConsumeEnabled(input, s)
    case Finish => s.nested.phase.Firing? || s.nested.phase.Closing?
    case EnvExpire => s.nested.stopping && s.nested.phase.Armed?
    case _ => true
  }

  function EnvStep(s: World, l: Label): World {
    match l
    case EnvStop => s.(nested := Settle(s.nested.(stopping := true), Live(s.workers)))
    case EnvParentStop => s.(nested := s.nested.(parentStopping := true))
    case EnvCancel(grace, reaches) =>
      s.(nested := if reaches then Cancelled(s.nested, grace) else s.nested, cancelled := true)
    case EnvExpire => s.(nested := s.nested.(phase := Firing, grace := true), hist := s.hist.(expired := true))
    case EnvError =>
      s.(nested := s.nested.(errs := s.nested.errs + [UserError]),
         hist := if Ending(s.consumer) then s.hist
                 else s.hist.(added := true, faults := s.hist.faults + multiset{UserError}))
    case _ => s
  }

  function Step(input: Input, s: World, l: Label): World
    requires Enabled(input, s, l)
  {
    match l
    case Work(w, sel) => WorkStep(input, s, w, sel)
    case Consume(ans) => ConsumeStep(input, s, ans)
    case Finish => FinishStep(s)
    case _ => EnvStep(s, l)
  }

  ghost predicate IsRun(input: Input, s: World, ls: seq<Label>, u: World)
    decreases |ls|
  {
    if ls == [] then s == u
    else Enabled(input, s, ls[0]) && IsRun(input, Step(input, s, ls[0]), ls[1..], u)
  }

  ghost predicate Reachable(input: Input, s: World) {
    exists ls :: IsRun(input, Init(input.workers), ls, s)
  }

  /** Nothing is left to do anywhere. */
  predicate Final(s: World) {
    s.consumer.Finished? && Live(s.workers) == 0 && s.nested.phase.Over?
  }
}
