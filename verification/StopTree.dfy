/**
  The stop/count protocol over a growing tree of states, as a small-step system.

  A thread is the list of actions it still has to perform, first action first.  Each
  action is one critical section of one node, or one return of user code, so a step
  replaces the first action of one thread by the actions it leads to.  `Apply` spans
  several actions: fast checks from the node up to the root, then one locked section
  per node from the root down; an unwind or a release is again root-first.
 */
module StopTree {
  import opened Options
  import opened StateNode

  datatype Handler = HandlerStop | HandlerRecord | HandlerOther

  /** How a task was started: `Call` runs it on the caller's thread and returns its
      error; `Go` gives it a thread of its own and an error handler. */
  datatype Mode = Call | Go(handler: Handler)

  datatype Action =
    // Apply(+1): check the flag of path[k-1], then of its ancestors.
    | Check(k: nat, path: seq<NodeId>, mode: Mode)
    // Apply(+1): `done` has been incremented, todo[0] is locked next.
    | Inc(done: seq<NodeId>, todo: seq<NodeId>, mode: Mode)
    // The task itself; path runs from the root to the node that accepted it.
    | Body(path: seq<NodeId>, mode: Mode)
    // The error handler of a `Go` task, before it records the error.
    | Handle(path: seq<NodeId>, err: Error, stops: bool)
    // Apply(-1): todo[0] is decremented next.
    | Dec(todo: seq<NodeId>)
    | Stop(n: NodeId, grace: int)
    | Idle(n: NodeId, grace: int)
    // A grace timer with this deadline has fired and waits for the lock.
    | Expire(n: NodeId, deadline: int)
    | Hooks(n: NodeId, hooks: map<NodeId, int>)
    // An accepted callback: due, running, returned.
    | Due(n: NodeId, cb: Callback)
    | Running(n: NodeId, cb: Callback)
    | Returned(n: NodeId, cb: Callback, result: Option<Error>)
    // The cancel function: due; detaching from the parent; cancelling the context.
    | Cancel(n: NodeId, cause: Cause)
    | DetachCheck(p: NodeId, child: NodeId)
    | Detach(p: NodeId, child: NodeId)
    | CancelCtx(n: NodeId, cause: Cause)
    | Defer(n: NodeId, cb: Callback)
    // A callback that AddDeferred did not accept, running at once.
    | RunNow(n: NodeId)
    | Report(n: NodeId, err: Error)
    | Attach(p: NodeId, child: NodeId, grace: int)

  /** One completed item of a node's hard stop. */
  datatype Item = Ran(cb: Callback) | Cancelled(cause: Cause)

  /** What has happened to a node; no action depends on it. */
  datatype History = History(
    accepted: seq<Callback>,      // deferred before the hard stop
    late: seq<Callback>,          // deferred after it
    trace: seq<Item>,             // completed items of the hard stop
    runner: nat,                  // the thread that took the cancel
    cause: Option<Cause>,
    outstanding: int,             // the count when the cancel was taken
    hardAt: int,                  // the time when the cancel was taken
    received: seq<Error>,         // handed to an error handler or returned by an accepted callback
    since: int,                   // the time of the first of these:
    deadlines: seq<int>,          // call time plus grace of soft stops with live tasks, before the hard stop
    timers: set<int>,             // deadlines of all timers ever started
    rushed: bool)                 // some soft stop with live tasks had no grace

  datatype Cell = Cell(node: Node, hist: History)

  /** Choices left open by the program: the iteration order of a hook map, the result
      of user code, and whether the cleanup already sees the function that detaches it
      from the parent. */
  datatype Choice = Choice(order: seq<NodeId>, err: Option<Error>, detach: bool)

  datatype Effect = Effect(cell: Cell, push: seq<Action>, spawn: seq<Action>, panicked: bool)

  datatype State = State(cells: seq<Cell>, threads: seq<seq<Action>>, now: int, panicked: bool)

  datatype Api =
    | ApiRun(n: NodeId, mode: Mode)
    | ApiStop(n: NodeId, grace: int)
    | ApiIdle(n: NodeId, grace: int)
    | ApiDefer(n: NodeId, cb: Callback)
    | ApiError(n: NodeId, err: Error)
    | ApiNew(parent: Option<NodeId>, grace: int)

  datatype Label =
    | Run(t: nat, choice: Choice)
    | CallApi(t: nat, api: Api)
    | NewThread
    | Tick(later: int)
    | Fire(n: NodeId, deadline: int)

  function Target(a: Action): NodeId
    requires a.Check? ==> 1 <= a.k <= |a.path|
    requires a.Inc? || a.Dec? ==> a.todo != []
    requires a.Body? || a.Handle? ==> a.path != []
  {
    match a
    case Check(k, path, _) => path[k - 1]
    case Inc(_, todo, _) => todo[0]
    case Body(path, _) => path[|path| - 1]
    case Handle(path, _, _) => path[|path| - 1]
    case Dec(todo) => todo[0]
    case Stop(n, _) => n
    case Idle(n, _) => n
    case Expire(n, _) => n
    case Hooks(n, _) => n
    case Due(n, _) => n
    case Running(n, _) => n
    case Returned(n, _, _) => n
    case Cancel(n, _) => n
    case DetachCheck(p, _) => p
    case Detach(p, _) => p
    case CancelCtx(n, _) => n
    case Defer(n, _) => n
    case RunNow(n) => n
    case Report(n, _) => n
    case Attach(p, _, _) => p
  }

  predicate Shaped(a: Action) {
    && (a.Check? ==> 1 <= a.k <= |a.path|)
    && (a.Inc? || a.Dec? ==> a.todo != [])
    && (a.Body? || a.Handle? ==> a.path != [])
  }

  /** The actions of a work list, last job first. */
  function Backwards(n: NodeId, jobs: seq<Job>): seq<Action> {
    JobActions(n, Reversed(jobs))
  }

  function JobActions(n: NodeId, jobs: seq<Job>): seq<Action> {
    if jobs == [] then []
    else JobActions(n, jobs[..|jobs| - 1]) + JobAction(n, jobs[|jobs| - 1])
  }

  function JobAction(n: NodeId, job: Job): seq<Action> {
    match job
    case RunHooks(hooks) => [Hooks(n, hooks)]
    case RunCancel(cause) => [Cancel(n, cause)]
    case RunCallback(cb) => [Due(n, cb)]
    case Unwind(_) => []
  }

  function Stops(hooks: map<NodeId, int>, order: seq<NodeId>): seq<Action>
    requires forall c :: c in order ==> c in hooks
  {
    seq(|order|, i requires 0 <= i < |order| => Stop(order[i], hooks[order[i]]))
  }

  predicate ValidOrder(hooks: map<NodeId, int>, order: seq<NodeId>) {
    && |order| == |hooks|
    && (forall c :: c in hooks ==> c in order)
    && (forall c :: c in order ==> c in hooks)
  }

  predicate Allowed(a: Action, ch: Choice) {
    a.Hooks? ==> ValidOrder(a.hooks, ch.order)
  }

  /** The history after a stopping section with this outcome. */
  function Note(h: History, out: Outcome, now: int, t: nat): History {
    if out.hard.None? then h
    else h.(cause := out.hard, outstanding := out.node.count, hardAt := now, runner := t)
  }

  /** The history after a soft stop was asked for. */
  function NoteSoft(h: History, n: Node, out: Outcome, grace: int, now: int, t: nat): History {
    var g := Note(h, out, now, t);
    var timers := if out.node.timer.Some? then h.timers + {out.node.timer.value} else h.timers;
    if !n.armed || n.count == 0 then g.(timers := timers)
    else if grace <= 0 then g.(timers := timers, rushed := true)
    else g.(timers := timers, since := if h.deadlines == [] then now else h.since,
            deadlines := h.deadlines + [now + grace])
  }

  function Stopped(out: Outcome, h: History, n: NodeId, then_: seq<Action>): Effect {
    Effect(Cell(out.node, h), Backwards(n, out.jobs) + then_, [], false)
  }

  function After(todo: seq<NodeId>): seq<Action> {
    if |todo| > 1 then [Dec(todo[1..])] else []
  }

  function ExecInc(a: Action, c: Cell, now: int): Effect
    requires a.Inc? && a.todo != []
  {
    var r := ApplyLocked(c.node, 1, now);
    var path := a.done + [a.todo[0]];
    if !r.ok then
      // The unwind is Apply(-1) on the parent: root-first over what was incremented.
      Effect(Cell(r.out.node, c.hist), if r.out.jobs == [] then [] else [Dec(a.done)], [], false)
    else if |a.todo| > 1 then
      Effect(Cell(r.out.node, c.hist), [Inc(path, a.todo[1..], a.mode)], [], false)
    else if a.mode.Call? then
      Effect(Cell(r.out.node, c.hist), [Body(path, a.mode)], [], false)
    else
      Effect(Cell(r.out.node, c.hist), [], [Body(path, a.mode)], false)
  }

  function ExecDec(a: Action, c: Cell, now: int, t: nat): Effect
    requires a.Dec? && a.todo != []
  {
    var r := ApplyLocked(c.node, -1, now);
    Stopped(r.out, Note(c.hist, r.out, now, t), a.todo[0], After(a.todo))
      .(panicked := r.overReleased)
  }

  function ExecBody(a: Action, c: Cell, ch: Choice): Effect
    requires a.Body? && a.path != []
  {
    if a.mode.Call? || ch.err.None? || a.mode.handler.HandlerOther? then
      Effect(c, [Dec(a.path)], [], false)
    else
      Effect(Cell(c.node, c.hist.(received := c.hist.received + [ch.err.value])),
             [Handle(a.path, ch.err.value, a.mode.handler.HandlerStop?)], [], false)
  }

  /** The default handler stops with the grace period that the node is configured with. */
  function ExecHandle(a: Action, c: Cell): Effect
    requires a.Handle? && a.path != []
  {
    var stop := if a.stops then [Stop(a.path[|a.path| - 1], c.node.grace)] else [];
    Effect(Cell(AddError(c.node, a.err), c.hist), stop + [Dec(a.path)], [], false)
  }

  function ExecReturned(a: Action, c: Cell): Effect
    requires a.Returned?
  {
    var node := if a.result.Some? then AddError(c.node, a.result.value) else c.node;
    Effect(Cell(node, c.hist.(trace := c.hist.trace + [Ran(a.cb)])), [], [], false)
  }

  function ExecRunning(a: Action, c: Cell, ch: Choice): Effect
    requires a.Running?
  {
    var received := if ch.err.Some? then c.hist.received + [ch.err.value] else c.hist.received;
    Effect(Cell(c.node, c.hist.(received := received)), [Returned(a.n, a.cb, ch.err)], [], false)
  }

  function ExecDefer(a: Action, c: Cell): Effect
    requires a.Defer?
  {
    if DefersNothing(c.node) then Effect(c, [RunNow(a.n)], [], false)
    else
      var h := if c.node.armed then c.hist.(accepted := c.hist.accepted + [a.cb])
               else c.hist.(late := c.hist.late + [a.cb]);
      Effect(Cell(AddDeferred(c.node, a.cb), h), [], [], false)
  }

  function ExecCancel(a: Action, c: Cell, ch: Choice): Effect
    requires a.Cancel?
  {
    var detach := if c.node.parent.Some? && ch.detach
                  then [DetachCheck(c.node.parent.value, a.n)] else [];
    Effect(c, detach + [CancelCtx(a.n, a.cause)], [], false)
  }

  /** One action of thread t on the cell of its target. */
  function Exec(a: Action, c: Cell, now: int, t: nat, ch: Choice): Effect
    requires Shaped(a) && Allowed(a, ch)
  {
    match a
    case Check(k, path, mode) =>
      Effect(c, if c.node.stopping then []
                else if k > 1 then [Check(k - 1, path, mode)]
                else [Inc([], path, mode)], [], false)
    case Inc(_, _, _) => ExecInc(a, c, now)
    case Body(_, _) => ExecBody(a, c, ch)
    case Handle(_, _, _) => ExecHandle(a, c)
    case Dec(_) => ExecDec(a, c, now, t)
    case Stop(n, grace) =>
      var out := SoftStop(c.node, grace, now);
      Stopped(out, NoteSoft(c.hist, c.node, out, grace, now, t), n, [])
    case Idle(n, grace) =>
      var out := StopOnIdle(c.node, grace, now);
      Stopped(out, Note(c.hist, out, now, t), n, [])
    case Expire(n, _) =>
      var out := HardStop(c.node, ErrGracePeriodExpired);
      Stopped(out, Note(c.hist, out, now, t), n, [])
    case Hooks(_, hooks) => Effect(c, Stops(hooks, ch.order), [], false)
    case Due(n, cb) => Effect(c, [Running(n, cb)], [], false)
    case Running(_, _) => ExecRunning(a, c, ch)
    case Returned(_, _, _) => ExecReturned(a, c)
    case Cancel(_, _) => ExecCancel(a, c, ch)
    case DetachCheck(p, child) =>
      Effect(c, if c.node.stopping then [] else [Detach(p, child)], [], false)
    case Detach(_, child) =>
      Effect(Cell(c.node.(hooks := c.node.hooks - {child}), c.hist), [], [], false)
    case CancelCtx(_, cause) =>
      Effect(Cell(c.node, c.hist.(trace := c.hist.trace + [Cancelled(cause)])), [], [], false)
    case Defer(_, _) => ExecDefer(a, c)
    case RunNow(n) =>
      Effect(c, if ch.err.Some? then [Report(n, ch.err.value)] else [], [], false)
    case Report(_, e) => Effect(Cell(AddError(c.node, e), c.hist), [], [], false)
    case Attach(_, child, grace) =>
      Effect(Cell(AddHook(c.node, child, grace), c.hist),
             if c.node.stopping then [Stop(child, grace)] else [], [], false)
  }

  function FreshCell(parent: Option<NodeId>, grace: int): Cell {
    Cell(Fresh(parent, grace), History([], [], [], 0, None, 0, 0, [], 0, [], {}, false))
  }

  ghost predicate ParentsBelow(cells: seq<Cell>) {
    forall i :: 0 <= i < |cells| && cells[i].node.parent.Some? ==> cells[i].node.parent.value < i
  }

  /** The ancestors of n from its root down, then n. */
  function PathTo(cells: seq<Cell>, n: NodeId): (path: seq<NodeId>)
    requires ParentsBelow(cells) && n < |cells|
    ensures path != [] && path[|path| - 1] == n
  {
    (if cells[n].node.parent.None? then [] else PathTo(cells, cells[n].node.parent.value)) + [n]
  }

  /** User code may call into the library when its thread has nothing pending, or
      from inside a task or a callback. */
  predicate InUserCode(prog: seq<Action>) {
    prog == [] || prog[0].Body? || prog[0].Running? || prog[0].RunNow?
  }

  predicate ApiTargets(s: State, api: Api) {
    match api
    case ApiNew(p, _) => p.Some? ==> p.value < |s.cells|
    case _ => api.n < |s.cells|
  }

  ghost predicate Enabled(s: State, l: Label) {
    match l
    case Run(t, ch) =>
      && t < |s.threads| && s.threads[t] != []
      && var a := s.threads[t][0];
         Shaped(a) && Target(a) < |s.cells| && Allowed(a, ch)
    case CallApi(t, api) => t < |s.threads| && InUserCode(s.threads[t]) && ApiTargets(s, api)
    case NewThread => true
    case Tick(later) => s.now <= later
    case Fire(n, d) => n < |s.cells| && d in s.cells[n].hist.timers && d <= s.now
  }

  function ApiCells(s: State, api: Api): seq<Cell> {
    if api.ApiNew? then s.cells + [FreshCell(api.parent, api.grace)] else s.cells
  }

  function ApiActions(s: State, api: Api): seq<Action>
    requires ParentsBelow(s.cells) && ApiTargets(s, api)
  {
    match api
    case ApiRun(n, mode) => var path := PathTo(s.cells, n); [Check(|path|, path, mode)]
    case ApiStop(n, g) => [Stop(n, g)]
    case ApiIdle(n, g) => [Idle(n, g)]
    case ApiDefer(n, cb) => [Defer(n, cb)]
    case ApiError(n, e) => [Report(n, e)]
    case ApiNew(p, g) => if p.Some? then [Attach(p.value, |s.cells|, g)] else []
  }

  function StepRun(s: State, t: nat, ch: Choice): State
    requires Enabled(s, Run(t, ch))
  {
    var a := s.threads[t][0];
    var e := Exec(a, s.cells[Target(a)], s.now, t, ch);
    var threads := s.threads[t := e.push + s.threads[t][1..]];
    State(s.cells[Target(a) := e.cell],
          if e.spawn == [] then threads else threads + [e.spawn],
          s.now, s.panicked || e.panicked)
  }

  function Step(s: State, l: Label): State
    requires ParentsBelow(s.cells) && Enabled(s, l)
  {
    match l
    case Run(t, ch) => StepRun(s, t, ch)
    case CallApi(t, api) =>
      s.(cells := ApiCells(s, api), threads := s.threads[t := ApiActions(s, api) + s.threads[t]])
    case NewThread => s.(threads := s.threads + [[]])
    case Tick(later) => s.(now := later)
    case Fire(n, d) => s.(threads := s.threads + [[Expire(n, d)]])
  }

  function Init(now: int): State {
    State([], [], now, false)
  }
}
