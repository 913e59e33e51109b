/**
  `WithMaxConcurrency` (limit/limit.go): a buffered channel counts occupied slots.
  Every method is one atomic step of one task's setup or of its invoker, so a
  concurrent execution is a sequence of calls.
 */
module Limit {
  import opened Options

  type TaskId = nat
  type Error = nat

  /** Where a task is: it waits in the second select, was handed an invoker, runs under
      it, or its invoker has returned. */
  datatype Stage =
    | Blocked
    | Granted
    | Running
    | Refused(err: Option<Error>)   // no-op invoker after a soft stop, erroring one after a hard stop
    | Finished

  predicate Holds(s: Stage) {
    s.Granted? || s.Running?
  }

  ghost function Holders(tasks: map<TaskId, Stage>): set<TaskId> {
    set id | id in tasks && Holds(tasks[id])
  }

  ghost function RunningTasks(tasks: map<TaskId, Stage>): set<TaskId> {
    set id | id in tasks && tasks[id].Running?
  }

  /** The slots change with a task's stage, and only its own. */
  lemma HoldersUpdate(tasks: map<TaskId, Stage>, id: TaskId, s: Stage)
    ensures |Holders(tasks[id := s])|
            == |Holders(tasks)| - (if id in tasks && Holds(tasks[id]) then 1 else 0) + (if Holds(s) then 1 else 0)
  {
    var rest := Holders(tasks) - {id};
    assert Holders(tasks) == if id in tasks && Holds(tasks[id]) then rest + {id} else rest;
    assert Holders(tasks[id := s]) == if Holds(s) then rest + {id} else rest;
  }

  lemma RunningAreHolders(tasks: map<TaskId, Stage>)
    ensures |RunningTasks(tasks)| <= |Holders(tasks)|
  {
    var waiting := Holders(tasks) - RunningTasks(tasks);
    assert Holders(tasks) == RunningTasks(tasks) + waiting;
  }

  class Limiter {
    const limit: nat
    var occupied: nat                      // len(ch)
    ghost var tasks: map<TaskId, Stage>

    /** Occupied slots are exactly the granted invokers that have not returned. */
    ghost predicate Valid()
      reads this
    {
      0 < limit && occupied <= limit && |Holders(tasks)| == occupied
    }

    /** The original panics unless the limit is positive. */
    constructor (limit: nat)
      requires limit > 0
      ensures Valid() && this.limit == limit && occupied == 0 && tasks == map[]
    {
      this.limit := limit;
      occupied := 0;
      tasks := map[];
    }

    /** At every moment at most `limit` tasks run. */
    lemma RunningBounded()
      requires Valid()
      ensures |RunningTasks(tasks)| <= limit
    {
      RunningAreHolders(tasks);
    }

    /** When every invoker has returned, every slot is free again. */
    lemma AllFreed()
      requires Valid() && forall id :: id in tasks ==> tasks[id].Blocked? || tasks[id].Finished?
      ensures occupied == 0
    {
      assert Holders(tasks) == {};
    }

    ghost method Move(id: TaskId, s: Stage)
      modifies this`tasks
      ensures tasks == old(tasks)[id := s]
      ensures |Holders(tasks)|
              == |Holders(old(tasks))| - (if id in old(tasks) && Holds(old(tasks)[id]) then 1 else 0)
                 + (if Holds(s) then 1 else 0)
    {
      HoldersUpdate(tasks, id, s);
      tasks := tasks[id := s];
    }

    /** The fast path; without a free slot the task goes on to wait. */
    method Setup(id: TaskId) returns (granted: bool)
      requires Valid() && id !in tasks
      modifies this
      ensures Valid() && (granted <==> old(occupied) < limit)
      ensures occupied == old(occupied) + (if granted then 1 else 0)
      ensures tasks == old(tasks)[id := if granted then Granted else Blocked]
    {
      granted := occupied < limit;
      if granted {
        occupied := occupied + 1;
        Move(id, Granted);
      } else {
        Move(id, Blocked);
      }
    }

    /** The send case of the second select: ready only while a slot is free. */
    method Wake(id: TaskId)
      requires Valid() && id in tasks && tasks[id] == Blocked && occupied < limit
      modifies this
      ensures Valid() && occupied == old(occupied) + 1 && tasks == old(tasks)[id := Granted]
    {
      occupied := occupied + 1;
      Move(id, Granted);
    }

    /** Its stop cases: the task gets an invoker that will not touch the slots, and that
        reports the context's error only after a hard stop. */
    method Refuse(id: TaskId, hard: bool, ctxErr: Error)
      requires Valid() && id in tasks && tasks[id] == Blocked
      modifies this
      ensures Valid() && occupied == old(occupied)
      ensures tasks == old(tasks)[id := Refused(if hard then Some(ctxErr) else None)]
    {
      if hard {
        Move(id, Refused(Some(ctxErr)));
      } else {
        Move(id, Refused(None));
      }
    }

    /** A granted invoker is called: it runs the task in its slot. */
    method Start(id: TaskId)
      requires Valid() && id in tasks && tasks[id].Granted?
      modifies this
      ensures Valid() && occupied == old(occupied) && tasks == old(tasks)[id := Running]
    {
      Move(id, Running);
    }

    /** A refused invoker is called: it returns at once, without running the task, and frees
        nothing; `err` is what it was made with. */
    method Drop(id: TaskId, err: Option<Error>) returns (result: Option<Error>)
      requires Valid() && id in tasks && tasks[id] == Refused(err)
      modifies this
      ensures Valid() && occupied == old(occupied) && tasks == old(tasks)[id := Finished]
      ensures result == err
    {
      Move(id, Finished);
      result := err;
    }

    /** The task has returned or panicked with this result: the deferred receive frees its
        slot, and the invoker returns the result. */
    method Return(id: TaskId, task: Option<Error>) returns (result: Option<Error>)
      requires Valid() && id in tasks && tasks[id] == Running
      modifies this
      ensures Valid() && occupied == old(occupied) - 1 && tasks == old(tasks)[id := Finished]
      ensures result == task
    {
      HoldersUpdate(tasks, id, Finished);
      assert id in Holders(tasks);
      occupied := occupied - 1;
      Move(id, Finished);
      result := task;
    }
  }
}
