/** The in-memory registry of background gene-search tasks: a map from task id
    to task record and a map from task id to cancellation token, updated in
    place by each operation. The wall clock is a `now` parameter (in seconds)
    and the random task id is a parameter the caller guarantees to be fresh. */
module TaskManager {
  import opened Wrappers

  type TaskId = string

  /** The five status strings the registry ever stores. */
  datatype Status = Pending | Running | Completed | Cancelled | Failed

  /** The statuses the reaper may evict. */
  predicate Terminal(s: Status) {
    s == Completed || s == Cancelled || s == Failed
  }

  datatype ProgressInfo = ProgressInfo(
    currentStep: string,
    stepNumber: int,
    totalSteps: int,
    papersScreened: Option<int>,
    totalPapers: Option<int>,
    message: string)

  datatype TaskInfo<R> = TaskInfo(
    taskId: TaskId,
    status: Status,
    progress: Option<ProgressInfo>,
    result: Option<R>,
    error: Option<string>,
    createdAt: nat,
    updatedAt: nat)

  /** The record `create_task` stores: pending, with nothing else set. */
  function NewTask<R>(id: TaskId, now: nat): (t: TaskInfo<R>)
    ensures t.taskId == id && t.status == Pending
    ensures t.progress.None? && t.result.None? && t.error.None?
    ensures t.createdAt == now == t.updatedAt
  {
    TaskInfo(id, Pending, None, None, None, now, now)
  }

  /** One hour, in the units of the clock. */
  const OneHour: nat := 3600

  /** A task the reaper evicts at time `now`: finished, and last touched
      strictly before `now` minus one hour. */
  predicate Expired<R>(t: TaskInfo<R>, now: nat) {
    Terminal(t.status) && t.updatedAt < now - OneHour
  }

  /** The entries that survive one reaper pass at time `now`. */
  function Survivors<R>(tasks: map<TaskId, TaskInfo<R>>, now: nat): (r: map<TaskId, TaskInfo<R>>)
    ensures forall id | id in tasks :: id in r <==> !Expired(tasks[id], now)
    ensures forall id | id in r :: id in tasks && r[id] == tasks[id]
    ensures forall id | id in tasks && !Terminal(tasks[id].status) :: id in r
  {
    map id | id in tasks && !Expired(tasks[id], now) :: tasks[id]
  }

  /** A second pass at the same instant evicts nothing more. */
  lemma SurvivorsIdempotent<R>(tasks: map<TaskId, TaskInfo<R>>, now: nat)
    ensures Survivors(Survivors(tasks, now), now) == Survivors(tasks, now)
  {
    var once := Survivors(tasks, now);
    var twice := Survivors(once, now);
    assert twice.Keys == once.Keys;
  }

  /** A later pass evicts at least what an earlier pass would have. */
  lemma SurvivorsShrinkOverTime<R>(tasks: map<TaskId, TaskInfo<R>>, earlier: nat, later: nat)
    requires earlier <= later
    ensures Survivors(tasks, later).Keys <= Survivors(tasks, earlier).Keys
  {
    forall id | id in Survivors(tasks, later)
      ensures id in Survivors(tasks, earlier)
    {
      assert !Expired(tasks[id], later);
    }
  }

  /** One more id moves from the ids still to delete to the deleted ones,
      and is deleted from both maps. */
  lemma RemoveOneMore<V, W>(a: map<TaskId, V>, b: map<TaskId, W>, toRemove: set<TaskId>, removed: set<TaskId>, id: TaskId)
    requires id in toRemove && toRemove !! removed
    ensures (toRemove - {id}) !! (removed + {id})
    ensures (toRemove - {id}) + (removed + {id}) == toRemove + removed
    ensures (a - removed) - {id} == a - (removed + {id})
    ensures (b - removed) - {id} == b - (removed + {id})
    ensures id !in b - removed ==> b - removed == b - (removed + {id})
  {
  }

  /** Deleting every expired id leaves the survivors. */
  lemma RemoveExpired<R>(tasks: map<TaskId, TaskInfo<R>>, now: nat)
    ensures tasks - (set id | id in tasks && Expired(tasks[id], now)) == Survivors(tasks, now)
  {
    var left := tasks - (set id | id in tasks && Expired(tasks[id], now));
    assert left.Keys == Survivors(tasks, now).Keys;
  }

  /** A flag that a running search polls to learn that it should stop. */
  class CancellationToken {
    var cancelled: bool

    constructor ()
      ensures !cancelled
    {
      cancelled := false;
    }

    /** Sets the flag; a second call leaves the same state. */
    method Cancel()
      modifies this
      ensures cancelled
    {
      cancelled := true;
    }

    method IsCancelled() returns (b: bool)
      ensures b == cancelled
    {
      b := cancelled;
    }
  }

  /** The handle a search uses to report progress on its own task. */
  class ProgressCallback<R> {
    const taskId: TaskId
    const manager: TaskManager<R>

    constructor (taskId: TaskId, manager: TaskManager<R>)
      ensures this.taskId == taskId && this.manager == manager
    {
      this.taskId := taskId;
      this.manager := manager;
    }

    /** Builds a `ProgressInfo` (four steps unless told otherwise) and hands it
        to the registry, which stores it and marks the task running. */
    method Update(currentStep: string, stepNumber: int, now: nat, totalSteps: int := 4,
                  papersScreened: Option<int> := None, totalPapers: Option<int> := None,
                  message: string := "")
      requires manager.Valid()
      modifies manager
      ensures manager.Valid()
      ensures manager.tokens == old(manager.tokens)
      ensures manager.tasks == Progressed(old(manager.tasks), taskId,
        ProgressInfo(currentStep, stepNumber, totalSteps, papersScreened, totalPapers, message), now)
    {
      var progress := ProgressInfo(currentStep, stepNumber, totalSteps, papersScreened, totalPapers, message);
      manager.UpdateProgress(taskId, progress, now);
    }
  }

  /** Applies `f` to the entry of `id` when there is one; otherwise nothing changes. */
  function Touch<R>(tasks: map<TaskId, TaskInfo<R>>, id: TaskId, f: TaskInfo<R> -> TaskInfo<R>): (r: map<TaskId, TaskInfo<R>>)
    ensures r.Keys == tasks.Keys
    ensures forall other | other in tasks && other != id :: r[other] == tasks[other]
  {
    if id in tasks then tasks[id := f(tasks[id])] else tasks
  }

  /** `update_status`: the new status and a fresh timestamp. */
  function StatusSet<R>(tasks: map<TaskId, TaskInfo<R>>, id: TaskId, s: Status, now: nat): map<TaskId, TaskInfo<R>> {
    Touch(tasks, id, (t: TaskInfo<R>) => t.(status := s, updatedAt := now))
  }

  /** `update_progress`: the progress replaced wholesale and the status forced to running. */
  function Progressed<R>(tasks: map<TaskId, TaskInfo<R>>, id: TaskId, p: ProgressInfo, now: nat): map<TaskId, TaskInfo<R>> {
    Touch(tasks, id, (t: TaskInfo<R>) => t.(progress := Some(p), status := Running, updatedAt := now))
  }

  /** `set_result`: the result stored and the status set to completed; the error is kept. */
  function ResultSet<R>(tasks: map<TaskId, TaskInfo<R>>, id: TaskId, v: R, now: nat): map<TaskId, TaskInfo<R>> {
    Touch(tasks, id, (t: TaskInfo<R>) => t.(result := Some(v), status := Completed, updatedAt := now))
  }

  /** `set_error`: the error stored and the status set to failed; the result is kept. */
  function ErrorSet<R>(tasks: map<TaskId, TaskInfo<R>>, id: TaskId, e: string, now: nat): map<TaskId, TaskInfo<R>> {
    Touch(tasks, id, (t: TaskInfo<R>) => t.(error := Some(e), status := Failed, updatedAt := now))
  }

  /** What each writer leaves in the entry it touches, and that an unknown id
      is ignored: the status is forced whatever it was before (so a cancelled
      task can become running, completed or failed again), and the other
      payload fields are left alone. */
  lemma WritersEffect<R>(tasks: map<TaskId, TaskInfo<R>>, id: TaskId, p: ProgressInfo, v: R, e: string, s: Status, now: nat)
    ensures id !in tasks ==>
      StatusSet(tasks, id, s, now) == Progressed(tasks, id, p, now) == ResultSet(tasks, id, v, now)
        == ErrorSet(tasks, id, e, now) == tasks
    ensures id in tasks ==>
      var t := tasks[id];
      && StatusSet(tasks, id, s, now)[id] == t.(status := s, updatedAt := now)
      && Progressed(tasks, id, p, now)[id].status == Running
      && Progressed(tasks, id, p, now)[id].progress == Some(p)
      && Progressed(tasks, id, p, now)[id].result == t.result
      && ResultSet(tasks, id, v, now)[id].status == Completed
      && ResultSet(tasks, id, v, now)[id].result == Some(v)
      && ResultSet(tasks, id, v, now)[id].error == t.error
      && ErrorSet(tasks, id, e, now)[id].status == Failed
      && ErrorSet(tasks, id, e, now)[id].error == Some(e)
      && ErrorSet(tasks, id, e, now)[id].result == t.result
      && ErrorSet(tasks, id, e, now)[id].createdAt == t.createdAt
  {
  }

  class TaskManager<R> {
    var tasks: map<TaskId, TaskInfo<R>>
    var tokens: map<TaskId, CancellationToken>

    /** Both maps have the same keys, each record carries its own id, and no
        two tasks share a token. */
    ghost predicate Valid()
      reads this
    {
      && tasks.Keys == tokens.Keys
      && (forall id | id in tasks :: tasks[id].taskId == id)
      && (forall a, b | a in tokens && b in tokens && a != b :: tokens[a] != tokens[b])
    }

    /** The ids whose token has been cancelled. */
    ghost function CancelledIds(): set<TaskId>
      reads this, tokens.Values
    {
      set id | id in tokens && tokens[id].cancelled
    }

    constructor ()
      ensures Valid() && tasks == map[] && tokens == map[]
    {
      tasks := map[];
      tokens := map[];
    }

    /** Registers a fresh id as pending in both maps and hands back its new
        token and a progress callback bound to it. */
    method CreateTask(id: TaskId, now: nat) returns (token: CancellationToken, callback: ProgressCallback<R>)
      requires Valid() && id !in tasks
      modifies this
      ensures Valid()
      ensures fresh(token) && !token.cancelled
      ensures fresh(callback) && callback.taskId == id && callback.manager == this
      ensures tasks == old(tasks)[id := NewTask(id, now)]
      ensures tokens == old(tokens)[id := token]
    {
      token := new CancellationToken();
      tasks := tasks[id := NewTask(id, now)];
      tokens := tokens[id := token];
      callback := new ProgressCallback(id, this);
    }

    /** The stored record of `id`, or `None` for an unknown id. */
    method GetTask(id: TaskId) returns (r: Option<TaskInfo<R>>)
      ensures r.Some? <==> id in tasks
      ensures r.Some? ==> r.value == tasks[id]
    {
      r := if id in tasks then Some(tasks[id]) else None;
    }

    method UpdateStatus(id: TaskId, s: Status, now: nat)
      requires Valid()
      modifies this
      ensures Valid() && tokens == old(tokens)
      ensures tasks == StatusSet(old(tasks), id, s, now)
    {
      if id in tasks {
        tasks := tasks[id := tasks[id].(status := s, updatedAt := now)];
      }
    }

    method UpdateProgress(id: TaskId, p: ProgressInfo, now: nat)
      requires Valid()
      modifies this
      ensures Valid() && tokens == old(tokens)
      ensures tasks == Progressed(old(tasks), id, p, now)
    {
      if id in tasks {
        tasks := tasks[id := tasks[id].(progress := Some(p), status := Running, updatedAt := now)];
      }
    }

    method SetResult(id: TaskId, v: R, now: nat)
      requires Valid()
      modifies this
      ensures Valid() && tokens == old(tokens)
      ensures tasks == ResultSet(old(tasks), id, v, now)
    {
      if id in tasks {
        tasks := tasks[id := tasks[id].(result := Some(v), status := Completed, updatedAt := now)];
      }
    }

    method SetError(id: TaskId, e: string, now: nat)
      requires Valid()
      modifies this
      ensures Valid() && tokens == old(tokens)
      ensures tasks == ErrorSet(old(tasks), id, e, now)
    {
      if id in tasks {
        tasks := tasks[id := tasks[id].(error := Some(e), status := Failed, updatedAt := now)];
      }
    }

    /** Flips the token of `id` and marks the task cancelled; answers whether
        a token existed. No other token changes and none is ever reset. */
    method CancelTask(id: TaskId, now: nat) returns (found: bool)
      requires Valid()
      modifies this, tokens.Values
      ensures Valid() && tokens == old(tokens)
      ensures found <==> id in old(tokens)
      ensures found ==> tasks == StatusSet(old(tasks), id, Cancelled, now)
      ensures !found ==> tasks == old(tasks)
      ensures CancelledIds() == if found then old(CancelledIds()) + {id} else old(CancelledIds())
    {
      if id in tokens {
        tokens[id].Cancel();
        if id in tasks {
          tasks := tasks[id := tasks[id].(status := Cancelled, updatedAt := now)];
        }
        found := true;
      } else {
        found := false;
      }
    }

    /** One pass of the background reaper at time `now`: collects the ids of
        finished tasks not touched for more than an hour, then deletes each of
        them from both maps. */
    method Reap(now: nat)
      requires Valid()
      modifies this
      ensures Valid()
      ensures tasks == Survivors(old(tasks), now)
      ensures tokens.Keys == tasks.Keys
      ensures forall id | id in tokens :: tokens[id] == old(tokens)[id]
    {
      var toRemove := set id | id in tasks && Expired(tasks[id], now);
      ghost var expired := toRemove;
      ghost var removed: set<TaskId> := {};
      while toRemove != {}
        invariant toRemove !! removed && toRemove + removed == expired
        invariant tasks == old(tasks) - removed
        invariant tokens == old(tokens) - removed
        decreases toRemove
      {
        var id :| id in toRemove;
        RemoveOneMore(old(tasks), old(tokens), toRemove, removed, id);
        tasks := tasks - {id};
        if id in tokens {
          tokens := tokens - {id};
        }
        toRemove := toRemove - {id};
        removed := removed + {id};
      }
      RemoveExpired(old(tasks), now);
    }
  }
}
