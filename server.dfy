/** The HTTP layer over the task registry: the background runner that maps a
    search's outcome onto registry writes, and the start, status and cancel
    endpoints. Threads are not modelled: the runner is one call that makes
    the search and then the writes in order, and the progress reports the
    search made are delivered through the task's callback in the order they
    were made. */
module Server {
  import opened Wrappers
  import opened TaskManager
  import GeneSearch

  /** The result a completed task stores: `{"results": ..., "count": ...}`. */
  datatype SearchResponse = SearchResponse(results: seq<GeneSearch.Record>, count: int)

  /** A JSON answer or an error status with its detail. */
  datatype Response<T> = Ok(body: T) | HttpError(code: int, detail: string)

  datatype TaskStartResponse = TaskStartResponse(taskId: TaskId, status: string)

  datatype TaskStatusResponse = TaskStatusResponse(
    taskId: TaskId,
    status: string,
    progress: Option<ProgressInfo>,
    result: Option<SearchResponse>,
    error: Option<string>)

  datatype CancelResponse = CancelResponse(taskId: TaskId, status: string)

  /** The string the registry stores for each status. */
  function StatusName(s: Status): (name: string)
    ensures name in {"pending", "running", "completed", "cancelled", "failed"}
  {
    match s
    case Pending => "pending"
    case Running => "running"
    case Completed => "completed"
    case Cancelled => "cancelled"
    case Failed => "failed"
  }

  lemma StatusNamesDistinct(a: Status, b: Status)
    ensures StatusName(a) == StatusName(b) <==> a == b
  {
  }

  /** The registry after the callback has stored each report in turn. */
  function Replayed(tasks: map<TaskId, TaskInfo<SearchResponse>>, id: TaskId, reports: seq<ProgressInfo>, now: nat)
    : (r: map<TaskId, TaskInfo<SearchResponse>>)
    ensures r.Keys == tasks.Keys
    ensures forall other | other in tasks && other != id :: r[other] == tasks[other]
  {
    if reports == [] then tasks
    else Progressed(Replayed(tasks, id, reports[..|reports| - 1], now), id, reports[|reports| - 1], now)
  }

  /** After at least one report, the task is running with the last report as
      its progress, its result and error as before. */
  lemma {:induction false} ReplayedEntry(tasks: map<TaskId, TaskInfo<SearchResponse>>, id: TaskId,
                                         reports: seq<ProgressInfo>, now: nat)
    requires id in tasks
    ensures var t := Replayed(tasks, id, reports, now)[id];
      && t.result == tasks[id].result && t.error == tasks[id].error
      && t.taskId == tasks[id].taskId && t.createdAt == tasks[id].createdAt
      && (reports != [] ==> t.status == Running && t.progress == Some(reports[|reports| - 1]))
      && (reports == [] ==> t == tasks[id])
  {
    if reports != [] {
      ReplayedEntry(tasks, id, reports[..|reports| - 1], now);
    }
  }

  /** Lines 138-150: the write that ends a run whose search returned
      `outcome`, with the token answering `cancelled` afterwards. A search
      that raised is recorded as failed whatever the token says. */
  function Concluded(tasks: map<TaskId, TaskInfo<SearchResponse>>, id: TaskId, outcome: Result<seq<GeneSearch.Record>>,
                     cancelled: bool, now: nat): map<TaskId, TaskInfo<SearchResponse>>
  {
    match outcome
    case Failure(e) => ErrorSet(tasks, id, e, now)
    case Success(rs) =>
      if cancelled then StatusSet(tasks, id, Cancelled, now)
      else ResultSet(tasks, id, SearchResponse(rs, |rs|), now)
  }

  /** What a finished run leaves in the task's entry: cancelled (results
      dropped), completed with the results and their count, or failed with
      the exception's message. */
  lemma ConcludedEntry(tasks: map<TaskId, TaskInfo<SearchResponse>>, id: TaskId, outcome: Result<seq<GeneSearch.Record>>,
                       cancelled: bool, now: nat)
    requires id in tasks
    ensures var t := Concluded(tasks, id, outcome, cancelled, now)[id];
      && (outcome.Failure? ==> t.status == Failed && t.error == Some(outcome.error) && t.result == tasks[id].result)
      && (outcome.Success? && cancelled ==> t == tasks[id].(status := Cancelled, updatedAt := now))
      && (outcome.Success? && !cancelled ==>
            t.status == Completed && t.error == tasks[id].error
            && t.result == Some(SearchResponse(outcome.value, |outcome.value|)))
    ensures forall other | other in tasks && other != id :: Concluded(tasks, id, outcome, cancelled, now)[other] == tasks[other]
  {
  }

  /** The message Python 3.10 and later give for the call at lines 128-136. */
  const UnexpectedGeneId: string := "GeneLiteratureSearch.search_gene() got an unexpected keyword argument 'gene_id'"

  /** `run_gene_search_task` as written: `search_gene` is called with a
      `gene_id` keyword it does not accept, so the call raises before the
      search starts and every known task ends failed. */
  method RunGeneSearchTaskAsWritten(tm: TaskManager<SearchResponse>, id: TaskId, now: nat)
    requires tm.Valid()
    modifies tm
    ensures tm.Valid() && tm.tokens == old(tm.tokens)
    ensures id !in old(tm.tasks) ==> tm.tasks == old(tm.tasks)
    ensures id in old(tm.tasks) ==> tm.tasks == ErrorSet(old(tm.tasks), id, UnexpectedGeneId, now)
  {
    var info := tm.GetTask(id);
    if info.None? {
      return;
    }
    tm.SetError(id, UnexpectedGeneId, now);
  }

  /** Whatever the search would have found, the as-written runner leaves a
      known task failed with the keyword error and never completed. */
  lemma AsWrittenNeverCompletes(tasks: map<TaskId, TaskInfo<SearchResponse>>, id: TaskId, now: nat)
    requires id in tasks
    ensures ErrorSet(tasks, id, UnexpectedGeneId, now)[id].status == Failed
    ensures ErrorSet(tasks, id, UnexpectedGeneId, now)[id].error == Some(UnexpectedGeneId)
  {
  }

  /** `run_gene_search_task` with the `gene_id` keyword dropped: runs the
      search with the task's token, delivers its progress through the
      task's callback, then records the outcome. An unknown id is left
      alone. `cancel` says which of the search's `is_cancelled()` calls
      first answers true (see the GeneSearch module); `cancelledAtEnd` is
      whether a concurrent `cancel_task` has flipped the token by the check
      at line 139. The token is never reset, so a cancellation the search
      saw is still there at line 139, and a token cancelled before the run
      is seen by the search's first check. A flip that comes after the
      search's last check is written `cancel == None`. */
  method RunGeneSearchTask(tm: TaskManager<SearchResponse>, id: TaskId, gene: string, maxResults: int, topN: int,
                           includeReprogramming: bool, today: string, cancel: Option<nat>, cancelledAtEnd: bool,
                           sv: GeneSearch.Services, now: nat)
    requires tm.Valid()
    requires cancel.Some? ==> cancelledAtEnd
    requires id in tm.tokens && tm.tokens[id].cancelled ==> cancel == Some(0)
    modifies tm, tm.tokens.Values
    ensures tm.Valid() && tm.tokens == old(tm.tokens)
    ensures forall other | other in tm.tokens && other != id :: tm.tokens[other].cancelled == old(tm.tokens[other].cancelled)
    ensures id !in old(tm.tasks) ==> tm.tasks == old(tm.tasks)
    ensures id in old(tm.tasks) ==>
      var run := GeneSearch.SearchGeneSpec(gene, maxResults, topN, includeReprogramming, None, today, cancel, sv);
      && tm.tokens[id].cancelled == cancelledAtEnd
      && tm.tasks == Concluded(Replayed(old(tm.tasks), id, run.reports, now), id, run.outcome, cancelledAtEnd, now)
    ensures id in old(tm.tasks) && cancel.Some? ==> tm.tasks[id].status in {Cancelled, Failed}
    ensures id in old(tm.tasks) && !cancelledAtEnd ==> tm.tasks[id].status in {Completed, Failed}
  {
    var info := tm.GetTask(id);
    if info.None? {
      return;
    }
    var outcome, reports := GeneSearch.SearchGene(gene, maxResults, topN, includeReprogramming, None, today, cancel, sv);
    Finish(tm, id, outcome, reports, cancelledAtEnd, now);
  }

  /** Lines 123-150 once the search has returned: its reports go through
      the task's callback, a concurrent cancel may flip the token, and the
      outcome is recorded as the token then says. */
  method Finish(tm: TaskManager<SearchResponse>, id: TaskId, outcome: Result<seq<GeneSearch.Record>>,
                reports: seq<ProgressInfo>, cancelledAtEnd: bool, now: nat)
    requires tm.Valid() && id in tm.tasks
    modifies tm, tm.tokens.Values
    ensures tm.Valid() && tm.tokens == old(tm.tokens)
    ensures forall other | other in tm.tokens && other != id :: tm.tokens[other].cancelled == old(tm.tokens[other].cancelled)
    ensures tm.tokens[id].cancelled == (old(tm.tokens[id].cancelled) || cancelledAtEnd)
    ensures tm.tasks == Concluded(Replayed(old(tm.tasks), id, reports, now), id, outcome, tm.tokens[id].cancelled, now)
    ensures tm.tokens[id].cancelled ==> tm.tasks[id].status in {Cancelled, Failed}
    ensures !tm.tokens[id].cancelled ==> tm.tasks[id].status in {Completed, Failed}
  {
    var token := tm.tokens[id];
    var callback := new ProgressCallback(id, tm);
    Deliver(callback, reports, now);
    if cancelledAtEnd {
      token.Cancel();
    }
    ghost var replayed := tm.tasks;
    Conclude(tm, id, token, outcome, now);
    ConcludedEntry(replayed, id, outcome, token.cancelled, now);
  }

  /** Lines 138-150: the write that records the search's outcome, after
      asking the task's token whether it was cancelled. */
  method Conclude(tm: TaskManager<SearchResponse>, id: TaskId, token: CancellationToken,
                  outcome: Result<seq<GeneSearch.Record>>, now: nat)
    requires tm.Valid()
    modifies tm
    ensures tm.Valid() && tm.tokens == old(tm.tokens)
    ensures tm.tasks == Concluded(old(tm.tasks), id, outcome, token.cancelled, now)
  {
    if outcome.Failure? {
      tm.SetError(id, outcome.error, now);
      return;
    }
    var cancelled := token.IsCancelled();
    if cancelled {
      tm.UpdateStatus(id, Cancelled, now);
    } else {
      var results := outcome.value;
      tm.SetResult(id, SearchResponse(results, |results|), now);
    }
  }

  /** The search's progress reports handed to the task's callback one by
      one, in the order they were made. */
  method Deliver(callback: ProgressCallback<SearchResponse>, reports: seq<ProgressInfo>, now: nat)
    requires callback.manager.Valid()
    modifies callback.manager
    ensures callback.manager.Valid() && callback.manager.tokens == old(callback.manager.tokens)
    ensures callback.manager.tasks == Replayed(old(callback.manager.tasks), callback.taskId, reports, now)
  {
    var tm := callback.manager;
    var i := 0;
    while i < |reports|
      invariant 0 <= i <= |reports|
      invariant tm.Valid() && tm.tokens == old(tm.tokens)
      invariant tm.tasks == Replayed(old(tm.tasks), callback.taskId, reports[..i], now)
    {
      var p := reports[i];
      callback.Update(p.currentStep, p.stepNumber, now, p.totalSteps, p.papersScreened, p.totalPapers, p.message);
      assert reports[..i + 1][..i] == reports[..i];
      i := i + 1;
    }
    assert reports[..i] == reports;
  }

  /** `POST /agent/start`: registers the task (the caller supplies a fresh
      id) and answers "pending"; the worker is started separately. */
  method StartGeneSearch(tm: TaskManager<SearchResponse>, id: TaskId, now: nat) returns (r: TaskStartResponse)
    requires tm.Valid() && id !in tm.tasks
    modifies tm
    ensures tm.Valid()
    ensures tm.tasks == old(tm.tasks)[id := NewTask(id, now)]
    ensures id in tm.tokens && !tm.tokens[id].cancelled
    ensures fresh(tm.tokens[id]) && tm.tokens == old(tm.tokens)[id := tm.tokens[id]]
    ensures r == TaskStartResponse(id, "pending")
  {
    var token, callback := tm.CreateTask(id, now);
    r := TaskStartResponse(id, "pending");
  }

  /** The answer `GET /agent/status/{id}` gives for a registry state. */
  function StatusAnswer(tasks: map<TaskId, TaskInfo<SearchResponse>>, id: TaskId): (r: Response<TaskStatusResponse>)
    ensures id !in tasks ==> r == HttpError(404, "Task " + id + " not found")
    ensures id in tasks ==>
      && r.Ok? && r.body.status == StatusName(tasks[id].status)
      && r.body.taskId == tasks[id].taskId
      && r.body.result == tasks[id].result && r.body.error == tasks[id].error
      && r.body.progress == tasks[id].progress
  {
    if id !in tasks then HttpError(404, "Task " + id + " not found")
    else
      var t := tasks[id];
      Ok(TaskStatusResponse(t.taskId, StatusName(t.status), t.progress, t.result, t.error))
  }

  /** `GET /agent/status/{id}` with a response model that accepts the
      records the search stores. */
  method GetTaskStatus(tm: TaskManager<SearchResponse>, id: TaskId) returns (r: Response<TaskStatusResponse>)
    ensures r == StatusAnswer(tm.tasks, id)
  {
    var info := tm.GetTask(id);
    if info.None? {
      return HttpError(404, "Task " + id + " not found");
    }
    var t := info.value;
    r := Ok(TaskStatusResponse(t.taskId, StatusName(t.status), t.progress, t.result, t.error));
  }

  /** The answer FastAPI gives when the handler raises. */
  const InternalError: Response<TaskStatusResponse> := HttpError(500, "Internal Server Error")

  /** The answer of `GET /agent/status/{id}` as written: line 237 validates
      the stored result against `SearchResponse`, whose `PaperResult`
      (lines 51-62) requires a `gene_symbol` that no stored record has (the
      search names it `symbol`), so any stored record makes the handler
      raise. Otherwise it is the answer above. */
  function StatusAnswerAsWritten(tasks: map<TaskId, TaskInfo<SearchResponse>>, id: TaskId): (r: Response<TaskStatusResponse>)
    ensures id in tasks && tasks[id].result.Some? && tasks[id].result.value.results != [] ==> r == InternalError
    ensures !(id in tasks && tasks[id].result.Some? && tasks[id].result.value.results != []) ==> r == StatusAnswer(tasks, id)
  {
    if id in tasks && tasks[id].result.Some? && tasks[id].result.value.results != [] then InternalError
    else StatusAnswer(tasks, id)
  }

  /** `GET /agent/status/{id}` as written. */
  method GetTaskStatusAsWritten(tm: TaskManager<SearchResponse>, id: TaskId) returns (r: Response<TaskStatusResponse>)
    ensures r == StatusAnswerAsWritten(tm.tasks, id)
  {
    var info := tm.GetTask(id);
    if info.None? {
      return HttpError(404, "Task " + id + " not found");
    }
    var t := info.value;
    if t.result.Some? && t.result.value.results != [] {
      return InternalError;
    }
    r := Ok(TaskStatusResponse(t.taskId, StatusName(t.status), t.progress, t.result, t.error));
  }

  /** A run that completes with at least one record leaves a task whose
      status the endpoint as written cannot report, while the corrected
      answer gives the records and their count. */
  lemma {:induction false} CompletedRunUnreadable(tasks: map<TaskId, TaskInfo<SearchResponse>>, id: TaskId,
                                                  reports: seq<ProgressInfo>, rs: seq<GeneSearch.Record>, now: nat)
    requires id in tasks && rs != []
    ensures var after := Concluded(Replayed(tasks, id, reports, now), id, Success(rs), false, now);
      && StatusAnswerAsWritten(after, id) == InternalError
      && StatusAnswer(after, id).Ok?
      && StatusAnswer(after, id).body.status == "completed"
      && StatusAnswer(after, id).body.result == Some(SearchResponse(rs, |rs|))
  {
    var replayed := Replayed(tasks, id, reports, now);
    ConcludedEntry(replayed, id, Success(rs), false, now);
  }

  /** `POST /agent/cancel/{id}`: flips the token and marks the task
      cancelled, answering "cancelling"; an unknown id is a 404 and
      changes nothing. */
  method CancelTask(tm: TaskManager<SearchResponse>, id: TaskId, now: nat) returns (r: Response<CancelResponse>)
    requires tm.Valid()
    modifies tm, tm.tokens.Values
    ensures tm.Valid() && tm.tokens == old(tm.tokens)
    ensures id in old(tm.tasks) ==>
      && r == Ok(CancelResponse(id, "cancelling"))
      && tm.tasks == StatusSet(old(tm.tasks), id, Cancelled, now)
      && tm.tokens[id].cancelled
    ensures id !in old(tm.tasks) ==> r == HttpError(404, "Task " + id + " not found") && tm.tasks == old(tm.tasks)
    ensures tm.CancelledIds() == if id in old(tm.tasks) then old(tm.CancelledIds()) + {id} else old(tm.CancelledIds())
    ensures forall other | other in tm.tokens && other != id :: tm.tokens[other].cancelled == old(tm.tokens[other].cancelled)
  {
    var found := tm.CancelTask(id, now);
    forall other | other in tm.tokens && other != id
      ensures tm.tokens[other].cancelled == old(tm.tokens[other].cancelled)
    {
      assert other in tm.CancelledIds() <==> other in old(tm.CancelledIds());
    }
    if !found {
      return HttpError(404, "Task " + id + " not found");
    }
    r := Ok(CancelResponse(id, "cancelling"));
  }

  /** A cancelled task whose search returns normally ends cancelled, with
      its last progress kept and no result stored by the run. */
  lemma CancelledRunEndsCancelled(tasks: map<TaskId, TaskInfo<SearchResponse>>, id: TaskId,
                                  reports: seq<ProgressInfo>, rs: seq<GeneSearch.Record>, now: nat)
    requires id in tasks && reports != []
    ensures var t := Concluded(Replayed(tasks, id, reports, now), id, Success(rs), true, now)[id];
      && t.status == Cancelled
      && t.progress == Some(reports[|reports| - 1])
      && t.result == tasks[id].result
  {
    ReplayedEntry(tasks, id, reports, now);
  }
}
