/** The client's service layer: each operation awaits one API request and only
    then writes the task cache. The cache is two `TaskStore` slots; the server is
    the parameter `api`, mapping the request sent to the resolved payload or the
    rejection. A rejection propagates before any store write, so on failure no
    store field changes. No operation writes a page or page-count field. */
module Service {
  import opened Wrappers
  import opened JsString
  import opened TaskTypes
  import opened Store
  import opened QueryClient

  /** The request an operation sends: method, path and body (PATCH sends `{}`). */
  datatype Request = Get(path: string) | Post(path: string, body: TaskBase) | Patch(path: string)

  /** The listing payload; the service reads only its `tasks` field. */
  datatype TaskListData = TaskListData(tasks: seq<Task>)

  /** `createTaskService`: POST the new task; on success empty the not-completed
      slot's list and return the server payload unchanged. */
  method CreateTaskService<P>(newTask: TaskBase, api: Request -> Result<P, ApiError>,
                              completed: TaskStore, notCompleted: TaskStore)
    returns (r: Result<P, ApiError>)
    requires completed != notCompleted
    modifies notCompleted
    ensures r == api(Post("/tasks", newTask))
    ensures r.Success? ==> notCompleted.tasks == []
    ensures r.Failure? ==> unchanged(notCompleted)
    ensures notCompleted.page == old(notCompleted.page)
    ensures notCompleted.numberOfPages == old(notCompleted.numberOfPages)
    ensures unchanged(completed)
  {
    r := api(Post("/tasks", newTask));
    if r.Failure? {
      return;
    }
    notCompleted.SetTasks([]);
  }

  /** `fetchTasksCompletedService`: GET the completed list; on success the
      completed slot holds exactly the fetched tasks, which are also returned. */
  method FetchTasksCompletedService(api: Request -> Result<TaskListData, ApiError>,
                                    completed: TaskStore, notCompleted: TaskStore)
    returns (r: Result<seq<Task>, ApiError>)
    requires completed != notCompleted
    modifies completed
    ensures var call := api(Get("/tasks/completed"));
      && (call.Success? ==> r == Success(call.value.tasks) && completed.tasks == call.value.tasks)
      && (call.Failure? ==> r == Failure(call.error) && unchanged(completed))
    ensures completed.page == old(completed.page)
    ensures completed.numberOfPages == old(completed.numberOfPages)
    ensures unchanged(notCompleted)
  {
    var call := api(Get("/tasks/completed"));
    if call.Failure? {
      return Failure(call.error);
    }
    completed.SetTasks(call.value.tasks);
    r := Success(call.value.tasks);
  }

  /** `fetchTasksNotCompletedService`: the same for the not-completed slot. */
  method FetchTasksNotCompletedService(api: Request -> Result<TaskListData, ApiError>,
                                       completed: TaskStore, notCompleted: TaskStore)
    returns (r: Result<seq<Task>, ApiError>)
    requires completed != notCompleted
    modifies notCompleted
    ensures var call := api(Get("/tasks/not-completed"));
      && (call.Success? ==> r == Success(call.value.tasks) && notCompleted.tasks == call.value.tasks)
      && (call.Failure? ==> r == Failure(call.error) && unchanged(notCompleted))
    ensures notCompleted.page == old(notCompleted.page)
    ensures notCompleted.numberOfPages == old(notCompleted.numberOfPages)
    ensures unchanged(completed)
  {
    var call := api(Get("/tasks/not-completed"));
    if call.Failure? {
      return Failure(call.error);
    }
    notCompleted.SetTasks(call.value.tasks);
    r := Success(call.value.tasks);
  }

  /** `markTaskAsCompletedService`: PATCH `/tasks/<id>`; on success empty both
      slots' lists and return the server payload unchanged. */
  method MarkTaskAsCompletedService<P>(taskId: int, api: Request -> Result<P, ApiError>,
                                       completed: TaskStore, notCompleted: TaskStore)
    returns (r: Result<P, ApiError>)
    requires completed != notCompleted
    modifies completed, notCompleted
    ensures r == api(Patch(TaskPath(taskId)))
    ensures r.Success? ==> notCompleted.tasks == [] && completed.tasks == []
    ensures r.Failure? ==> unchanged(completed) && unchanged(notCompleted)
    ensures notCompleted.page == old(notCompleted.page)
    ensures notCompleted.numberOfPages == old(notCompleted.numberOfPages)
    ensures completed.page == old(completed.page)
    ensures completed.numberOfPages == old(completed.numberOfPages)
  {
    r := api(Patch(TaskPath(taskId)));
    if r.Failure? {
      return;
    }
    notCompleted.SetTasks([]);
    completed.SetTasks([]);
  }

  /** The path of one task, `/tasks/${taskId}`. */
  function TaskPath(taskId: int): (p: string)
    ensures |p| > |"/tasks/"| && p[..|"/tasks/"|] == "/tasks/"
  {
    "/tasks/" + DecimalString(taskId)
  }

  /** Distinct task ids give distinct PATCH paths, so the request names exactly
      the task it was asked to complete. */
  lemma TaskPathInjective(a: int, b: int)
    requires TaskPath(a) == TaskPath(b)
    ensures a == b
  {
    var prefix := "/tasks/";
    assert DecimalString(a) == TaskPath(a)[|prefix|..];
    assert DecimalString(b) == TaskPath(b)[|prefix|..];
    DecimalStringInjective(a, b);
  }
}
