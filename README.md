# To-do client cache, wizard and response envelope — a Dafny model

This project models the sequential logic of a small to-do web application:

- the client's task cache slot (`useTaskStore`: a task list, a current page and a page count) and the two slots the client keeps, one for completed and one for not-completed tasks;
- the client service layer's cache rules: a fetch refills its own slot, a create empties the not-completed list, a mark-completed empties both lists, and a failed request changes nothing;
- the list view's prev/next page arithmetic, clamped below at 1 and above at the visible partition's page count, and its completed/not-completed toggle;
- the two-step creation wizard (`initial -> title -> description -> initial`) with its title and description registers and the trimming on submit;
- the backend's `executeService`, which maps an operation's outcome to a success envelope or a thrown failure envelope;
- the client's mutation error handler, which picks the text of the one error toast.

Files: `wrappers.dfy` (Option, Result), `js_string.dfy` (JavaScript `trim`, truthiness, number-to-string), `task_types.dfy`, `task_store.dfy`, `service.dfy`, `task_item_list.dfy`, `todo_button.dfy`, `execute_service.dfy`, `query_client.dfy`.

The client's state is a `TaskStore` class whose methods overwrite its fields. The two slots are two distinct instances. The service, the list view and the wizard are methods that take both instances and say which fields they change. The server is a parameter `api: Request -> Result<P, ApiError>`. It maps the request sent (method, path, body) to the payload it resolves with, or to the rejection. The backend envelope and the toast text are pure functions.

Where the sources disagree:

- `frontend/store/taskStore.ts` as written has a single slot with `setTasks`, `addTask`, `setPage` and `setNumberOfPages`.
- `frontend/api/service.ts` and `frontend/components/task/task-item-list.tsx` call per-partition setters (`setTasksCompleted`, `setPageNotCompleted`, …).
- The model therefore uses two instances of the single-slot store.
- The store tests and the service tests exercise a later revision: paged fetches and `set…TasksData(tasks, page, totalPages)`. In that revision a fetch stores the returned page and page count with the list, and a mark-completed resets the completed slot to `([], 1, 1)`.
- This revision's `frontend/api/service.ts` does something else. A create empties the not-completed list. A mark-completed empties both lists. No page or page count is written. The model follows the code.

## Model

| member | source | states |
|---|---|---|
| `Store.TaskStore.constructor` | frontend/store/taskStore.ts:14-17 | a fresh slot holds no tasks, page 1 and page count 1 |
| `Store.TaskStore.SetTasks` | frontend/store/taskStore.ts:18 | the list becomes exactly the given one; page and page count are unchanged |
| `Store.TaskStore.AddTask` | frontend/store/taskStore.ts:19-22 | the list grows by one, the new task is last and all earlier entries keep their order and values; page and page count are unchanged |
| `Store.TaskStore.SetPage` | frontend/store/taskStore.ts:23 | the page becomes the given value, 0 and negatives included (no validation); nothing else changes |
| `Store.TaskStore.SetNumberOfPages` | frontend/store/taskStore.ts:24 | the page count becomes the given value, 0 included; nothing else changes |
| `Store.AppendCountsId` | frontend/store/taskStore.ts:19-22 | appending a task raises the number of entries with its id by exactly one and leaves every other id's count alone |
| `Store.AddTaskKeepsDuplicates` | frontend/store/taskStore.ts:19-22 | adding a task whose id is already listed leaves at least two entries with that id (no de-duplication) |
| `Service.CreateTaskService` | frontend/api/service.ts:5-10 | POSTs the task to `/tasks` and returns the server's answer unchanged; on success the not-completed list is empty; on failure the slot is unchanged; the completed slot and all page fields are never touched |
| `Service.FetchTasksCompletedService` | frontend/api/service.ts:12-17 | GETs `/tasks/completed`; on success the completed list is exactly `data.tasks` and that sequence is returned; on failure the same error is returned and the slot is unchanged; the not-completed slot and page fields are untouched |
| `Service.FetchTasksNotCompletedService` | frontend/api/service.ts:19-24 | the same for `/tasks/not-completed` and the not-completed slot, leaving the completed slot alone |
| `Service.MarkTaskAsCompletedService` | frontend/api/service.ts:26-32 | PATCHes `/tasks/<id>` and returns the answer unchanged; on success both lists are empty; on failure neither slot changes; no page field is written |
| `Service.TaskPath` | frontend/api/service.ts:27 | the PATCH path is `/tasks/` followed by a non-empty id rendering |
| `Service.TaskPathInjective` | frontend/api/service.ts:27 | distinct task ids give distinct PATCH paths, so the request names exactly the given task |
| `JsString.DecimalStringInjective` | frontend/api/service.ts:27 | the decimal rendering of `${taskId}` determines the id: distinct integers render differently |
| `Pagination.PrevPage` | frontend/components/task/task-item-list.tsx:24-25 | "prev" gives the larger of page-1 and 1: never below 1, and page-1 whenever that is at least 1 |
| `Pagination.NextPage` | frontend/components/task/task-item-list.tsx:26 | "next" gives the smaller of page+1 and the page count: never above the page count, and page+1 whenever that fits |
| `Pagination.PrevStaysOnFirstPage` | frontend/components/task/__tests__/task.test.tsx:269-277 | "prev" on page 1 stays on page 1 |
| `Pagination.NextStaysOnLastPage` | frontend/components/task/__tests__/task.test.tsx:279-293 | "next" on the last page stays there |
| `Pagination.StepExamples` | frontend/components/task/__tests__/task.test.tsx:240-267 | from page 1 of 3 "next" gives 2; from page 2 "prev" gives 1 |
| `Pagination.NextWithNoPages` | frontend/components/task/task-item-list.tsx:26 | with a page count of 0, "next" yields page 0 (only the upper clamp applies) |
| `Pagination.StepsStayInRange` | frontend/components/task/task-item-list.tsx:23-32 | a page inside `[1, page count]` stays inside it after either step |
| `Pagination.StepsAreInverse` | frontend/components/task/task-item-list.tsx:23-32 | away from the clamps, "prev" undoes "next" and "next" undoes "prev" |
| `Pagination.TaskItemList.constructor` | frontend/components/task/task-item-list.tsx:10 | the view starts with `showCompleted` false |
| `Pagination.TaskItemList.ToggleShowCompleted` | frontend/components/task/task-item-list.tsx:46 | each toggle flips `showCompleted` |
| `Pagination.TaskItemList.HandlePageChange` | frontend/components/task/task-item-list.tsx:21-35 | writes the clamped new page into the visible slot only; the other slot, both page counts and both task lists are unchanged |
| `Wizard.TodoButton.constructor` | frontend/components/buttons/todo-button.tsx:17-19 | the wizard starts in step `initial` with empty title and description |
| `Wizard.TodoButton.HandleAddClick` | frontend/components/buttons/todo-button.tsx:34-36 | the add click, available only in `initial`, moves to `title` and leaves both registers alone |
| `Wizard.TodoButton.HandleTitleSubmit` | frontend/components/buttons/todo-button.tsx:38-41 | a title whose trim is non-empty is stored as typed and the step moves to `description` |
| `Wizard.TodoButton.HandleDescriptionSubmit` | frontend/components/buttons/todo-button.tsx:43-49 | stores the raw description and yields `{title: trim(title), description: trim(value)}`, whose title is never empty; the step stays `description` |
| `Wizard.TodoButton.OnCreateSuccess` | frontend/components/buttons/todo-button.tsx:25-29 | title and description reset to "" and the step returns to `initial`, exactly the start state |
| `Wizard.TodoButton.SubmitDescription` | frontend/components/buttons/todo-button.tsx:23-50 | a description submit sends the trimmed pair to `/tasks`; on success the wizard is at its start, the not-completed list is empty and no toast is shown; on failure the wizard stays in `description`, no store field changes and exactly one error toast is shown |
| `JsString.TrimStartSpec` | frontend/components/buttons/todo-button.tsx:46-47 | leading-whitespace removal keeps a suffix, drops only whitespace and leaves no leading whitespace |
| `JsString.TrimEndSpec` | frontend/components/buttons/todo-button.tsx:46-47 | trailing-whitespace removal keeps a prefix, drops only whitespace and leaves no trailing whitespace |
| `JsString.TrimSpec` | frontend/components/buttons/todo-button.tsx:46-47 | the trimmed string neither starts nor ends with whitespace |
| `JsString.TrimIsInfix` | frontend/components/buttons/todo-button.tsx:46-47 | the trimmed string is an infix of the input and everything outside it is whitespace |
| `JsString.TrimEmptyIffAllWhitespace` | frontend/components/input/title-input.tsx:14-16 | a value trims to "" exactly when it is all whitespace, which is what the title guard rejects |
| `JsString.TrimKeepsClean` | frontend/components/buttons/todo-button.tsx:46-47 | a string with no whitespace at either end is unchanged by trimming |
| `JsString.TrimIdempotent` | frontend/components/buttons/todo-button.tsx:46-47 | trimming twice equals trimming once |
| `ExecuteServiceUtil.ExecuteService` | backend/src/common/utils/execute-service.util.ts:4-33 | resolves exactly when the operation returns, with `success` true and the result as data; otherwise throws with `success` false and no data; a failure with a truthy status is rethrown as its own class with its own message and status; any other failure becomes a 500 internal-server-error with the generic message |
| `ExecuteServiceUtil.SuccessEnvelope` | backend/src/common/utils/execute-service.util.ts:7-16 | the success envelope is `{success: true, data: result, message: 'Operation completed successfully.', statusCode: successCode}`, with the code defaulting to 200 |
| `ExecuteServiceUtil.StatuslessErrorIsHidden` | backend/src/common/utils/execute-service.util.ts:26-31 | a status-less failure's class and message never reach the response: any two such failures give the same exception |
| `ExecuteServiceUtil.DefaultErrorEnvelope` | backend/src/common/utils/execute-service.util.ts:6-31 | without a message argument, a status-less failure throws `{success: false, message: 'Something is UNUSUAL.', statusCode: 500}` |
| `ExecuteServiceUtil.ParametersAreIndependent` | backend/src/common/utils/execute-service.util.ts:4-31 | the success code never affects a failure, and the error message never affects a success |
| `QueryClient.ToastMessage` | frontend/api/queryClient.ts:29-32 | the toast text is the server's `response.data.message` if non-empty, else the error's own message if non-empty, else "An unexpected error occurred"; it is never empty |
| `QueryClient.OnError` | frontend/api/queryClient.ts:27-35 | a failed mutation issues exactly one error toast, carrying the chosen non-empty message |
| `QueryClient.EmptyServerMessageIsAbsent` | frontend/api/queryClient.ts:29-30 | an empty server message gives the same toast as no server response at all |
| `QueryClient.EmptyOwnMessageFallsBack` | frontend/api/queryClient.ts:31-32 | with no usable server message, an empty own message gives the fallback text |
| `QueryClient.ToastMessageOrigin` | frontend/api/queryClient.ts:29-32 | the toast text is the fallback or one of the two messages carried by the error |

## Left out

- Asynchrony and rendering: React state batching, zustand subscriptions and re-renders, react-query scheduling, retries and loading states, animations and icons. Each handler is modelled as one atomic step.
- HTTP transport (`frontend/api/apiManager.ts`): each request is the parameter `api` and yields a payload or a rejection. The request body and headers beyond method, path and the create body are not modelled.
- The console logging in `executeService` is I/O and is not modelled. The store in this revision persists nothing: `frontend/store/taskStore.ts` is a plain zustand store with no persistence middleware.
- The backend task service and controller are not part of this model. The task service and controller in this revision are thin database and routing wrappers. The pagination arithmetic, mark/delete and page defaulting that their tests expect are not in this revision.
- frontend/components/input/description-input.tsx is not part of this model. Its guard on the description is unknown, so `HandleDescriptionSubmit` accepts any value.
- `Wizard.TodoButton.HandleTitleSubmit` requires a value whose trim is non-empty. This guard belongs to the title input that calls it, frontend/components/input/title-input.tsx:14-16, not to the handler itself.
- Cancelling the wizard midway is not modelled. The code has no such transition.
- `JsString.IsWhitespace` covers the ECMAScript WhiteSpace and LineTerminator code points. Dafny characters are Unicode scalar values, not UTF-16 code units, so unpaired surrogates are not modelled.
- `ExecuteServiceUtil.HasStatus` treats `status` as a present integer that is truthy when non-zero. A `NaN` or a non-numeric `status` is not modelled.
- `ExecuteServiceUtil.ExecuteService` models the rethrown exception as its class name and response body. Framework internals of `new error.constructor(...)` are not modelled; the model takes the rethrown status to be the one in the body.
- `QueryClient.ToastMessage` assumes message fields are strings or absent. Non-string truthy values, which JavaScript's `||` would pass through, are not modelled.
- JavaScript `number` values (page, page count, `taskId`, `status`) are Dafny integers. Fractional, `NaN` and `undefined` operands are not modelled, for example `Math.min(page + 1, undefined)` in `frontend/components/task/task-item-list.tsx`.
