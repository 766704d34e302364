/** The two-step creation wizard behind the "+" button: a three-state machine
    (`Initial -> Title -> Description -> Initial`) with a title and a description
    register. The description submit sends the trimmed pair to the create
    service; only a successful create brings the wizard back to its start. */
module Wizard {
  import opened Wrappers
  import opened JsString
  import opened TaskTypes
  import opened Store
  import opened QueryClient
  import opened Service

  datatype Step = Initial | Title | Description

  class TodoButton {
    var step: Step
    var title: string
    var description: string

    /** The title input only submits values that trim to something, so in the
        description step the stored title is never blank. */
    ghost predicate Valid()
      reads this
    {
      step == Description ==> Trim(title) != ""
    }

    predicate AtStart()
      reads this
    {
      step == Initial && title == "" && description == ""
    }

    constructor ()
      ensures Valid() && AtStart()
    {
      step := Initial;
      title := "";
      description := "";
    }

    /** The "+" button, shown only in the initial step, moves to the title step. */
    method HandleAddClick()
      requires step == Initial
      modifies this
      ensures Valid()
      ensures step == Title && title == old(title) && description == old(description)
    {
      step := Title;
    }

    /** The title input (shown only in the title step, submitting only a value
        whose trim is non-empty) stores the raw value and moves on. */
    method HandleTitleSubmit(titleValue: string)
      requires step == Title && Trim(titleValue) != ""
      modifies this
      ensures Valid()
      ensures step == Description && title == titleValue && description == old(description)
    {
      title := titleValue;
      step := Description;
    }

    /** The description input stores its raw value and yields the task to create:
        both fields trimmed, the title never empty. The step does not change. */
    method HandleDescriptionSubmit(descriptionValue: string) returns (newTask: TaskBase)
      requires Valid() && step == Description
      modifies this
      ensures Valid()
      ensures newTask == TaskBase(Trim(old(title)), Trim(descriptionValue))
      ensures newTask.title != ""
      ensures step == Description && title == old(title) && description == descriptionValue
    {
      description := descriptionValue;
      newTask := TaskBase(Trim(title), Trim(descriptionValue));
    }

    /** The create mutation's `onSuccess`: back to exactly the start state. */
    method OnCreateSuccess()
      modifies this
      ensures Valid() && AtStart()
    {
      title := "";
      description := "";
      step := Initial;
    }

    /** A description submit followed by the create mutation it starts. On success
        the not-completed list is emptied and the wizard is back at its start with
        no toast; on failure the wizard stays in the description step, no store
        field changes and exactly one error toast carries the chosen message. */
    method SubmitDescription<P>(descriptionValue: string, api: Request -> Result<P, ApiError>,
                                completed: TaskStore, notCompleted: TaskStore)
      returns (toasts: seq<Toast>)
      requires Valid() && step == Description && completed != notCompleted
      modifies this, notCompleted
      ensures Valid()
      ensures var call := api(Post("/tasks", TaskBase(Trim(old(title)), Trim(descriptionValue))));
        && (call.Success? ==> AtStart() && notCompleted.tasks == [] && toasts == [])
        && (call.Failure? ==>
              && step == Description && title == old(title) && description == descriptionValue
              && unchanged(notCompleted) && toasts == OnError(Some(call.error)))
      ensures notCompleted.page == old(notCompleted.page)
      ensures notCompleted.numberOfPages == old(notCompleted.numberOfPages)
      ensures unchanged(completed)
    {
      var newTask := HandleDescriptionSubmit(descriptionValue);
      var r := CreateTaskService(newTask, api, completed, notCompleted);
      if r.Success? {
        OnCreateSuccess();
        toasts := [];
      } else {
        toasts := OnError(Some(r.error));
      }
    }
  }
}
