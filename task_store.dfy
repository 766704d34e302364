/** One slot of the client's task cache: a task list, the page being shown and
    the number of pages. The client keeps two such slots, one for completed and
    one for not-completed tasks. The setters store what they are given without
    validating it. */
module Store {
  import opened TaskTypes

  class TaskStore {
    var tasks: seq<Task>
    var page: int
    var numberOfPages: int

    /** A fresh slot: no tasks, on page 1 of 1. */
    constructor ()
      ensures tasks == [] && page == 1 && numberOfPages == 1
    {
      tasks := [];
      page := 1;
      numberOfPages := 1;
    }

    /** Replaces the whole list; page and page count stay. */
    method SetTasks(newTasks: seq<Task>)
      modifies this
      ensures tasks == newTasks
      ensures page == old(page) && numberOfPages == old(numberOfPages)
    {
      tasks := newTasks;
    }

    /** Appends one task after the existing ones, with no check for a repeated id. */
    method AddTask(task: Task)
      modifies this
      ensures |tasks| == |old(tasks)| + 1 && tasks[|tasks| - 1] == task
      ensures tasks[..|old(tasks)|] == old(tasks)
      ensures page == old(page) && numberOfPages == old(numberOfPages)
    {
      tasks := tasks + [task];
    }

    /** Stores any page number, 0 and negative ones included; nothing else changes. */
    method SetPage(newPage: int)
      modifies this
      ensures page == newPage
      ensures tasks == old(tasks) && numberOfPages == old(numberOfPages)
    {
      page := newPage;
    }

    /** Stores any page count, 0 included; nothing else changes. */
    method SetNumberOfPages(newNumberOfPages: int)
      modifies this
      ensures numberOfPages == newNumberOfPages
      ensures tasks == old(tasks) && page == old(page)
    {
      numberOfPages := newNumberOfPages;
    }
  }

  /** How many entries of `tasks` carry the id `id`. */
  function CountId(tasks: seq<Task>, id: int): nat
  {
    if tasks == [] then 0
    else (if tasks[0].id == id then 1 else 0) + CountId(tasks[1..], id)
  }

  /** Appending a task adds exactly one entry with its id and leaves the count of
      every other id alone. */
  lemma {:induction false} AppendCountsId(tasks: seq<Task>, task: Task, id: int)
    ensures CountId(tasks + [task], id) == CountId(tasks, id) + (if task.id == id then 1 else 0)
  {
    if tasks == [] {
      assert [task][1..] == [];
    } else {
      assert (tasks + [task])[1..] == tasks[1..] + [task];
      AppendCountsId(tasks[1..], task, id);
    }
  }

  /** An id that occurs in the list is counted at least once. */
  lemma {:induction false} PresentIdCounted(tasks: seq<Task>, i: nat)
    requires i < |tasks|
    ensures CountId(tasks, tasks[i].id) >= 1
  {
    if i > 0 {
      PresentIdCounted(tasks[1..], i - 1);
    }
  }

  /** Adding a task whose id is already in the list leaves two or more entries
      with that id: `AddTask` does not de-duplicate. */
  lemma AddTaskKeepsDuplicates(tasks: seq<Task>, task: Task, i: nat)
    requires i < |tasks| && tasks[i].id == task.id
    ensures CountId(tasks + [task], task.id) >= 2
  {
    PresentIdCounted(tasks, i);
    AppendCountsId(tasks, task, task.id);
  }
}
