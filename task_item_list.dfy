/** The task list view: a toggle choosing which partition is visible, and
    prev/next buttons that move the visible partition's page, clamped below at 1
    and above at that partition's page count. */
module Pagination {
  import opened Store

  datatype Direction = Prev | Next

  /** `Math.max(page - 1, 1)`: one page back, never below 1. */
  function PrevPage(page: int): (r: int)
    ensures r >= 1 && r >= page - 1
    ensures r == 1 || r == page - 1
  {
    if page - 1 > 1 then page - 1 else 1
  }

  /** `Math.min(page + 1, numberOfPages)`: one page on, never beyond the page
      count. Only this upper clamp applies, so with no pages the result is 0 or less. */
  function NextPage(page: int, numberOfPages: int): (r: int)
    ensures r <= numberOfPages && r <= page + 1
    ensures r == numberOfPages || r == page + 1
  {
    if page + 1 < numberOfPages then page + 1 else numberOfPages
  }

  /** On page 1, "prev" stays on page 1. */
  lemma PrevStaysOnFirstPage()
    ensures PrevPage(1) == 1
  {
  }

  /** On the last page, "next" stays there. */
  lemma NextStaysOnLastPage(numberOfPages: int)
    ensures NextPage(numberOfPages, numberOfPages) == numberOfPages
  {
  }

  /** From page 1 of 3 "next" gives 2; from page 2 "prev" gives 1. */
  lemma StepExamples()
    ensures NextPage(1, 3) == 2 && PrevPage(2) == 1 && NextPage(2, 2) == 2
  {
  }

  /** With a page count of 0, "next" from any page at or above 0 yields page 0. */
  lemma NextWithNoPages(page: int)
    requires page >= 0
    ensures NextPage(page, 0) == 0
  {
  }

  /** Both steps keep a page that lies in `[1, numberOfPages]` inside that range. */
  lemma StepsStayInRange(page: int, numberOfPages: int)
    requires 1 <= page <= numberOfPages
    ensures 1 <= PrevPage(page) <= numberOfPages
    ensures 1 <= NextPage(page, numberOfPages) <= numberOfPages
  {
  }

  /** Away from the clamps the two steps undo each other. */
  lemma StepsAreInverse(page: int, numberOfPages: int)
    ensures 1 <= page < numberOfPages ==> PrevPage(NextPage(page, numberOfPages)) == page
    ensures 1 < page <= numberOfPages ==> NextPage(PrevPage(page), numberOfPages) == page
  {
  }

  class TaskItemList {
    var showCompleted: bool

    /** The view starts on the not-completed partition. */
    constructor ()
      ensures !showCompleted
    {
      showCompleted := false;
    }

    /** The toggle button flips which partition is visible. */
    method ToggleShowCompleted()
      modifies this
      ensures showCompleted == !old(showCompleted)
    {
      showCompleted := !showCompleted;
    }

    /** `handlePageChange`: writes the clamped page into the visible slot only;
        the other slot, both page counts and both task lists stay as they were. */
    method HandlePageChange(direction: Direction, completed: TaskStore, notCompleted: TaskStore)
      requires completed != notCompleted
      modifies completed, notCompleted
      ensures var visible := if showCompleted then completed else notCompleted;
        && visible.page == (if direction == Prev then PrevPage(old(visible.page))
                            else NextPage(old(visible.page), old(visible.numberOfPages)))
        && visible.tasks == old(visible.tasks)
        && visible.numberOfPages == old(visible.numberOfPages)
      ensures showCompleted ==> unchanged(notCompleted)
      ensures !showCompleted ==> unchanged(completed)
    {
      var visible := if showCompleted then completed else notCompleted;
      var newPage := if direction == Prev then PrevPage(visible.page)
                     else NextPage(visible.page, visible.numberOfPages);
      visible.SetPage(newPage);
    }
  }
}
