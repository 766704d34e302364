/** The client's task records (`TaskBase` is what a create request carries,
    `Task` what the server returns). */
module TaskTypes {

  datatype TaskBase = TaskBase(title: string, description: string)

  datatype Task = Task(id: int, title: string, description: string, completed: bool)
}
