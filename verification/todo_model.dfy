/**
 The persisted task record `TodoModel` of LookHere.swift: a required `id`
 (unique in the store) and `taskName`, and four optional fields.
 */
module Tasks {
  import opened OptionalOrder

  /** A `Date`, of which only the order is used: a timestamp. */
  type Date = int

  datatype TodoModel = TodoModel(
    id: string,
    taskName: string,
    number: Option<int>,
    dateStart: Option<Date>,
    dateEnd: Option<Date>,
    isActive: Option<bool>)

  /**
   The record's initialiser.  It takes `id`, `taskName`, `number` and a time
   that becomes `dateStart`; it never sets `dateEnd` or `isActive`, which keep
   their default `nil`.
   */
  function Init(id: string, taskName: string, number: Option<int>, time: Option<Date>): (r: TodoModel)
    ensures r.id == id && r.taskName == taskName && r.number == number && r.dateStart == time
    ensures r.dateEnd == None && r.isActive == None
  {
    TodoModel(id, taskName, number, time, None, None)
  }
}
