/** The persisted task record (Models/TaskItem.cs) and the task identifier. */
module Models {

  /** A 128-bit globally unique identifier, as a number. */
  newtype Guid = n: int | 0 <= n < 0x1_0000_0000_0000_0000_0000_0000_0000_0000

  /** The all-zero identifier, the value of an unset Guid property. */
  const EmptyGuid: Guid := 0

  /** One persisted task. `dayAssignment == ""` means "not planned on a day". */
  datatype TaskItem = TaskItem(
    id: Guid,
    text: string,
    originalCategory: string,
    dayAssignment: string,
    markerStates: seq<bool>)

  /** A record is planned on a day when its day assignment is not the empty string. */
  predicate HasDay(t: TaskItem)
  {
    t.dayAssignment != ""
  }

  /** A record as constructed with no initialisers: every property at its declared default. */
  function DefaultTaskItem(): (t: TaskItem)
    ensures t.id == EmptyGuid
    ensures t.text == "" && t.originalCategory == ""
    ensures t.dayAssignment == "" && !HasDay(t)
    ensures t.markerStates == []
  {
    TaskItem(EmptyGuid, "", "", "", [])
  }
}
