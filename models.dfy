/**
 * The persisted records the handlers read. They come from the database
 * oracles and are never changed by the modelled code, except a subject's
 * student set (see Utils.SubjectEntity).
 */
module Models {
  import opened Wrappers

  datatype Subject = Subject(id: int, name: string)

  datatype Teacher = Teacher(id: int, userId: int)

  datatype Student = Student(id: int, userId: int, name: string)

  datatype DateFields = DateFields(day: int, month: int, year: int)

  /** A calendar date as Python's `datetime.date` holds it (years 1 to 9999). */
  type Date = d: DateFields | 1 <= d.day <= 31 && 1 <= d.month <= 12 && 1 <= d.year <= 9999
    witness DateFields(1, 1, 1)

  datatype SubjectTask = SubjectTask(id: int, name: string, description: string, dueDate: Date)

  datatype Solution = Solution(
    id: int,
    grade: Option<int>,
    fileLink: Option<string>,
    studentName: string,
    studentUserId: int,
    taskName: string)
}
