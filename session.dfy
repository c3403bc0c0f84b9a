/**
 * One user's FSM context: the current state and the field map that the
 * handlers accumulate, with aiogram's `set_state`, `update_data`,
 * `get_data` and `clear`.
 */
module Fsm {

  /** The states of `tgbot.states.states`, plus Idle for "no state set". */
  datatype State =
    | Idle
    | SubjectName | SubjectDescription
    | TaskName | TaskDescription | TaskDueDate
    | OptionsOption
    | SolutionFileLink

  /** The database call the confirmation step will make: `db.create_subject` or `db.create_subject_task`. */
  datatype Intent = CreateSubject | CreateSubjectTask

  /** A value stored under a field name; Null is Python's None (for example `message.text` of a non-text message). */
  datatype Value = Null | Text(s: string) | Id(n: int) | Pending(intent: Intent)

  type Fields = map<string, Value>

  /** `dict.get(key)`. */
  function Get(d: Fields, key: string): (v: Value)
    ensures key !in d ==> v == Null
  {
    if key in d then d[key] else Null
  }

  /**
   * What every handler keeps true: a session without a state holds no
   * fields, and the confirmation state always carries the pending commit
   * under "method".
   */
  predicate SessionInvariant(st: State, d: Fields)
  {
    && (st == Idle ==> d == map[])
    && (st == OptionsOption ==> "method" in d && d["method"].Pending?)
  }

  class Session {
    var state: State
    var data: Fields

    constructor ()
      ensures state == Idle && data == map[]
      ensures SessionInvariant(state, data)
    {
      state := Idle;
      data := map[];
    }

    method SetState(st: State)
      modifies this
      ensures state == st && data == old(data)
    {
      state := st;
    }

    /** Merges `fields` into the data; a key already present takes the new value. */
    method UpdateData(fields: Fields)
      modifies this
      ensures state == old(state)
      ensures data == old(data) + fields
      ensures data.Keys == old(data).Keys + fields.Keys
    {
      data := data + fields;
    }

    /** A copy of the data: changing it does not change the session. */
    method GetData() returns (d: Fields)
      ensures d == data
    {
      d := data;
    }

    method Clear()
      modifies this
      ensures state == Idle && data == map[]
      ensures SessionInvariant(state, data)
    {
      state := Idle;
      data := map[];
    }
  }
}
