/**
 * The student router of `tgbot/handlers/tasks.py`. Every message and button
 * press first passes the router's student filter. Then two handlers are
 * tried in order: the `create` button of a task opens a solution, and in
 * `Solution.file_link` a message carrying a document closes it by storing
 * the link, clearing the session and creating the solution.
 */
module StudentHandlers {
  import opened Wrappers
  import opened Models
  import opened Fsm
  import opened Events
  import Callbacks

  // The router's replies.
  const SolutionOpened := "Task created"
  const AskTaskId := "Write a task id"

  /** The handlers of the router, named by the filter that selects them. */
  datatype Route =
    | SolutionButton   // create_solution
    | FileLinkStep     // set_solution_file_link

  /** The handler's own filters (the router's student filter is checked before). */
  predicate Accepts(r: Route, st: State, ev: Event)
  {
    match r
    case SolutionButton => ev.CallbackEvent? && TaskActionIs(ev.data, "create")
    case FileLinkStep => ev.MessageEvent? && st == SolutionFileLink && ev.message.document.Some?
  }

  /** The handler the router runs: the first, in registration order, whose filters accept the event. */
  function Match(st: State, ev: Event): (r: Option<Route>)
    ensures r.Some? ==> Accepts(r.value, st, ev)
    ensures r.None? ==> !Accepts(SolutionButton, st, ev) && !Accepts(FileLinkStep, st, ev)
  {
    if Accepts(SolutionButton, st, ev) then Some(SolutionButton)
    else if Accepts(FileLinkStep, st, ev) then Some(FileLinkStep)
    else None
  }

  /** What the handler of `r` does for a student `student` whose session is `(st, d)`. */
  function Apply(r: Route, student: Student, st: State, d: Fields, ev: Event, env: Env): (o: Outcome)
    requires Accepts(r, st, ev)
    ensures o.handled
  {
    match r
    case SolutionButton =>
      var c := Callbacks.Unpack(Callbacks.TaskKind, ev.data).value;
      Handled(SolutionFileLink, d["subject_id" := Id(c.subjectId)]["student_id" := Id(student.id)],
              [AnswerCallback(Some(SolutionOpened))])
    case FileLinkStep =>
      var data := d["file_link" := TextValue(ev.message)];
      var acts := [DownloadDocument(ev.message.document.value), CallCreateSolution(data)];
      if env.createSolution(data) == Failed then Raised(Idle, map[], acts)
      else Handled(Idle, map[], acts + [Answer(AskTaskId)])
  }

  /** One event offered to the student router. */
  function StudentStep(st: State, d: Fields, ev: Event, env: Env): (o: Outcome)
    ensures !o.handled ==> o == Unhandled(st, d)
  {
    match env.studentOf(Sender(ev))
    case None => Unhandled(st, d)
    case Some(student) =>
      match Match(st, ev)
      case None => Unhandled(st, d)
      case Some(r) => Apply(r, student, st, d, ev, env)
  }

  // ---------------------------------------------------------------------
  // The handlers, on a live session
  // ---------------------------------------------------------------------

  /** `create_solution`: open a solution for the subject of the button's task. */
  method CreateSolution(s: Session, c: Callbacks.CallbackData, student: Student) returns (acts: seq<Action>)
    requires c.TaskCallback?
    modifies s
    ensures s.state == SolutionFileLink
    ensures s.data == old(s.data)["subject_id" := Id(c.subjectId)]["student_id" := Id(student.id)]
    ensures acts == [AnswerCallback(Some(SolutionOpened))]
  {
    s.SetState(SolutionFileLink);
    s.UpdateData(map["subject_id" := Id(c.subjectId), "student_id" := Id(student.id)]);
    acts := [AnswerCallback(Some(SolutionOpened))];
  }

  /**
   * `set_solution_file_link`: download the document, store the message text
   * as `file_link`, clear the session and create the solution from the
   * collected fields. `ending` says whether the database call raised.
   */
  method SetSolutionFileLink(s: Session, m: Message, env: Env) returns (acts: seq<Action>, ending: Ending)
    requires m.document.Some?
    modifies s
    ensures s.state == Idle && s.data == map[]
    ensures var data := old(s.data)["file_link" := TextValue(m)];
      && |acts| >= 2 && acts[..2] == [DownloadDocument(m.document.value), CallCreateSolution(data)]
      && (env.createSolution(data) == Failed <==> ending == Raises)
      && (ending == Raises ==> acts == acts[..2])
      && (ending == Returns ==> acts == acts[..2] + [Answer(AskTaskId)])
  {
    acts := [DownloadDocument(m.document.value)];
    s.UpdateData(map["file_link" := TextValue(m)]);
    var data := s.GetData();
    assert data == old(s.data)["file_link" := TextValue(m)];
    s.Clear();
    var result := env.createSolution(data);
    acts := acts + [CallCreateSolution(data)];
    if result == Failed {
      return acts, Raises;
    }
    acts := acts + [Answer(AskTaskId)];
    ending := Returns;
  }

  method RunSolutionButton(s: Session, student: Student, ev: Event, env: Env) returns (acts: seq<Action>, ending: Ending)
    requires Accepts(SolutionButton, s.state, ev)
    modifies s
    ensures var o := Apply(SolutionButton, student, old(s.state), old(s.data), ev, env);
      o.handled && s.state == o.state && s.data == o.data && acts == o.actions && ending == o.ending
  {
    ending := Returns;
    acts := CreateSolution(s, Callbacks.Unpack(Callbacks.TaskKind, ev.data).value, student);
  }

  method RunFileLinkStep(s: Session, student: Student, ev: Event, env: Env) returns (acts: seq<Action>, ending: Ending)
    requires Accepts(FileLinkStep, s.state, ev)
    modifies s
    ensures var o := Apply(FileLinkStep, student, old(s.state), old(s.data), ev, env);
      o.handled && s.state == o.state && s.data == o.data && acts == o.actions && ending == o.ending
  {
    acts, ending := SetSolutionFileLink(s, ev.message, env);
  }

  /**
   * The router at work: check the student filter, pick the first handler
   * that accepts the event and run it on the session.
   */
  method Dispatch(s: Session, ev: Event, env: Env) returns (handled: bool, acts: seq<Action>, ending: Ending)
    modifies s
    ensures var o := StudentStep(old(s.state), old(s.data), ev, env);
      handled == o.handled && s.state == o.state && s.data == o.data && acts == o.actions && ending == o.ending
  {
    var student := env.studentOf(Sender(ev));
    if student.None? {
      return false, [], Returns;
    }
    var route := Match(s.state, ev);
    if route.None? {
      return false, [], Returns;
    }
    handled := true;
    match route.value {
      case SolutionButton => acts, ending := RunSolutionButton(s, student.value, ev, env);
      case FileLinkStep => acts, ending := RunFileLinkStep(s, student.value, ev, env);
    }
  }
}

module StudentProperties {
  import opened Wrappers
  import opened Models
  import opened Fsm
  import opened Events
  import Callbacks
  import opened StudentHandlers

  /** The student gate: an event from a user who is no student is not handled and changes nothing. */
  lemma GateRejects(st: State, d: Fields, ev: Event, env: Env)
    requires env.studentOf(Sender(ev)).None?
    ensures StudentStep(st, d, ev, env) == Unhandled(st, d)
  {
  }

  /**
   * The `create` button of a task opens a solution, from any state: it seeds
   * `subject_id` from the token's subject (not its task) and `student_id`
   * from the student record.
   */
  lemma CreateButtonOpensSolution(st: State, d: Fields, from: int, subjectId: int, taskId: int, env: Env)
    requires env.studentOf(from).Some?
    requires Callbacks.Pack(Callbacks.TaskCallback(subjectId, taskId, Some("create"))).Some?
    ensures var token := Callbacks.Pack(Callbacks.TaskCallback(subjectId, taskId, Some("create"))).value;
      StudentStep(st, d, CallbackEvent(from, token), env)
        == Handled(SolutionFileLink, d["subject_id" := Id(subjectId)]["student_id" := Id(env.studentOf(from).value.id)],
                   [AnswerCallback(Some(SolutionOpened))])
  {
    var c := Callbacks.TaskCallback(subjectId, taskId, Some("create"));
    Callbacks.UnpackPack(c);
  }

  /** In `Solution.file_link` a message without a document matches no handler and leaves the session as it was. */
  lemma NonDocumentUnhandled(d: Fields, m: Message, env: Env)
    requires m.document.None?
    ensures StudentStep(SolutionFileLink, d, MessageEvent(m), env) == Unhandled(SolutionFileLink, d)
  {
  }

  /**
   * A document in `Solution.file_link` stores the message's text (not the
   * file id) as `file_link`, clears the session and then creates the
   * solution from the collected fields; the session ends empty whatever the
   * database does, and unless it raises the reply is "Write a task id".
   */
  lemma DocumentClosesSolution(d: Fields, m: Message, env: Env)
    requires env.studentOf(m.from).Some? && m.document.Some?
    ensures var o := StudentStep(SolutionFileLink, d, MessageEvent(m), env);
      var data := d["file_link" := TextValue(m)];
      && o.handled && o.state == Idle && o.data == map[]
      && |o.actions| >= 2 && o.actions[..2] == [DownloadDocument(m.document.value), CallCreateSolution(data)]
      && (o.ending == Returns <==> env.createSolution(data) != Failed)
      && (o.ending == Returns ==> o.actions == o.actions[..2] + [Answer(AskTaskId)])
  {
    assert Match(SolutionFileLink, MessageEvent(m)) == Some(FileLinkStep);
  }

  /**
   * The whole solution flow: after the `create` button and a document, the
   * database is asked to create a solution with exactly the subject of the
   * token, the student and the message text as the link (on top of what the
   * session held before).
   */
  lemma SolutionFlowFields(st: State, d: Fields, from: int, subjectId: int, taskId: int, m: Message, env: Env)
    requires env.studentOf(from).Some? && m.from == from && m.document.Some?
    requires Callbacks.Pack(Callbacks.TaskCallback(subjectId, taskId, Some("create"))).Some?
    ensures var token := Callbacks.Pack(Callbacks.TaskCallback(subjectId, taskId, Some("create"))).value;
      var o1 := StudentStep(st, d, CallbackEvent(from, token), env);
      var o2 := StudentStep(o1.state, o1.data, MessageEvent(m), env);
      var fields := d["subject_id" := Id(subjectId)]["student_id" := Id(env.studentOf(from).value.id)]["file_link" := TextValue(m)];
      o1.state == SolutionFileLink && o2.state == Idle && o2.data == map[] && |o2.actions| >= 2 && o2.actions[1] == CallCreateSolution(fields)
  {
    CreateButtonOpensSolution(st, d, from, subjectId, taskId, env);
    var token := Callbacks.Pack(Callbacks.TaskCallback(subjectId, taskId, Some("create"))).value;
    var o1 := StudentStep(st, d, CallbackEvent(from, token), env);
    DocumentClosesSolution(o1.data, m, env);
  }

  /** Both handlers keep the session invariant. */
  lemma StepPreservesInvariant(st: State, d: Fields, ev: Event, env: Env)
    requires SessionInvariant(st, d)
    ensures var o := StudentStep(st, d, ev, env); SessionInvariant(o.state, o.data)
  {
  }
}
