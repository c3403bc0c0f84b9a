/**
 * The teacher router of `tgbot/handlers/teacher.py`. Every message and
 * button press first passes the router's teacher filter; then the handlers
 * are tried in registration order and the first whose filters accept the
 * event runs. The flows are: creating a subject (name, description of at most
 * 200 characters, confirmation), creating or editing a task (name,
 * description, due date, confirmation), listing the teacher's subjects, and
 * the solution buttons (show the solutions of a task, grade a solution).
 */
module TeacherHandlers {
  import opened Wrappers
  import opened Text
  import opened Models
  import opened Fsm
  import opened Events
  import Callbacks
  import Utils

  /** Longest description the description steps accept. */
  const DescriptionLimit: nat := 200

  // The router's answers to button presses.
  const SolutionReviewed := "Solution was reviewed"
  const ReviewFailed := "Error was occurred"

  /** The handlers of the router, named by the filter that selects them. */
  datatype Route =
    | IsTeacherCommand       // check_teacher
    | CreateSubjectCommand   // create_subject
    | SubjectNameStep        // set_subject_name
    | SubjectDescriptionStep // set_subject_description
    | ConfirmYes             // accept_create
    | ConfirmNo              // decline_create
    | TaskNameStep           // set_task_name
    | TaskDescriptionStep    // set_task_description
    | DescriptionTooLong     // set_description_fail
    | DueDateStep            // set_task_due_date
    | DueDateRejected        // set_task_due_date_fail
    | MySubjectsCommand      // get_subjects
    | ShowSolutionsButton    // show_solutions_for_task
    | EditTaskButton         // edit_task
    | ReviewButton           // review_solution

  /** The handler's place in registration order. */
  function Position(r: Route): nat
  {
    match r
    case IsTeacherCommand => 0
    case CreateSubjectCommand => 1
    case SubjectNameStep => 2
    case SubjectDescriptionStep => 3
    case ConfirmYes => 4
    case ConfirmNo => 5
    case TaskNameStep => 6
    case TaskDescriptionStep => 7
    case DescriptionTooLong => 8
    case DueDateStep => 9
    case DueDateRejected => 10
    case MySubjectsCommand => 11
    case ShowSolutionsButton => 12
    case EditTaskButton => 13
    case ReviewButton => 14
  }

  /** The handler's own filters (the router's teacher filter is checked before). */
  predicate Accepts(r: Route, st: State, ev: Event, env: Env)
  {
    match r
    case IsTeacherCommand => ev.MessageEvent? && IsCommand(ev.message, "is_teacher", env.botUsername)
    case CreateSubjectCommand => ev.MessageEvent? && IsCommand(ev.message, "create_subject", env.botUsername)
    case SubjectNameStep => ev.MessageEvent? && st == SubjectName
    case SubjectDescriptionStep => ev.MessageEvent? && st == SubjectDescription && TextAtMost(ev.message, DescriptionLimit)
    case ConfirmYes => ev.MessageEvent? && st == OptionsOption && TextFoldsTo(ev.message, "yes")
    case ConfirmNo => ev.MessageEvent? && st == OptionsOption && TextFoldsTo(ev.message, "no")
    case TaskNameStep => ev.MessageEvent? && st == TaskName
    case TaskDescriptionStep => ev.MessageEvent? && st == TaskDescription && TextAtMost(ev.message, DescriptionLimit)
    case DescriptionTooLong =>
      ev.MessageEvent? && (st == TaskDescription || st == SubjectDescription) && TextLonger(ev.message, DescriptionLimit)
    case DueDateStep => ev.MessageEvent? && st == TaskDueDate && env.validDate(ev.message).Some?
    case DueDateRejected => ev.MessageEvent? && st == TaskDueDate && env.validDate(ev.message).None?
    case MySubjectsCommand => ev.MessageEvent? && IsCommand(ev.message, "my_subjects", env.botUsername)
    case ShowSolutionsButton => ev.CallbackEvent? && TaskActionIs(ev.data, "show_solutions")
    case EditTaskButton => ev.CallbackEvent? && TaskActionIs(ev.data, "edit")
    case ReviewButton => ev.CallbackEvent? && Callbacks.Unpack(Callbacks.SolutionKind, ev.data).Some?
  }

  /**
   * The step handler of state `st` that accepts a message, if any. Within
   * one state the step filters exclude each other, so at most one accepts.
   */
  function StepRoute(st: State, m: Message, env: Env): (r: Option<Route>)
    ensures r.Some? ==> Accepts(r.value, st, MessageEvent(m), env)
  {
    match st
    case SubjectName => Some(SubjectNameStep)
    case SubjectDescription =>
      if TextAtMost(m, DescriptionLimit) then Some(SubjectDescriptionStep)
      else if TextLonger(m, DescriptionLimit) then Some(DescriptionTooLong)
      else None
    case OptionsOption =>
      if TextFoldsTo(m, "yes") then Some(ConfirmYes)
      else if TextFoldsTo(m, "no") then Some(ConfirmNo)
      else None
    case TaskName => Some(TaskNameStep)
    case TaskDescription =>
      if TextAtMost(m, DescriptionLimit) then Some(TaskDescriptionStep)
      else if TextLonger(m, DescriptionLimit) then Some(DescriptionTooLong)
      else None
    case TaskDueDate => if env.validDate(m).Some? then Some(DueDateStep) else Some(DueDateRejected)
    case _ => None
  }

  /**
   * The message handler the router runs: the two commands registered first,
   * then the handler of the current step, then `/my_subjects`. This is the
   * first message handler in registration order whose filters accept the
   * message (TeacherProperties.MessageRouteIsFirstMatch).
   */
  function MessageRoute(st: State, m: Message, env: Env): (r: Option<Route>)
    ensures r.Some? ==> Accepts(r.value, st, MessageEvent(m), env)
  {
    if IsCommand(m, "is_teacher", env.botUsername) then Some(IsTeacherCommand)
    else if IsCommand(m, "create_subject", env.botUsername) then Some(CreateSubjectCommand)
    else if StepRoute(st, m, env).Some? then StepRoute(st, m, env)
    else if IsCommand(m, "my_subjects", env.botUsername) then Some(MySubjectsCommand)
    else None
  }

  /** The callback-query handler the router runs: the first, in registration order, whose filters accept the press. */
  function CallbackRoute(st: State, from: int, data: string, env: Env): (r: Option<Route>)
    ensures r.Some? ==> Accepts(r.value, st, CallbackEvent(from, data), env)
  {
    var ev := CallbackEvent(from, data);
    if Accepts(ShowSolutionsButton, st, ev, env) then Some(ShowSolutionsButton)
    else if Accepts(EditTaskButton, st, ev, env) then Some(EditTaskButton)
    else if Accepts(ReviewButton, st, ev, env) then Some(ReviewButton)
    else None
  }

  /**
   * The handler the router runs: message handlers only ever see messages
   * and callback-query handlers only button presses, each tried in
   * registration order.
   */
  function Match(st: State, ev: Event, env: Env): (r: Option<Route>)
    ensures r.Some? ==> Accepts(r.value, st, ev, env)
  {
    match ev
    case MessageEvent(m) => MessageRoute(st, m, env)
    case CallbackEvent(from, data) => CallbackRoute(st, from, data, env)
  }

  /** The solutions of a task, one card each, or a notice when there is none. */
  function SolutionCards(solutions: seq<Solution>): (acts: seq<Action>)
    ensures |solutions| == 0 ==> acts == [Say(NoSolutions)]
    ensures |solutions| > 0 ==> |acts| == |solutions| && forall i :: 0 <= i < |solutions| ==> acts[i] == SolutionCard(solutions[i])
  {
    if |solutions| == 0 then [Say(NoSolutions)]
    else seq(|solutions|, i requires 0 <= i < |solutions| => SolutionCard(solutions[i]))
  }

  /** The replies of the `my_subjects` command. */
  function SubjectsReply(subjects: seq<Subject>, env: Env): seq<Action>
  {
    if |subjects| > 0 then
      [Say(SubjectsHeader),
       SubjectListing(Utils.SubjectMessage(subjects, Utils.TeacherLinkMethods, env.html, env.startLink)),
       Say(SubjectsFooter)]
    else [Say(NoSubjects)]
  }

  /** The confirmation step: pop the pending commit, clear the session, run the commit. */
  function Commit(st: State, d: Fields, env: Env): Outcome
  {
    if "method" !in d then Raised(st, d, [])            // data.pop("method") raises KeyError; nothing cleared
    else
      var rest := d - {"method"};
      match d["method"]
      case Pending(intent) =>
        (match env.commit(intent, rest)
         case Created => Handled(Idle, map[], [CallDatabase(intent, rest), Say(ObjectCreated)])
         case NotCreated => Handled(Idle, map[], [CallDatabase(intent, rest), Say(ObjectNotCreated)])
         case Failed => Raised(Idle, map[], [CallDatabase(intent, rest)]))
      case _ => Raised(Idle, map[], [])                  // the stored value is not callable
  }

  /** What the handler of `r` does for a teacher `t` whose session is `(st, d)`. */
  function Apply(r: Route, t: Teacher, st: State, d: Fields, ev: Event, env: Env): (o: Outcome)
    requires Accepts(r, st, ev, env)
    ensures o.handled
  {
    match r
    case IsTeacherCommand => Handled(st, d, [Say(TeacherGreeting), AnswerHelp])
    case CreateSubjectCommand => Handled(SubjectName, d, [Say(AskSubjectName)])
    case SubjectNameStep =>
      Handled(SubjectDescription, d["name" := TextValue(ev.message)],
              [Say(AskSubjectDescription)])
    case SubjectDescriptionStep =>
      var d1 := d["description" := TextValue(ev.message)];
      Handled(OptionsOption, d1["method" := Pending(CreateSubject)]["teacher_id" := Id(t.id)],
              [SubjectCard(Get(d1, "name"), Get(d1, "description")), AskConfirmation])
    case ConfirmYes => Commit(st, d, env)
    case ConfirmNo => Handled(Idle, map[], [Say(ObjectNotCreated)])
    case TaskNameStep =>
      Handled(TaskDescription, d["name" := TextValue(ev.message)],
              [Say(AskTaskDescription)])
    case TaskDescriptionStep =>
      Handled(TaskDueDate, d["description" := TextValue(ev.message)],
              [Say(AskDueDate)])
    case DescriptionTooLong => Handled(Idle, map[], [Say(LimitReached)])
    case DueDateStep =>
      var d1 := d["due_date" := Text(env.validDate(ev.message).value)];
      Handled(OptionsOption, d1["method" := Pending(CreateSubjectTask)],
              [TaskCard(Get(d1, "name"), Get(d1, "description"), Get(d1, "due_date")), AskConfirmation])
    case DueDateRejected =>
      Handled(st, d, [Say(DateRejected)])
    case MySubjectsCommand => Handled(st, d, SubjectsReply(env.subjectsOf(t.id), env))
    case ShowSolutionsButton =>
      var c := Callbacks.Unpack(Callbacks.TaskKind, ev.data).value;
      Handled(st, d, SolutionCards(env.solutionsFor(c.taskId)) + [AnswerCallback(None)])
    case EditTaskButton =>
      var c := Callbacks.Unpack(Callbacks.TaskKind, ev.data).value;
      Handled(TaskName, d["task_id" := Id(c.taskId)]["subject_id" := Id(c.subjectId)],
              [Say(AskTaskName), AnswerCallback(None)])
    case ReviewButton =>
      var c := Callbacks.Unpack(Callbacks.SolutionKind, ev.data).value;
      match env.updateGrade(c.solutionId, c.grade)
      case Some(sol) =>
        Handled(st, d, [EditSolutionCard(sol), NotifyStudent(sol.studentUserId, sol.taskName, sol.grade),
                        AnswerCallback(Some(SolutionReviewed))])
      case None => Handled(st, d, [AnswerCallback(Some(ReviewFailed))])
  }

  /** One event offered to the teacher router. */
  function TeacherStep(st: State, d: Fields, ev: Event, env: Env): (o: Outcome)
    ensures !o.handled ==> o == Unhandled(st, d)
  {
    match env.teacherOf(Sender(ev))
    case None => Unhandled(st, d)
    case Some(t) =>
      match Match(st, ev, env)
      case None => Unhandled(st, d)
      case Some(r) => Apply(r, t, st, d, ev, env)
  }

  // ---------------------------------------------------------------------
  // The handlers, on a live session
  // ---------------------------------------------------------------------

  method CheckTeacher(s: Session) returns (acts: seq<Action>)
    ensures acts == [Say(TeacherGreeting), AnswerHelp]
  {
    acts := [Say(TeacherGreeting), AnswerHelp];
  }

  /** `create_subject`: enter the subject flow. */
  method BeginSubject(s: Session) returns (acts: seq<Action>)
    modifies s
    ensures s.state == SubjectName && s.data == old(s.data)
    ensures acts == [Say(AskSubjectName)]
  {
    s.SetState(SubjectName);
    acts := [Say(AskSubjectName)];
  }

  method SetSubjectName(s: Session, m: Message) returns (acts: seq<Action>)
    modifies s
    ensures s.state == SubjectDescription && s.data == old(s.data)["name" := TextValue(m)]
    ensures acts == [Say(AskSubjectDescription)]
  {
    s.UpdateData(map["name" := TextValue(m)]);
    s.SetState(SubjectDescription);
    acts := [Say(AskSubjectDescription)];
  }

  method SetSubjectDescription(s: Session, m: Message, t: Teacher) returns (acts: seq<Action>)
    modifies s
    ensures s.state == OptionsOption
    ensures s.data == old(s.data)["description" := TextValue(m)]["method" := Pending(CreateSubject)]["teacher_id" := Id(t.id)]
    ensures "method" in s.data && s.data["method"] == Pending(CreateSubject)
    ensures var d1 := old(s.data)["description" := TextValue(m)];
      acts == [SubjectCard(Get(d1, "name"), Get(d1, "description")), AskConfirmation]
  {
    s.UpdateData(map["description" := TextValue(m)]);
    var subjectData := s.GetData();
    s.SetState(OptionsOption);
    s.UpdateData(map["method" := Pending(CreateSubject), "teacher_id" := Id(t.id)]);
    acts := [SubjectCard(Get(subjectData, "name"), Get(subjectData, "description")), AskConfirmation];
  }

  /** `accept_create`. `ending` says whether the handler ends with an exception. */
  method AcceptCreate(s: Session, env: Env) returns (acts: seq<Action>, ending: Ending)
    modifies s
    ensures "method" !in old(s.data) ==> ending == Raises && acts == [] && s.state == old(s.state) && s.data == old(s.data)
    ensures "method" in old(s.data) ==> s.state == Idle && s.data == map[]
    ensures var o := Commit(old(s.state), old(s.data), env);
      s.state == o.state && s.data == o.data && acts == o.actions && ending == o.ending
  {
    var data := s.GetData();
    if "method" !in data {
      return [], Raises;
    }
    var dbMethod := data["method"];
    data := data - {"method"};
    s.Clear();
    match dbMethod {
      case Pending(intent) =>
        var result := env.commit(intent, data);
        acts := [CallDatabase(intent, data)];
        if result == Failed {
          return acts, Raises;
        }
        if result == Created {
          acts := acts + [Say(ObjectCreated)];
        } else {
          acts := acts + [Say(ObjectNotCreated)];
        }
        ending := Returns;
      case _ =>
        return [], Raises;
    }
  }

  method DeclineCreate(s: Session) returns (acts: seq<Action>)
    modifies s
    ensures s.state == Idle && s.data == map[]
    ensures acts == [Say(ObjectNotCreated)]
  {
    s.Clear();
    acts := [Say(ObjectNotCreated)];
  }

  method SetTaskName(s: Session, m: Message) returns (acts: seq<Action>)
    modifies s
    ensures s.state == TaskDescription && s.data == old(s.data)["name" := TextValue(m)]
    ensures acts == [Say(AskTaskDescription)]
  {
    s.UpdateData(map["name" := TextValue(m)]);
    s.SetState(TaskDescription);
    acts := [Say(AskTaskDescription)];
  }

  method SetTaskDescription(s: Session, m: Message) returns (acts: seq<Action>)
    modifies s
    ensures s.state == TaskDueDate && s.data == old(s.data)["description" := TextValue(m)]
    ensures acts == [Say(AskDueDate)]
  {
    s.UpdateData(map["description" := TextValue(m)]);
    s.SetState(TaskDueDate);
    acts := [Say(AskDueDate)];
  }

  method SetDescriptionFail(s: Session) returns (acts: seq<Action>)
    modifies s
    ensures s.state == Idle && s.data == map[]
    ensures acts == [Say(LimitReached)]
  {
    s.Clear();
    acts := [Say(LimitReached)];
  }

  method SetTaskDueDate(s: Session, validatedDate: string) returns (acts: seq<Action>)
    modifies s
    ensures s.state == OptionsOption
    ensures s.data == old(s.data)["due_date" := Text(validatedDate)]["method" := Pending(CreateSubjectTask)]
    ensures var d1 := old(s.data)["due_date" := Text(validatedDate)];
      acts == [TaskCard(Get(d1, "name"), Get(d1, "description"), Get(d1, "due_date")), AskConfirmation]
  {
    s.UpdateData(map["due_date" := Text(validatedDate)]);
    var taskData := s.GetData();
    s.SetState(OptionsOption);
    s.UpdateData(map["method" := Pending(CreateSubjectTask)]);
    acts := [TaskCard(Get(taskData, "name"), Get(taskData, "description"), Get(taskData, "due_date")), AskConfirmation];
  }

  method SetTaskDueDateFail(s: Session) returns (acts: seq<Action>)
    ensures acts == [Say(DateRejected)]
  {
    acts := [Say(DateRejected)];
  }

  method GetSubjects(t: Teacher, env: Env) returns (acts: seq<Action>)
    ensures |env.subjectsOf(t.id)| == 0 <==> acts == [Say(NoSubjects)]
    ensures acts == SubjectsReply(env.subjectsOf(t.id), env)
  {
    var subjects := env.subjectsOf(t.id);
    if |subjects| > 0 {
      var text := Utils.CreateSubjectMessage(subjects, Utils.TeacherLinkMethods, env.html, env.startLink);
      acts := [Say(SubjectsHeader), SubjectListing(text), Say(SubjectsFooter)];
    } else {
      acts := [Say(NoSubjects)];
    }
  }

  /** `show_solutions_for_task`: one card per solution, in the order the database returns them. */
  method ShowSolutionsForTask(taskId: int, env: Env) returns (acts: seq<Action>)
    ensures acts == SolutionCards(env.solutionsFor(taskId)) + [AnswerCallback(None)]
  {
    var solutions := env.solutionsFor(taskId);
    if |solutions| == 0 {
      acts := [Say(NoSolutions)];
    } else {
      acts := [];
      var i := 0;
      while i < |solutions|
        invariant 0 <= i <= |solutions|
        invariant |acts| == i
        invariant forall k :: 0 <= k < i ==> acts[k] == SolutionCard(solutions[k])
      {
        acts := acts + [SolutionCard(solutions[i])];
        i := i + 1;
      }
    }
    acts := acts + [AnswerCallback(None)];
  }

  method EditTask(s: Session, c: Callbacks.CallbackData) returns (acts: seq<Action>)
    requires c.TaskCallback?
    modifies s
    ensures s.state == TaskName
    ensures s.data == old(s.data)["task_id" := Id(c.taskId)]["subject_id" := Id(c.subjectId)]
    ensures acts == [Say(AskTaskName), AnswerCallback(None)]
  {
    s.SetState(TaskName);
    s.UpdateData(map["task_id" := Id(c.taskId)]);
    s.UpdateData(map["subject_id" := Id(c.subjectId)]);
    acts := [Say(AskTaskName), AnswerCallback(None)];
  }

  method ReviewSolution(c: Callbacks.CallbackData, env: Env) returns (acts: seq<Action>)
    requires c.SolutionCallback?
    ensures env.updateGrade(c.solutionId, c.grade).None? <==> acts == [AnswerCallback(Some(ReviewFailed))]
    ensures env.updateGrade(c.solutionId, c.grade).Some? ==>
      var sol := env.updateGrade(c.solutionId, c.grade).value;
      acts == [EditSolutionCard(sol), NotifyStudent(sol.studentUserId, sol.taskName, sol.grade), AnswerCallback(Some(SolutionReviewed))]
  {
    var newSolution := env.updateGrade(c.solutionId, c.grade);
    if newSolution.Some? {
      var sol := newSolution.value;
      acts := [EditSolutionCard(sol), NotifyStudent(sol.studentUserId, sol.taskName, sol.grade),
               AnswerCallback(Some(SolutionReviewed))];
    } else {
      acts := [AnswerCallback(Some(ReviewFailed))];
    }
  }

  // Each route's handler, called with what its filters extracted from the
  // event, and shown to do exactly what `Apply` says of that route.

  method RunIsTeacherCommand(s: Session, t: Teacher, ev: Event, env: Env) returns (acts: seq<Action>, ending: Ending)
    requires Accepts(IsTeacherCommand, s.state, ev, env)
    modifies s
    ensures var o := Apply(IsTeacherCommand, t, old(s.state), old(s.data), ev, env);
      o.handled && s.state == o.state && s.data == o.data && acts == o.actions && ending == o.ending
  {
    ending := Returns;
    acts := CheckTeacher(s);
  }

  method RunCreateSubjectCommand(s: Session, t: Teacher, ev: Event, env: Env) returns (acts: seq<Action>, ending: Ending)
    requires Accepts(CreateSubjectCommand, s.state, ev, env)
    modifies s
    ensures var o := Apply(CreateSubjectCommand, t, old(s.state), old(s.data), ev, env);
      o.handled && s.state == o.state && s.data == o.data && acts == o.actions && ending == o.ending
  {
    ending := Returns;
    acts := BeginSubject(s);
  }

  method RunSubjectNameStep(s: Session, t: Teacher, ev: Event, env: Env) returns (acts: seq<Action>, ending: Ending)
    requires Accepts(SubjectNameStep, s.state, ev, env)
    modifies s
    ensures var o := Apply(SubjectNameStep, t, old(s.state), old(s.data), ev, env);
      o.handled && s.state == o.state && s.data == o.data && acts == o.actions && ending == o.ending
  {
    ending := Returns;
    acts := SetSubjectName(s, ev.message);
  }

  method RunSubjectDescriptionStep(s: Session, t: Teacher, ev: Event, env: Env) returns (acts: seq<Action>, ending: Ending)
    requires Accepts(SubjectDescriptionStep, s.state, ev, env)
    modifies s
    ensures var o := Apply(SubjectDescriptionStep, t, old(s.state), old(s.data), ev, env);
      o.handled && s.state == o.state && s.data == o.data && acts == o.actions && ending == o.ending
  {
    ending := Returns;
    acts := SetSubjectDescription(s, ev.message, t);
  }

  method RunConfirmYes(s: Session, t: Teacher, ev: Event, env: Env) returns (acts: seq<Action>, ending: Ending)
    requires Accepts(ConfirmYes, s.state, ev, env)
    modifies s
    ensures var o := Apply(ConfirmYes, t, old(s.state), old(s.data), ev, env);
      o.handled && s.state == o.state && s.data == o.data && acts == o.actions && ending == o.ending
  {
    acts, ending := AcceptCreate(s, env);
  }

  method RunConfirmNo(s: Session, t: Teacher, ev: Event, env: Env) returns (acts: seq<Action>, ending: Ending)
    requires Accepts(ConfirmNo, s.state, ev, env)
    modifies s
    ensures var o := Apply(ConfirmNo, t, old(s.state), old(s.data), ev, env);
      o.handled && s.state == o.state && s.data == o.data && acts == o.actions && ending == o.ending
  {
    ending := Returns;
    acts := DeclineCreate(s);
  }

  method RunTaskNameStep(s: Session, t: Teacher, ev: Event, env: Env) returns (acts: seq<Action>, ending: Ending)
    requires Accepts(TaskNameStep, s.state, ev, env)
    modifies s
    ensures var o := Apply(TaskNameStep, t, old(s.state), old(s.data), ev, env);
      o.handled && s.state == o.state && s.data == o.data && acts == o.actions && ending == o.ending
  {
    ending := Returns;
    acts := SetTaskName(s, ev.message);
  }

  method RunTaskDescriptionStep(s: Session, t: Teacher, ev: Event, env: Env) returns (acts: seq<Action>, ending: Ending)
    requires Accepts(TaskDescriptionStep, s.state, ev, env)
    modifies s
    ensures var o := Apply(TaskDescriptionStep, t, old(s.state), old(s.data), ev, env);
      o.handled && s.state == o.state && s.data == o.data && acts == o.actions && ending == o.ending
  {
    ending := Returns;
    acts := SetTaskDescription(s, ev.message);
  }

  method RunDescriptionTooLong(s: Session, t: Teacher, ev: Event, env: Env) returns (acts: seq<Action>, ending: Ending)
    requires Accepts(DescriptionTooLong, s.state, ev, env)
    modifies s
    ensures var o := Apply(DescriptionTooLong, t, old(s.state), old(s.data), ev, env);
      o.handled && s.state == o.state && s.data == o.data && acts == o.actions && ending == o.ending
  {
    ending := Returns;
    acts := SetDescriptionFail(s);
  }

  method RunDueDateStep(s: Session, t: Teacher, ev: Event, env: Env) returns (acts: seq<Action>, ending: Ending)
    requires Accepts(DueDateStep, s.state, ev, env)
    modifies s
    ensures var o := Apply(DueDateStep, t, old(s.state), old(s.data), ev, env);
      o.handled && s.state == o.state && s.data == o.data && acts == o.actions && ending == o.ending
  {
    ending := Returns;
    acts := SetTaskDueDate(s, env.validDate(ev.message).value);
  }

  method RunDueDateRejected(s: Session, t: Teacher, ev: Event, env: Env) returns (acts: seq<Action>, ending: Ending)
    requires Accepts(DueDateRejected, s.state, ev, env)
    modifies s
    ensures var o := Apply(DueDateRejected, t, old(s.state), old(s.data), ev, env);
      o.handled && s.state == o.state && s.data == o.data && acts == o.actions && ending == o.ending
  {
    ending := Returns;
    acts := SetTaskDueDateFail(s);
  }

  method RunMySubjectsCommand(s: Session, t: Teacher, ev: Event, env: Env) returns (acts: seq<Action>, ending: Ending)
    requires Accepts(MySubjectsCommand, s.state, ev, env)
    modifies s
    ensures var o := Apply(MySubjectsCommand, t, old(s.state), old(s.data), ev, env);
      o.handled && s.state == o.state && s.data == o.data && acts == o.actions && ending == o.ending
  {
    ending := Returns;
    acts := GetSubjects(t, env);
  }

  method RunShowSolutionsButton(s: Session, t: Teacher, ev: Event, env: Env) returns (acts: seq<Action>, ending: Ending)
    requires Accepts(ShowSolutionsButton, s.state, ev, env)
    modifies s
    ensures var o := Apply(ShowSolutionsButton, t, old(s.state), old(s.data), ev, env);
      o.handled && s.state == o.state && s.data == o.data && acts == o.actions && ending == o.ending
  {
    ending := Returns;
    acts := ShowSolutionsForTask(Callbacks.Unpack(Callbacks.TaskKind, ev.data).value.taskId, env);
  }

  method RunEditTaskButton(s: Session, t: Teacher, ev: Event, env: Env) returns (acts: seq<Action>, ending: Ending)
    requires Accepts(EditTaskButton, s.state, ev, env)
    modifies s
    ensures var o := Apply(EditTaskButton, t, old(s.state), old(s.data), ev, env);
      o.handled && s.state == o.state && s.data == o.data && acts == o.actions && ending == o.ending
  {
    ending := Returns;
    acts := EditTask(s, Callbacks.Unpack(Callbacks.TaskKind, ev.data).value);
  }

  method RunReviewButton(s: Session, t: Teacher, ev: Event, env: Env) returns (acts: seq<Action>, ending: Ending)
    requires Accepts(ReviewButton, s.state, ev, env)
    modifies s
    ensures var o := Apply(ReviewButton, t, old(s.state), old(s.data), ev, env);
      o.handled && s.state == o.state && s.data == o.data && acts == o.actions && ending == o.ending
  {
    ending := Returns;
    acts := ReviewSolution(Callbacks.Unpack(Callbacks.SolutionKind, ev.data).value, env);
  }

  /** Runs the handler of `r` on the session of teacher `t`. */
  method RunRoute(s: Session, r: Route, t: Teacher, ev: Event, env: Env) returns (acts: seq<Action>, ending: Ending)
    requires Accepts(r, s.state, ev, env)
    modifies s
    ensures var o := Apply(r, t, old(s.state), old(s.data), ev, env);
      o.handled && s.state == o.state && s.data == o.data && acts == o.actions && ending == o.ending
  {
    match r {
      case IsTeacherCommand => acts, ending := RunIsTeacherCommand(s, t, ev, env);
      case CreateSubjectCommand => acts, ending := RunCreateSubjectCommand(s, t, ev, env);
      case SubjectNameStep => acts, ending := RunSubjectNameStep(s, t, ev, env);
      case SubjectDescriptionStep => acts, ending := RunSubjectDescriptionStep(s, t, ev, env);
      case ConfirmYes => acts, ending := RunConfirmYes(s, t, ev, env);
      case ConfirmNo => acts, ending := RunConfirmNo(s, t, ev, env);
      case TaskNameStep => acts, ending := RunTaskNameStep(s, t, ev, env);
      case TaskDescriptionStep => acts, ending := RunTaskDescriptionStep(s, t, ev, env);
      case DescriptionTooLong => acts, ending := RunDescriptionTooLong(s, t, ev, env);
      case DueDateStep => acts, ending := RunDueDateStep(s, t, ev, env);
      case DueDateRejected => acts, ending := RunDueDateRejected(s, t, ev, env);
      case MySubjectsCommand => acts, ending := RunMySubjectsCommand(s, t, ev, env);
      case ShowSolutionsButton => acts, ending := RunShowSolutionsButton(s, t, ev, env);
      case EditTaskButton => acts, ending := RunEditTaskButton(s, t, ev, env);
      case ReviewButton => acts, ending := RunReviewButton(s, t, ev, env);
    }
  }

  /**
   * The router at work: check the teacher filter, try the handlers in order
   * and run the first that accepts the event on the session.
   */
  method Dispatch(s: Session, ev: Event, env: Env) returns (handled: bool, acts: seq<Action>, ending: Ending)
    modifies s
    ensures var o := TeacherStep(old(s.state), old(s.data), ev, env);
      handled == o.handled && s.state == o.state && s.data == o.data && acts == o.actions && ending == o.ending
  {
    var teacher := env.teacherOf(Sender(ev));
    if teacher.None? {
      return false, [], Returns;
    }
    var route := Match(s.state, ev, env);
    if route.None? {
      return false, [], Returns;
    }
    handled := true;
    acts, ending := RunRoute(s, route.value, teacher.value, ev, env);
  }
}

module TeacherProperties {
  import opened Wrappers
  import opened Models
  import opened Text
  import opened Fsm
  import opened Events
  import Callbacks
  import opened TeacherHandlers

  /** The message is neither of the two commands registered before the step handlers. */
  predicate NoEarlyCommand(m: Message, env: Env)
  {
    !IsCommand(m, "is_teacher", env.botUsername) && !IsCommand(m, "create_subject", env.botUsername)
  }

  /** The teacher gate: an event from a user who is no teacher is not handled and changes nothing. */
  lemma GateRejects(st: State, d: Fields, ev: Event, env: Env)
    requires env.teacherOf(Sender(ev)).None?
    ensures TeacherStep(st, d, ev, env) == Unhandled(st, d)
  {
  }

  /** Once the route is known, a step by a teacher is what that route's handler does. */
  lemma StepRunsRoute(st: State, d: Fields, ev: Event, env: Env, r: Route)
    requires env.teacherOf(Sender(ev)).Some? && Match(st, ev, env) == Some(r)
    ensures TeacherStep(st, d, ev, env) == Apply(r, env.teacherOf(Sender(ev)).value, st, d, ev, env)
  {
  }

  /** Past the two opening commands, the step handler StepRoute names is the one that runs. */
  lemma StepRouteRuns(st: State, d: Fields, m: Message, env: Env, r: Route)
    requires env.teacherOf(m.from).Some? && NoEarlyCommand(m, env) && StepRoute(st, m, env) == Some(r)
    ensures TeacherStep(st, d, MessageEvent(m), env) == Apply(r, env.teacherOf(m.from).value, st, d, MessageEvent(m), env)
  {
    assert Match(st, MessageEvent(m), env) == Some(r);
    StepRunsRoute(st, d, MessageEvent(m), env, r);
  }

  /** A step handler that accepts a message is the one StepRoute names. */
  lemma StepRouteFinds(q: Route, st: State, m: Message, env: Env)
    requires 2 <= Position(q) <= 10 && Accepts(q, st, MessageEvent(m), env)
    ensures StepRoute(st, m, env) == Some(q)
  {
  }

  /**
   * The router runs the first handler, in registration order, whose filters
   * accept the update: every accepting handler comes at or after the chosen
   * one, and no handler is chosen only when none accepts.
   */
  lemma MatchIsFirstMatch(st: State, ev: Event, env: Env)
    ensures forall q :: Accepts(q, st, ev, env) ==>
      Match(st, ev, env).Some? && Position(Match(st, ev, env).value) <= Position(q)
  {
    forall q | Accepts(q, st, ev, env)
      ensures Match(st, ev, env).Some? && Position(Match(st, ev, env).value) <= Position(q)
    {
      match ev {
        case MessageEvent(m) => MessageRouteFirst(q, st, m, env);
        case CallbackEvent(from, data) => CallbackRouteFirst(q, st, from, data, env);
      }
    }
  }

  lemma MessageRouteFirst(q: Route, st: State, m: Message, env: Env)
    requires Accepts(q, st, MessageEvent(m), env)
    ensures MessageRoute(st, m, env).Some? && Position(MessageRoute(st, m, env).value) <= Position(q)
  {
    var r := MessageRoute(st, m, env);
    if IsCommand(m, "is_teacher", env.botUsername) {
      assert r == Some(IsTeacherCommand);
    } else if IsCommand(m, "create_subject", env.botUsername) {
      assert r == Some(CreateSubjectCommand) && q != IsTeacherCommand;
    } else if 2 <= Position(q) <= 10 {
      StepRouteFinds(q, st, m, env);
      assert r == Some(q);
    } else {
      assert q == MySubjectsCommand;
      StepRouteRange(st, m, env);
    }
  }

  /** The step handlers sit between the two opening commands and /my_subjects. */
  lemma StepRouteRange(st: State, m: Message, env: Env)
    ensures StepRoute(st, m, env).Some? ==> 2 <= Position(StepRoute(st, m, env).value) <= 10
  {
  }

  lemma CallbackRouteFirst(q: Route, st: State, from: int, data: string, env: Env)
    requires Accepts(q, st, CallbackEvent(from, data), env)
    ensures CallbackRoute(st, from, data, env).Some? && Position(CallbackRoute(st, from, data, env).value) <= Position(q)
  {
  }

  /** `/create_subject` enters the subject flow, from any state, without writing a field. */
  lemma CreateSubjectEntersFlow(st: State, d: Fields, m: Message, env: Env)
    requires env.teacherOf(m.from).Some?
    requires IsCommand(m, "create_subject", env.botUsername)
    ensures TeacherStep(st, d, MessageEvent(m), env) == Handled(SubjectName, d, [Say(AskSubjectName)])
  {
    assert Match(st, MessageEvent(m), env) == Some(CreateSubjectCommand);
    StepRunsRoute(st, d, MessageEvent(m), env, CreateSubjectCommand);
  }

  /** A button whose data reads as a task token with action `edit` enters `Task.name` seeded with its ids. */
  lemma EditButtonEntersFlow(st: State, d: Fields, from: int, data: string, env: Env)
    requires env.teacherOf(from).Some? && TaskActionIs(data, "edit")
    ensures var c := Callbacks.Unpack(Callbacks.TaskKind, data).value;
      TeacherStep(st, d, CallbackEvent(from, data), env)
        == Handled(TaskName, d["task_id" := Id(c.taskId)]["subject_id" := Id(c.subjectId)],
                   [Say(AskTaskName), AnswerCallback(None)])
  {
    assert Match(st, CallbackEvent(from, data), env) == Some(EditTaskButton);
    StepRunsRoute(st, d, CallbackEvent(from, data), env, EditTaskButton);
  }

  /** The `edit` button the bot itself packs for a task enters `Task.name` with that task's ids. */
  lemma EditTokenEntersFlow(st: State, d: Fields, from: int, subjectId: int, taskId: int, env: Env)
    requires env.teacherOf(from).Some?
    requires Callbacks.Pack(Callbacks.TaskCallback(subjectId, taskId, Some("edit"))).Some?
    ensures var token := Callbacks.Pack(Callbacks.TaskCallback(subjectId, taskId, Some("edit"))).value;
      TeacherStep(st, d, CallbackEvent(from, token), env)
        == Handled(TaskName, d["task_id" := Id(taskId)]["subject_id" := Id(subjectId)],
                   [Say(AskTaskName), AnswerCallback(None)])
  {
    var c := Callbacks.TaskCallback(subjectId, taskId, Some("edit"));
    Callbacks.UnpackPack(c);
    EditButtonEntersFlow(st, d, from, Callbacks.Pack(c).value, env);
  }

  /** In `Subject.name` the text is stored as `name` and the description is asked for. */
  lemma SubjectNameStored(d: Fields, m: Message, env: Env)
    requires env.teacherOf(m.from).Some? && NoEarlyCommand(m, env)
    ensures TeacherStep(SubjectName, d, MessageEvent(m), env)
      == Handled(SubjectDescription, d["name" := TextValue(m)], [Say(AskSubjectDescription)])
  {
    StepRouteRuns(SubjectName, d, m, env, SubjectNameStep);
  }

  /** In `Task.name` the text is stored as `name` and the description is asked for. */
  lemma TaskNameStored(d: Fields, m: Message, env: Env)
    requires env.teacherOf(m.from).Some? && NoEarlyCommand(m, env)
    ensures TeacherStep(TaskName, d, MessageEvent(m), env)
      == Handled(TaskDescription, d["name" := TextValue(m)], [Say(AskTaskDescription)])
  {
    StepRouteRuns(TaskName, d, m, env, TaskNameStep);
  }

  /** A subject description of at most 200 characters (200 included) is stored
   * and arms the confirmation with `create_subject` and the teacher's id. */
  lemma SubjectDescriptionAccepted(d: Fields, m: Message, env: Env)
    requires env.teacherOf(m.from).Some? && NoEarlyCommand(m, env)
    requires TextAtMost(m, DescriptionLimit)
    ensures var o := TeacherStep(SubjectDescription, d, MessageEvent(m), env);
      o.handled && o.ending == Returns && o.state == OptionsOption
      && o.data == d["description" := TextValue(m)]["method" := Pending(CreateSubject)]["teacher_id" := Id(env.teacherOf(m.from).value.id)]
  {
    StepRouteRuns(SubjectDescription, d, m, env, SubjectDescriptionStep);
  }

  /** A subject description longer than 200 characters clears the whole session. */
  lemma SubjectDescriptionTooLong(d: Fields, m: Message, env: Env)
    requires env.teacherOf(m.from).Some? && NoEarlyCommand(m, env)
    requires TextLonger(m, DescriptionLimit)
    ensures TeacherStep(SubjectDescription, d, MessageEvent(m), env)
      == Handled(Idle, map[], [Say(LimitReached)])
  {
    StepRouteRuns(SubjectDescription, d, m, env, DescriptionTooLong);
  }

  /** A task description of at most 200 characters is stored and the due date is asked for. */
  lemma TaskDescriptionAccepted(d: Fields, m: Message, env: Env)
    requires env.teacherOf(m.from).Some? && NoEarlyCommand(m, env)
    requires TextAtMost(m, DescriptionLimit)
    ensures TeacherStep(TaskDescription, d, MessageEvent(m), env)
      == Handled(TaskDueDate, d["description" := TextValue(m)], [Say(AskDueDate)])
  {
    StepRouteRuns(TaskDescription, d, m, env, TaskDescriptionStep);
  }

  /** A task description longer than 200 characters clears the whole session. */
  lemma TaskDescriptionTooLong(d: Fields, m: Message, env: Env)
    requires env.teacherOf(m.from).Some? && NoEarlyCommand(m, env)
    requires TextLonger(m, DescriptionLimit)
    ensures TeacherStep(TaskDescription, d, MessageEvent(m), env)
      == Handled(Idle, map[], [Say(LimitReached)])
  {
    StepRouteRuns(TaskDescription, d, m, env, DescriptionTooLong);
  }

  /** A due date the filter rejects re-prompts and leaves state and fields as they were. */
  lemma DueDateRejectedKeepsSession(d: Fields, m: Message, env: Env)
    requires env.teacherOf(m.from).Some? && NoEarlyCommand(m, env)
    requires env.validDate(m).None?
    ensures TeacherStep(TaskDueDate, d, MessageEvent(m), env)
      == Handled(TaskDueDate, d, [Say(DateRejected)])
  {
    StepRouteRuns(TaskDueDate, d, m, env, DueDateRejected);
  }

  /** An accepted due date is stored and arms the confirmation with `create_subject_task`, adding no teacher id. */
  lemma DueDateAccepted(d: Fields, m: Message, env: Env)
    requires env.teacherOf(m.from).Some? && NoEarlyCommand(m, env)
    requires env.validDate(m).Some?
    ensures var o := TeacherStep(TaskDueDate, d, MessageEvent(m), env);
      o.handled && o.ending == Returns && o.state == OptionsOption
      && o.data == d["due_date" := Text(env.validDate(m).value)]["method" := Pending(CreateSubjectTask)]
      && ("teacher_id" in o.data <==> "teacher_id" in d)
  {
    StepRouteRuns(TaskDueDate, d, m, env, DueDateStep);
  }

  /**
   * "yes" (in any case) at the confirmation pops the pending commit, clears
   * the session and then commits exactly the remaining fields; the session
   * ends empty whatever the commit does.
   */
  lemma ConfirmYesCommits(d: Fields, m: Message, env: Env)
    requires SessionInvariant(OptionsOption, d)
    requires env.teacherOf(m.from).Some? && TextFoldsTo(m, "yes")
    ensures var o := TeacherStep(OptionsOption, d, MessageEvent(m), env);
      var intent := d["method"].intent;
      var rest := d - {"method"};
      && o.handled && o.state == Idle && o.data == map[]
      && |o.actions| >= 1 && o.actions[0] == CallDatabase(intent, rest)
      && (env.commit(intent, rest) == Created ==> o.actions == [CallDatabase(intent, rest), Say(ObjectCreated)] && o.ending == Returns)
      && (env.commit(intent, rest) == NotCreated ==> o.actions == [CallDatabase(intent, rest), Say(ObjectNotCreated)] && o.ending == Returns)
      && (env.commit(intent, rest) == Failed <==> o.ending == Raises)
  {
    WordIsNoCommand(m, "yes", "is_teacher", env.botUsername);
    WordIsNoCommand(m, "yes", "create_subject", env.botUsername);
    assert Match(OptionsOption, MessageEvent(m), env) == Some(ConfirmYes);
    StepRunsRoute(OptionsOption, d, MessageEvent(m), env, ConfirmYes);
  }

  /** "no" (in any case) at the confirmation clears the session and reports that nothing was created. */
  lemma ConfirmNoClears(d: Fields, m: Message, env: Env)
    requires env.teacherOf(m.from).Some? && TextFoldsTo(m, "no")
    ensures TeacherStep(OptionsOption, d, MessageEvent(m), env)
      == Handled(Idle, map[], [Say(ObjectNotCreated)])
  {
    WordIsNoCommand(m, "no", "is_teacher", env.botUsername);
    WordIsNoCommand(m, "no", "create_subject", env.botUsername);
    assert Match(OptionsOption, MessageEvent(m), env) == Some(ConfirmNo);
    StepRunsRoute(OptionsOption, d, MessageEvent(m), env, ConfirmNo);
  }

  /** Any other message at the confirmation matches no handler and leaves the session as it was. */
  lemma ConfirmOtherUnhandled(d: Fields, m: Message, env: Env)
    requires env.teacherOf(m.from).Some? && NoEarlyCommand(m, env) && !IsCommand(m, "my_subjects", env.botUsername)
    requires !TextFoldsTo(m, "yes") && !TextFoldsTo(m, "no")
    ensures TeacherStep(OptionsOption, d, MessageEvent(m), env) == Unhandled(OptionsOption, d)
  {
    assert Match(OptionsOption, MessageEvent(m), env) == None;
  }

  /** A message without text in a description step passes both length filters by and is not handled. */
  lemma DescriptionWithoutText(st: State, d: Fields, m: Message, env: Env)
    requires st == SubjectDescription || st == TaskDescription
    requires env.teacherOf(m.from).Some? && NoEarlyCommand(m, env) && !IsCommand(m, "my_subjects", env.botUsername)
    requires m.text.None?
    ensures TeacherStep(st, d, MessageEvent(m), env) == Unhandled(st, d)
  {
    assert Match(st, MessageEvent(m), env) == None;
  }

  /** A task button whose action is absent matches none of the router's buttons. */
  lemma AbsentActionUnhandled(st: State, d: Fields, from: int, subjectId: int, taskId: int, env: Env)
    requires Callbacks.Pack(Callbacks.TaskCallback(subjectId, taskId, None)).Some?
    ensures var token := Callbacks.Pack(Callbacks.TaskCallback(subjectId, taskId, None)).value;
      TeacherStep(st, d, CallbackEvent(from, token), env) == Unhandled(st, d)
  {
    var c := Callbacks.TaskCallback(subjectId, taskId, None);
    var data := Callbacks.Pack(c).value;
    Callbacks.UnpackPack(c);
    if Callbacks.Unpack(Callbacks.SolutionKind, data).Some? {
      Callbacks.UnpackDeterminesKind(Callbacks.TaskKind, Callbacks.SolutionKind, data);
    }
  }

  /** Every handler keeps the session invariant. */
  lemma ApplyPreservesInvariant(r: Route, t: Teacher, st: State, d: Fields, ev: Event, env: Env)
    requires Accepts(r, st, ev, env) && SessionInvariant(st, d)
    ensures var o := Apply(r, t, st, d, ev, env); SessionInvariant(o.state, o.data)
  {
    if Position(r) <= 5 {
      OpeningPreservesInvariant(r, t, st, d, ev, env);
    } else if Position(r) <= 10 {
      LaterStepPreservesInvariant(r, t, st, d, ev, env);
    } else {
      ListingPreservesInvariant(r, t, st, d, ev, env);
    }
  }

  /** The commands and the subject steps up to the confirmation keep the session invariant. */
  lemma OpeningPreservesInvariant(r: Route, t: Teacher, st: State, d: Fields, ev: Event, env: Env)
    requires Position(r) <= 5 && Accepts(r, st, ev, env) && SessionInvariant(st, d)
    ensures var o := Apply(r, t, st, d, ev, env); SessionInvariant(o.state, o.data)
  {
    match r {
      case IsTeacherCommand => assert SessionInvariant(Apply(IsTeacherCommand, t, st, d, ev, env).state, Apply(IsTeacherCommand, t, st, d, ev, env).data);
      case CreateSubjectCommand => assert SessionInvariant(Apply(CreateSubjectCommand, t, st, d, ev, env).state, Apply(CreateSubjectCommand, t, st, d, ev, env).data);
      case SubjectNameStep => assert SessionInvariant(Apply(SubjectNameStep, t, st, d, ev, env).state, Apply(SubjectNameStep, t, st, d, ev, env).data);
      case SubjectDescriptionStep => assert SessionInvariant(Apply(SubjectDescriptionStep, t, st, d, ev, env).state, Apply(SubjectDescriptionStep, t, st, d, ev, env).data);
      case ConfirmYes => assert SessionInvariant(Apply(ConfirmYes, t, st, d, ev, env).state, Apply(ConfirmYes, t, st, d, ev, env).data);
      case ConfirmNo => assert SessionInvariant(Apply(ConfirmNo, t, st, d, ev, env).state, Apply(ConfirmNo, t, st, d, ev, env).data);
      case _ => assert false;
    }
  }

  /** The steps of the task flow keep the session invariant. */
  lemma LaterStepPreservesInvariant(r: Route, t: Teacher, st: State, d: Fields, ev: Event, env: Env)
    requires 6 <= Position(r) <= 10 && Accepts(r, st, ev, env) && SessionInvariant(st, d)
    ensures var o := Apply(r, t, st, d, ev, env); SessionInvariant(o.state, o.data)
  {
    match r {
      case TaskNameStep => assert SessionInvariant(Apply(TaskNameStep, t, st, d, ev, env).state, Apply(TaskNameStep, t, st, d, ev, env).data);
      case TaskDescriptionStep => assert SessionInvariant(Apply(TaskDescriptionStep, t, st, d, ev, env).state, Apply(TaskDescriptionStep, t, st, d, ev, env).data);
      case DescriptionTooLong => assert SessionInvariant(Apply(DescriptionTooLong, t, st, d, ev, env).state, Apply(DescriptionTooLong, t, st, d, ev, env).data);
      case DueDateStep => assert SessionInvariant(Apply(DueDateStep, t, st, d, ev, env).state, Apply(DueDateStep, t, st, d, ev, env).data);
      case DueDateRejected => assert SessionInvariant(Apply(DueDateRejected, t, st, d, ev, env).state, Apply(DueDateRejected, t, st, d, ev, env).data);
      case _ => assert false;
    }
  }

  /** /my_subjects and the buttons keep the session invariant. */
  lemma ListingPreservesInvariant(r: Route, t: Teacher, st: State, d: Fields, ev: Event, env: Env)
    requires 11 <= Position(r) <= 14 && Accepts(r, st, ev, env) && SessionInvariant(st, d)
    ensures var o := Apply(r, t, st, d, ev, env); SessionInvariant(o.state, o.data)
  {
    match r {
      case MySubjectsCommand => assert SessionInvariant(Apply(MySubjectsCommand, t, st, d, ev, env).state, Apply(MySubjectsCommand, t, st, d, ev, env).data);
      case ShowSolutionsButton => assert SessionInvariant(Apply(ShowSolutionsButton, t, st, d, ev, env).state, Apply(ShowSolutionsButton, t, st, d, ev, env).data);
      case EditTaskButton => assert SessionInvariant(Apply(EditTaskButton, t, st, d, ev, env).state, Apply(EditTaskButton, t, st, d, ev, env).data);
      case ReviewButton => assert SessionInvariant(Apply(ReviewButton, t, st, d, ev, env).state, Apply(ReviewButton, t, st, d, ev, env).data);
      case _ => assert false;
    }
  }

  /** Every step keeps the session invariant. */
  lemma StepPreservesInvariant(st: State, d: Fields, ev: Event, env: Env)
    requires SessionInvariant(st, d)
    ensures var o := TeacherStep(st, d, ev, env); SessionInvariant(o.state, o.data)
  {
    if env.teacherOf(Sender(ev)).Some? && Match(st, ev, env).Some? {
      ApplyPreservesInvariant(Match(st, ev, env).value, env.teacherOf(Sender(ev)).value, st, d, ev, env);
    }
  }
}
