/**
 * What reaches a router and what a handler does in reply: the incoming
 * message or button press, the replies and outside calls a handler makes,
 * and the collaborators a handler consults (role filters, the date filter,
 * the database, HTML helpers and link minting), passed in as functions.
 */
module Events {
  import opened Wrappers
  import opened Text
  import opened Models
  import opened Fsm
  import Callbacks

  datatype Document = Document(fileId: string, fileName: string)

  datatype Message = Message(from: int, text: Option<string>, caption: Option<string>, document: Option<Document>)

  datatype Event =
    | MessageEvent(message: Message)
    | CallbackEvent(from: int, data: string)

  function Sender(ev: Event): int
  {
    match ev
    case MessageEvent(m) => m.from
    case CallbackEvent(u, _) => u
  }

  /** What a database write returned: a truthy object, a falsy one, or an exception. */
  datatype CommitResult = Created | NotCreated | Failed

  /** The HTML helpers `hbold` and `hlink`. */
  datatype Html = Html(bold: string -> string, link: (string, string) -> string)

  /** The fixed replies of the teacher router, each sent as it is worded by NoticeText. */
  datatype Notice =
    | TeacherGreeting
    | AskSubjectName
    | AskSubjectDescription
    | ObjectCreated
    | ObjectNotCreated
    | AskTaskName
    | AskTaskDescription
    | LimitReached
    | AskDueDate
    | DateRejected
    | SubjectsHeader
    | SubjectsFooter
    | NoSubjects
    | NoSolutions

  function NoticeText(n: Notice): string
  {
    match n
    case TeacherGreeting => "You are a teacher!"
    case AskSubjectName => "Write a name for subject name"
    case AskSubjectDescription => "Write a description for subject. Maximum 200 symbols."
    case ObjectCreated => "Object was created!"
    case ObjectNotCreated => "Object was not created. Try again."
    case AskTaskName => "Write a name for task name"
    case AskTaskDescription => "Write a description for task. Maximum 200 symbols."
    case LimitReached => "Limit reached. Object was not created. Try again."
    case AskDueDate => "Please, write a due date in format dd/mm/yyyy"
    case DateRejected => "Your date is invalid. Look at the format, and it cannot be in the past. Try again."
    case SubjectsHeader => "Here are your subjects:"
    case SubjectsFooter => "Click on the subject actions"
    case NoSubjects => "You don't have any subjects!"
    case NoSolutions => "There are no solutions."
  }

  /** One thing a handler does, in the order it does it. */
  datatype Action =
    | Answer(text: string)                                        // message.answer(text)
    | Say(reply: Notice)                                          // message.answer(NoticeText(notice))
    | AnswerHelp                                                  // the teacher help text
    | SubjectCard(name: Value, description: Value)                // summary before confirmation
    | TaskCard(name: Value, description: Value, dueDate: Value)   // summary before confirmation
    | AskConfirmation                                             // "Do you want to create it?" with the yes/no keyboard
    | SubjectListing(text: string)                                // the numbered subject list with its deep links
    | CallDatabase(intent: Intent, fields: Fields)                // db_method(**data)
    | CallCreateSolution(fields: Fields)                          // db.create_solution(**data)
    | DownloadDocument(document: Document)                        // bot.get_file and bot.download_file
    | SolutionCard(solution: Solution)                            // a solution with its download link and grade buttons
    | EditSolutionCard(solution: Solution)
    | NotifyStudent(userId: int, taskName: string, grade: Option<int>)
    | ShowTask(task: SubjectTask)                                 // a task with its role-dependent buttons
    | SendGradesChart(grades: seq<int>)
    | SendSolutionsChart(taskNames: seq<string>, solutions: seq<int>)
    | AnswerCallback(notice: Option<string>)                     // callback.answer(text)

  /** How a handler ended: by returning, or by raising an exception. */
  datatype Ending = Returns | Raises

  /**
   * The result of offering one event to a router: whether a handler took it,
   * the session afterwards, what was done, and how the handler ended (after a
   * raise the session stays as the handler left it).
   */
  datatype Outcome = Outcome(handled: bool, state: State, data: Fields, actions: seq<Action>, ending: Ending)

  function Handled(st: State, d: Fields, acts: seq<Action>): Outcome { Outcome(true, st, d, acts, Returns) }

  function Raised(st: State, d: Fields, acts: seq<Action>): Outcome { Outcome(true, st, d, acts, Raises) }

  function Unhandled(st: State, d: Fields): Outcome { Outcome(false, st, d, [], Returns) }

  /** The collaborators the handlers consult. */
  datatype Env = Env(
    teacherOf: int -> Option<Teacher>,       // IsTeacherFilter: the teacher record of a user
    studentOf: int -> Option<Student>,       // IsStudentFilter: the student record of a user
    botUsername: string,
    validDate: Message -> Option<string>,    // IsValidDateFilter: the validated date, if accepted
    commit: (Intent, Fields) -> CommitResult,
    createSolution: Fields -> CommitResult,
    subjectsOf: int -> seq<Subject>,         // db.get_subjects_by_teacher_id
    solutionsFor: int -> seq<Solution>,      // db.get_solutions_for_task
    updateGrade: (int, int) -> Option<Solution>,
    html: Html,
    startLink: string -> string)             // create_start_link with encoding

  /** `message.text` as a stored value. */
  function TextValue(m: Message): Value
  {
    match m.text
    case Some(t) => Text(t)
    case None => Null
  }

  /** `F.text.len() <= n`: false for a message without text. */
  predicate TextAtMost(m: Message, n: nat) { m.text.Some? && |m.text.value| <= n }

  /** `F.text.len() > n`: false for a message without text. */
  predicate TextLonger(m: Message, n: nat) { m.text.Some? && |m.text.value| > n }

  /** `F.text.casefold() == word`: false for a message without text. */
  predicate TextFoldsTo(m: Message, word: string) { m.text.Some? && CaseFold(m.text.value) == word }

  /** The text the Command filter reads: `message.text or message.caption`. */
  function CommandSource(m: Message): Option<string>
  {
    if m.text.Some? && m.text.value != "" then m.text
    else if m.caption.Some? && m.caption.value != "" then m.caption
    else None
  }

  /**
   * The command a message gives this bot, as the Command filter reads it:
   * the first word is `/command` or `/command@mention`, where a non-empty
   * mention must name this bot (compared case-insensitively).
   */
  function CommandOf(m: Message, botUsername: string): Option<string>
  {
    match CommandSource(m)
    case None => None
    case Some(t) =>
      match FirstWord(t)
      case None => None
      case Some(w) =>
        var body := w[1..];
        var command := TakeUntil(body, c => c == '@');
        var mention := if |command| < |body| then body[|command| + 1..] else "";
        if w[0] == '/' && (mention == "" || Lower(mention) == Lower(botUsername)) then Some(command) else None
  }

  /** `Command(name)`. */
  predicate IsCommand(m: Message, name: string, botUsername: string)
  {
    CommandOf(m, botUsername) == Some(name)
  }

  /** `TaskCallbackFactory.filter(F.action == action)`. */
  predicate TaskActionIs(data: string, action: string)
  {
    match Callbacks.Unpack(Callbacks.TaskKind, data)
    case Some(c) => c.action == Some(action)
    case None => false
  }

  /** A text that starts with neither `/` nor whitespace is no command at all. */
  lemma PlainTextIsNoCommand(m: Message, name: string, botUsername: string)
    requires m.text.Some? && |m.text.value| > 0
    requires m.text.value[0] != '/' && !IsSpace(m.text.value[0])
    ensures CommandOf(m, botUsername) == None
    ensures !IsCommand(m, name, botUsername)
  {
    var t := m.text.value;
    assert CommandSource(m) == Some(t);
    assert TrimStart(t) == t;
    var w := TakeUntil(t, IsSpace);
    assert |w| > 0 && w[0] == t[0];
  }

  /** A text that case-folds to a word starting with a lower-case letter is no command. */
  lemma WordIsNoCommand(m: Message, word: string, name: string, botUsername: string)
    requires TextFoldsTo(m, word) && |word| > 0 && 'a' <= word[0] <= 'z'
    ensures !IsCommand(m, name, botUsername)
  {
    var t := m.text.value;
    assert FoldChar(t[0]) == word[0];
    PlainTextIsNoCommand(m, name, botUsername);
  }
}
