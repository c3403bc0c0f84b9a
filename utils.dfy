/**
 * The helpers of `tgbot/misc/utils.py`: the numbered subject listing with its
 * deep links and their JSON payload, the per-task status lines, the deep-link
 * actions (join or leave a subject, start a task, list tasks, contact the
 * teacher, statistics) and the table that maps an action name to its handler.
 */
module Utils {
  import opened Wrappers
  import opened Text
  import opened Models
  import opened Fsm
  import opened Events
  import Callbacks
  import Keyboards

  // ---------------------------------------------------------------------
  // Deep-link payload: json.dumps({"key": key, "id": subject_id})
  // ---------------------------------------------------------------------

  function HexDigit(d: nat): char
    requires d < 16
  {
    if d < 10 then DigitChar(d) else (('a' as int) + d - 10) as char
  }

  /** `'{0:04x}'.format(n)`. */
  function Hex4(n: nat): string
    requires n < 0x10000
  {
    [HexDigit(n / 4096), HexDigit(n / 256 % 16), HexDigit(n / 16 % 16), HexDigit(n % 16)]
  }

  /** How `json.dumps` (ensure_ascii) writes one character inside a string literal. */
  function JsonEscape(c: char): string
  {
    if c == '"' then "\\\""
    else if c == '\\' then "\\\\"
    else if c == '\n' then "\\n"
    else if c == '\r' then "\\r"
    else if c == '\t' then "\\t"
    else if c == '\U{8}' then "\\b"
    else if c == '\U{C}' then "\\f"
    else if ' ' <= c <= '~' then [c]
    else
      var n := c as int;
      if n < 0x10000 then "\\u" + Hex4(n)
      else
        var m := n - 0x10000;
        "\\u" + Hex4(0xD800 + m / 1024) + "\\u" + Hex4(0xDC00 + m % 1024)
  }

  function JsonStringBody(s: string): string
  {
    if |s| == 0 then "" else JsonEscape(s[0]) + JsonStringBody(s[1..])
  }

  function JsonQuote(s: string): string { "\"" + JsonStringBody(s) + "\"" }

  /** The payload `create_link` hands to `create_start_link`. */
  function LinkPayload(key: string, subjectId: int): string
  {
    KeyField + JsonQuote(key) + IdField + IntToString(subjectId) + "}"
  }

  /** A key that JSON writes unescaped: printable ASCII other than quote and backslash. */
  predicate PlainKey(key: string)
  {
    forall i :: 0 <= i < |key| ==> ' ' <= key[i] <= '~' && key[i] != '"' && key[i] != '\\'
  }

  lemma {:induction false} JsonStringBodyOfPlain(key: string)
    requires PlainKey(key)
    ensures JsonStringBody(key) == key
    decreases |key|
  {
    if |key| > 0 {
      JsonStringBodyOfPlain(key[1..]);
      assert [key[0]] + key[1..] == key;
    }
  }

  /** The JSON text around the key's string and the id's number. */
  const KeyField: string := "{\"key\": "
  const IdField: string := ", \"id\": "
  const PayloadHead: string := KeyField + "\""
  const PayloadMiddle: string := "\"" + IdField

  /** Reads a payload of the shape `create_link` writes back into its key and subject id. */
  function ParseLinkPayload(s: string): Option<(string, int)>
  {
    if |s| < |PayloadHead| + 1 || s[..|PayloadHead|] != PayloadHead || s[|s| - 1] != '}' then None
    else
      var inner := s[|PayloadHead|..|s| - 1];
      var key := TakeUntil(inner, IsQuote);
      var rest := inner[|key|..];
      if !StartsWith(rest, PayloadMiddle) then None
      else
        match ParseInt(rest[|PayloadMiddle|..])
        case Some(id) => Some((key, id))
        case None => None
  }

  predicate IsQuote(c: char) { c == '"' }

  lemma {:induction false} TakeUntilQuote(p: string, t: string)
    requires forall i :: 0 <= i < |p| ==> p[i] != '"'
    requires |t| > 0 && t[0] == '"'
    ensures TakeUntil(p + t, IsQuote) == p
    decreases |p|
  {
    if |p| == 0 {
      assert p + t == t;
    } else {
      assert (p + t)[0] == p[0];
      assert (p + t)[1..] == p[1..] + t;
      TakeUntilQuote(p[1..], t);
      assert [p[0]] + p[1..] == p;
    }
  }

  /** The payload laid out: head, the key itself, the middle, the digits, the closing brace. */
  lemma LinkPayloadLayout(key: string, subjectId: int)
    requires PlainKey(key)
    ensures LinkPayload(key, subjectId) == PayloadHead + key + PayloadMiddle + IntToString(subjectId) + "}"
  {
    JsonStringBodyOfPlain(key);
    Regroup(KeyField, "\"", key, IdField, IntToString(subjectId), "}");
  }

  lemma Regroup(head: string, quote: string, key: string, middle: string, digits: string, close: string)
    ensures head + (quote + key + quote) + middle + digits + close == (head + quote) + key + (quote + middle) + digits + close
  {
  }

  lemma ParsePayloadLayout(key: string, digits: string)
    requires forall i :: 0 <= i < |key| ==> key[i] != '"'
    ensures ParseLinkPayload(PayloadHead + key + PayloadMiddle + digits + "}") ==
      (match ParseInt(digits) case Some(id) => Some((key, id)) case None => None)
  {
    var s := PayloadHead + key + PayloadMiddle + digits + "}";
    assert s[..|PayloadHead|] == PayloadHead;
    var inner := s[|PayloadHead|..|s| - 1];
    assert inner == key + (PayloadMiddle + digits);
    TakeUntilQuote(key, PayloadMiddle + digits);
    var rest := inner[|key|..];
    assert rest == PayloadMiddle + digits;
    assert StartsWith(rest, PayloadMiddle);
    assert rest[|PayloadMiddle|..] == digits;
  }

  /** The subject id and key come back out of the payload unchanged. */
  lemma ParseLinkPayloadOfLinkPayload(key: string, subjectId: int)
    requires PlainKey(key)
    ensures ParseLinkPayload(LinkPayload(key, subjectId)) == Some((key, subjectId))
  {
    LinkPayloadLayout(key, subjectId);
    ParsePayloadLayout(key, IntToString(subjectId));
    ParseIntOfIntToString(subjectId);
  }

  /**
   * `create_link(subject_id, key)`: the start link minted for the JSON
   * object `{"key": key, "id": subject_id}`, written out by hand for a plain key.
   */
  function CreateLink(subjectId: int, key: string, startLink: string -> string): (link: string)
    ensures PlainKey(key) ==> link == startLink(PayloadHead + key + PayloadMiddle + IntToString(subjectId) + "}")
  {
    if PlainKey(key) then
      LinkPayloadLayout(key, subjectId);
      startLink(LinkPayload(key, subjectId))
    else startLink(LinkPayload(key, subjectId))
  }

  // ---------------------------------------------------------------------
  // create_subject_message
  // ---------------------------------------------------------------------

  /** One entry of the `methods` list: link text and deep-link action name. */
  datatype LinkMethod = LinkMethod(text: string, name: string)

  /** The links of one subject, in `methods` order. */
  function SubjectLinks(subject: Subject, methods: seq<LinkMethod>, html: Html, startLink: string -> string): (links: seq<string>)
    ensures |links| == |methods|
  {
    seq(|methods|, j requires 0 <= j < |methods| =>
      html.link(methods[j].text, CreateLink(subject.id, methods[j].name, startLink)))
  }

  /** Row `index` of the listing: `"{index}. {name}. "` and the links joined by `", "`. */
  function SubjectRow(index: nat, subject: Subject, methods: seq<LinkMethod>, html: Html, startLink: string -> string): string
  {
    NatToString(index) + ". " + subject.name + ". " + Join(SubjectLinks(subject, methods, html, startLink), ", ")
  }

  /** One row per subject, in input order, numbered from 1. */
  function SubjectRows(subjects: seq<Subject>, methods: seq<LinkMethod>, html: Html, startLink: string -> string): (rows: seq<string>)
    ensures |rows| == |subjects|
  {
    seq(|subjects|, i requires 0 <= i < |subjects| => SubjectRow(i + 1, subjects[i], methods, html, startLink))
  }

  function SubjectMessage(subjects: seq<Subject>, methods: seq<LinkMethod>, html: Html, startLink: string -> string): string
  {
    Join(SubjectRows(subjects, methods, html, startLink), "\n")
  }

  /** The inner loop of `create_subject_message`: the links of one subject. */
  method CollectLinks(subject: Subject, methods: seq<LinkMethod>, html: Html, startLink: string -> string)
    returns (links: seq<string>)
    ensures links == SubjectLinks(subject, methods, html, startLink)
  {
    links := [];
    var j := 0;
    while j < |methods|
      invariant 0 <= j <= |methods|
      invariant |links| == j
      invariant forall k :: 0 <= k < j ==> links[k] == html.link(methods[k].text, CreateLink(subject.id, methods[k].name, startLink))
    {
      links := links + [html.link(methods[j].text, CreateLink(subject.id, methods[j].name, startLink))];
      j := j + 1;
    }
  }

  /** `create_subject_message(subjects, methods)`. */
  method CreateSubjectMessage(subjects: seq<Subject>, methods: seq<LinkMethod>, html: Html, startLink: string -> string)
    returns (text: string)
    ensures text == SubjectMessage(subjects, methods, html, startLink)
    ensures |subjects| == 0 ==> text == ""
  {
    var rows: seq<string> := [];
    var index := 0;
    while index < |subjects|
      invariant 0 <= index <= |subjects|
      invariant |rows| == index
      invariant forall k :: 0 <= k < index ==> rows[k] == SubjectRow(k + 1, subjects[k], methods, html, startLink)
    {
      var subject := subjects[index];
      var links := CollectLinks(subject, methods, html, startLink);
      rows := rows + [NatToString(index + 1) + ". " + subject.name + ". " + Join(links, ", ")];
      index := index + 1;
    }
    assert rows == SubjectRows(subjects, methods, html, startLink);
    text := Join(rows, "\n");
  }

  lemma {:induction false} NotInJoin(parts: seq<string>, sep: string, c: char)
    requires c !in sep
    requires forall i :: 0 <= i < |parts| ==> c !in parts[i]
    ensures c !in Join(parts, sep)
    decreases |parts|
  {
    if |parts| > 1 {
      NotInJoin(parts[1..], sep, c);
    }
  }

  /**
   * When no subject name and no link holds a line break, the listing splits
   * back into exactly one line per subject, in order.
   */
  lemma SubjectMessageLines(subjects: seq<Subject>, methods: seq<LinkMethod>, html: Html, startLink: string -> string)
    requires |subjects| > 0
    requires forall i :: 0 <= i < |subjects| ==> '\n' !in subjects[i].name
    requires forall i, j :: 0 <= i < |subjects| && 0 <= j < |methods| ==> '\n' !in SubjectLinks(subjects[i], methods, html, startLink)[j]
    ensures Split(SubjectMessage(subjects, methods, html, startLink), '\n') == SubjectRows(subjects, methods, html, startLink)
  {
    var rows := SubjectRows(subjects, methods, html, startLink);
    forall i | 0 <= i < |rows| ensures '\n' !in rows[i] {
      NotInJoin(SubjectLinks(subjects[i], methods, html, startLink), ", ", '\n');
      var digits := NatToString(i + 1);
      assert forall k :: 0 <= k < |digits| ==> IsDigit(digits[k]);
    }
    SplitJoin(rows, '\n');
  }

  // ---------------------------------------------------------------------
  // gather_upcoming_tasks
  // ---------------------------------------------------------------------

  function Pow10(w: nat): nat
  {
    if w == 0 then 1 else 10 * Pow10(w - 1)
  }

  lemma {:induction false} NatToStringFits(n: nat, w: nat)
    requires 1 <= w && n < Pow10(w)
    ensures |NatToString(n)| <= w
    decreases w
  {
    if n >= 10 {
      NatToStringFits(n / 10, w - 1);
    }
  }

  function Zeros(k: nat): (z: string)
    ensures |z| == k && AllDigits(z)
  {
    seq(k, _ => '0')
  }

  /** `n` in decimal, left-padded with zeros to `w` digits. */
  function ZeroPad(n: nat, w: nat): (r: string)
    ensures AllDigits(r)
  {
    var s := NatToString(n);
    var z := if |s| < w then Zeros(w - |s|) else "";
    assert AllDigits(z + s) by {
      forall i | 0 <= i < |z + s| ensures IsDigit((z + s)[i]) {
        if i < |z| { assert (z + s)[i] == z[i]; } else { assert (z + s)[i] == s[i - |z|]; }
      }
    }
    z + s
  }

  lemma {:induction false} DigitsValueLeadingZeros(z: string, s: string)
    requires AllDigits(s) && |z| > 0 && forall i :: 0 <= i < |z| ==> z[i] == '0'
    ensures AllDigits(z + s)
    ensures DigitsValue(z + s) == DigitsValue(s)
    decreases |s|, |z|
  {
    assert AllDigits(z + s) by {
      forall i | 0 <= i < |z + s| ensures IsDigit((z + s)[i]) {
        if i < |z| { assert (z + s)[i] == z[i]; } else { assert (z + s)[i] == s[i - |z|]; }
      }
    }
    if |s| == 0 {
      assert z + s == z;
      if |z| > 1 {
        DigitsValueLeadingZeros(z[..|z| - 1], "");
        assert z[..|z| - 1] + "" == z[..|z| - 1];
      }
    } else {
      var init := s[..|s| - 1];
      DigitsValueLeadingZeros(z, init);
      assert (z + s)[..|z + s| - 1] == z + init;
    }
  }

  lemma ZeroPadValue(n: nat, w: nat)
    requires 1 <= w && n < Pow10(w)
    ensures |ZeroPad(n, w)| == w
    ensures DigitsValue(ZeroPad(n, w)) == n
  {
    NatToStringFits(n, w);
    DigitsValueOfNatToString(n);
    var s := NatToString(n);
    if |s| < w {
      DigitsValueLeadingZeros(Zeros(w - |s|), s);
    } else {
      assert ZeroPad(n, w) == s;
    }
  }

  /** `date.strftime('%d/%m/%Y')`. */
  function FormatDate(d: Date): string
  {
    ZeroPad(d.day, 2) + "/" + ZeroPad(d.month, 2) + "/" + ZeroPad(d.year, 4)
  }

  /** Reading `dd/mm/yyyy` back, the reverse of FormatDate. */
  function ParseDate(s: string): Option<Date>
  {
    if |s| == 10 && s[2] == '/' && s[5] == '/' && AllDigits(s[..2]) && AllDigits(s[3..5]) && AllDigits(s[6..]) then
      var d := DateFields(DigitsValue(s[..2]), DigitsValue(s[3..5]), DigitsValue(s[6..]));
      if 1 <= d.day <= 31 && 1 <= d.month <= 12 && 1 <= d.year <= 9999 then Some(d) else None
    else None
  }

  /** The date format is ten characters and loses nothing. */
  lemma ParseDateOfFormatDate(d: Date)
    ensures |FormatDate(d)| == 10
    ensures ParseDate(FormatDate(d)) == Some(d)
  {
    ZeroPadValue(d.day, 2);
    ZeroPadValue(d.month, 2);
    ZeroPadValue(d.year, 4);
    var s := FormatDate(d);
    assert s[..2] == ZeroPad(d.day, 2);
    assert s[3..5] == ZeroPad(d.month, 2);
    assert s[6..] == ZeroPad(d.year, 4);
  }

  /** `str(grade)` for a grade that may be None. */
  function GradeText(grade: Option<int>): string
  {
    match grade
    case Some(g) => IntToString(g)
    case None => "None"
  }

  /** The line up to the done mark. */
  function TaskLineHead(task: SubjectTask, html: Html): string
  {
    "* Name: " + html.bold(task.name) + ". Due date: " + html.bold(FormatDate(task.dueDate)) + ". Is done: "
  }

  /** The status line of one task for one student, given the student's solution for it, if any. */
  function TaskLine(task: SubjectTask, solution: Option<Solution>, html: Html): string
  {
    var head := TaskLineHead(task, html);
    match solution
    case Some(s) => head + "✅" + " Your grade: " + html.bold(GradeText(s.grade))
    case None => head + "❌"
  }

  /** The mark is ✅ exactly when a solution exists, and a grade follows only then. */
  lemma TaskLineStatus(task: SubjectTask, solution: Option<Solution>, html: Html)
    ensures |TaskLine(task, solution, html)| > |TaskLineHead(task, html)|
    ensures TaskLine(task, solution, html)[|TaskLineHead(task, html)|] == '✅' <==> solution.Some?
    ensures TaskLine(task, solution, html)[|TaskLineHead(task, html)|] == '❌' <==> solution.None?
    ensures solution.None? <==> |TaskLine(task, solution, html)| == |TaskLineHead(task, html)| + 1
  {
    var head := TaskLineHead(task, html);
    var line := TaskLine(task, solution, html);
    if solution.Some? {
      assert line == head + ("✅" + " Your grade: " + html.bold(GradeText(solution.value.grade)));
      assert line[|head|] == '✅';
    } else {
      assert line[|head|] == '❌';
    }
  }

  function TaskHeader(subject: Subject, html: Html): string
  {
    "Your tasks for " + html.bold(subject.name) + ":"
  }

  function TaskLines(tasks: seq<SubjectTask>, student: Student, solutionOf: (int, int) -> Option<Solution>, html: Html): (lines: seq<string>)
    ensures |lines| == |tasks|
  {
    seq(|tasks|, i requires 0 <= i < |tasks| => TaskLine(tasks[i], solutionOf(student.id, tasks[i].id), html))
  }

  /**
   * `gather_upcoming_tasks`: the header, a line break, and one status line
   * per task in input order joined by line breaks. `solutionOf(student, task)`
   * is the first solution the database holds for that pair.
   */
  method GatherUpcomingTasks(subject: Subject, tasks: seq<SubjectTask>, student: Student,
                             solutionOf: (int, int) -> Option<Solution>, html: Html)
    returns (text: string)
    ensures text == TaskHeader(subject, html) + "\n" + Join(TaskLines(tasks, student, solutionOf, html), "\n")
  {
    var subjectText := TaskHeader(subject, html);
    var tasksTexts: seq<string> := [];
    var i := 0;
    while i < |tasks|
      invariant 0 <= i <= |tasks|
      invariant |tasksTexts| == i
      invariant forall k :: 0 <= k < i ==> tasksTexts[k] == TaskLine(tasks[k], solutionOf(student.id, tasks[k].id), html)
    {
      var task := tasks[i];
      var solution := solutionOf(student.id, task.id);
      var isDone := if solution.Some? then "✅" else "❌";
      var line := "* Name: " + html.bold(task.name) + ". Due date: " + html.bold(FormatDate(task.dueDate)) + ". Is done: " + isDone;
      if solution.Some? {
        line := line + " Your grade: " + html.bold(GradeText(solution.value.grade));
      }
      tasksTexts := tasksTexts + [line];
      i := i + 1;
    }
    assert tasksTexts == TaskLines(tasks, student, solutionOf, html);
    text := subjectText + "\n" + Join(tasksTexts, "\n");
  }

  // ---------------------------------------------------------------------
  // Deep-link actions
  // ---------------------------------------------------------------------

  /**
   * A subject row of the database, whose student set `add`/`remove` change.
   * Its id and name are the `Models.Subject` value that `AsSubject` gives.
   */
  class SubjectEntity {
    const id: int
    const name: string
    var students: set<int>

    /** The subject as a value, without its students. */
    function AsSubject(): (s: Subject)
      ensures s.id == id && s.name == name
    {
      Subject(id, name)
    }

    constructor (id: int, name: string, students: set<int>)
      ensures this.id == id && this.name == name && this.students == students
    {
      this.id := id;
      this.name := name;
      this.students := students;
    }
  }

  /** `add_student_to_subject`: `subject` and `student` are what the two lookups found. */
  method AddStudentToSubject(subject: SubjectEntity?, student: Option<Student>) returns (reply: string)
    modifies subject
    ensures subject != null && student.Some? ==>
      subject.students == old(subject.students) + {student.value.id} && reply == "You are now a student of \"" + subject.name + "\""
    ensures subject == null || student.None? ==> reply == "Subject or student not found"
    ensures subject != null && student.None? ==> subject.students == old(subject.students)
  {
    if subject != null && student.Some? {
      subject.students := subject.students + {student.value.id};
      reply := "You are now a student of \"" + subject.name + "\"";
    } else {
      reply := "Subject or student not found";
    }
  }

  /** `quit_student_to_subject`. */
  method QuitStudentToSubject(subject: SubjectEntity?, student: Option<Student>) returns (reply: string)
    modifies subject
    ensures subject != null && student.Some? ==>
      subject.students == old(subject.students) - {student.value.id} && reply == "You are now not a student of \"" + subject.name + "\""
    ensures subject == null || student.None? ==> reply == "Subject or student not found"
    ensures subject != null && student.None? ==> subject.students == old(subject.students)
  {
    if subject != null && student.Some? {
      subject.students := subject.students - {student.value.id};
      reply := "You are now not a student of \"" + subject.name + "\"";
    } else {
      reply := "Subject or student not found";
    }
  }

  /** The sender teaches the subject: it exists, has a teacher, and that teacher's user is the sender. */
  predicate TeachesSubject(subject: Option<Subject>, teacher: Option<Teacher>, sender: int)
  {
    subject.Some? && teacher.Some? && teacher.value.userId == sender
  }

  /**
   * `add_task`: `subject` is what `db.get_subject` found and `teacher` what
   * `await subject.teacher` gave for it.
   */
  method AddTask(s: Session, subject: Option<Subject>, teacher: Option<Teacher>, sender: int) returns (reply: string)
    modifies s
    ensures TeachesSubject(subject, teacher, sender) ==>
      s.state == TaskName && s.data == old(s.data)["subject_id" := Id(subject.value.id)] && reply == "Write a name for task"
    ensures !TeachesSubject(subject, teacher, sender) ==>
      s.state == old(s.state) && s.data == old(s.data) && reply == "You are not a teacher of this subject"
    ensures SessionInvariant(old(s.state), old(s.data)) ==> SessionInvariant(s.state, s.data)
  {
    if subject.Some? && teacher.Some? && teacher.value.userId == sender {
      s.SetState(TaskName);
      s.UpdateData(map["subject_id" := Id(subject.value.id)]);
      reply := "Write a name for task";
    } else {
      reply := "You are not a teacher of this subject";
    }
  }

  const NoTasksReply := "There are no tasks in this subject"
  const TasksHeading := "Here are your tasks for subject "
  const TasksFooter := "Your buttons depend on your role"

  /** `see_tasks`: one card per task between a header and a footer, or a notice when there is none. */
  function SeeTasks(subject: Option<Subject>, tasks: seq<SubjectTask>, html: Html): (acts: seq<Action>)
    ensures subject.None? || |tasks| == 0 ==> acts == [Answer(NoTasksReply)]
    ensures subject.Some? && |tasks| > 0 ==>
      && |acts| == |tasks| + 2
      && acts[0] == Answer(TasksHeading + html.bold(subject.value.name))
      && (forall i :: 0 <= i < |tasks| ==> acts[i + 1] == ShowTask(tasks[i]))
      && acts[|tasks| + 1] == Answer(TasksFooter)
  {
    if subject.Some? && |tasks| > 0 then
      [Answer(TasksHeading + html.bold(subject.value.name))]
        + seq(|tasks|, i requires 0 <= i < |tasks| => ShowTask(tasks[i]))
        + [Answer(TasksFooter)]
    else [Answer(NoTasksReply)]
  }

  /**
   * `ask_teacher`. Where both the subject and its teacher exist it calls
   * `support_keyboard(teacher_id=...)` without the required `messages`
   * argument, which raises TypeError; otherwise it reports the failure.
   */
  function AskTeacher(subject: Option<Subject>, teacher: Option<Teacher>): (r: Result<seq<Action>>)
    ensures r.Ok? <==> subject.None? || teacher.None?
    ensures r.Ok? ==> r.value == [Answer("Subject or teacher not found. Can't send message.")]
    ensures r.Raise? ==> r.error == TypeError
  {
    if subject.Some? && teacher.Some? then Raise(TypeError)
    else Ok([Answer("Subject or teacher not found. Can't send message.")])
  }

  const AskTeacherPrompt := "To write a message to the teacher, click a button below:"

  /** A reply with its inline keyboard (empty when the reply has none). */
  datatype Reply = Reply(text: string, keyboard: Keyboards.Rows)

  /**
   * `ask_teacher` as evidently intended: the found teacher gets the
   * one-button support keyboard built with `messages` "one" and the
   * teacher's Telegram id.
   */
  function AskTeacherIntended(subject: Option<Subject>, teacher: Option<Teacher>): (r: Result<Reply>)
    ensures subject.None? || teacher.None? ==> r == Ok(Reply("Subject or teacher not found. Can't send message.", []))
    ensures r.Ok? && subject.Some? && teacher.Some? ==> r.value.text == AskTeacherPrompt && |r.value.keyboard| == 1
  {
    if subject.Some? && teacher.Some? then
      match Keyboards.SupportKeyboard(Keyboards.OneMessage, Some(teacher.value.userId), None)
      case Ok(k) => Ok(Reply(AskTeacherPrompt, k))
      case Raise(e) => Raise(e)
    else Ok(Reply("Subject or teacher not found. Can't send message.", []))
  }

  /**
   * Where the subject and its teacher exist, the intended reply carries one
   * button whose token addresses the teacher, to be written to as a user.
   */
  lemma AskTeacherIntendedContacts(subject: Subject, teacher: Teacher)
    requires Callbacks.Pack(Callbacks.SupportCallback(Keyboards.OneMessage, teacher.userId, true)).Some?
    ensures var r := AskTeacherIntended(Some(subject), Some(teacher));
      && r.Ok? && r.value.text == AskTeacherPrompt
      && |r.value.keyboard| == 1 && |r.value.keyboard[0]| == 1
      && r.value.keyboard[0][0].text == Keyboards.WriteMessageLabel
      && Callbacks.Unpack(Callbacks.SupportKind, r.value.keyboard[0][0].callbackData)
           == Some(Callbacks.SupportCallback(Keyboards.OneMessage, teacher.userId, true))
  {
    Keyboards.SupportTokenContents(Keyboards.OneMessage, Some(teacher.userId), None);
  }

  /** As written, a question about any subject whose teacher exists never reaches the teacher. */
  lemma AskTeacherFoundRaises(subject: Subject, teacher: Teacher)
    ensures AskTeacher(Some(subject), Some(teacher)) == Raise(TypeError)
  {
  }

  /**
   * What `get_percentage_solutions_by_subject` returns: an ordered dict from
   * task name to the value the bar chart plots as "Solutions". The query is
   * not part of this model; its values are only passed through to the chart.
   */
  type TaskStats = seq<(string, int)>

  /** What the two statistics queries did. */
  datatype StatsQuery = Fetched(counts: TaskStats, grades: seq<int>) | QueryFailed

  datatype Statistics = Statistics(subject: Option<Subject>, counts: Option<TaskStats>, grades: Option<seq<int>>)

  /** `get_subject_statistics`: `subject` is what `db.get_subject` found. */
  function GetSubjectStatistics(subject: Option<Subject>, query: StatsQuery): (r: Statistics)
    ensures subject.None? ==> r == Statistics(None, None, None)
    ensures subject.Some? && query.QueryFailed? ==> r == Statistics(subject, None, None)
    ensures subject.Some? && query.Fetched? ==> r == Statistics(subject, Some(query.counts), Some(query.grades))
  {
    if subject.None? then Statistics(None, None, None)
    else match query
      case QueryFailed => Statistics(subject, None, None)
      case Fetched(c, g) => Statistics(subject, Some(c), Some(g))
  }

  datatype ChartData = ChartData(taskNames: seq<string>, solutions: seq<int>, grades: seq<int>)

  /** `prepare_chart_data`: ValueError unless both inputs are present and non-empty. */
  function PrepareChartData(counts: Option<TaskStats>, grades: Option<seq<int>>): (r: Result<ChartData>)
    ensures r.Raise? <==> counts.None? || |counts.value| == 0 || grades.None? || |grades.value| == 0
    ensures r.Raise? ==> r.error == ValueError
    ensures r.Ok? ==> |r.value.taskNames| == |r.value.solutions| == |counts.value|
    ensures r.Ok? ==> forall i :: 0 <= i < |counts.value| ==> (r.value.taskNames[i], r.value.solutions[i]) == counts.value[i]
    ensures r.Ok? ==> r.value.grades == grades.value
  {
    if counts.None? || |counts.value| == 0 || grades.None? || |grades.value| == 0 then Raise(ValueError)
    else
      var c := counts.value;
      Ok(ChartData(seq(|c|, i requires 0 <= i < |c| => c[i].0), seq(|c|, i requires 0 <= i < |c| => c[i].1), grades.value))
  }

  /**
   * `subject_stats`: the reply to a statistics deep link. A missing subject
   * and a subject without grades get one line; otherwise the heading, the
   * grades histogram and the per-task bar chart, in that order.
   */
  function SubjectStats(subject: Option<Subject>, query: StatsQuery, html: Html): (r: Result<seq<Action>>)
    ensures subject.None? ==> r == Ok([Answer("Subject not found.")])
    ensures subject.Some? && (query.QueryFailed? || |query.grades| == 0) ==>
      r == Ok([Answer("Stats for subject " + html.bold(subject.value.name) + ": No data")])
    ensures subject.Some? && query.Fetched? && |query.grades| > 0 && |query.counts| > 0 ==>
      && r.Ok? && |r.value| == 3
      && r.value[0] == Answer("Stats for subject " + html.bold(subject.value.name) + ":")
      && r.value[1] == SendGradesChart(query.grades)
      && r.value[2].SendSolutionsChart?
      && |r.value[2].taskNames| == |r.value[2].solutions| == |query.counts|
      && (forall i :: 0 <= i < |query.counts| ==> (r.value[2].taskNames[i], r.value[2].solutions[i]) == query.counts[i])
  {
    var stats := GetSubjectStatistics(subject, query);
    if stats.subject.None? then Ok([Answer("Subject not found.")])
    else if stats.grades.None? || |stats.grades.value| == 0 then
      Ok([Answer("Stats for subject " + html.bold(stats.subject.value.name) + ": No data")])
    else
      match PrepareChartData(stats.counts, stats.grades)
      case Raise(e) => Raise(e)
      case Ok(chart) =>
        Ok([Answer("Stats for subject " + html.bold(stats.subject.value.name) + ":"),
            SendGradesChart(chart.grades),
            SendSolutionsChart(chart.taskNames, chart.solutions)])
  }

  /**
   * A failing statistics query is absorbed into a "No data" reply; the
   * handler raises only when there are grades but no per-task counts.
   */
  lemma SubjectStatsFailures(subject: Option<Subject>, query: StatsQuery, html: Html)
    ensures subject.Some? && query.QueryFailed? ==>
      SubjectStats(subject, query, html) == Ok([Answer("Stats for subject " + html.bold(subject.value.name) + ": No data")])
    ensures SubjectStats(subject, query, html).Raise? <==>
      subject.Some? && query.Fetched? && |query.grades| > 0 && |query.counts| == 0
  {
  }

  // ---------------------------------------------------------------------
  // The `utils` table
  // ---------------------------------------------------------------------

  /** The deep-link handlers, one per entry of the `utils` table. */
  datatype DeepLinkAction =
    | JoinSubject      // add_student_to_subject
    | LeaveSubject     // quit_student_to_subject
    | StartTask        // add_task
    | ListTasks        // see_tasks
    | ContactTeacher   // ask_teacher
    | ShowStatistics   // subject_stats

  function KeyOf(a: DeepLinkAction): string
  {
    match a
    case JoinSubject => "add_subject"
    case LeaveSubject => "quit_subject"
    case StartTask => "add_task"
    case ListTasks => "see_tasks"
    case ContactTeacher => "ask_teacher"
    case ShowStatistics => "subject_stats"
  }

  /** `utils.get(key)`: exactly the six names resolve, each to its own handler. */
  function UtilFor(key: string): (r: Option<DeepLinkAction>)
    ensures r.Some? ==> KeyOf(r.value) == key
    ensures r.None? ==> forall a: DeepLinkAction :: KeyOf(a) != key
  {
    match key
    case "add_subject" => Some(JoinSubject)
    case "quit_subject" => Some(LeaveSubject)
    case "add_task" => Some(StartTask)
    case "see_tasks" => Some(ListTasks)
    case "ask_teacher" => Some(ContactTeacher)
    case "subject_stats" => Some(ShowStatistics)
    case _ => None
  }

  /** Every handler is reached from its own name, so the six names are distinct. */
  lemma UtilForKeyOf(a: DeepLinkAction)
    ensures UtilFor(KeyOf(a)) == Some(a)
  {
  }

  /** The links a teacher's subject listing offers (`get_subjects`). */
  const TeacherLinkMethods: seq<LinkMethod> := [
    LinkMethod("Invite students", "add_subject"),
    LinkMethod("Add task", "add_task"),
    LinkMethod("See tasks", "see_tasks"),
    LinkMethod("Show stats", "subject_stats")
  ]

  /** The handler names are written by JSON as they are. */
  lemma KeyIsPlain(a: DeepLinkAction)
    ensures PlainKey(KeyOf(a))
  {
    var k := KeyOf(a);
    forall i | 0 <= i < |k| ensures ' ' <= k[i] <= '~' && k[i] != '"' && k[i] != '\\' {
      match a
      case JoinSubject =>
      case LeaveSubject =>
      case StartTask =>
      case ListTasks =>
      case ContactTeacher =>
      case ShowStatistics =>
    }
  }

  /** Every link in the teacher's listing carries a key the `utils` table resolves, and its payload reads back. */
  lemma TeacherLinksResolve(subjectId: int)
    ensures forall j :: 0 <= j < |TeacherLinkMethods| ==> UtilFor(TeacherLinkMethods[j].name).Some?
    ensures forall j :: 0 <= j < |TeacherLinkMethods| ==>
      ParseLinkPayload(LinkPayload(TeacherLinkMethods[j].name, subjectId)) == Some((TeacherLinkMethods[j].name, subjectId))
  {
    var actions := [JoinSubject, StartTask, ListTasks, ShowStatistics];
    forall j | 0 <= j < |TeacherLinkMethods|
      ensures UtilFor(TeacherLinkMethods[j].name).Some?
      ensures ParseLinkPayload(LinkPayload(TeacherLinkMethods[j].name, subjectId)) == Some((TeacherLinkMethods[j].name, subjectId))
    {
      assert TeacherLinkMethods[j].name == KeyOf(actions[j]);
      UtilForKeyOf(actions[j]);
      KeyIsPlain(actions[j]);
      ParseLinkPayloadOfLinkPayload(KeyOf(actions[j]), subjectId);
    }
  }
}
