# StudyHepler bot core in Dafny

This project models the conversation logic of the StudyHepler Telegram bot. Teachers use the bot to create subjects and tasks and to grade solutions. Students use it to join subjects, see their tasks and upload solutions.

The model covers the following parts of the bot:

- **Teacher router** (`tgbot/handlers/teacher.py`). Every update passes the teacher gate. Then fifteen handlers are tried in registration order, and the first whose filters accept the update runs.
  - The handlers drive the per-user FSM session: a state plus a field map.
  - They cover the subject and task creation flows, the yes/no confirmation that commits the collected fields, the subject listing, the solutions of a task, the `edit` button and grading.
- **Student router** (`tgbot/handlers/tasks.py`). The `create` button opens a solution. A document in `Solution.file_link` closes it.
- **Dispatcher.** Both routers are included in one dispatcher, by `dp.include_router(router)` at `tgbot/handlers/teacher.py:26` and `tgbot/handlers/tasks.py:15`. `bot.py:23-26` imports those modules. An update goes to the first router that handles it.
- **Callback data** (`tgbot/keyboards/inline/callbacks.py`). There are four prefixed, colon-separated token kinds, with aiogram's `pack` and `unpack`.
- **Keyboards.**
  - The one-button support keyboard (`support_keyboard.py`).
  - The legacy subject markup, built row by row in a loop (`subjects.py`).
- **Helpers** (`tgbot/misc/utils.py`).
  - The subject listing message and the deep-link payload.
  - Joining and leaving a subject, and adding a task.
  - The overview of upcoming tasks, the teacher contact, and the statistics inputs.
  - The table of deep-link handlers.

The code is modelled in the form it has in the source:

- The FSM context is a class, `Fsm.Session`, whose `state` and `data` fields the handler methods update in place.
- The fixed replies of the teacher router are the `Events.Notice` values. `Events.NoticeText` gives each one its wording.
- Each handler is a method on that session.
- Each router has a pure function (`TeacherStep`, `StudentStep`) saying what one update does. The router's `Dispatch` method is proved to do exactly that.
- The loops of the listing, of the upcoming-tasks overview and of the subject markup are methods with loop invariants. Each is proved equal to a specification function, and the properties are proved about that function.

The routers consult their collaborators through `Events.Env`: the teacher and student lookups of the router gates, the database writes and the three queries the teacher router makes, the HTML helpers, start-link minting and the date filter. The helpers in `Utils` take what their database lookups found (`get_subject`, `get_student`, `subject.teacher`, a task's solution) as ordinary parameters.

What the bot sends is recorded as `Events.Action` values, in order. Examples are a reply, a solution card with its download link, a file download, a notice to a student and a chart. Their delivery through the Telegram API is not modelled. Each update to the session is processed one after the other.

## Model

| member | source | states |
|---|---|---|
| TeacherProperties.GateRejects | tgbot/handlers/teacher.py:23-25 | an update from a user who is no teacher is not handled by the teacher router and leaves state and fields unchanged |
| TeacherHandlers.StepRoute | tgbot/handlers/teacher.py:41-137 | the step handler it names for the current state accepts the message |
| TeacherHandlers.MessageRoute | tgbot/handlers/teacher.py:29-157 | the message handler it names accepts the message |
| TeacherHandlers.CallbackRoute | tgbot/handlers/teacher.py:160-233 | the button handler it names accepts the callback query |
| TeacherHandlers.Match | tgbot/handlers/teacher.py:29-233 | the handler chosen is one whose filters accept the update |
| TeacherProperties.MatchIsFirstMatch | tgbot/handlers/teacher.py:29-233 | when any handler accepts an update, one is chosen, and it comes no later in registration order than any handler that accepts, so the router runs the first match |
| TeacherProperties.StepRouteFinds | tgbot/handlers/teacher.py:41-137 | within one state the step filters exclude each other: a step handler that accepts a message is exactly the one StepRoute names |
| TeacherHandlers.Apply | tgbot/handlers/teacher.py:29-233 | a handler whose filters accept an update always handles it |
| TeacherHandlers.TeacherStep | tgbot/handlers/teacher.py:23-233 | an update the teacher router does not handle leaves the session exactly as it was |
| TeacherHandlers.Dispatch | tgbot/handlers/teacher.py:23-233 | running the router on a live session gives the state, fields, replies and exception outcome that TeacherStep specifies |
| TeacherHandlers.RunRoute | tgbot/handlers/teacher.py:29-233 | the handler method of a route does to the session what Apply specifies |
| TeacherHandlers.CheckTeacher | tgbot/handlers/teacher.py:29-32 | `/is_teacher` answers with the greeting and then the help text |
| TeacherHandlers.BeginSubject | tgbot/handlers/teacher.py:35-38 | `/create_subject` moves to `Subject.name`, keeps the fields and asks for a name |
| TeacherProperties.CreateSubjectEntersFlow | tgbot/handlers/teacher.py:35-38 | from any state, `/create_subject` enters `Subject.name` without writing a field |
| TeacherHandlers.SetSubjectName | tgbot/handlers/teacher.py:41-47 | the text is stored as `name` and the state moves to `Subject.description` |
| TeacherProperties.SubjectNameStored | tgbot/handlers/teacher.py:41-47 | through the router, in `Subject.name` a non-command text is stored as `name` and the description is asked for |
| TeacherHandlers.SetSubjectDescription | tgbot/handlers/teacher.py:50-67 | stores `description`, moves to `Options.option` and arms the commit `create_subject` with the teacher's id |
| TeacherProperties.SubjectDescriptionAccepted | tgbot/handlers/teacher.py:50-67 | a subject description of at most 200 characters, exactly 200 included, is stored and arms the confirmation |
| TeacherProperties.SubjectDescriptionTooLong | tgbot/handlers/teacher.py:104-111 | a subject description over 200 characters clears state and all fields |
| TeacherHandlers.AcceptCreate | tgbot/handlers/teacher.py:70-77 | pops `method`, clears the session, then commits exactly the remaining fields and reports whether the commit succeeded; without `method` it raises KeyError and changes nothing |
| TeacherProperties.ConfirmYesCommits | tgbot/handlers/teacher.py:70-77 | a case-folded "yes" at the confirmation commits the fields other than `method` with the pending operation, and the session ends empty whatever the commit does |
| TeacherHandlers.DeclineCreate | tgbot/handlers/teacher.py:80-83 | clears the session and replies that nothing was created |
| TeacherProperties.ConfirmNoClears | tgbot/handlers/teacher.py:80-83 | a case-folded "no" at the confirmation clears the session |
| TeacherProperties.ConfirmOtherUnhandled | tgbot/handlers/teacher.py:70-83 | any other text at the confirmation matches no handler and leaves the session as it was |
| TeacherHandlers.SetTaskName | tgbot/handlers/teacher.py:86-92 | the text is stored as `name` and the state moves to `Task.description` |
| TeacherProperties.TaskNameStored | tgbot/handlers/teacher.py:86-92 | through the router, in `Task.name` a non-command text is stored as `name` |
| TeacherHandlers.SetTaskDescription | tgbot/handlers/teacher.py:95-101 | stores `description` and moves to `Task.due_date` |
| TeacherProperties.TaskDescriptionAccepted | tgbot/handlers/teacher.py:95-101 | a task description of at most 200 characters is stored and the due date is asked for |
| TeacherHandlers.SetDescriptionFail | tgbot/handlers/teacher.py:104-111 | clears state and fields and reports the limit |
| TeacherProperties.TaskDescriptionTooLong | tgbot/handlers/teacher.py:104-111 | a task description over 200 characters clears the whole session |
| TeacherProperties.DescriptionWithoutText | tgbot/handlers/teacher.py:104-106 | a message without text in a description state passes neither length filter and is not handled |
| TeacherHandlers.SetTaskDueDate | tgbot/handlers/teacher.py:114-130 | stores the filter's date as `due_date`, moves to `Options.option` and arms `create_subject_task` without a teacher id |
| TeacherProperties.DueDateAccepted | tgbot/handlers/teacher.py:114-130 | through the router, an accepted date is stored and arms the `create_subject_task` commit, adding no `teacher_id` |
| TeacherHandlers.SetTaskDueDateFail | tgbot/handlers/teacher.py:133-137 | a rejected date only re-prompts |
| TeacherProperties.DueDateRejectedKeepsSession | tgbot/handlers/teacher.py:133-137 | a date the filter rejects leaves state and fields unchanged |
| TeacherHandlers.GetSubjects | tgbot/handlers/teacher.py:140-157 | the "no subjects" reply is given exactly when the teacher has no subject |
| TeacherHandlers.SolutionCards | tgbot/handlers/teacher.py:172-186 | one card per solution in database order, or the "no solutions" notice when there is none |
| TeacherHandlers.ShowSolutionsForTask | tgbot/handlers/teacher.py:160-187 | replies with the solution cards of the token's task, then answers the callback |
| TeacherHandlers.EditTask | tgbot/handlers/teacher.py:190-200 | moves to `Task.name` and seeds `task_id` and `subject_id` from the token |
| TeacherProperties.EditButtonEntersFlow | tgbot/handlers/teacher.py:190-200 | from any state, a task button with action `edit` enters `Task.name` seeded with the token's ids |
| TeacherProperties.EditTokenEntersFlow | tgbot/handlers/teacher.py:190-200 | the `edit` token packed for a task enters `Task.name` with exactly that task's and subject's ids |
| TeacherHandlers.ReviewSolution | tgbot/handlers/teacher.py:203-233 | reports the error exactly when the grade update finds no solution; otherwise it edits the card, notifies the student of the new grade and confirms the review |
| TeacherProperties.AbsentActionUnhandled | tgbot/handlers/teacher.py:160-200 | a task token without an action matches none of the router's task buttons |
| TeacherProperties.ApplyPreservesInvariant | tgbot/handlers/teacher.py:29-233 | every handler keeps the session invariant: idle means no fields, and the confirmation state always holds a pending commit |
| TeacherProperties.StepPreservesInvariant | tgbot/handlers/teacher.py:23-233 | every update offered to the teacher router keeps the session invariant |
| StudentProperties.GateRejects | tgbot/handlers/tasks.py:12-14 | an update from a user who is no student is not handled and changes nothing |
| StudentHandlers.Match | tgbot/handlers/tasks.py:18-44 | the chosen handler accepts the update, and none is chosen only when neither accepts it |
| StudentHandlers.Apply | tgbot/handlers/tasks.py:18-44 | an accepted update is always handled |
| StudentHandlers.StudentStep | tgbot/handlers/tasks.py:12-44 | an update the student router does not handle leaves the session exactly as it was |
| StudentHandlers.Dispatch | tgbot/handlers/tasks.py:12-44 | running the router on a live session does what StudentStep specifies |
| StudentHandlers.CreateSolution | tgbot/handlers/tasks.py:18-29 | moves to `Solution.file_link` and seeds `subject_id` from the token's subject and `student_id` from the student record |
| StudentProperties.CreateButtonOpensSolution | tgbot/handlers/tasks.py:18-29 | from any state, the `create` token of a task opens a solution with the token's subject id, not its task id |
| StudentHandlers.SetSolutionFileLink | tgbot/handlers/tasks.py:32-44 | downloads the document, stores the message text as `file_link`, clears the session, creates the solution from the collected fields, and replies only when creation does not raise |
| StudentProperties.NonDocumentUnhandled | tgbot/handlers/tasks.py:32 | in `Solution.file_link` a message without a document is not handled and keeps the session |
| StudentProperties.DocumentClosesSolution | tgbot/handlers/tasks.py:32-44 | a document ends with an empty session whatever the database does, and the reply follows exactly when creation succeeds |
| StudentProperties.SolutionFlowFields | tgbot/handlers/tasks.py:18-44 | after the `create` button and a document, the solution is created from exactly the token's subject, the student and the message text |
| StudentProperties.StepPreservesInvariant | tgbot/handlers/tasks.py:12-44 | both student handlers keep the session invariant |
| Dispatcher.RouterStep | tgbot/handlers/teacher.py:23-26 | a router that does not handle an update leaves the session alone; the teacher router is gated and included here, the student router likewise at tgbot/handlers/tasks.py:12-15 |
| Dispatcher.Propagate | bot.py:23-26 | an update no router handles changes nothing |
| Dispatcher.HandledBySomeRouter | bot.py:23-26 | a handled update was handled by one of the included routers, exactly as that router alone would handle it |
| Dispatcher.RouterStepPreservesInvariant | bot.py:23-26 | each router keeps the session invariant |
| Dispatcher.RunPreservesInvariant | bot.py:23-26 | whatever the routers and their order, any sequence of updates keeps the session invariant |
| Dispatcher.StrangerUnhandled | tgbot/handlers/teacher.py:23-25 | a user who is neither teacher nor student is handled by no router |
| Dispatcher.SoleRouter | bot.py:23-26 | when every other router leaves an update alone, all the routers together act as that one router |
| Dispatcher.NoRouterAnswers | bot.py:23-26 | routers that each leave an update alone leave it unhandled together |
| Dispatcher.TeacherOnly | tgbot/handlers/tasks.py:12-14 | for a teacher who is no student, the dispatcher acts as the teacher router alone, whatever the router order |
| Dispatcher.StudentOnly | tgbot/handlers/teacher.py:23-25 | for a student who is no teacher, the dispatcher acts as the student router alone |
| Callbacks.EncodeFields | tgbot/keyboards/inline/callbacks.py:4-22 | one field text per declared field, in declaration order |
| Callbacks.Pack | tgbot/keyboards/inline/callbacks.py:4-22 | packing succeeds exactly when no field contains the separator and the token fits 64 bytes, and the token splits into the prefix followed by the fields |
| Callbacks.DecodeFields | tgbot/keyboards/inline/callbacks.py:4-22 | a decoded value is of the requested kind |
| Callbacks.Unpack | tgbot/keyboards/inline/callbacks.py:4-22 | a token decodes only if it carries the kind's prefix and field count, and then as that kind |
| Callbacks.PrefixesDistinct | tgbot/keyboards/inline/callbacks.py:4-22 | the four prefixes are pairwise distinct |
| Callbacks.UnpackDeterminesKind | tgbot/keyboards/inline/callbacks.py:4-22 | a token decodes as at most one kind |
| Callbacks.UnpackRejectsMismatch | tgbot/keyboards/inline/callbacks.py:4-22 | a token with the wrong prefix or field count is refused |
| Callbacks.UnpackedIntsAreIntText | tgbot/keyboards/inline/callbacks.py:5-22 | every declared `int` field is read back only from integer text: both ids of a task token, both fields of a solution token, the `user_id` of a support token and of a cancel token |
| Callbacks.UnpackPack | tgbot/keyboards/inline/callbacks.py:4-22 | unpacking a packed value gives back the same fields |
| Callbacks.ParseBoolOfEncodeBool | tgbot/keyboards/inline/callbacks.py:18 | `as_user` round-trips |
| Callbacks.EmptyActionComesBackAbsent | tgbot/keyboards/inline/callbacks.py:7 | a present empty action packs like an absent one and comes back as None |
| Keyboards.SupportKeyboard | tgbot/keyboards/inline/support_keyboard.py:7-28 | one row of one button labelled "Answer to student" for a truthy `user_id` or "Write your message" otherwise; without `user_id`, a `messages` other than "one" raises |
| Keyboards.SupportTokenContents | tgbot/keyboards/inline/support_keyboard.py:10-28 | the button's token carries `messages` unchanged, with the student and `as_user` False for a truthy `user_id`, else the teacher and `as_user` True |
| Keyboards.StudentAnswerBuilds | tgbot/keyboards/inline/support_keyboard.py:10-13 | with a truthy `user_id` the keyboard is built whatever `messages` and `teacher_id` are |
| Keyboards.ZeroUserIsAbsent | tgbot/keyboards/inline/support_keyboard.py:10 | a `user_id` of 0 behaves as None |
| Keyboards.NoContactFails | tgbot/keyboards/inline/support_keyboard.py:14-25 | the teacher-side button without a teacher id fails validation |
| Keyboards.InlineKeyboardMarkup.Row | tgbot/keyboards/inline/subjects.py:10 | `row` appends one row and keeps the others |
| Keyboards.SubjectRowsShape | tgbot/keyboards/inline/subjects.py:7-24 | one row per subject in order; each row has three buttons: the name, "Delete from me" and "Edit this subject", with actions show, delete and edit on the subject's name |
| Keyboards.Markup | tgbot/keyboards/inline/subjects.py:7-24 | the loop's markup is exactly the specified rows, so an empty list gives an empty markup |
| Utils.CreateLink | tgbot/misc/utils.py:38-41 | for a key JSON writes unescaped, the start link is minted for exactly the text `{"key": "<key>", "id": <subject id>}` |
| Utils.ParseLinkPayloadOfLinkPayload | tgbot/misc/utils.py:38-41 | the deep-link payload `{"key": key, "id": subject_id}` reads back as the same key and id |
| Utils.SubjectLinks | tgbot/misc/utils.py:25-33 | one link per entry of `methods` |
| Utils.SubjectRows | tgbot/misc/utils.py:22-34 | one row per subject |
| Utils.CollectLinks | tgbot/misc/utils.py:25-32 | the inner loop gives exactly the subject's links, one per method in order |
| Utils.CreateSubjectMessage | tgbot/misc/utils.py:19-35 | the loops build the specified message, and an empty subject list gives "" |
| Utils.SubjectMessageLines | tgbot/misc/utils.py:19-35 | splitting the message at newlines gives back the rows, one per subject in order |
| Utils.ZeroPadValue | tgbot/misc/utils.py:137 | zero padding keeps the value and has the requested width |
| Utils.ParseDateOfFormatDate | tgbot/misc/utils.py:137 | dd/mm/yyyy has ten characters and loses nothing |
| Utils.TaskLineStatus | tgbot/misc/utils.py:133-138 | a task is marked ✅ exactly when a solution exists, ❌ otherwise, and a grade follows only a ✅ |
| Utils.TaskLines | tgbot/misc/utils.py:131-139 | one line per task |
| Utils.GatherUpcomingTasks | tgbot/misc/utils.py:127-142 | the loop returns the header, a newline and the per-task lines joined by newlines |
| Utils.AddStudentToSubject | tgbot/misc/utils.py:44-54 | the student is added only when both are found; otherwise "Subject or student not found" and no change |
| Utils.QuitStudentToSubject | tgbot/misc/utils.py:57-67 | the student is removed only when both are found; otherwise no change |
| Utils.AddTask | tgbot/misc/utils.py:96-112 | enters `Task.name` with `subject_id` only for the subject's own teacher; otherwise the session is untouched and the refusal is sent |
| Utils.SeeTasks | tgbot/misc/utils.py:70-93 | for a found subject with tasks: the header naming the subject in bold, one card per task in order, then the "Your buttons depend on your role" footer; otherwise only the "no tasks" notice |
| Utils.AskTeacher | tgbot/misc/utils.py:145-157 | the "not found" reply exactly when the subject or its teacher is missing; otherwise TypeError |
| Utils.AskTeacherFoundRaises | tgbot/misc/utils.py:149-152 | for every subject whose teacher exists, the handler raises TypeError |
| Utils.AskTeacherIntended | tgbot/misc/utils.py:145-157 | the corrected handler replies with the prompt and a one-row keyboard when both exist |
| Utils.AskTeacherIntendedContacts | tgbot/keyboards/inline/support_keyboard.py:14-28 | the corrected reply's button addresses the teacher, with `messages` "one" and `as_user` True |
| Utils.GetSubjectStatistics | tgbot/misc/utils.py:160-174 | (None, None, None) for an unknown subject, (subject, None, None) when a query raises, otherwise the subject with both results |
| Utils.PrepareChartData | tgbot/misc/utils.py:177-185 | ValueError exactly when either input is missing or empty; otherwise the task names and their per-task values in order, with the grades unchanged |
| Utils.SubjectStats | tgbot/misc/utils.py:188-216 | "Subject not found." for a missing subject; the "No data" line when the query failed or found no grades; otherwise the heading, the grades histogram of exactly the fetched grades, and the bar chart pairing each task name with its value in order |
| Utils.SubjectStatsFailures | tgbot/misc/utils.py:188-216 | a failed query is answered with "No data", and the handler raises exactly when there are grades but no per-task counts |
| Utils.UtilFor | tgbot/misc/utils.py:219-226 | a name resolves only to the handler registered under that name, and an unknown name to nothing |
| Utils.UtilForKeyOf | tgbot/misc/utils.py:219-226 | each of the six handlers is reached from its own name |
| Utils.KeyIsPlain | tgbot/misc/utils.py:219-226 | every handler name is written by JSON unescaped |
| Utils.TeacherLinksResolve | tgbot/handlers/teacher.py:146-153 | every link of the teacher's subject listing carries a name the table resolves, and its payload reads back |

## Left out

- The admin router, settings loading and the start-up wiring of `bot.py` are not modelled. They are configuration and I/O.
- `delete_file` is not modelled. It is file-system I/O.
- The bot's sends, the solution card's presigned URL, the file download and the charts of `subject_stats` are recorded as `Action` values. What Telegram or the storage does with them is not modelled. `create_start_link` and `hbold`/`hlink` are opaque functions in `Env`.
- The database is modelled where the code branches on what it returns. The router queries are functions in `Env`. The lookups of the `Utils` helpers are parameters.
- Exceptions from the queries are not modelled. These are `get_subjects_by_teacher_id`, `get_solutions_for_task` and `update_solution_grade`: in the model they always return a sequence or an optional solution. In the source such an exception propagates, so `review_solution` would then not answer the callback. Telegram send failures (for example `bot.send_message` to a student who blocked the bot in `review_solution`) and the throttling middleware that can drop updates are not modelled either.
- Utils.PrepareChartData: the per-task values of `get_percentage_solutions_by_subject` are taken as integers. That query is not part of this model, and the values are only passed through to the chart.
- `IsValidDateFilter` is not part of this model. The date it accepts is `Env.validDate`, with its rules left abstract.
- `tgbot/handlers/__init__.py` is not part of this model, so the order in which the routers are included is unknown. The dispatcher lemmas hold for every order.
- The `subject_callback` factory of `tgbot/keyboards/inline/callback_data.py` is not part of this model. Its tokens come from a parameter, `newToken`.
- Case folding covers ASCII letters, the long s (U+017F, folded to 's') and the Kelvin sign (U+212A, folded to 'k') only, and whitespace is ASCII only. Full Unicode case folding is not modelled.
- The bot username used by command filters comes from `Env`. The `bot.me()` call is not modelled.
- async/await and concurrent access to the FSM storage are not modelled. One user's updates are processed sequentially.
- Download failures of `set_solution_file_link` are not modelled.
- Dispatcher.RunPreservesInvariant: this is the only statement about sequences of more than two updates. Longer concrete conversations are not proved step by step.
- Utils.ParseLinkPayloadOfLinkPayload: proved only for keys that JSON writes unescaped. All six handler names are such keys (Utils.KeyIsPlain).
- Callbacks.Unpack: pydantic's lenient coercions are not modelled (for example, bool words other than the usual ones, and whitespace around numbers).
- StudentHandlers.SetSolutionFileLink stores `message.text` as the link, exactly as written. For a plain document that is None.

## Findings

| source | as written | input that shows it | evidently intended | confidence | as-written member | corrected member |
|---|---|---|---|---|---|---|
| tgbot/misc/utils.py:149-152 | `support_keyboard(teacher_id=teacher.user_id)` omits the required `messages` argument, so the call raises TypeError | a payload naming a subject whose teacher exists | pass `messages="one"` so the student gets the "Write your message" button addressed to the teacher | medium, not executed | Utils.AskTeacherFoundRaises | Utils.AskTeacherIntendedContacts |
