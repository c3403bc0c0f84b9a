/**
 * The inline keyboards: the one-button support keyboard of
 * `tgbot/keyboards/inline/support_keyboard.py`, and the legacy subject
 * markup of `tgbot/keyboards/inline/subjects.py`, which adds a row of three
 * buttons per subject.
 */
module Keyboards {
  import opened Wrappers
  import opened Models
  import Callbacks

  datatype Button = Button(text: string, callbackData: string)

  /** An inline keyboard as rows of buttons. */
  type Rows = seq<seq<Button>>

  // ---------------------------------------------------------------------
  // support_keyboard
  // ---------------------------------------------------------------------

  const AnswerStudentLabel := "Answer to student"
  const WriteMessageLabel := "Write your message"
  /** The only `messages` value for which the teacher-side button gets a label. */
  const OneMessage := "one"

  /** Python truthiness of an `int | None`: None and 0 are false. */
  predicate Truthy(n: Option<int>)
  {
    n.Some? && n.value != 0
  }

  /**
   * `support_keyboard(messages, teacher_id, user_id)`. A truthy `user_id`
   * answers that student; otherwise the button writes to the teacher and is
   * labelled only when `messages` is "one" (any other value leaves the label
   * unbound). A contact of None fails pydantic's `int` field, and packing
   * fails on a `:` in `messages` or a token over 64 bytes.
   */
  function SupportKeyboard(messages: string, teacherId: Option<int>, userId: Option<int>): (r: Result<Rows>)
    ensures r.Ok? ==> |r.value| == 1 && |r.value[0]| == 1
    ensures Truthy(userId) && r.Ok? ==> r.value[0][0].text == AnswerStudentLabel
    ensures !Truthy(userId) && r.Ok? ==> messages == OneMessage && r.value[0][0].text == WriteMessageLabel
    ensures !Truthy(userId) && messages != OneMessage ==> r == Raise(UnboundLocalError)
  {
    var contact := if Truthy(userId) then userId else teacherId;
    var asUser := !Truthy(userId);
    if !Truthy(userId) && messages != OneMessage then Raise(UnboundLocalError)
    else
      var text := if Truthy(userId) then AnswerStudentLabel else WriteMessageLabel;
      if contact.None? then Raise(ValidationError)
      else
        match Callbacks.Pack(Callbacks.SupportCallback(messages, contact.value, asUser))
        case None => Raise(ValueError)
        case Some(token) => Ok([[Button(text, token)]])
  }

  /**
   * The single button's token carries `messages` unchanged with the chosen
   * contact and flag: the student's id and `as_user = False` when `user_id`
   * is truthy, else the teacher's id and `as_user = True`.
   */
  lemma SupportTokenContents(messages: string, teacherId: Option<int>, userId: Option<int>)
    requires SupportKeyboard(messages, teacherId, userId).Ok?
    ensures var contact := if Truthy(userId) then userId.value else teacherId.value;
      var token := SupportKeyboard(messages, teacherId, userId).value[0][0].callbackData;
      Callbacks.Unpack(Callbacks.SupportKind, token) == Some(Callbacks.SupportCallback(messages, contact, !Truthy(userId)))
  {
    var contact := if Truthy(userId) then userId.value else teacherId.value;
    Callbacks.UnpackPack(Callbacks.SupportCallback(messages, contact, !Truthy(userId)));
  }

  /** A packable answer to a student always succeeds, whatever `messages` and `teacher_id` are. */
  lemma StudentAnswerBuilds(messages: string, teacherId: Option<int>, userId: int)
    requires userId != 0
    requires Callbacks.Pack(Callbacks.SupportCallback(messages, userId, false)).Some?
    ensures SupportKeyboard(messages, teacherId, Some(userId))
      == Ok([[Button(AnswerStudentLabel, Callbacks.Pack(Callbacks.SupportCallback(messages, userId, false)).value)]])
  {
  }

  /** A `user_id` of 0 counts as absent: the keyboard is the one built without it. */
  lemma ZeroUserIsAbsent(messages: string, teacherId: Option<int>)
    ensures SupportKeyboard(messages, teacherId, Some(0)) == SupportKeyboard(messages, teacherId, None)
  {
  }

  /** The teacher-side keyboard without a teacher id fails validation. */
  lemma NoContactFails(teacherId: Option<int>, userId: Option<int>)
    requires !Truthy(userId) && teacherId.None?
    ensures SupportKeyboard(OneMessage, teacherId, userId) == Raise(ValidationError)
  {
  }

  // ---------------------------------------------------------------------
  // The legacy subject markup
  // ---------------------------------------------------------------------

  const ShowAction := "show"
  const DeleteAction := "delete"
  const EditAction := "edit"
  const DeleteLabel := "Delete from me"
  const EditLabel := "Edit this subject"

  /**
   * An aiogram 2 `InlineKeyboardMarkup`, whose `row` appends one row of
   * buttons.
   */
  class InlineKeyboardMarkup {
    var rows: Rows

    constructor ()
      ensures rows == []
    {
      rows := [];
    }

    method Row(buttons: seq<Button>)
      modifies this
      ensures rows == old(rows) + [buttons]
    {
      rows := rows + [buttons];
    }
  }

  /**
   * The three buttons of a subject. `newToken(action, name)` is
   * `subject_callback.new`, whose callback factory is not part of this model.
   */
  function SubjectButtons(subject: Subject, newToken: (string, string) -> string): seq<Button>
  {
    [Button(subject.name, newToken(ShowAction, subject.name)),
     Button(DeleteLabel, newToken(DeleteAction, subject.name)),
     Button(EditLabel, newToken(EditAction, subject.name))]
  }

  /** The rows of the subject markup, one per subject in input order. */
  function SubjectRows(subjects: seq<Subject>, newToken: (string, string) -> string): (rows: Rows)
  {
    if |subjects| == 0 then []
    else SubjectRows(subjects[..|subjects| - 1], newToken) + [SubjectButtons(subjects[|subjects| - 1], newToken)]
  }

  /**
   * One row per subject, in input order, each with exactly three buttons:
   * the subject's name, then "Delete from me" and "Edit this subject", with
   * the actions `show`, `delete` and `edit` on the subject's name.
   */
  lemma {:induction false} SubjectRowsShape(subjects: seq<Subject>, newToken: (string, string) -> string)
    ensures var rows := SubjectRows(subjects, newToken);
      && |rows| == |subjects|
      && forall i :: 0 <= i < |subjects| ==>
           && |rows[i]| == 3
           && rows[i][0] == Button(subjects[i].name, newToken(ShowAction, subjects[i].name))
           && rows[i][1] == Button(DeleteLabel, newToken(DeleteAction, subjects[i].name))
           && rows[i][2] == Button(EditLabel, newToken(EditAction, subjects[i].name))
  {
    if |subjects| > 0 {
      SubjectRowsShape(subjects[..|subjects| - 1], newToken);
    }
  }

  /** `markup(subjects)`: a fresh markup with one `row` call per subject. */
  method Markup(subjects: seq<Subject>, newToken: (string, string) -> string) returns (markup: InlineKeyboardMarkup)
    ensures fresh(markup)
    ensures markup.rows == SubjectRows(subjects, newToken)
  {
    markup := new InlineKeyboardMarkup();
    var i := 0;
    while i < |subjects|
      invariant 0 <= i <= |subjects|
      invariant markup.rows == SubjectRows(subjects[..i], newToken)
    {
      var subject := subjects[i];
      markup.Row([Button(subject.name, newToken(ShowAction, subject.name)),
                  Button(DeleteLabel, newToken(DeleteAction, subject.name)),
                  Button(EditLabel, newToken(EditAction, subject.name))]);
      assert subjects[..i + 1][..i] == subjects[..i];
      i := i + 1;
    }
    assert subjects[..i] == subjects;
  }
}
