/**
 * The four inline-button payload types of the bot and aiogram's CallbackData
 * packing for them: `prefix:f1:f2:...`, ints in decimal, bools as `1`/`0`,
 * None as the empty string, at most 64 bytes of UTF-8; unpacking splits on
 * `:`, checks the field count and the prefix, and validates every field.
 */
module Callbacks {
  import opened Wrappers
  import opened Text

  const Separator: char := ':'
  /** Telegram's limit on callback data, enforced by `pack`. */
  const MaxCallbackLength: nat := 64

  datatype CallbackData =
    | TaskCallback(subjectId: int, taskId: int, action: Option<string>)
    | SolutionCallback(solutionId: int, grade: int)
    | SupportCallback(messages: string, userId: int, asUser: bool)
    | CancelSupportCallback(userId: int)

  datatype Kind = TaskKind | SolutionKind | SupportKind | CancelSupportKind

  function KindOf(c: CallbackData): Kind
  {
    match c
    case TaskCallback(_, _, _) => TaskKind
    case SolutionCallback(_, _) => SolutionKind
    case SupportCallback(_, _, _) => SupportKind
    case CancelSupportCallback(_) => CancelSupportKind
  }

  function Prefix(k: Kind): string
  {
    match k
    case TaskKind => "task"
    case SolutionKind => "solution"
    case SupportKind => "support"
    case CancelSupportKind => "cancel_support"
  }

  /** Number of declared fields. */
  function Arity(k: Kind): nat
  {
    match k
    case TaskKind => 3
    case SolutionKind => 2
    case SupportKind => 3
    case CancelSupportKind => 1
  }

  function EncodeBool(b: bool): string { if b then "1" else "0" }

  function EncodeOptional(s: Option<string>): string
  {
    match s
    case None => ""
    case Some(v) => v
  }

  /** Each field's text, in declaration order. */
  function EncodeFields(c: CallbackData): (fs: seq<string>)
    ensures |fs| == Arity(KindOf(c))
  {
    match c
    case TaskCallback(s, t, a) => [IntToString(s), IntToString(t), EncodeOptional(a)]
    case SolutionCallback(id, g) => [IntToString(id), IntToString(g)]
    case SupportCallback(m, u, b) => [m, IntToString(u), EncodeBool(b)]
    case CancelSupportCallback(u) => [IntToString(u)]
  }

  predicate FieldsPackable(fs: seq<string>)
  {
    forall i :: 0 <= i < |fs| ==> Separator !in fs[i]
  }

  /** `CallbackData.pack()`; None where aiogram raises ValueError. */
  function Pack(c: CallbackData): (r: Option<string>)
    ensures r.Some? <==> FieldsPackable(EncodeFields(c)) && Utf8Length(Join([Prefix(KindOf(c))] + EncodeFields(c), [Separator])) <= MaxCallbackLength
    ensures r.Some? ==> Split(r.value, Separator) == [Prefix(KindOf(c))] + EncodeFields(c)
  {
    var fs := EncodeFields(c);
    if !FieldsPackable(fs) then None
    else
      var parts := [Prefix(KindOf(c))] + fs;
      var token := Join(parts, [Separator]);
      if Utf8Length(token) > MaxCallbackLength then None
      else
        assert forall i :: 0 <= i < |parts| ==> Separator !in parts[i] by {
          forall i | 0 <= i < |parts| ensures Separator !in parts[i] {
            if i > 0 { assert parts[i] == fs[i - 1]; }
          }
        }
        SplitJoin(parts, Separator);
        Some(token)
  }

  /** pydantic's validation of a `bool` field from a string. */
  function ParseBool(s: string): Option<bool>
  {
    var l := Lower(s);
    if s == "0" || l == "f" || l == "n" || l == "no" || l == "off" || l == "false" then Some(false)
    else if s == "1" || l == "t" || l == "y" || l == "yes" || l == "on" || l == "true" then Some(true)
    else None
  }

  /** A nullable `str` field: the empty string stands for None. */
  function ParseOptional(s: string): Option<string>
  {
    if s == "" then None else Some(s)
  }

  /** Validation of the declared fields from their texts. */
  function DecodeFields(k: Kind, fs: seq<string>): (r: Option<CallbackData>)
    requires |fs| == Arity(k)
    ensures r.Some? ==> KindOf(r.value) == k
  {
    match k
    case TaskKind =>
      (match (ParseInt(fs[0]), ParseInt(fs[1]))
       case (Some(s), Some(t)) => Some(TaskCallback(s, t, ParseOptional(fs[2])))
       case _ => None)
    case SolutionKind =>
      (match (ParseInt(fs[0]), ParseInt(fs[1]))
       case (Some(id), Some(g)) => Some(SolutionCallback(id, g))
       case _ => None)
    case SupportKind =>
      (match (ParseInt(fs[1]), ParseBool(fs[2]))
       case (Some(u), Some(b)) => Some(SupportCallback(fs[0], u, b))
       case _ => None)
    case CancelSupportKind =>
      (match ParseInt(fs[0])
       case Some(u) => Some(CancelSupportCallback(u))
       case None => None)
  }

  /**
   * `Factory.unpack(token)` for the factory of kind `k`; None where aiogram
   * raises (wrong field count, wrong prefix, a field that does not validate).
   */
  function Unpack(k: Kind, token: string): (r: Option<CallbackData>)
    ensures r.Some? ==> |Split(token, Separator)| == Arity(k) + 1
    ensures r.Some? ==> Split(token, Separator)[0] == Prefix(k)
    ensures r.Some? ==> KindOf(r.value) == k
  {
    var parts := Split(token, Separator);
    if |parts| - 1 != Arity(k) then None
    else if parts[0] != Prefix(k) then None
    else DecodeFields(k, parts[1..])
  }

  /** Token position `i` (the prefix is position 0) holds a declared `int` field of kind `k`. */
  predicate IntField(k: Kind, i: int)
  {
    match k
    case TaskKind => i == 1 || i == 2
    case SolutionKind => i == 1 || i == 2
    case SupportKind => i == 2
    case CancelSupportKind => i == 1
  }

  /** An int field is only ever read back from integer text. */
  lemma UnpackedIntsAreIntText(k: Kind, token: string)
    requires Unpack(k, token).Some?
    ensures forall i :: IntField(k, i) ==> 1 <= i < |Split(token, Separator)| && IsIntText(Split(token, Separator)[i])
  {
    var parts := Split(token, Separator);
    assert parts[1..][0] == parts[1];
    if k != CancelSupportKind { assert parts[1..][1] == parts[2]; }
  }

  lemma PrefixesDistinct(k1: Kind, k2: Kind)
    requires k1 != k2
    ensures Prefix(k1) != Prefix(k2)
  {
  }

  /** A token decodes as at most one of the four kinds. */
  lemma UnpackDeterminesKind(k1: Kind, k2: Kind, token: string)
    requires Unpack(k1, token).Some? && Unpack(k2, token).Some?
    ensures k1 == k2
  {
    if k1 != k2 { PrefixesDistinct(k1, k2); }
  }

  /** A token whose prefix or field count differs from the kind's declaration is refused. */
  lemma UnpackRejectsMismatch(k: Kind, token: string)
    requires Split(token, Separator)[0] != Prefix(k) || |Split(token, Separator)| != Arity(k) + 1
    ensures Unpack(k, token) == None
  {
  }

  /** A task action that is present must be non-empty to survive the trip. */
  predicate RoundTrips(c: CallbackData)
  {
    c.TaskCallback? ==> c.action != Some("")
  }

  /** Unpacking what `pack` produced gives back the same field values. */
  lemma UnpackPack(c: CallbackData)
    requires Pack(c).Some?
    requires RoundTrips(c)
    ensures Unpack(KindOf(c), Pack(c).value) == Some(c)
  {
    var fs := EncodeFields(c);
    assert Split(Pack(c).value, Separator)[1..] == fs;
    match c
    case TaskCallback(s, t, a) =>
      ParseIntOfIntToString(s);
      ParseIntOfIntToString(t);
    case SolutionCallback(id, g) =>
      ParseIntOfIntToString(id);
      ParseIntOfIntToString(g);
    case SupportCallback(m, u, b) =>
      ParseIntOfIntToString(u);
      ParseBoolOfEncodeBool(b);
    case CancelSupportCallback(u) =>
      ParseIntOfIntToString(u);
  }

  lemma ParseBoolOfEncodeBool(b: bool)
    ensures ParseBool(EncodeBool(b)) == Some(b)
  {
    if !b {
      assert Lower("0") == "0";
    } else {
      assert Lower("1") == "1";
      assert "1" != "0";
    }
  }

  /** A present but empty task action packs like an absent one and comes back as None. */
  lemma EmptyActionComesBackAbsent(s: int, t: int)
    requires Pack(TaskCallback(s, t, Some(""))).Some?
    ensures Pack(TaskCallback(s, t, Some(""))) == Pack(TaskCallback(s, t, None))
    ensures Unpack(TaskKind, Pack(TaskCallback(s, t, Some(""))).value) == Some(TaskCallback(s, t, None))
  {
    UnpackPack(TaskCallback(s, t, None));
  }
}
