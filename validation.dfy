/**
 * Client-side validation (`utils/validation.ts`): the profile-update checks, the
 * grouping of schema-validator errors into general and per-field messages, and the
 * mapping of a backend error to the text shown to the user.
 *
 * The schema validator itself is not modelled: its verdict and its error list are
 * inputs.
 */
module Validation {
  import opened Base
  import opened Query

  /** `ValidationResult`: the verdict, the general messages and the messages per field. */
  datatype ValidationResult = ValidationResult(isValid: bool, errors: seq<string>, fieldErrors: map<string, seq<string>>)

  // ---------------------------------------------------------------------------
  // validateProfileUpdate

  /** The fields `validateProfileUpdate` reads; each may be missing. */
  datatype ProfileUpdate = ProfileUpdate(
    name: Option<string>,
    email: Option<string>,
    newPassword: Option<string>,
    confirmPassword: Option<string>,
    currentPassword: Option<string>)

  const NameText := "Name must be at least 2 characters long"
  const EmailText := "Please provide a valid email address"
  const PasswordText := "Password must be at least 6 characters long"
  const MatchText := "Passwords must match"
  const CurrentText := "Current password is required to change password"

  /** A character `[^\s@]` accepts. */
  predicate PartChar(c: char)
  {
    !IsSpace(c) && c != '@'
  }

  /** `[^\s@]+` */
  predicate Part(s: string)
  {
    |s| > 0 && forall i :: 0 <= i < |s| ==> PartChar(s[i])
  }

  /** `/^[^\s@]+@[^\s@]+\.[^\s@]+$/.test(s)`: some '@' and a later '.' split `s` into three parts. */
  predicate EmailPattern(s: string)
  {
    exists at, dot :: 0 < at < dot < |s| && at + 1 < dot && dot + 1 < |s| && s[at] == '@' && s[dot] == '.'
                      && Part(s[..at]) && Part(s[at + 1..dot]) && Part(s[dot + 1..])
  }

  /** Every address of the form part@part.part passes the pattern. */
  lemma EmailPatternAccepts(a: string, b: string, c: string)
    requires Part(a) && Part(b) && Part(c)
    ensures EmailPattern(a + "@" + b + "." + c)
  {
    var s := a + "@" + b + "." + c;
    var at, dot := |a|, |a| + 1 + |b|;
    assert s[..at] == a && s[at + 1..dot] == b && s[dot + 1..] == c;
    assert s[at] == '@' && s[dot] == '.';
  }

  /** A passing address has exactly one '@' and no white space. */
  lemma EmailPatternShape(s: string)
    requires EmailPattern(s)
    ensures forall i :: 0 <= i < |s| ==> !IsSpace(s[i])
    ensures '@' in s && forall i :: 0 <= i < |s| && s[i] == '@' ==> i == IndexOfChar(s, '@')
  {
    var at, dot :| 0 < at < dot < |s| && at + 1 < dot && dot + 1 < |s| && s[at] == '@' && s[dot] == '.'
                   && Part(s[..at]) && Part(s[at + 1..dot]) && Part(s[dot + 1..]);
    assert s[at] == '@';
    var k := IndexOfChar(s, '@');
    PartCharAt(s, at, dot, k);
    forall i | 0 <= i < |s|
      ensures !IsSpace(s[i]) && (s[i] == '@' ==> i == k)
    {
      PartCharAt(s, at, dot, i);
    }
  }

  /** Every character of a passing address outside its '@' belongs to one of the three parts. */
  lemma PartCharAt(s: string, at: int, dot: int, i: int)
    requires 0 < at < dot < |s| && 0 <= i < |s|
    requires Part(s[..at]) && Part(s[at + 1..dot]) && Part(s[dot + 1..]) && s[dot] == '.'
    ensures PartChar(s[i]) || i == at
  {
    if i < at {
      assert s[i] == s[..at][i];
    } else if at < i < dot {
      assert s[i] == s[at + 1..dot][i - at - 1];
    } else if dot < i {
      assert s[i] == s[dot + 1..][i - dot - 1];
    }
  }

  /** `data.name` is present and shorter than two characters. */
  predicate NameTooShort(d: ProfileUpdate)
  {
    TruthyStr(d.name) && |d.name.value| < 2
  }

  /** `data.email` is present and fails the pattern. */
  predicate EmailInvalid(d: ProfileUpdate)
  {
    TruthyStr(d.email) && !EmailPattern(d.email.value)
  }

  predicate PasswordTooShort(d: ProfileUpdate)
  {
    TruthyStr(d.newPassword) && |d.newPassword.value| < 6
  }

  predicate ConfirmMismatch(d: ProfileUpdate)
  {
    TruthyStr(d.newPassword) && d.confirmPassword != d.newPassword
  }

  predicate CurrentMissing(d: ProfileUpdate)
  {
    TruthyStr(d.newPassword) && !TruthyStr(d.currentPassword)
  }

  /** The message of one check: present exactly when the check failed. */
  function Check(failed: bool, message: string): (r: seq<string>)
    ensures r == [] <==> !failed
  {
    if failed then [message] else []
  }

  /** The messages of the failed checks, in the order the function runs them. */
  function ProfileErrors(d: ProfileUpdate): (r: seq<string>)
    ensures |r| <= 5
  {
    IdentityErrors(d) + PasswordErrors(d)
  }

  function IdentityErrors(d: ProfileUpdate): (r: seq<string>)
    ensures |r| <= 2
  {
    Check(NameTooShort(d), NameText) + Check(EmailInvalid(d), EmailText)
  }

  function PasswordErrors(d: ProfileUpdate): (r: seq<string>)
    ensures |r| <= 3
    ensures !TruthyStr(d.newPassword) ==> r == []
  {
    Check(PasswordTooShort(d), PasswordText) + Check(ConfirmMismatch(d), MatchText) + Check(CurrentMissing(d), CurrentText)
  }

  /** Some check failed. */
  predicate AnyCheckFails(d: ProfileUpdate)
  {
    NameTooShort(d) || EmailInvalid(d) || PasswordTooShort(d) || ConfirmMismatch(d) || CurrentMissing(d)
  }

  /**
   * `validateProfileUpdate(data)`: each failed check adds its message to `errors`
   * and as the only message of its own field; the result is valid iff no check failed.
   */
  method ValidateProfileUpdate(d: ProfileUpdate) returns (r: ValidationResult)
    ensures r.isValid <==> !AnyCheckFails(d)
    ensures r.isValid <==> r.errors == [] && r.fieldErrors.Keys == {}
    ensures r.errors == ProfileErrors(d)
    ensures "name" in r.fieldErrors <==> NameTooShort(d)
    ensures "email" in r.fieldErrors <==> EmailInvalid(d)
    ensures "newPassword" in r.fieldErrors <==> PasswordTooShort(d)
    ensures "confirmPassword" in r.fieldErrors <==> ConfirmMismatch(d)
    ensures "currentPassword" in r.fieldErrors <==> CurrentMissing(d)
    ensures forall k :: k in r.fieldErrors ==> k in {"name", "email", "newPassword", "confirmPassword", "currentPassword"}
    ensures forall k :: k in r.fieldErrors ==> |r.fieldErrors[k]| == 1 && r.fieldErrors[k][0] in r.errors
  {
    var errors, fieldErrors := IdentityChecks(d);
    var passwordErrors, passwordFields := PasswordChecks(d);
    errors := errors + passwordErrors;
    fieldErrors := fieldErrors + passwordFields;
    r := ValidationResult(|errors| == 0, errors, fieldErrors);
  }

  /** The name and email part of `validateProfileUpdate`: each checked only when present. */
  method IdentityChecks(d: ProfileUpdate) returns (errors: seq<string>, fieldErrors: map<string, seq<string>>)
    ensures errors == IdentityErrors(d)
    ensures "name" in fieldErrors <==> NameTooShort(d)
    ensures "email" in fieldErrors <==> EmailInvalid(d)
    ensures forall k :: k in fieldErrors ==> k in {"name", "email"}
    ensures forall k :: k in fieldErrors ==> |fieldErrors[k]| == 1 && fieldErrors[k][0] in errors
  {
    errors := [];
    fieldErrors := map[];
    if TruthyStr(d.name) {
      if |d.name.value| < 2 {
        fieldErrors := fieldErrors["name" := [NameText]];
        errors := errors + [NameText];
      }
    }
    if TruthyStr(d.email) {
      if !EmailPattern(d.email.value) {
        fieldErrors := fieldErrors["email" := [EmailText]];
        errors := errors + [EmailText];
      }
    }
  }

  /** The password part of `validateProfileUpdate`: three independent checks, only with a new password. */
  method PasswordChecks(d: ProfileUpdate) returns (errors: seq<string>, fieldErrors: map<string, seq<string>>)
    ensures errors == PasswordErrors(d)
    ensures "newPassword" in fieldErrors <==> PasswordTooShort(d)
    ensures "confirmPassword" in fieldErrors <==> ConfirmMismatch(d)
    ensures "currentPassword" in fieldErrors <==> CurrentMissing(d)
    ensures forall k :: k in fieldErrors ==> k in {"newPassword", "confirmPassword", "currentPassword"}
    ensures forall k :: k in fieldErrors ==> |fieldErrors[k]| == 1 && fieldErrors[k][0] in errors
  {
    errors := [];
    fieldErrors := map[];
    if TruthyStr(d.newPassword) {
      if |d.newPassword.value| < 6 {
        fieldErrors := fieldErrors["newPassword" := [PasswordText]];
        errors := errors + [PasswordText];
      }
      if d.confirmPassword != d.newPassword {
        fieldErrors := fieldErrors["confirmPassword" := [MatchText]];
        errors := errors + [MatchText];
      }
      if !TruthyStr(d.currentPassword) {
        fieldErrors := fieldErrors["currentPassword" := [CurrentText]];
        errors := errors + [CurrentText];
      }
    }
  }

  /** Without a new password only the name and email can fail. */
  lemma NoPasswordChecksWithoutNewPassword(d: ProfileUpdate)
    requires !TruthyStr(d.newPassword)
    ensures ProfileErrors(d) == Check(NameTooShort(d), NameText) + Check(EmailInvalid(d), EmailText)
  {
    assert PasswordErrors(d) == [];
  }

  /**
   * With a new password the three password checks are independent: a short
   * password with no confirmation and no current password reports all three.
   */
  lemma PasswordChecksIndependent(d: ProfileUpdate)
    requires d.name.None? && d.email.None?
    requires TruthyStr(d.newPassword) && |d.newPassword.value| < 6
    requires d.confirmPassword.None? && d.currentPassword.None?
    ensures ProfileErrors(d) == [PasswordText, MatchText, CurrentText]
  {
  }

  /** An empty name or email is not checked at all. */
  lemma EmptyFieldsAreNotChecked(d: ProfileUpdate)
    requires d.name == Some("") && d.email == Some("") && !TruthyStr(d.newPassword)
    ensures ProfileErrors(d) == []
  {
  }

  /** A matching, long enough password with the current one given passes. */
  lemma GoodPasswordChangePasses(d: ProfileUpdate, p: string)
    requires d.name.None? && d.email.None? && |p| >= 6
    requires d.newPassword == Some(p) && d.confirmPassword == Some(p) && TruthyStr(d.currentPassword)
    ensures !AnyCheckFails(d)
  {
  }

  // ---------------------------------------------------------------------------
  // Grouping of schema-validator errors (validateRegistration, validateLogin)

  /** One validator error: its `instancePath` ('' for the whole object) and its message. */
  datatype SchemaError = SchemaError(instancePath: string, message: Option<string>)

  /** The field an error is filed under: the path without its first '/'. */
  function FieldOf(e: SchemaError): string
  {
    RemoveFirst(e.instancePath, '/')
  }

  /** The general messages of `errs`, in order ('Validation failed' for a missing one). */
  function GeneralMessages(errs: seq<SchemaError>): (r: seq<string>)
    ensures |r| <= |errs|
  {
    if errs == [] then []
    else
      var last := errs[|errs| - 1];
      GeneralMessages(errs[..|errs| - 1]) + (if last.instancePath == "" then [OrElse(last.message, "Validation failed")] else [])
  }

  /** The messages filed under `field`, in order ('Invalid value' for a missing one). */
  function FieldMessages(errs: seq<SchemaError>, field: string): (r: seq<string>)
    ensures |r| <= |errs|
  {
    if errs == [] then []
    else
      var last := errs[|errs| - 1];
      FieldMessages(errs[..|errs| - 1], field)
      + (if last.instancePath != "" && FieldOf(last) == field then [OrElse(last.message, "Invalid value")] else [])
  }

  /** Some error of `errs` is filed under `field`. */
  predicate HasField(errs: seq<SchemaError>, field: string)
  {
    exists i :: 0 <= i < |errs| && errs[i].instancePath != "" && FieldOf(errs[i]) == field
  }

  lemma {:induction false} FieldMessagesEmpty(errs: seq<SchemaError>, field: string)
    ensures FieldMessages(errs, field) == [] <==> !HasField(errs, field)
  {
    if errs != [] {
      var init := errs[..|errs| - 1];
      FieldMessagesEmpty(init, field);
      assert forall i :: 0 <= i < |init| ==> init[i] == errs[i];
      if HasField(init, field) {
        var i :| 0 <= i < |init| && init[i].instancePath != "" && FieldOf(init[i]) == field;
        assert errs[i] == init[i];
      }
      if HasField(errs, field) && !HasField(init, field) {
        var i :| 0 <= i < |errs| && errs[i].instancePath != "" && FieldOf(errs[i]) == field;
        assert i == |init|;
      }
    }
  }

  /**
   * The grouping loop of `validateRegistration` and `validateLogin`: each error
   * with a path goes to its field's list, each other error to the general list.
   */
  /** The `fieldErrors` object the grouping builds, error by error. */
  function FieldMap(errs: seq<SchemaError>): map<string, seq<string>>
  {
    if errs == [] then map[]
    else
      var m := FieldMap(errs[..|errs| - 1]);
      var last := errs[|errs| - 1];
      if last.instancePath != "" then
        var k := FieldOf(last);
        m[k := (if k in m then m[k] else []) + [OrElse(last.message, "Invalid value")]]
      else m
  }

  /** The built object holds exactly the fields that have messages, each with its messages. */
  lemma {:induction false} FieldMapAgrees(errs: seq<SchemaError>, f: string)
    ensures f in FieldMap(errs) <==> FieldMessages(errs, f) != []
    ensures f in FieldMap(errs) ==> FieldMap(errs)[f] == FieldMessages(errs, f)
  {
    if errs != [] {
      var init := errs[..|errs| - 1];
      FieldMapAgrees(init, f);
      var last := errs[|errs| - 1];
      if last.instancePath != "" && FieldOf(last) == f {
        assert |FieldMessages(errs, f)| == |FieldMessages(init, f)| + 1;
      }
    }
  }

  method GroupErrors(errs: seq<SchemaError>) returns (general: seq<string>, fields: map<string, seq<string>>)
    ensures general == GeneralMessages(errs)
    ensures forall f :: f in fields <==> HasField(errs, f)
    ensures forall f :: f in fields ==> fields[f] == FieldMessages(errs, f)
  {
    general := [];
    fields := map[];
    var i := 0;
    while i < |errs|
      invariant 0 <= i <= |errs|
      invariant general == GeneralMessages(errs[..i])
      invariant fields == FieldMap(errs[..i])
    {
      var e := errs[i];
      assert errs[..i + 1][..i] == errs[..i];
      assert errs[..i + 1][i] == e;
      if e.instancePath != "" {
        var field := FieldOf(e);
        var prior := if field in fields then fields[field] else [];
        fields := fields[field := prior + [OrElse(e.message, "Invalid value")]];
      } else {
        general := general + [OrElse(e.message, "Validation failed")];
      }
      i := i + 1;
    }
    assert errs[..|errs|] == errs;
    forall f
      ensures f in fields <==> HasField(errs, f)
      ensures f in fields ==> fields[f] == FieldMessages(errs, f)
    {
      FieldMapAgrees(errs, f);
      FieldMessagesEmpty(errs, f);
    }
  }

  /**
   * `validateRegistration(data)` and `validateLogin(data)` once the schema has
   * judged the data: valid data gives empty results; otherwise the validator's
   * errors (none when it gave no list) are grouped.
   */
  method ValidateWithSchema(valid: bool, errs: Option<seq<SchemaError>>) returns (r: ValidationResult)
    ensures r.isValid == valid
    ensures valid ==> r.errors == [] && r.fieldErrors == map[]
    ensures !valid ==> r.errors == GeneralMessages(if errs.Some? then errs.value else [])
    ensures !valid ==> forall f :: f in r.fieldErrors ==>
              r.fieldErrors[f] == FieldMessages(if errs.Some? then errs.value else [], f)
    ensures !valid ==> forall f :: f in r.fieldErrors <==> HasField(if errs.Some? then errs.value else [], f)
  {
    if !valid {
      var general, fields := GroupErrors(if errs.Some? then errs.value else []);
      return ValidationResult(false, general, fields);
    }
    r := ValidationResult(true, [], map[]);
  }

  /** Only the first '/' of a path is dropped: '/email' is filed as 'email', '/a/b' as 'a/b'. */
  lemma FieldOfDropsFirstSlash()
    ensures FieldOf(SchemaError("/email", None)) == "email"
    ensures FieldOf(SchemaError("/a/b", None)) == "a/b"
  {
    assert IndexOfChar("/email", '/') == 0;
    assert IndexOfChar("/a/b", '/') == 0;
  }

  /** Every error lands in exactly one place: the general list or one field's list. */
  lemma {:induction false} GroupingCounts(errs: seq<SchemaError>)
    ensures |GeneralMessages(errs)| + CountWithPath(errs) == |errs|
  {
    if errs != [] {
      GroupingCounts(errs[..|errs| - 1]);
    }
  }

  /** The number of errors that carry a path. */
  function CountWithPath(errs: seq<SchemaError>): (r: nat)
    ensures r <= |errs|
  {
    if errs == [] then 0
    else CountWithPath(errs[..|errs| - 1]) + (if errs[|errs| - 1].instancePath != "" then 1 else 0)
  }

  // ---------------------------------------------------------------------------
  // mapBackendError

  const DuplicateEmailText := "This email address is already registered. Please use a different email or try logging in instead."
  const InvalidCredentialsText := "Invalid email or password"
  const NetworkText := "Network error. Please check your connection."
  const ServiceUnavailableText := "The requested service is not available. Please try again later."
  const AccessDeniedText := "Access denied. You do not have permission to perform this action."
  const RateLimitedText := "Too many requests. Please wait a moment and try again."
  const UnexpectedText := "An unexpected error occurred. Please try again or contact support if the problem persists."

  /** The members of an error body the mapping reads. */
  datatype ErrorBody = ErrorBody(name: Option<string>, message: Option<string>, data: Option<Json>, status: Option<int>)

  /** A failed request: the response with its `_data`, the top-level `data`, and the error's own members. */
  datatype BackendError = BackendError(response: Option<Option<ErrorBody>>, data: Option<ErrorBody>, own: ErrorBody)

  /** `actualError`: the response body when there is one, `data` when there is no response, else the error. */
  function ActualError(e: BackendError): (r: ErrorBody)
    ensures e.response.Some? && e.response.value.Some? ==> r == e.response.value.value
    ensures e.response.None? && e.data.Some? ==> r == e.data.value
    ensures (e.response.None? || e.response.value.None?) && (e.response.Some? || e.data.None?) ==> r == e.own
  {
    var a := if e.response.Some? && e.response.value.Some? then e.response.value.value else e.own;
    if e.data.Some? && e.response.None? then e.data.value else a
  }

  /** `fieldError.message` of one array element as `join` renders it; `null` elements throw. */
  function ElementMessages(items: seq<Json>): (r: Option<seq<string>>)
    ensures r.Some? <==> JNull !in items
    ensures r.Some? ==> |r.value| == |items|
  {
    if items == [] then Some([])
    else
      var rest := ElementMessages(items[1..]);
      assert items == [items[0]] + items[1..];
      if items[0] == JNull || rest.None? then None
      else
        var m := Member(items[0], "message");
        Some([if m.None? || m.value == JNull then "" else ToText(m.value)] + rest.value)
  }

  /** `data.map(e => e.message).join('. ')`, or the TypeError a null element raises. */
  function JoinedMessages(items: seq<Json>): Outcome<Option<string>>
  {
    var ms := ElementMessages(items);
    if ms.None? then Threw("TypeError") else Returned(Some(Join(ms.value, ". ")))
  }

  predicate Named(b: ErrorBody, n: string)
  {
    b.name == Some(n)
  }

  predicate HasArrayData(b: ErrorBody)
  {
    b.data.Some? && b.data.value.JArr?
  }

  /** `message.includes(sub)`: throws when the message is not a string. */
  function MessageIncludes(b: ErrorBody, sub: string): Outcome<bool>
  {
    if b.message.None? then Threw("TypeError") else Returned(Contains(b.message.value, sub))
  }

  /** The status rules that apply once no named rule did. */
  function StatusMessage(status: Option<int>): (r: string)
    ensures status == Some(0) || status == Some(500) ==> r == NetworkText
    ensures status == Some(404) ==> r == ServiceUnavailableText
    ensures status == Some(403) ==> r == AccessDeniedText
    ensures status == Some(429) ==> r == RateLimitedText
    ensures status.None? || status.value !in {0, 500, 404, 403, 429} ==> r == UnexpectedText
  {
    if status == Some(0) || status == Some(500) then NetworkText
    else if status == Some(404) then ServiceUnavailableText
    else if status == Some(403) then AccessDeniedText
    else if status == Some(429) then RateLimitedText
    else UnexpectedText
  }

  /** The classification of `actualError`: named errors first, then the status. */
  function Classify(b: ErrorBody): Outcome<Option<string>>
  {
    if Named(b, "BadRequest") then
      if HasArrayData(b) then JoinedMessages(b.data.value.items)
      else if b.message.None? then Threw("TypeError")
      else if Contains(b.message.value, "email") && Contains(b.message.value, "already exists") then Returned(Some(DuplicateEmailText))
      else Returned(b.message)
    else if Named(b, "NotAuthenticated") then
      if b.message == Some("Invalid login") then Returned(Some(InvalidCredentialsText))
      else Returned(Some("Authentication failed. Please try again."))
    else if Named(b, "Forbidden") then
      if b.message.None? then Threw("TypeError")
      else if Contains(b.message.value, "Current password is required") then Returned(Some("Current password is required when changing password"))
      else if Contains(b.message.value, "Current password is incorrect") then Returned(Some("Current password is incorrect. Please check your password and try again."))
      else if Contains(b.message.value, "blacklisted") then Returned(Some("Your account has been blacklisted. Please contact an administrator for assistance."))
      else Returned(b.message)
    else if Named(b, "Conflict") then
      match MessageIncludes(b, "email")
      case Threw(m) => Threw(m)
      case Returned(has) => if has then Returned(Some(DuplicateEmailText)) else Returned(b.message)
    else if Named(b, "ValidationError") then
      if HasArrayData(b) then JoinedMessages(b.data.value.items) else Returned(b.message)
    else Returned(Some(StatusMessage(b.status)))
  }

  /** The five names `mapBackendError` recognises. */
  predicate KnownName(b: ErrorBody)
  {
    Named(b, "BadRequest") || Named(b, "NotAuthenticated") || Named(b, "Forbidden") || Named(b, "Conflict") || Named(b, "ValidationError")
  }

  /**
   * `mapBackendError(error)`: the text for the chosen error body. It only throws
   * (a TypeError) for a BadRequest, Forbidden or Conflict body without a string
   * message, or an array of field errors holding `null`.
   */
  function MapBackendError(e: BackendError): (r: Outcome<Option<string>>)
    ensures r.Threw? ==> KnownName(ActualError(e))
    ensures !KnownName(ActualError(e)) ==> r == Returned(Some(StatusMessage(ActualError(e).status)))
  {
    Classify(ActualError(e))
  }

  /** The response body is used whenever it exists: `data` and the error's own members are ignored. */
  lemma ResponseBodyWins(e: BackendError, data: Option<ErrorBody>, own: ErrorBody)
    requires e.response.Some? && e.response.value.Some?
    ensures MapBackendError(e) == MapBackendError(BackendError(e.response, data, own))
  {
  }

  /** A response without a body falls back to the error itself, not to `data`. */
  lemma EmptyResponseIgnoresData(e: BackendError)
    requires e.response == Some(None)
    ensures MapBackendError(e) == Classify(e.own)
  {
  }

  /** A named rule wins over the status: a Conflict about an email is a duplicate whatever the status. */
  lemma NameBeforeStatus(b: ErrorBody, m: string)
    requires Named(b, "Conflict") && b.message == Some(m) && Contains(m, "email")
    ensures Classify(b) == Returned(Some(DuplicateEmailText))
  {
  }

  lemma SingleMember(name: string, v: Json)
    ensures Member(JObj([(name, v)]), name) == Some(v)
  {
    var ms := [(name, v)];
    assert ms[|ms| - 1].0 == name;
  }

  /** Field errors of a BadRequest or ValidationError are joined by '. '. */
  lemma FieldErrorsJoined(b: ErrorBody, m1: string, m2: string)
    requires Named(b, "BadRequest") || Named(b, "ValidationError")
    requires b.data == Some(JArr([JObj([("message", JStr(m1))]), JObj([("message", JStr(m2))])]))
    ensures Classify(b) == Returned(Some(m1 + ". " + m2))
  {
    var items := b.data.value.items;
    var second := [JObj([("message", JStr(m2))])];
    assert items[1..] == second;
    assert second[1..] == [];
    SingleMember("message", JStr(m1));
    SingleMember("message", JStr(m2));
    var tail := ElementMessages(second).value;
    assert |tail| == 1 && tail[0] == m2;
    assert tail == [m2];
    var all := ElementMessages(items).value;
    assert |all| == 2 && all[0] == m1 && all[1..] == tail;
    assert all == [m1, m2];
    assert Join([m1, m2], ". ") == m1 + ". " + Join([m2], ". ");
  }
}
