/**
 * What the players and users error handlers share: the notice each one raises,
 * the context prefix, the field-error list they build from `details`, and the
 * first-match keyword chains they use to reword validation messages.
 */
module NoticeErrors {
  import opened Base
  import opened Query
  import opened UiStore

  /** One notification a handler raises: its kind and its message. */
  datatype Notice = Notice(kind: Kind, message: string)

  /** `context ? `${context}: ` : ''` */
  function Prefix(context: string): (r: string)
    ensures context == "" ==> r == ""
    ensures context != "" ==> r == context + ": "
  {
    if context != "" then context + ": " else ""
  }

  /** A truthy member rendered as a template literal would, or None. */
  function TruthyMember(v: Json, name: string): (r: Option<string>)
    ensures r.Some? ==> Member(v, name).Some? && JsonTruthy(Member(v, name).value)
  {
    var m := Member(v, name);
    if m.Some? && JsonTruthy(m.value) then Some(ToText(m.value)) else None
  }

  /** The field-error code throws a `TypeError` here: a member read on null, or a call of a missing method. */
  const TypeError := "TypeError"

  /** The `instancePath` `?.replace` is called on: present and neither null nor `undefined`. */
  function PathOf(detail: Json): Option<Json>
  {
    var path := Member(detail, "instancePath");
    if path.Some? && path.value != JNull then path else None
  }

  /**
   * `detail.instancePath?.replace('/', '') || detail.field || 'field'`. A null
   * detail throws at `.instancePath`, and a path that is not a string throws at
   * `.replace`; every other detail gives a name.
   */
  function FieldName(detail: Json): (r: Outcome<string>)
    ensures r.Threw? <==> detail == JNull || (PathOf(detail).Some? && !PathOf(detail).value.JStr?)
    ensures r.Returned? && PathOf(detail).Some? && RemoveFirst(PathOf(detail).value.s, '/') != "" ==>
      r.value == RemoveFirst(PathOf(detail).value.s, '/')
    ensures detail != JNull && Member(detail, "instancePath").None? && Member(detail, "field").None? ==> r == Returned("field")
  {
    if detail == JNull then Threw(TypeError)
    else
      var path := PathOf(detail);
      if path.Some? && !path.value.JStr? then Threw(TypeError)
      else
        var fromPath := if path.Some? then RemoveFirst(path.value.s, '/') else "";
        if fromPath != "" then Returned(fromPath)
        else
          var field := TruthyMember(detail, "field");
          Returned(if field.Some? then field.value else "field")
  }

  /** `${field}: ${detail.message || 'Invalid value'}`, or the throw of the field name. */
  function FieldErrorText(detail: Json): (r: Outcome<string>)
    ensures r.Threw? <==> FieldName(detail).Threw?
    ensures r.Returned? ==> StartsWith(r.value, FieldName(detail).value + ": ")
  {
    var name := FieldName(detail);
    if name.Threw? then Threw(name.message)
    else
      var m := TruthyMember(detail, "message");
      Returned(name.value + ": " + (if m.Some? then m.value else "Invalid value"))
  }

  /** `details.map(...)`: one text per detail, in order, or the throw of the first detail that throws. */
  function FieldErrorTexts(details: seq<Json>): (r: Outcome<seq<string>>)
    ensures r.Threw? <==> exists i :: 0 <= i < |details| && FieldErrorText(details[i]).Threw?
    ensures r.Returned? ==> |r.value| == |details|
    ensures r.Returned? ==> forall i :: 0 <= i < |details| ==> r.value[i] == FieldErrorText(details[i]).value
  {
    if details == [] then Returned([])
    else
      var head := FieldErrorText(details[0]);
      var rest := FieldErrorTexts(details[1..]);
      if head.Threw? then Threw(head.message)
      else if rest.Threw? then
        ghost var j :| 0 <= j < |details[1..]| && FieldErrorText(details[1..][j]).Threw?;
        assert FieldErrorText(details[j + 1]).Threw?;
        Threw(rest.message)
      else
        assert forall i :: 1 <= i < |details| ==> FieldErrorText(details[i]) == FieldErrorText(details[1..][i - 1]);
        Returned([head.value] + rest.value)
  }

  /**
   * The field-error message for `details`: when it is a non-empty array, one
   * `field: message` per element joined by ', ', or the throw of an element;
   * otherwise None.
   */
  function FieldErrorsMessage(details: Option<Json>): (r: Outcome<Option<string>>)
    ensures r == Returned(None) <==> !(details.Some? && details.value.JArr? && details.value.items != [])
    ensures details.Some? && details.value.JArr? && details.value.items != [] ==>
      (r.Threw? <==> exists i :: 0 <= i < |details.value.items| && FieldErrorText(details.value.items[i]).Threw?)
    ensures r.Returned? && r.value.Some? ==>
      r.value.value == Join(FieldErrorTexts(details.value.items).value, ", ")
  {
    if details.Some? && details.value.JArr? && details.value.items != [] then
      var texts := FieldErrorTexts(details.value.items);
      if texts.Threw? then Threw(texts.message) else Returned(Some(Join(texts.value, ", ")))
    else Returned(None)
  }

  /** A null element in a non-empty `details` array makes the field-error message throw. */
  lemma NullDetailThrows(items: seq<Json>, k: nat)
    requires k < |items| && items[k] == JNull
    ensures FieldErrorsMessage(Some(JArr(items))).Threw?
  {
    assert FieldErrorText(items[k]).Threw?;
  }

  /** One link of an `if (message.includes(keyword)) … else if …` chain. */
  datatype Rule = Rule(keyword: string, text: string)

  /** The text of the first rule whose keyword the message contains. */
  function FirstMatch(rules: seq<Rule>, message: string): (r: Option<string>)
    ensures r.Some? ==> exists i :: 0 <= i < |rules| && Contains(message, rules[i].keyword) && r.value == rules[i].text
                          && forall j :: 0 <= j < i ==> !Contains(message, rules[j].keyword)
    ensures r.None? ==> forall i :: 0 <= i < |rules| ==> !Contains(message, rules[i].keyword)
  {
    if rules == [] then None
    else if Contains(message, rules[0].keyword) then Some(rules[0].text)
    else
      var r := FirstMatch(rules[1..], message);
      if r.Some? then
        ghost var i :| 0 <= i < |rules[1..]| && Contains(message, rules[1..][i].keyword) && r.value == rules[1..][i].text
                       && forall j :: 0 <= j < i ==> !Contains(message, rules[1..][j].keyword);
        assert 0 <= i + 1 < |rules| && rules[i + 1] == rules[1..][i];
        r
      else r
  }

  /**
   * A rule whose keyword contains an earlier rule's keyword can never fire: every
   * message that would reach it is taken by the earlier one.
   */
  lemma ShadowedRule(rules: seq<Rule>, i: nat, j: nat, message: string)
    requires i < j < |rules| && Contains(rules[j].keyword, rules[i].keyword)
    requires forall k :: 0 <= k < |rules| && k != j ==> rules[k].text != rules[j].text
    ensures FirstMatch(rules, message) != Some(rules[j].text)
  {
    var r := FirstMatch(rules, message);
    if r == Some(rules[j].text) {
      var k :| 0 <= k < |rules| && Contains(message, rules[k].keyword) && r.value == rules[k].text
               && forall m :: 0 <= m < k ==> !Contains(message, rules[m].keyword);
      if k == j {
        ContainsTrans(message, rules[j].keyword, rules[i].keyword);
        assert false;
      }
    }
  }
}
