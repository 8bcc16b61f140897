/** The shape checks run on caller input before any backend is contacted
    (central_prompt.py `_is_chat_template`, `_validate_name`,
    `_validate_template`, `_validate_labels` and the tags check of
    `set_prompt`). */
module Validators {
  import opened Results
  import opened PyText
  import opened Values

  /** One chat message: a dict whose `role` and `content` entries exist and
      are both strings. */
  predicate IsMessage(v: Value) {
    && v.VDict?
    && Lookup(v.entries, VStr("role")).Some?
    && Lookup(v.entries, VStr("content")).Some?
    && Lookup(v.entries, VStr("role")).value.VStr?
    && Lookup(v.entries, VStr("content")).value.VStr?
  }

  /** The loop of `_is_chat_template`: scans the items in order and stops
      at the first one that is not a message. */
  function AllMessages(items: seq<Value>): (r: bool)
    ensures r <==> forall i :: 0 <= i < |items| ==> IsMessage(items[i])
  {
    if |items| == 0 then true
    else if !IsMessage(items[0]) then false
    else AllMessages(items[1..])
  }

  /** A chat template is a list of messages; the empty list is one. */
  function IsChatTemplate(v: Value): (r: bool)
    ensures r <==> v.VList? && forall i :: 0 <= i < |v.items| ==> IsMessage(v.items[i])
  {
    v.VList? && AllMessages(v.items)
  }

  /** A name must be a string with at least one non-whitespace character. */
  function ValidateName(v: Value): (r: Outcome)
    ensures r.Fail? ==> r.error == ValidationError
    ensures r == Pass <==> v.VStr? && exists i :: 0 <= i < |v.s| && !IsSpace(v.s[i])
  {
    if !v.VStr? then Fail(ValidationError)
    else
      StripEmptyIff(v.s);
      if Strip(v.s) == [] then Fail(ValidationError) else Pass
  }

  /** A template must be a plain string or a chat template. */
  function ValidateTemplate(v: Value): (r: Outcome)
    ensures r.Fail? ==> r.error == ValidationError
    ensures r == Pass <==> v.VStr? || (v.VList? && forall i :: 0 <= i < |v.items| ==> IsMessage(v.items[i]))
  {
    if v.VStr? then Pass
    else if IsChatTemplate(v) then Pass
    else Fail(ValidationError)
  }

  /** `all(isinstance(x, str) for x in items)`. */
  function AllStrings(items: seq<Value>): (r: bool)
    ensures r <==> forall i :: 0 <= i < |items| ==> items[i].VStr?
  {
    if |items| == 0 then true
    else if !items[0].VStr? then false
    else AllStrings(items[1..])
  }

  /** Labels are absent, or a list of strings. */
  function ValidateLabels(v: Value): (r: Outcome)
    ensures r.Fail? ==> r.error == ValidationError
    ensures r == Pass <==> v == VNone || (v.VList? && forall i :: 0 <= i < |v.items| ==> v.items[i].VStr?)
  {
    if v == VNone then Pass
    else if !v.VList? || !AllStrings(v.items) then Fail(ValidationError)
    else Pass
  }

  /** `all(isinstance(k, str) and isinstance(v, str) for k, v in d.items())`. */
  function AllStringPairs(entries: seq<(Value, Value)>): (r: bool)
    ensures r <==> forall i :: 0 <= i < |entries| ==> entries[i].0.VStr? && entries[i].1.VStr?
  {
    if |entries| == 0 then true
    else if !(entries[0].0.VStr? && entries[0].1.VStr?) then false
    else AllStringPairs(entries[1..])
  }

  /** Tags are absent, or a dict from strings to strings. */
  function ValidateTags(v: Value): (r: Outcome)
    ensures r.Fail? ==> r.error == ValidationError
    ensures r == Pass <==>
              v == VNone
              || (v.VDict? && forall i :: 0 <= i < |v.entries| ==> v.entries[i].0.VStr? && v.entries[i].1.VStr?)
  {
    if v != VNone && (!v.VDict? || !AllStringPairs(v.entries)) then Fail(ValidationError)
    else Pass
  }

  /** The message `{"role": r, "content": c}`. */
  function Message(role: string, content: string): (m: Value)
    ensures IsMessage(m)
  {
    VDict([(VStr("role"), VStr(role)), (VStr("content"), VStr(content))])
  }

  /** Sample templates: a string and a one-message list are accepted; a
      number, a message without `content` and a list of strings are
      refused; an empty list is an (empty) chat template. */
  lemma TemplateExamples()
    ensures ValidateTemplate(VStr("hello {x}")) == Pass
    ensures ValidateTemplate(VList([Message("user", "hi")])) == Pass
    ensures ValidateTemplate(VInt(123)) == Fail(ValidationError)
    ensures ValidateTemplate(VList([VDict([(VStr("role"), VStr("user"))])])) == Fail(ValidationError)
    ensures ValidateTemplate(VList([VStr("not a dict")])) == Fail(ValidationError)
    ensures IsChatTemplate(VList([]))
  {
    var bad := VDict([(VStr("role"), VStr("user"))]);
    assert Lookup(bad.entries, VStr("content")).None?;
    assert !IsMessage(VList([bad]).items[0]);
    assert !IsMessage(VList([VStr("not a dict")]).items[0]);
  }
}
