/** The adapter facade (central_prompt.py `CentralPrompt`): construction,
    `set_prompt` and `get_prompt` for both providers. Every operation
    validates its input first and only then builds the one backend request
    it sends; the backend's answer is a parameter. */
module CentralPrompts {
  import opened Results
  import opened PyText
  import opened Values
  import opened Providers
  import opened Validators
  import opened PromptUri
  import opened Backend
  import opened PromptHandles

  /** A configured adapter: the normalised provider, the experiment name
      (`None` or a string) and whether environment loading was requested. */
  datatype CentralPrompt = CentralPrompt(provider: Provider, experiment: Value, loadEnv: bool)

  /** `CentralPrompt(provider, experiment=..., load_env=...)`: the provider
      is normalised first, then the experiment must be `None` or a string.
      Backend initialisation is not part of this model. */
  function NewCentralPrompt(provider: Value, experiment: Value, loadEnv: bool): (r: Result<CentralPrompt>)
    ensures NormalizeProvider(provider).Failure? ==> r == Failure(ProviderError)
    ensures NormalizeProvider(provider).Success? ==>
              (r.Success? <==> experiment == VNone || experiment.VStr?)
    ensures NormalizeProvider(provider).Success? && r.Failure? ==> r.error == ValidationError
    ensures r.Success? ==>
              r.value == CentralPrompt(NormalizeProvider(provider).value, experiment, loadEnv)
  {
    match NormalizeProvider(provider)
    case Failure(e) => Failure(e)
    case Success(p) =>
      if experiment != VNone && !experiment.VStr? then Failure(ValidationError)
      else Success(CentralPrompt(p, experiment, loadEnv))
  }

  // ---------------------------------------------------------------------
  // set_prompt
  // ---------------------------------------------------------------------

  /** The two langfuse prompt types. */
  datatype PromptType = Text | Chat

  function TypeName(t: PromptType): string {
    match t
    case Text => "text"
    case Chat => "chat"
  }

  /** The arguments of `set_prompt`, each as the caller passed it (`None`
      when omitted). */
  datatype SetArgs = SetArgs(
    name: Value,
    template: Value,
    promptType: Value,
    labels: Value,
    tags: Value,
    responseFormat: Value,
    commitMessage: Value)

  /** The input checks `set_prompt` runs before anything else: name,
      template, labels, then tags. All four raise the same kind of error. */
  function CheckSetArgs(a: SetArgs): (r: Outcome)
    ensures r.Fail? ==> r.error == ValidationError
    ensures r == Pass <==>
              && ValidateName(a.name) == Pass
              && ValidateTemplate(a.template) == Pass
              && ValidateLabels(a.labels) == Pass
              && ValidateTags(a.tags) == Pass
  {
    if ValidateName(a.name).Fail? then ValidateName(a.name)
    else if ValidateTemplate(a.template).Fail? then ValidateTemplate(a.template)
    else if ValidateLabels(a.labels).Fail? then ValidateLabels(a.labels)
    else ValidateTags(a.tags)
  }

  /** The langfuse prompt type: the caller's `prompt_type` when it is truthy,
      otherwise inferred from the template's shape; it must be `text` or
      `chat` and agree with the template's shape. */
  function DeriveType(promptType: Value, template: Value): (r: Result<PromptType>)
    ensures r.Failure? ==> r.error == ValidationError
    ensures r == Success(Chat) ==> IsChatTemplate(template)
    ensures r == Success(Text) ==> template.VStr?
    ensures !Truthy(promptType) ==>
              && (r == Success(Chat) <==> IsChatTemplate(template))
              && (r == Success(Text) <==> template.VStr?)
    ensures Truthy(promptType) ==>
              && (r == Success(Chat) <==> promptType == VStr("chat") && IsChatTemplate(template))
              && (r == Success(Text) <==> promptType == VStr("text") && template.VStr?)
  {
    var derived :=
      if Truthy(promptType) then promptType
      else if IsChatTemplate(template) then VStr("chat")
      else VStr("text");
    if derived != VStr("text") && derived != VStr("chat") then Failure(ValidationError)
    else if derived == VStr("chat") && !IsChatTemplate(template) then Failure(ValidationError)
    else if derived == VStr("text") && !template.VStr? then Failure(ValidationError)
    else if derived == VStr("chat") then Success(Chat)
    else Success(Text)
  }

  /** The keyword arguments of `mlflow.genai.register_prompt`: always the
      name and the template; the response format, commit message and tags
      only when they are not `None`; nothing else. */
  function MlflowKwargs(a: SetArgs): (kw: map<string, Value>)
    ensures "name" in kw && kw["name"] == a.name
    ensures "template" in kw && kw["template"] == a.template
    ensures "response_format" in kw <==> a.responseFormat != VNone
    ensures "response_format" in kw ==> kw["response_format"] == a.responseFormat
    ensures "commit_message" in kw <==> a.commitMessage != VNone
    ensures "commit_message" in kw ==> kw["commit_message"] == a.commitMessage
    ensures "tags" in kw <==> a.tags != VNone
    ensures "tags" in kw ==> kw["tags"] == a.tags
    ensures kw.Keys <= {"name", "template", "response_format", "commit_message", "tags"}
  {
    var kw := map["name" := a.name, "template" := a.template];
    var kw := if a.responseFormat != VNone then kw["response_format" := a.responseFormat] else kw;
    var kw := if a.commitMessage != VNone then kw["commit_message" := a.commitMessage] else kw;
    if a.tags != VNone then kw["tags" := a.tags] else kw
  }

  /** The keyword arguments of langfuse `create_prompt`: name, type and
      template, plus the labels only when they are not `None`. */
  function LangfusePayload(a: SetArgs, t: PromptType): (pl: map<string, Value>)
    ensures "name" in pl && pl["name"] == a.name
    ensures "type" in pl && pl["type"] == VStr(TypeName(t))
    ensures "prompt" in pl && pl["prompt"] == a.template
    ensures "labels" in pl <==> a.labels != VNone
    ensures "labels" in pl ==> pl["labels"] == a.labels
    ensures pl.Keys <= {"name", "type", "prompt", "labels"}
  {
    var pl := map["name" := a.name, "type" := VStr(TypeName(t)), "prompt" := a.template];
    if a.labels != VNone then pl["labels" := a.labels] else pl
  }

  /** The mlflow half of `set_prompt`, once the input has passed its checks.
      `genaiAvailable` says whether the installed mlflow offers
      `mlflow.genai`; `reply` is what `register_prompt` did. The result
      dict names the prompt as the backend reports it, falling back to the
      input name, and carries the backend's version or `None`. */
  function MlflowCreate(a: SetArgs, genaiAvailable: bool, reply: Reply<Underlying>): (c: Call<map<string, Value>>)
    ensures c.sent.Some? <==> genaiAvailable
    ensures !genaiAvailable ==> c.result == Failure(AvailabilityError)
    ensures c.sent.Some? ==> c.sent.value == RegisterPrompt(MlflowKwargs(a))
    ensures c.sent.Some? ==> (c.result.Success? <==> reply.Returned?)
    ensures c.sent.Some? && reply.Raised? ==> c.result == Failure(CreationError)
    ensures c.result.Success? ==>
              && c.result.value.Keys == {"provider", "name", "version"}
              && c.result.value["provider"] == VStr("mlflow")
              && c.result.value["name"] == GetAttr(reply.value, "name", a.name)
              && c.result.value["version"] == GetAttr(reply.value, "version", VNone)
  {
    if !genaiAvailable then Call(None, Failure(AvailabilityError))
    else
      var sent := Some(RegisterPrompt(MlflowKwargs(a)));
      match reply
      case Raised => Call(sent, Failure(CreationError))
      case Returned(obj) =>
        Call(sent, Success(map[
          "provider" := VStr(ProviderName(MLflow)),
          "name" := GetAttr(obj, "name", a.name),
          "version" := GetAttr(obj, "version", VNone)]))
  }

  /** The langfuse half of `set_prompt`, once the input has passed its
      checks: derives the prompt type, and only if it is consistent sends
      the payload; `reply` is what `create_prompt` did. */
  function LangfuseCreate(a: SetArgs, reply: Reply<Underlying>): (c: Call<map<string, Value>>)
    ensures c.sent.Some? <==> DeriveType(a.promptType, a.template).Success?
    ensures c.sent.None? ==> c.result == Failure(ValidationError)
    ensures c.sent.Some? ==>
              c.sent.value == CreatePrompt(LangfusePayload(a, DeriveType(a.promptType, a.template).value))
    ensures c.sent.Some? ==> (c.result.Success? <==> reply.Returned?)
    ensures c.sent.Some? && reply.Raised? ==> c.result == Failure(CreationError)
    ensures c.result.Success? ==> c.result.value == map["provider" := VStr("langfuse"), "name" := a.name]
  {
    match DeriveType(a.promptType, a.template)
    case Failure(e) => Call(None, Failure(e))
    case Success(t) =>
      var sent := Some(CreatePrompt(LangfusePayload(a, t)));
      match reply
      case Raised => Call(sent, Failure(CreationError))
      case Returned(_) =>
        Call(sent, Success(map["provider" := VStr(ProviderName(Langfuse)), "name" := a.name]))
  }

  /** `set_prompt(...)`: the input checks run first, and a failing check
      fails the call before any backend request is built; then the call is
      handed to the configured provider. */
  function SetPrompt(cp: CentralPrompt, a: SetArgs, genaiAvailable: bool, reply: Reply<Underlying>)
    : (c: Call<map<string, Value>>)
    ensures c.sent.Some? ==> CheckSetArgs(a) == Pass
    ensures CheckSetArgs(a).Fail? ==> c == Call(None, Failure(ValidationError))
    ensures CheckSetArgs(a) == Pass && cp.provider == MLflow ==> c == MlflowCreate(a, genaiAvailable, reply)
    ensures CheckSetArgs(a) == Pass && cp.provider == Langfuse ==> c == LangfuseCreate(a, reply)
  {
    match CheckSetArgs(a)
    case Fail(e) => Call(None, Failure(e))
    case Pass =>
      match cp.provider
      case MLflow => MlflowCreate(a, genaiAvailable, reply)
      case Langfuse => LangfuseCreate(a, reply)
  }

  // ---------------------------------------------------------------------
  // get_prompt
  // ---------------------------------------------------------------------

  /** The arguments of `get_prompt`, `None` when omitted. */
  datatype GetArgs = GetArgs(name: Value, version: Value, path: Value, promptLabel: Value)

  /** The pattern check on the mlflow target: it must be a string of the
      shape `prompts:/<name>/<digits>`. */
  function CheckTarget(t: Value): (r: Result<string>)
    ensures r.Success? <==> t.VStr? && MatchPromptUri(t.s).Some?
    ensures r.Success? ==> r.value == t.s
    ensures r.Failure? ==> r.error == ValidationError
  {
    if !t.VStr? || MatchPromptUri(t.s).None? then Failure(ValidationError) else Success(t.s)
  }

  /** The mlflow registry path to load: the caller's `path`, or one built
      from a truthy name and a positive integer version; either way it must
      have the shape `prompts:/<name>/<digits>`. */
  function MlflowTarget(a: GetArgs): (r: Result<string>)
    ensures r.Failure? ==> r.error == ValidationError
    ensures r.Success? ==> MatchPromptUri(r.value).Some?
    ensures a.path != VNone ==>
              && (r.Success? <==> a.path.VStr? && MatchPromptUri(a.path.s).Some?)
              && (r.Success? ==> r.value == a.path.s)
    ensures a.path == VNone && (!Truthy(a.name) || !a.version.VInt? || a.version.i < 1) ==> r.Failure?
    ensures a.path == VNone && a.name.VStr? && a.version.VInt? && a.version.i >= 1 ==>
              && (r.Success? <==> NameSegment(a.name.s))
              && (r.Success? ==> r.value == BuildPromptUri(a.name.s, a.version.i))
    ensures a.path == VNone && Truthy(a.name) && a.version.VInt? && a.version.i >= 1 ==>
              && (r.Success? <==> NameSegment(Str(a.name)))
              && (r.Success? ==> r.value == BuildPromptUri(Str(a.name), a.version.i))
  {
    if a.path != VNone then CheckTarget(a.path)
    else if !Truthy(a.name) || a.version == VNone then Failure(ValidationError)
    else if !a.version.VInt? || a.version.i < 1 then Failure(ValidationError)
    else
      SegmentDecides(a.name, a.version.i);
      CheckTarget(VStr(Scheme + Str(a.name) + "/" + IntText(a.version.i)))
  }

  /** A name of any type, formatted into a path with `str()`, yields a path
      that matches exactly when its text is non-empty and slash-free; for a
      string name the text is the name itself. */
  lemma SegmentDecides(name: Value, version: nat)
    ensures Scheme + Str(name) + "/" + IntText(version) == BuildPromptUri(Str(name), version)
    ensures MatchPromptUri(BuildPromptUri(Str(name), version)).Some? <==> NameSegment(Str(name))
    ensures name.VStr? && |name.s| > 0 ==>
              && Scheme + Str(name) + "/" + IntText(version) == BuildPromptUri(name.s, version)
              && (MatchPromptUri(BuildPromptUri(name.s, version)).Some? <==> NameSegment(name.s))
  {
    var n := Str(name);
    if |n| == 0 {
      assert BuildPromptUri(n, version) == Scheme + "/" + Decimal(version);
      EmptyNameRejected(Decimal(version));
    } else if '/' in n {
      SlashInNameRejected(n, Decimal(version));
    } else {
      UriRoundTrip(n, version);
    }
  }

  /** The langfuse `get_prompt` argument rules: a non-empty string name, a
      string label if any, and not both a version and a label. */
  predicate LangfuseArgsOk(a: GetArgs) {
    && a.name.VStr? && |a.name.s| > 0
    && (a.promptLabel == VNone || a.promptLabel.VStr?)
    && (a.version == VNone || a.promptLabel == VNone)
  }

  /** `get_prompt(...)`; `reply` is what the backend's fetch call did.
      - mlflow: loads the checked path; the handle's name and version are
        taken from the path itself, not from the arguments.
      - langfuse: fetches by name with the version or the label; a missing
        prompt (`None`) is a fetch error; the handle carries the caller's
        name and version.
      Nothing is sent unless the arguments passed their checks, and a
      backend exception becomes a fetch error. */
  function GetPrompt(cp: CentralPrompt, a: GetArgs, reply: Reply<Underlying>): (c: Call<Handle>)
    ensures c.sent.None? ==> c.result == Failure(ValidationError)
    ensures c.sent.Some? && reply.Raised? ==> c.result == Failure(FetchError)
    ensures cp.provider == MLflow ==> (c.sent.Some? <==> MlflowTarget(a).Success?)
    ensures cp.provider == MLflow && c.sent.Some? ==>
              && c.sent.value == LoadPrompt(MlflowTarget(a).value)
              && (c.result.Success? <==> reply.Returned?)
    ensures cp.provider == MLflow && c.sent.Some? && reply.Returned? ==>
              var m := MatchPromptUri(MlflowTarget(a).value).value;
              c.result.value == Handle(MLflow, reply.value, VStr(m.0), VInt(DigitsValue(m.1)))
    ensures cp.provider == Langfuse ==> (c.sent.Some? <==> LangfuseArgsOk(a))
    ensures cp.provider == Langfuse && c.sent.Some? ==>
              c.sent.value == FetchPrompt(a.name.s, a.version,
                                          if a.promptLabel == VNone then None else Some(a.promptLabel.s))
    ensures cp.provider == Langfuse && c.sent.Some? ==>
              (c.result.Success? <==> reply.Returned? && reply.value.Object?)
    ensures cp.provider == Langfuse && c.sent.Some? && reply == Returned(Null) ==>
              c.result == Failure(FetchError)
    ensures cp.provider == Langfuse && c.result.Success? ==>
              && c.result.value.provider == Langfuse
              && c.result.value.underlying == reply.value
              && c.result.value.name == a.name
              && (a.version != VNone ==> c.result.value.version == a.version)
              && (a.version == VNone ==> c.result.value.version == GetAttr(reply.value, "version", VNone))
  {
    match cp.provider
    case MLflow =>
      (match MlflowTarget(a)
       case Failure(e) => Call(None, Failure(e))
       case Success(target) =>
         var sent := Some(LoadPrompt(target));
         match reply
         case Raised => Call(sent, Failure(FetchError))
         case Returned(obj) =>
           var m := MatchPromptUri(target);
           var name := if m.Some? then VStr(m.value.0) else VNone;
           var version := if m.Some? then VInt(DigitsValue(m.value.1)) else VNone;
           CanonicalHandle(MLflow, obj, name, version);
           Call(sent, NewHandle(VStr(ProviderName(MLflow)), obj, name, version)))
    case Langfuse =>
      if !Truthy(a.name) || !a.name.VStr? then Call(None, Failure(ValidationError))
      else if a.promptLabel != VNone && !a.promptLabel.VStr? then Call(None, Failure(ValidationError))
      else if a.version != VNone && a.promptLabel != VNone then Call(None, Failure(ValidationError))
      else
        var sent := Some(FetchPrompt(a.name.s, a.version,
                                     if a.promptLabel != VNone then Some(a.promptLabel.s) else None));
        match reply
        case Raised => Call(sent, Failure(FetchError))
        case Returned(obj) =>
          if obj == Null then Call(sent, Failure(FetchError))
          else
            CanonicalHandle(Langfuse, obj, a.name, a.version);
            Call(sent, NewHandle(VStr(ProviderName(Langfuse)), obj, a.name, a.version))
  }
}
