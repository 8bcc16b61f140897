/** Properties of the adapter that relate its operations to one another or
    hold across all inputs: validation precedes every backend request, a
    langfuse payload's type agrees with its template, and the mlflow
    registry path round-trips the name and version it was built from. */
module Properties {
  import opened Results
  import opened PyText
  import opened Values
  import opened Providers
  import opened Validators
  import opened PromptUri
  import opened Backend
  import opened PromptHandles
  import opened CentralPrompts

  /** The backend's answer only matters once a request has been sent: a
      call that fails its checks fails the same way whatever the backend
      would have done. */
  lemma NoRequestNoBackend(cp: CentralPrompt, a: SetArgs, g: GetArgs, genai: bool,
                           r1: Reply<Underlying>, r2: Reply<Underlying>)
    ensures SetPrompt(cp, a, genai, r1).sent.None? ==> SetPrompt(cp, a, genai, r1) == SetPrompt(cp, a, genai, r2)
    ensures GetPrompt(cp, g, r1).sent.None? ==> GetPrompt(cp, g, r1) == GetPrompt(cp, g, r2)
  {
  }

  /** Every request `set_prompt` sends comes from input that passed all four
      checks: a non-blank string name, a string or chat template, labels
      that are `None` or strings, tags that are `None` or string pairs. */
  lemma SentInputIsValid(cp: CentralPrompt, a: SetArgs, genai: bool, reply: Reply<Underlying>)
    ensures SetPrompt(cp, a, genai, reply).sent.Some? ==>
              && a.name.VStr? && (exists i :: 0 <= i < |a.name.s| && !IsSpace(a.name.s[i]))
              && (a.template.VStr? || IsChatTemplate(a.template))
              && (a.labels == VNone
                  || (a.labels.VList? && forall i :: 0 <= i < |a.labels.items| ==> a.labels.items[i].VStr?))
              && (a.tags == VNone
                  || (a.tags.VDict? && forall i :: 0 <= i < |a.tags.entries| ==>
                                         a.tags.entries[i].0.VStr? && a.tags.entries[i].1.VStr?))
  {
  }

  /** Any payload sent to langfuse declares a type that matches its
      template: `chat` with a chat template, `text` with a plain string. */
  lemma SentPayloadConsistent(cp: CentralPrompt, a: SetArgs, genai: bool, reply: Reply<Underlying>)
    ensures var c := SetPrompt(cp, a, genai, reply);
            c.sent.Some? && c.sent.value.CreatePrompt? ==>
              var pl := c.sent.value.payload;
              && "type" in pl && "prompt" in pl
              && ((pl["type"] == VStr("chat") && IsChatTemplate(pl["prompt"]))
                  || (pl["type"] == VStr("text") && pl["prompt"].VStr?))
  {
  }

  /** A prompt type forced against the template's shape is refused before
      anything is sent: `chat` with a plain string template. */
  lemma ForcedChatOnStringRejected(cp: CentralPrompt, a: SetArgs, genai: bool, reply: Reply<Underlying>)
    requires cp.provider == Langfuse
    requires a.promptType == VStr("chat") && a.template.VStr?
    ensures SetPrompt(cp, a, genai, reply) == Call(None, Failure(ValidationError))
  {
  }

  /** With no type given, a langfuse prompt is sent as `chat` exactly when
      its template is a chat template, and as `text` otherwise. */
  lemma InferredTypeFollowsShape(cp: CentralPrompt, a: SetArgs, genai: bool, reply: Reply<Underlying>)
    requires cp.provider == Langfuse
    requires !Truthy(a.promptType)
    ensures CheckSetArgs(a) == Pass ==>
              && SetPrompt(cp, a, genai, reply).sent.Some?
              && SetPrompt(cp, a, genai, reply).sent.value.payload["type"] ==
                 (if IsChatTemplate(a.template) then VStr("chat") else VStr("text"))
  {
  }

  /** mlflow round trip: a non-empty slash-free name and a positive version
      load the path built from them, and the handle reads the same name and
      version back out of that path. */
  lemma MlflowRoundTrip(cp: CentralPrompt, name: string, version: nat, lbl: Value, obj: Underlying)
    requires cp.provider == MLflow
    requires NameSegment(name) && version >= 1
    ensures GetPrompt(cp, GetArgs(VStr(name), VInt(version), VNone, lbl), Returned(obj))
            == Call(Some(LoadPrompt(BuildPromptUri(name, version))),
                    Success(Handle(MLflow, obj, VStr(name), VInt(version))))
  {
    UriRoundTrip(name, version);
  }

  /** A name holding a slash cannot be turned into an mlflow path: the call
      fails before anything is loaded. */
  lemma MlflowSlashNameRejected(cp: CentralPrompt, name: string, version: nat, lbl: Value, reply: Reply<Underlying>)
    requires cp.provider == MLflow
    requires '/' in name && version >= 1
    ensures GetPrompt(cp, GetArgs(VStr(name), VInt(version), VNone, lbl), reply) == Call(None, Failure(ValidationError))
  {
  }

  /** Two sample mlflow paths: `prompts:/greeting/3` gives a handle
      named `greeting` at version 3; `prompts:/greeting/abc` is refused. */
  lemma MlflowPathExamples(cp: CentralPrompt, obj: Underlying, reply: Reply<Underlying>)
    requires cp.provider == MLflow
    ensures GetPrompt(cp, GetArgs(VNone, VNone, VStr("prompts:/greeting/3"), VNone), Returned(obj)).result
            == Success(Handle(MLflow, obj, VStr("greeting"), VInt(3)))
    ensures GetPrompt(cp, GetArgs(VNone, VNone, VStr("prompts:/greeting/abc"), VNone), reply)
            == Call(None, Failure(ValidationError))
  {
    PathExamples();
  }

  /** An explicit mlflow path takes precedence: the name and version
      arguments are then ignored entirely. */
  lemma MlflowPathWins(cp: CentralPrompt, path: Value, name: Value, version: Value, lbl: Value, reply: Reply<Underlying>)
    requires cp.provider == MLflow
    requires path != VNone
    ensures GetPrompt(cp, GetArgs(name, version, path, lbl), reply)
            == GetPrompt(cp, GetArgs(VNone, VNone, path, VNone), reply)
  {
  }

  /** langfuse refuses a version and a label together, before fetching. */
  lemma LangfuseVersionAndLabelRejected(cp: CentralPrompt, name: Value, version: Value, lbl: Value, reply: Reply<Underlying>)
    requires cp.provider == Langfuse
    requires version != VNone && lbl != VNone
    ensures GetPrompt(cp, GetArgs(name, version, VNone, lbl), reply) == Call(None, Failure(ValidationError))
  {
  }

  /** A langfuse fetch that finds nothing is a fetch error. */
  lemma LangfuseMissingIsFetchError(cp: CentralPrompt, g: GetArgs)
    requires cp.provider == Langfuse && LangfuseArgsOk(g)
    ensures GetPrompt(cp, g, Returned(Null)).sent.Some?
    ensures GetPrompt(cp, g, Returned(Null)).result == Failure(FetchError)
  {
  }

  /** A successful langfuse fetch yields a handle carrying the caller's name,
      and the caller's version whenever one was given. */
  lemma LangfuseHandleKeepsIdentity(cp: CentralPrompt, name: string, version: Value, obj: Underlying)
    requires cp.provider == Langfuse
    requires |name| > 0 && obj.Object?
    ensures var c := GetPrompt(cp, GetArgs(VStr(name), version, VNone, VNone), Returned(obj));
            && c.sent == Some(FetchPrompt(name, version, None))
            && c.result.Success?
            && c.result.value.name == VStr(name)
            && (version != VNone ==> c.result.value.version == version)
  {
  }
}
