/** The uniform wrapper around a fetched backend prompt
    (central_prompt.py `PromptHandle`). */
module PromptHandles {
  import opened Results
  import opened PyText
  import opened Values
  import opened Providers
  import opened Backend

  /** A fetched prompt: its provider, the backend object, and a snapshot of
      its name and version (either may be `None`). */
  datatype Handle = Handle(provider: Provider, underlying: Underlying, name: Value, version: Value)

  /** `PromptHandle(provider, underlying, name=..., version=...)`: the
      provider is normalised again; an explicit name or version wins,
      otherwise the object's attribute of that name is taken, otherwise
      `None`. */
  function NewHandle(provider: Value, underlying: Underlying, name: Value, version: Value): (r: Result<Handle>)
    ensures r.Failure? <==> NormalizeProvider(provider).Failure?
    ensures r.Failure? ==> r.error == ProviderError
    ensures r.Success? ==> r.value.provider == NormalizeProvider(provider).value && r.value.underlying == underlying
    ensures r.Success? && name != VNone ==> r.value.name == name
    ensures r.Success? && name == VNone && underlying.Object? && "name" in underlying.attrs ==>
              r.value.name == underlying.attrs["name"]
    ensures r.Success? && name == VNone && !(underlying.Object? && "name" in underlying.attrs) ==>
              r.value.name == VNone
    ensures r.Success? && version != VNone ==> r.value.version == version
    ensures r.Success? && version == VNone && underlying.Object? && "version" in underlying.attrs ==>
              r.value.version == underlying.attrs["version"]
    ensures r.Success? && version == VNone && !(underlying.Object? && "version" in underlying.attrs) ==>
              r.value.version == VNone
  {
    match NormalizeProvider(provider)
    case Failure(e) => Failure(e)
    case Success(p) =>
      Success(Handle(
        p,
        underlying,
        if name != VNone then name else GetAttr(underlying, "name", VNone),
        if version != VNone then version else GetAttr(underlying, "version", VNone)))
  }

  /** The adapter builds handles from a canonical provider name, so the
      re-normalisation inside the handle always succeeds and keeps the
      provider. */
  lemma CanonicalHandle(p: Provider, underlying: Underlying, name: Value, version: Value)
    ensures NewHandle(VStr(ProviderName(p)), underlying, name, version).Success?
    ensures NewHandle(VStr(ProviderName(p)), underlying, name, version).value.provider == p
  {
    NormalizeCanonical(p);
  }

  /** `handle.compile(**variables)`: dispatches to the backend's rendering
      call with the variables exactly as given; a failure of that call
      becomes a compilation error, a result is passed back unchanged. */
  function Compile(h: Handle, variables: map<string, Value>, reply: Reply<Value>): (c: Call<Value>)
    ensures c.sent.Some? && c.sent.value.RenderPrompt? && c.sent.value.variables == variables
    ensures c.sent.value.renderer == FormatCall <==> h.provider == MLflow
    ensures c.result.Success? <==> reply.Returned?
    ensures reply.Returned? ==> c.result.value == reply.value
    ensures c.result.Failure? ==> c.result.error == CompilationError
  {
    var call := RenderPrompt(if h.provider == MLflow then FormatCall else CompileCall, variables);
    match reply
    case Raised => Call(Some(call), Failure(CompilationError))
    case Returned(x) => Call(Some(call), Success(x))
  }
}
