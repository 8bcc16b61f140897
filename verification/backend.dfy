/** The boundary to the two backend SDKs. The SDK calls themselves are not
    modelled: an operation records the request it would send, and the
    SDK's answer is a parameter that may be an exception. */
module Backend {
  import opened Results
  import opened Values

  /** An object returned by a backend SDK: Python `None`, or an object with
      some named attributes. */
  datatype Underlying = Null | Object(attrs: map<string, Value>)

  /** `getattr(u, attr, default)`: the attribute when the object has it,
      otherwise the default (`None` has neither `name` nor `version`). */
  function GetAttr(u: Underlying, attr: string, default: Value): (r: Value)
    ensures u.Object? && attr in u.attrs ==> r == u.attrs[attr]
    ensures u.Null? || attr !in u.attrs ==> r == default
  {
    if u.Object? && attr in u.attrs then u.attrs[attr] else default
  }

  /** What a backend call did: raised an exception, or returned a value. */
  datatype Reply<+T> = Raised | Returned(value: T)

  /** The rendering call of each backend: mlflow prompts are rendered with
      `format(**variables)`, langfuse prompts with `compile(**variables)`. */
  datatype RenderMethod = FormatCall | CompileCall

  /** A request handed to a backend SDK, with the arguments it receives:
      - RegisterPrompt: `mlflow.genai.register_prompt(**kwargs)`;
      - CreatePrompt: `client.create_prompt(**payload)` on langfuse;
      - LoadPrompt: `mlflow.genai.load_prompt(uri)`;
      - FetchPrompt: langfuse `client.get_prompt(name, version=..., label=...)`,
        where the label is passed only when present (`byLabel`);
      - RenderPrompt: the rendering call on a fetched prompt object. */
  datatype Request =
    | RegisterPrompt(kwargs: map<string, Value>)
    | CreatePrompt(payload: map<string, Value>)
    | LoadPrompt(uri: string)
    | FetchPrompt(name: string, version: Value, byLabel: Option<string>)
    | RenderPrompt(renderer: RenderMethod, variables: map<string, Value>)

  /** One operation of the adapter: the backend request it sent, if it got
      that far, and what it returned to its caller. */
  datatype Call<+T> = Call(sent: Option<Request>, result: Result<T>)
}
