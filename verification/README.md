# centralprompt — a Dafny model of the prompt adapter's validation core

`central_prompt.py` is a thin adapter over two prompt backends: mlflow, a
registry-path provider, and langfuse, a name-based provider. Callers create
prompts with `set_prompt` and fetch them with `get_prompt`. A fetched prompt
is wrapped in a `PromptHandle` and rendered with `compile`. Before the adapter
touches either backend SDK, it runs a set of pure decision procedures. This
project models those procedures and proves what they accept, what they
refuse, and what they hand to the backend:

- the normalisation of a free-form provider name to `mlflow` or `langfuse`;
- the shape checks on untyped input: name, template, chat template, labels
  and tags;
- the langfuse prompt-type derivation, with its consistency rules;
- the exact keyword arguments passed to `register_prompt` and `create_prompt`;
- the mlflow `prompts:/<name>/<version>` path: how it is built, matched and
  parsed back;
- the langfuse `get_prompt` argument rules;
- the name/version fallback in `PromptHandle`.

Python's `Any` becomes `Values.Value`. It has cases for `None`, str, int,
list, dict (its entries in insertion order), and any other object, which is
known only by its truthiness, its `str()` text and its `repr()` text (the
two can differ: a fraction prints as `1/2` but shows as `Fraction(1, 2)`
inside a list). Exceptions become
`Results.ErrorKind`. A backend SDK call is not modelled. Each operation takes
the backend's answer as a parameter (`Backend.Reply`: raised, or returned a
value). It returns a `Backend.Call`, which pairs the request it sent (if it
got that far) with its result. "Validated before any backend call" therefore
means "`sent` is `None`".

Modules: `Results` (Option, Result, error kinds), `PyText` (`strip`, `lower`,
`str(int)`, `int(str)`), `Values`, `Providers`, `Validators`, `PromptUri`,
`Backend`, `PromptHandles`, `CentralPrompts` (the facade) and `Properties`
(properties that span several operations).

Some behaviour of `central_prompt.py` is easy to misread, and the model
keeps it as the code has it:
- langfuse `get_prompt` never checks `version` (lines 157-174), unlike the
  mlflow branch, which requires a positive `int` (line 142). The langfuse
  version is passed to the backend and into the handle as given.
- the mlflow `set_prompt` result uses `getattr(prompt_obj, "name", name)`
  (line 100): the input name is used only when the returned object has no
  `name` attribute. An attribute whose value is `None` is kept.
- labels are validated for both providers (line 79) but sent only to
  langfuse (lines 117-118). `register_prompt` never receives them.
- `set_prompt` refuses a whitespace-only name (`name.strip()`, line 193),
  while `get_prompt` only tests the name's truthiness (lines 140 and 159).

A few helpers carry no row of their own in the table below, because they
only transcribe a Python built-in that the rows' contracts use:
- `Values.Truthy` is `bool(v)`, as in `not name` (lines 140 and 159) and
  `prompt_type or ...` (line 103).
- `Values.Str` and `Values.Repr` are `str(v)` and `repr(v)`, as the f-string
  at line 144 interpolates a non-string name.
- `PyText.DigitsValue` is `int()` on a run of digits (line 154). Its partner
  is `PyText.DecimalRoundTrip`.
- `CentralPrompts.LangfuseArgsOk` collects the three langfuse argument checks
  of lines 159-164. `CentralPrompts.GetPrompt` states that a langfuse fetch
  is sent exactly when they hold.

## Model

| member | source | states |
|---|---|---|
| PyText.Strip | central_prompt.py:38 | `strip()` returns an infix of its input. Everything cut off on either side is whitespace (Python's `isspace` set), and the result neither starts nor ends with whitespace. |
| PyText.StripPadded | central_prompt.py:38 | Stripping is exact: a tight string surrounded by any whitespace strips back to itself. With Strip's contract this determines `strip()` uniquely. |
| PyText.StripEmptyIff | central_prompt.py:193 | A string strips to the empty string exactly when it is all whitespace. |
| PyText.Lower | central_prompt.py:38 | `lower()` keeps the length and lowers each character independently. |
| PyText.Decimal | central_prompt.py:144 | `str(n)` of a natural number is a non-empty run of digits with no leading zero (except `"0"` itself). |
| PyText.DecimalRoundTrip | central_prompt.py:144-154 | Parsing the decimal spelling of `n` with `int()` gives back `n`. |
| PyText.IntText | central_prompt.py:144 | `str(i)` is the canonical spelling. For `i >= 0` it is a non-empty run of digits that parses back to `i`, with no leading zero unless it is `"0"`. For `i < 0` it is `-` followed by the digits of `-i`, with no leading zero. |
| Values.Lookup | central_prompt.py:185-187 | A dict lookup finds nothing exactly when no entry has that key. A value it finds is bound to that key in some entry. |
| Providers.NormalizeProvider | central_prompt.py:35-43 | Non-strings and strings whose stripped, lower-cased form is not an alias fail with a provider error. Each alias selects its own provider. |
| Providers.NormalizeAlias | central_prompt.py:38-42 | Any alias in any letter case, padded with any whitespace, normalises to its provider. |
| Providers.NormalizeCanonical | central_prompt.py:39-42 | Each canonical name, `mlflow` or `langfuse`, normalises to its own provider. |
| Providers.NormalizeIdempotent | central_prompt.py:35-43 | Normalising the canonical name of a normalised provider gives the same provider. |
| Providers.NormalizeRejects | central_prompt.py:36-43 | Every non-string, and every string outside the alias spellings, is a provider error. |
| Validators.AllMessages | central_prompt.py:182-189 | The item scan of `_is_chat_template` succeeds exactly when every item is a dict with string `role` and `content` entries. |
| Validators.IsChatTemplate | central_prompt.py:179-189 | A chat template is a list in which every item is a message. The empty list counts. |
| Validators.ValidateName | central_prompt.py:192-194 | A name is accepted exactly when it is a string containing a non-whitespace character. Otherwise it is a validation error. |
| Validators.ValidateTemplate | central_prompt.py:197-202 | A template is accepted exactly when it is a string or a list of messages. |
| Validators.ValidateLabels | central_prompt.py:205-209 | Labels are accepted exactly when they are `None` or a list of strings. |
| Validators.ValidateTags | central_prompt.py:80-81 | Tags are accepted exactly when they are `None` or a dict whose keys and values are all strings. |
| Validators.TemplateExamples | central_prompt.py:197-202 | Accepted: `"hello {x}"` and a one-message list. Refused: `123`, a message without `content`, and `["not a dict"]`. The empty list is a chat template. |
| PromptUri.FirstSlash | central_prompt.py:145 | Finds the first `/`, or reports that there is none. |
| PromptUri.MatchPromptUri | central_prompt.py:152-154 | A matched path is exactly `prompts:/` + name + `/` + digits. The name is non-empty and slash-free, and the digits are non-empty. |
| PromptUri.MatchComplete | central_prompt.py:145 | Every path of that shape matches, with exactly its own segments. So the match holds if and only if the path has that shape. |
| PromptUri.BuildPromptUri | central_prompt.py:144 | The f-string path is `prompts:/`, then the name, then `/`, then a non-empty run of digits that parses back to the version. The digits have no leading zero unless the version is 0. |
| PromptUri.UriRoundTrip | central_prompt.py:144-154 | Building the path from a slash-free name and a version, then matching and parsing it, gives back that name and version. |
| PromptUri.EmptyNameRejected | central_prompt.py:145 | A path whose name part is empty never matches. |
| PromptUri.SlashInNameRejected | central_prompt.py:144-146 | No path whose name part contains `/` ever matches. |
| PromptUri.PathExamples | central_prompt.py:145-154 | `prompts:/greeting/3` gives `greeting` at version 3. `prompts:/greeting/abc` does not match. |
| Backend.GetAttr | central_prompt.py:224-225 | `getattr(obj, attr, default)` returns an existing attribute even when it holds `None`. It returns the default only when the object is `None` or lacks the attribute. |
| PromptHandles.NewHandle | central_prompt.py:213-225 | The provider is re-normalised. An explicit non-`None` name or version wins, then the object's attribute, then `None`. |
| PromptHandles.CanonicalHandle | central_prompt.py:221 | Handles built from a canonical provider name always succeed and keep that provider. |
| PromptHandles.Compile | central_prompt.py:236-243 | mlflow renders with `format` and langfuse with `compile`. The variables are passed unchanged. A failure becomes a compilation error, and a result comes back unchanged. |
| CentralPrompts.NewCentralPrompt | central_prompt.py:47-58 | A bad provider is a provider error and is checked first. A non-string, non-`None` experiment is a validation error. |
| CentralPrompts.CheckSetArgs | central_prompt.py:77-81 | `set_prompt` passes its input checks exactly when the name, the template, the labels and the tags are each valid. Any failure is a validation error. |
| CentralPrompts.DeriveType | central_prompt.py:103-109 | With no type given, the type is `chat` exactly for chat templates and `text` exactly for strings. A given type must be exactly `text` or `chat` and match the template's shape. Every accepted type agrees with the shape. |
| CentralPrompts.MlflowKwargs | central_prompt.py:86-95 | The kwargs always hold name and template. They hold `response_format`, `commit_message` and `tags` exactly when those are not `None`, with the caller's values, and nothing else. |
| CentralPrompts.LangfusePayload | central_prompt.py:112-118 | The payload holds name, type and prompt. It holds `labels` exactly when labels are not `None`, and nothing else. |
| CentralPrompts.MlflowCreate | central_prompt.py:83-100 | Nothing is sent without `mlflow.genai` (availability error). The request is exactly the kwargs. A backend exception becomes a creation error. The result's name falls back to the input name, and its version to `None`. |
| CentralPrompts.LangfuseCreate | central_prompt.py:102-125 | A payload is sent exactly when the derived type is consistent. A backend exception becomes a creation error. The result is `{provider, name}`. |
| CentralPrompts.SetPrompt | central_prompt.py:66-127 | A request is sent only for input that passed all four checks. Failing input yields a validation error with nothing sent. |
| CentralPrompts.CheckTarget | central_prompt.py:145-146 | A target is accepted exactly when it is a string of the shape `prompts:/<name>/<digits>`, and it is returned unchanged. Anything else is a validation error. |
| CentralPrompts.MlflowTarget | central_prompt.py:137-146 | With a path: it is accepted exactly when it is a string that matches the pattern. Without a path: a falsy name, or a version that is missing, not an int, or below 1, fails. A truthy name of any type and a positive version are accepted exactly when the name's `str()` text is non-empty and slash-free. The target is then `prompts:/<str(name)>/<version>`, so a string name is used as it is and the name `5` gives `prompts:/5/<version>`. |
| CentralPrompts.SegmentDecides | central_prompt.py:144-145 | For a name of any type, the f-string target is the path built from the name's `str()` text. That path matches exactly when the text is non-empty and slash-free. |
| CentralPrompts.GetPrompt | central_prompt.py:129-176 | mlflow loads exactly the checked target, and the handle's name and version are re-read from that path. langfuse fetches exactly when the name is a non-empty string, the label is a string or absent, and version and label are not both given. A `None` result or an exception is a fetch error. The handle keeps the caller's name, and the caller's version when one is given. |
| Properties.NoRequestNoBackend | central_prompt.py:77-164 | When no request was sent, the outcome of `set_prompt` and `get_prompt` does not depend on the backend. |
| Properties.SentInputIsValid | central_prompt.py:77-81 | Every request `set_prompt` sends comes from a valid name, template, labels and tags. |
| Properties.SentPayloadConsistent | central_prompt.py:103-120 | Every payload sent to langfuse has a type that agrees with its template's shape. |
| Properties.ForcedChatOnStringRejected | central_prompt.py:106-107 | `prompt_type="chat"` with a string template fails validation and sends nothing. |
| Properties.InferredTypeFollowsShape | central_prompt.py:103 | With no type given, valid input is sent as `chat` for chat templates and as `text` otherwise. |
| Properties.MlflowRoundTrip | central_prompt.py:137-155 | A non-empty slash-free name with a version of 1 or more loads `prompts:/<name>/<version>`. The handle carries the same name and version. |
| Properties.MlflowSlashNameRejected | central_prompt.py:144-146 | A name containing `/` fails validation before anything is loaded. |
| Properties.MlflowPathExamples | central_prompt.py:137-155 | The path `prompts:/greeting/3` yields a handle `greeting`, version 3. The path `prompts:/greeting/abc` is refused with nothing sent. |
| Properties.MlflowPathWins | central_prompt.py:138-139 | When a path is given, the name, version and label arguments do not affect the outcome. |
| Properties.LangfuseVersionAndLabelRejected | central_prompt.py:163-164 | Giving both a version and a label is a validation error with nothing sent. |
| Properties.LangfuseMissingIsFetchError | central_prompt.py:165-173 | Valid arguments are sent, and a `None` answer is a fetch error. |
| Properties.LangfuseHandleKeepsIdentity | central_prompt.py:165-174 | A successful fetch sends the name and version unchanged. The handle carries the caller's name, and the caller's version when one is given. |

## Left out

- Backend SDK calls: `mlflow.genai.register_prompt` and `load_prompt`, langfuse `create_prompt` and `get_prompt`, and the `format`/`compile` rendering calls. They are foreign code. The model records the request it would send, and the answer is a parameter that may be an exception.
- `_ensure_mlflow` and `_ensure_langfuse`: environment variables, best-effort `.env` loading, global tracking-URI and experiment settings, and the import-availability checks. This is I/O and process-global state. `NewCentralPrompt` models only the provider normalisation and the experiment type check.
- The langfuse client acquisition at lines 111 and 158 (`self._langfuse_client or _ensure_langfuse(...)`). It is assumed to return the client acquired at construction. In `get_prompt` it runs before the argument checks and could raise an import error there.
- The defensive "unsupported provider" branches at lines 127, 176 and 244 cannot be reached: `Providers.Provider` has exactly two cases.
- Exception messages and the exception class hierarchy. Only the error kind is modelled.
- Python regex corner cases: `$` also matches before a trailing newline, and `\d` also matches non-ASCII digits. Both patterns are modelled with ASCII digits and an exact end of string, so the second match at line 152 always succeeds after the first.
- `bool` being a subclass of `int`: `True` as a version is an opaque `VOther` here, so it fails the integer check instead of reaching the pattern check. It is refused either way.
- PyText.Lower: lowers ASCII letters only. Python also lowers other scripts, but the only characters that lower to ASCII letters (for example the Kelvin sign, which lowers to `k`) do not produce an alias spelling, so normalisation decides the same way.
- Values.Repr: strings are shown between single quotes without Python's escaping or its choice of quote character. Other objects carry their own `repr()` text, so the only difference is in how strings are quoted and escaped. That never adds or removes a `/`, so the path check at line 145 decides the same way for every name. The text itself can differ, however, and it becomes both the loaded path and the handle's name. For mlflow `get_prompt(name=["it's"], version=1)`, Python loads `prompts:/["it's"]/1` and names the handle `["it's"]`. The model loads `prompts:/['it's']/1` and names it `['it's']`.
- PyText.IntText and PyText.DigitsValue: CPython's limit on int-to-decimal-string conversion is not modelled. Since 3.11, and in the 3.7.14+ security releases, a conversion of more than 4300 digits raises `ValueError` by default. The limit can be changed with `sys.set_int_max_str_digits` and `PYTHONINTMAXSTRDIGITS`, so it is a property of the interpreter, not of this code. As a result, `CentralPrompts.MlflowTarget`, `CentralPrompts.GetPrompt`, `PromptUri.UriRoundTrip` and `Properties.MlflowRoundTrip` promise success where such an interpreter raises. With a version of 10**4300, the f-string at line 144 raises before anything is loaded. With a path whose version has more than 4300 digits, `load_prompt` runs at line 148 and then `int()` at line 154 raises an unwrapped `ValueError`.
- A `VDict` is a sequence of entries, so the model can express a repeated key, which a Python dict cannot. Such a `VDict` stands for no Python value, and no result here is meant for it. Lookup sees the latest binding there, as repeated assignment would. Validators.ValidateTags, Values.Truthy and Values.Repr, however, also read the entries a later key overrides. So `[("a", 1), ("a", "x")]` fails the tags check, although the Python dict `{"a": 1, "a": "x"}` is `{"a": "x"}` and passes line 80.
- `PromptHandle.__repr__`: diagnostic text only.
