/** The two backends and the normalisation of a free-form provider name
    (central_prompt.py `_normalize_provider`). */
module Providers {
  import opened Results
  import opened PyText
  import opened Values

  /** The registry-path backend (mlflow) and the name-based one (langfuse). */
  datatype Provider = MLflow | Langfuse

  /** The canonical spelling of a provider. */
  function ProviderName(p: Provider): string {
    match p
    case MLflow => "mlflow"
    case Langfuse => "langfuse"
  }

  /** The lower-case spellings accepted for a provider. */
  function Aliases(p: Provider): set<string> {
    match p
    case MLflow => {"mlflow", "ml-flow"}
    case Langfuse => {"langfuse", "lang-fuse"}
  }

  /** Trims and lower-cases a provider name, then maps an alias to its
      provider; anything else, and any non-string, is a provider error. */
  function NormalizeProvider(v: Value): (r: Result<Provider>)
    ensures r.Failure? ==> r.error == ProviderError
    ensures r.Success? ==> v.VStr? && Lower(Strip(v.s)) in Aliases(r.value)
    ensures v.VStr? && (Lower(Strip(v.s)) in Aliases(MLflow) || Lower(Strip(v.s)) in Aliases(Langfuse)) ==> r.Success?
  {
    if !v.VStr? then Failure(ProviderError)
    else
      var value := Lower(Strip(v.s));
      if value in Aliases(MLflow) then Success(MLflow)
      else if value in Aliases(Langfuse) then Success(Langfuse)
      else Failure(ProviderError)
  }

  /** The alias sets of the two providers do not overlap, so a name never
      selects both. */
  lemma AliasesDisjoint()
    ensures Aliases(MLflow) !! Aliases(Langfuse)
  {
  }

  /** An accepted spelling neither starts nor ends with whitespace. */
  lemma AliasSpellingTight(u: string, p: Provider)
    requires Lower(u) in Aliases(p)
    ensures Tight(u)
  {
  }

  /** Any alias, in any letter case, surrounded by any whitespace, selects
      its provider. */
  lemma NormalizeAlias(a: string, u: string, b: string, p: Provider)
    requires AllSpace(a) && AllSpace(b)
    requires Lower(u) in Aliases(p)
    ensures NormalizeProvider(VStr(a + u + b)) == Success(p)
  {
    AliasSpellingTight(u, p);
    StripPadded(a, u, b);
    var r := NormalizeProvider(VStr(a + u + b));
    assert r.Success?;
    AliasesDisjoint();
  }

  /** The canonical name of a provider normalises to that provider. */
  lemma NormalizeCanonical(p: Provider)
    ensures NormalizeProvider(VStr(ProviderName(p))) == Success(p)
  {
    var n := ProviderName(p);
    assert n == [] + n + [];
    assert AllSpace([]);
    LowerCanonical(p);
    NormalizeAlias([], n, [], p);
  }

  /** Normalising is idempotent: re-normalising the canonical name of a
      normalised value gives the same result. */
  lemma NormalizeIdempotent(v: Value)
    ensures NormalizeProvider(v).Success? ==>
              NormalizeProvider(VStr(ProviderName(NormalizeProvider(v).value))) == NormalizeProvider(v)
  {
    if NormalizeProvider(v).Success? {
      NormalizeCanonical(NormalizeProvider(v).value);
    }
  }

  /** The canonical names are already lower-case. */
  lemma LowerCanonical(p: Provider)
    ensures Lower(ProviderName(p)) == ProviderName(p)
  {
  }

  /** Every value outside the accepted spellings is refused, whatever it is. */
  lemma NormalizeRejects(v: Value)
    requires !v.VStr? || (Lower(Strip(v.s)) !in Aliases(MLflow) && Lower(Strip(v.s)) !in Aliases(Langfuse))
    ensures NormalizeProvider(v) == Failure(ProviderError)
  {
  }
}
