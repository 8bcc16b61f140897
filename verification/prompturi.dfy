/** The registry path `prompts:/<name>/<version>` that identifies an mlflow
    prompt: how it is built from a name and a version, and how it is
    matched and taken apart (central_prompt.py `get_prompt`, mlflow branch). */
module PromptUri {
  import opened Results
  import opened PyText

  const Scheme: string := "prompts:/"

  /** What `[^/]+` matches: a non-empty run without a slash. */
  predicate NameSegment(n: string) {
    |n| > 0 && '/' !in n
  }

  /** What `\d+` and `[0-9]+` match when anchored at the end: a non-empty
      run of ASCII digits. */
  predicate VersionSegment(d: string) {
    |d| > 0 && AllDigits(d)
  }

  /** The position of the first slash in `s`, if any. */
  function FirstSlash(s: string): (r: Option<nat>)
    ensures r.None? <==> '/' !in s
    ensures r.Some? ==> r.value < |s| && s[r.value] == '/' && '/' !in s[..r.value]
  {
    if |s| == 0 then None
    else if s[0] == '/' then Some(0)
    else match FirstSlash(s[1..])
      case None => None
      case Some(k) =>
        assert s[..k + 1] == [s[0]] + s[1..][..k];
        Some(k + 1)
  }

  /** `re.match(r"^prompts:/([^/]+)/([0-9]+)$", t)`: the two groups when
      the whole of `t` matches, otherwise nothing. Because the name group
      cannot hold a slash, the separator is the first slash after the
      scheme. */
  function MatchPromptUri(t: string): (r: Option<(string, string)>)
    ensures r.Some? ==> t == Scheme + r.value.0 + "/" + r.value.1
    ensures r.Some? ==> NameSegment(r.value.0) && VersionSegment(r.value.1)
  {
    if |t| < |Scheme| || t[..|Scheme|] != Scheme then None
    else
      var rest := t[|Scheme|..];
      match FirstSlash(rest)
      case None => None
      case Some(k) =>
        var n := rest[..k];
        var d := rest[k + 1..];
        if |n| > 0 && |d| > 0 && AllDigits(d) then
          assert rest == n + "/" + d;
          assert t == Scheme + rest;
          Some((n, d))
        else None
  }

  /** Every well-formed path matches, with exactly its own two segments:
      together with the contract of MatchPromptUri, a path matches if and
      only if it has this shape. */
  lemma MatchComplete(n: string, d: string)
    requires NameSegment(n) && VersionSegment(d)
    ensures MatchPromptUri(Scheme + n + "/" + d) == Some((n, d))
  {
    var t := Scheme + n + "/" + d;
    assert t[..|Scheme|] == Scheme;
    var rest := t[|Scheme|..];
    assert rest == n + ("/" + d);
    assert rest[..|n|] == n;
    assert rest[|n|] == '/';
    var k := FirstSlash(rest).value;
    assert k <= |n| by {
      assert '/' !in rest[..k];
    }
    assert rest[..k] == n[..k];
    assert k == |n|;
    assert rest[k + 1..] == d;
  }

  /** The path built from a name and a version, as the f-string
      `f"prompts:/{name}/{version}"` spells it. */
  function BuildPromptUri(name: string, version: nat): (r: string)
    ensures |r| > |Scheme| + |name|
    ensures r[..|Scheme|] == Scheme && r[|Scheme|..|Scheme| + |name|] == name && r[|Scheme| + |name|] == '/'
    ensures VersionSegment(r[|Scheme| + |name| + 1..])
    ensures DigitsValue(r[|Scheme| + |name| + 1..]) == version
    ensures version == 0 || r[|Scheme| + |name| + 1] != '0'
  {
    var d := Decimal(version);
    var r := Scheme + name + "/" + d;
    assert r[|Scheme| + |name| + 1..] == d;
    DecimalRoundTrip(version);
    r
  }

  /** Building a path and matching it gives back the name and the version. */
  lemma {:induction false} UriRoundTrip(name: string, version: nat)
    requires NameSegment(name)
    ensures MatchPromptUri(BuildPromptUri(name, version)) == Some((name, Decimal(version)))
    ensures DigitsValue(Decimal(version)) == version
  {
    MatchComplete(name, Decimal(version));
    DecimalRoundTrip(version);
  }

  /** A name holding a slash never yields a path that matches, whatever
      follows it. */
  lemma SlashInNameRejected(name: string, d: string)
    requires '/' in name
    ensures MatchPromptUri(Scheme + name + "/" + d).None?
  {
    var t := Scheme + name + "/" + d;
    var j :| 0 <= j < |name| && name[j] == '/';
    assert t[..|Scheme|] == Scheme;
    var rest := t[|Scheme|..];
    assert rest == name + "/" + d;
    assert rest[j] == '/';
    var k := FirstSlash(rest).value;
    assert k <= j;
    assert rest[|name|] == '/';
    assert rest[k + 1..][|name| - k - 1] == '/';
    assert !AllDigits(rest[k + 1..]);
  }

  /** A path with an empty name part never matches. */
  lemma EmptyNameRejected(d: string)
    ensures MatchPromptUri(Scheme + "/" + d).None?
  {
    var t := Scheme + "/" + d;
    assert t[..|Scheme|] == Scheme;
    var rest := t[|Scheme|..];
    assert rest[0] == '/';
    assert FirstSlash(rest) == Some(0);
  }

  /** Two sample paths: `prompts:/greeting/3` names prompt `greeting` at
      version 3; `prompts:/greeting/abc` does not match. */
  lemma PathExamples()
    ensures MatchPromptUri("prompts:/greeting/3") == Some(("greeting", "3"))
    ensures DigitsValue("3") == 3
    ensures MatchPromptUri("prompts:/greeting/abc").None?
  {
    assert "prompts:/greeting/3" == Scheme + "greeting" + "/" + "3";
    MatchComplete("greeting", "3");
    var t := "prompts:/greeting/abc";
    assert t[..|Scheme|] == Scheme;
    var rest := t[|Scheme|..];
    assert rest == "greeting/abc";
    assert rest[8] == '/';
    var k := FirstSlash(rest).value;
    assert k <= 8;
    assert !AllDigits(rest[k + 1..]) by {
      assert rest[11] == 'c';
      assert rest[k + 1..][11 - k - 1] == 'c';
    }
  }
}
