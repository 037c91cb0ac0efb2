/**
 * Redaction of repository identifiers: the recursive replacement of repo names by a
 * fixed placeholder in generated objects, the extraction of the repo names that occur
 * in collected evidence, and the removal of excluded contributions.
 */
module Redact {
  import opened JsText
  import opened JsonValue

  /** What every occurrence of a repository name is replaced with. */
  const Placeholder := "internal repo"

  // ---------------------------------------------------------------------------
  // escapeRegex

  /** The characters the escaping class `[-.*+?^${}()|[\]\\]` matches. */
  predicate IsRegexMeta(c: char) {
    c in "-.*+?^${}()|[]\\"
  }

  /** `escapeRegex(s)`: a backslash before every regular-expression metacharacter. */
  function EscapeRegex(s: string): string {
    if s == [] then ""
    else (if IsRegexMeta(s[0]) then ['\\', s[0]] else [s[0]]) + EscapeRegex(s[1..])
  }

  /** Pattern source that a regular expression reads as literal characters only. */
  predicate LiteralPattern(r: string)
    decreases |r|
  {
    if r == [] then true
    else if r[0] == '\\' then |r| >= 2 && IsRegexMeta(r[1]) && LiteralPattern(r[2..])
    else !IsRegexMeta(r[0]) && LiteralPattern(r[1..])
  }

  /** The string a literal pattern matches: each escape stands for the character it escapes. */
  function LiteralText(r: string): string
    decreases |r|
  {
    if r == [] then ""
    else if r[0] == '\\' && |r| >= 2 then [r[1]] + LiteralText(r[2..])
    else [r[0]] + LiteralText(r[1..])
  }

  /**
   * The escaped name is a pattern with no active metacharacter, and the text it
   * matches is exactly the name: the regular expression of `redactRepoNames`
   * searches for the repo name literally.
   */
  lemma {:induction false} EscapeRegexIsLiteral(s: string)
    ensures LiteralPattern(EscapeRegex(s))
    ensures LiteralText(EscapeRegex(s)) == s
  {
    if s != [] {
      EscapeRegexIsLiteral(s[1..]);
      var e := EscapeRegex(s);
      var rest := EscapeRegex(s[1..]);
      if IsRegexMeta(s[0]) {
        assert e == ['\\', s[0]] + rest;
        assert e[2..] == rest;
      } else {
        assert e == [s[0]] + rest;
        assert e[1..] == rest;
      }
    }
  }

  // ---------------------------------------------------------------------------
  // redactRepoNames

  /** The string branch: the names are applied one after the other, in list order. */
  function RedactString(s: string, names: seq<string>): string {
    if names == [] then s
    else ReplaceAll(RedactString(s, names[..|names| - 1]), names[|names| - 1], Placeholder)
  }

  /** `redactRepoNames(v, names)` as a value. */
  function Redacted(v: Json, names: seq<string>): Json
    decreases v
  {
    if names == [] then v
    else match v
      case JString(s) => JString(RedactString(s, names))
      case JArray(items) =>
        JArray(seq(|items|, i requires 0 <= i < |items| => Redacted(items[i], names)))
      case JObject(fields) =>
        JObject(seq(|fields|, i requires 0 <= i < |fields| =>
          Field(fields[i].key, Redacted(fields[i].value, names))))
      case _ => v
  }

  /**
   * `redactRepoNames`: no change for an empty name list; a string has each name
   * replaced in turn; an array maps element by element; an object is rebuilt
   * entry by entry; every other value is returned as it is.
   */
  method RedactRepoNames(v: Json, names: seq<string>) returns (r: Json)
    ensures r == Redacted(v, names)
    ensures names == [] ==> r == v
    ensures v.JNull? || v.JBool? || v.JNumber? ==> r == v
    ensures SameShape(v, r)
    decreases v
  {
    RedactedKeepsShape(v, names);
    if |names| == 0 {
      return v;
    }
    match v {
      case JString(s) =>
        var t := s;
        for i := 0 to |names|
          invariant t == RedactString(s, names[..i])
        {
          assert names[..i + 1][..i] == names[..i];
          t := ReplaceAll(t, names[i], Placeholder);
        }
        assert names[..|names|] == names;
        r := JString(t);
      case JArray(items) =>
        var out: seq<Json> := [];
        for i := 0 to |items|
          invariant |out| == i
          invariant forall k :: 0 <= k < i ==> out[k] == Redacted(items[k], names)
        {
          var x := RedactRepoNames(items[i], names);
          out := out + [x];
        }
        r := JArray(out);
      case JObject(fields) =>
        var result: seq<Field> := [];
        for i := 0 to |fields|
          invariant |result| == i
          invariant forall k :: 0 <= k < i ==>
            result[k] == Field(fields[k].key, Redacted(fields[k].value, names))
        {
          var x := RedactRepoNames(fields[i].value, names);
          result := result + [Field(fields[i].key, x)];
        }
        r := JObject(result);
      case _ =>
        r := v;
    }
  }

  /** Two values with the same tree: same kinds, lengths and keys, and equal non-string scalars. */
  predicate SameShape(a: Json, b: Json)
    decreases a
  {
    match a
    case JString(_) => b.JString?
    case JArray(xs) =>
      b.JArray? && |b.items| == |xs| &&
      forall i :: 0 <= i < |xs| ==> SameShape(xs[i], b.items[i])
    case JObject(fs) =>
      b.JObject? && Keys(b.fields) == Keys(fs) &&
      forall i :: 0 <= i < |fs| ==> SameShape(fs[i].value, b.fields[i].value)
    case _ => b == a
  }

  lemma {:induction false} SameShapeReflexive(a: Json)
    ensures SameShape(a, a)
    decreases a
  {
    match a
    case JArray(xs) =>
      forall i | 0 <= i < |xs| ensures SameShape(xs[i], xs[i]) {
        SameShapeReflexive(xs[i]);
      }
    case JObject(fs) =>
      forall i | 0 <= i < |fs| ensures SameShape(fs[i].value, fs[i].value) {
        SameShapeReflexive(fs[i].value);
      }
    case _ =>
  }

  /**
   * Redaction keeps the tree: an array stays an array of the same length, an object
   * keeps its keys in order, numbers, booleans and null are untouched, and only
   * string contents may change.
   */
  lemma {:induction false} RedactedKeepsShape(v: Json, names: seq<string>)
    ensures SameShape(v, Redacted(v, names))
    decreases v
  {
    if names == [] {
      SameShapeReflexive(v);
    } else {
      match v
      case JArray(xs) =>
        var ys := Redacted(v, names).items;
        forall i | 0 <= i < |xs| ensures SameShape(xs[i], ys[i]) {
          RedactedKeepsShape(xs[i], names);
        }
      case JObject(fs) =>
        var gs := Redacted(v, names).fields;
        assert Keys(gs) == Keys(fs);
        forall i | 0 <= i < |fs| ensures SameShape(fs[i].value, gs[i].value) {
          RedactedKeepsShape(fs[i].value, names);
        }
      case _ =>
    }
  }

  lemma {:induction false} RedactStringAppend(s: string, a: seq<string>, b: seq<string>)
    ensures RedactString(s, a + b) == RedactString(RedactString(s, a), b)
    decreases |b|
  {
    if b == [] {
      assert a + b == a;
    } else {
      var init := b[..|b| - 1];
      assert (a + b)[..|a + b| - 1] == a + init;
      RedactStringAppend(s, a, init);
    }
  }

  /** Redacting with `a + b` is redacting with `a` and then with `b`: names apply in list order. */
  lemma {:induction false} RedactedAppend(v: Json, a: seq<string>, b: seq<string>)
    ensures Redacted(v, a + b) == Redacted(Redacted(v, a), b)
    decreases v
  {
    if a == [] {
      assert a + b == b;
    } else if b == [] {
      assert a + b == a;
    } else {
      match v
      case JString(s) =>
        RedactStringAppend(s, a, b);
      case JArray(xs) =>
        var lhs := Redacted(v, a + b).items;
        var rhs := Redacted(Redacted(v, a), b).items;
        forall i | 0 <= i < |xs| ensures lhs[i] == rhs[i] {
          RedactedAppend(xs[i], a, b);
        }
        assert lhs == rhs;
      case JObject(fs) =>
        var lhs := Redacted(v, a + b).fields;
        var rhs := Redacted(Redacted(v, a), b).fields;
        forall i | 0 <= i < |fs| ensures lhs[i] == rhs[i] {
          RedactedAppend(fs[i].value, a, b);
        }
        assert lhs == rhs;
      case _ =>
    }
  }

  /** No name of the list occurs in `s`. */
  predicate MentionsNone(s: string, names: seq<string>) {
    forall i :: 0 <= i < |names| ==> !Contains(s, names[i])
  }

  lemma {:induction false} RedactStringAbsent(s: string, names: seq<string>)
    requires MentionsNone(s, names)
    ensures RedactString(s, names) == s
    decreases |names|
  {
    if names != [] {
      RedactStringAbsent(s, names[..|names| - 1]);
      ReplaceAllAbsent(s, names[|names| - 1], Placeholder);
    }
  }

  /** No string anywhere in `v` mentions one of the names. */
  predicate NoStringMentions(v: Json, names: seq<string>)
    decreases v
  {
    match v
    case JString(s) => MentionsNone(s, names)
    case JArray(xs) => forall i :: 0 <= i < |xs| ==> NoStringMentions(xs[i], names)
    case JObject(fs) => forall i :: 0 <= i < |fs| ==> NoStringMentions(fs[i].value, names)
    case _ => true
  }

  /** A value none of whose strings mentions a repo name comes back unchanged. */
  lemma {:induction false} RedactedAbsent(v: Json, names: seq<string>)
    requires NoStringMentions(v, names)
    ensures Redacted(v, names) == v
    decreases v
  {
    if names != [] {
      match v
      case JString(s) =>
        RedactStringAbsent(s, names);
      case JArray(xs) =>
        var ys := Redacted(v, names).items;
        forall i | 0 <= i < |xs| ensures ys[i] == xs[i] {
          RedactedAbsent(xs[i], names);
        }
        assert ys == xs;
      case JObject(fs) =>
        var gs := Redacted(v, names).fields;
        forall i | 0 <= i < |fs| ensures gs[i] == fs[i] {
          RedactedAbsent(fs[i].value, names);
        }
        assert gs == fs;
      case _ =>
    }
  }

  /**
   * The placeholder itself can contain a name, so a redacted string may still
   * mention the name it was redacted for: "repo" redacted for ["repo"] becomes
   * "internal repo".
   */
  lemma PlaceholderCanMentionName()
    ensures RedactString("repo", ["repo"]) == Placeholder
    ensures Contains(RedactString("repo", ["repo"]), "repo")
  {
    assert ["repo"][..0] == [];
    assert StartsWith("repo", "repo");
    assert ReplaceAll("repo", "repo", Placeholder) == Placeholder + ReplaceAll("", "repo", Placeholder);
    assert Placeholder[9..] == "repo";
    ContainsAt(Placeholder, "repo", 9);
  }

  // ---------------------------------------------------------------------------
  // Evidence and its contributions

  /** One collected contribution: the fields the redaction code inspects, and the rest. */
  datatype Contribution = Contribution(id: Option<string>, repo: Option<string>, details: seq<Field>)

  /** Normalized evidence: a timeframe, an optional contribution list, and any other fields. */
  datatype Evidence = Evidence(
    timeframe: Option<Json>,
    contributions: Option<seq<Contribution>>,
    otherFields: seq<Field>)

  /** The non-empty `repo` fields, in contribution order. */
  function RepoList(cs: seq<Contribution>): seq<string> {
    if cs == [] then []
    else
      var c := cs[|cs| - 1];
      RepoList(cs[..|cs| - 1]) + (if Truthy(c.repo) then [c.repo.value] else [])
  }

  lemma {:induction false} RepoListMembers(cs: seq<Contribution>, x: string)
    ensures x in RepoList(cs) <==> exists c :: c in cs && c.repo == Some(x) && x != ""
  {
    if cs != [] {
      var init := cs[..|cs| - 1];
      RepoListMembers(init, x);
      assert cs == init + [cs[|cs| - 1]];
    }
  }

  /** Each element once, at the place of its first occurrence (what `Array.from(new Set(xs))` gives). */
  function FirstOccurrences(xs: seq<string>): (r: seq<string>)
    ensures forall i, j :: 0 <= i < j < |r| ==> r[i] != r[j]
    ensures forall x :: x in r <==> x in xs
  {
    if xs == [] then []
    else
      var f := FirstOccurrences(xs[..|xs| - 1]);
      assert xs == xs[..|xs| - 1] + [xs[|xs| - 1]];
      if xs[|xs| - 1] in f then f else f + [xs[|xs| - 1]]
  }

  /** The index of the first occurrence of `x` in `xs`. */
  function FirstIndex(xs: seq<string>, x: string): (k: nat)
    requires x in xs
    ensures k < |xs| && xs[k] == x && x !in xs[..k]
  {
    var init := xs[..|xs| - 1];
    assert xs == init + [xs[|xs| - 1]];
    if x in init then
      var k := FirstIndex(init, x);
      assert xs[..k] == init[..k];
      k
    else |xs| - 1
  }

  /** The result lists the names in the order in which they first occur. */
  lemma {:induction false} FirstOccurrencesInOrder(xs: seq<string>)
    ensures forall i, j :: 0 <= i < j < |FirstOccurrences(xs)| ==>
      FirstIndex(xs, FirstOccurrences(xs)[i]) < FirstIndex(xs, FirstOccurrences(xs)[j])
  {
    if xs != [] {
      var init := xs[..|xs| - 1];
      var last := xs[|xs| - 1];
      var f := FirstOccurrences(init);
      FirstOccurrencesInOrder(init);
      assert xs == init + [last];
      forall y | y in init ensures FirstIndex(xs, y) == FirstIndex(init, y) {
        var k := FirstIndex(init, y);
        assert xs[..k] == init[..k];
      }
      if last !in f {
        assert FirstIndex(xs, last) == |xs| - 1;
      }
    }
  }

  /**
   * `extractRepoNames`: every non-empty repo of the contributions once, in order of
   * first occurrence; nothing when the contribution list is missing or empty.
   */
  method ExtractRepoNames(e: Evidence) returns (names: seq<string>)
    ensures names == FirstOccurrences(RepoList(e.contributions.GetOr([])))
  {
    var cs := e.contributions.GetOr([]);
    var repos: set<string> := {};
    names := [];
    for i := 0 to |cs|
      invariant names == FirstOccurrences(RepoList(cs[..i]))
      invariant forall x :: x in repos <==> x in names
    {
      var c := cs[i];
      RepoListSnoc(cs, i);
      if Truthy(c.repo) {
        FirstOccurrencesSnoc(RepoList(cs[..i]), c.repo.value);
        if c.repo.value !in repos {
          repos := repos + {c.repo.value};
          names := names + [c.repo.value];
        }
      } else {
        assert RepoList(cs[..i + 1]) == RepoList(cs[..i]);
      }
    }
    assert cs[..|cs|] == cs;
  }

  lemma RepoListSnoc(cs: seq<Contribution>, i: nat)
    requires i < |cs|
    ensures RepoList(cs[..i + 1]) ==
      RepoList(cs[..i]) + (if Truthy(cs[i].repo) then [cs[i].repo.value] else [])
  {
    assert cs[..i + 1][..i] == cs[..i];
  }

  lemma FirstOccurrencesSnoc(xs: seq<string>, x: string)
    ensures FirstOccurrences(xs + [x]) ==
      if x in FirstOccurrences(xs) then FirstOccurrences(xs) else FirstOccurrences(xs) + [x]
  {
    assert (xs + [x])[..|xs|] == xs;
  }

  /** The repo names returned by `extractRepoNames`, pinned down without the algorithm. */
  lemma ExtractedRepoNames(e: Evidence)
    ensures var names := FirstOccurrences(RepoList(e.contributions.GetOr([])));
      && (forall i, j :: 0 <= i < j < |names| ==> names[i] != names[j])
      && (forall x :: x in names <==>
            exists c :: c in e.contributions.GetOr([]) && c.repo == Some(x) && x != "")
      && (e.contributions.GetOr([]) == [] ==> names == [])
  {
    var cs := e.contributions.GetOr([]);
    forall x ensures x in RepoList(cs) <==> exists c :: c in cs && c.repo == Some(x) && x != "" {
      RepoListMembers(cs, x);
    }
  }

  // ---------------------------------------------------------------------------
  // filterExcludedContributions

  /** A contribution survives unless its (non-empty) repo or id is excluded. */
  predicate Kept(c: Contribution, excludedRepos: seq<string>, excludedIds: seq<string>) {
    !(Truthy(c.repo) && c.repo.value in excludedRepos) && !(Truthy(c.id) && c.id.value in excludedIds)
  }

  /** `a` is `b` with some elements left out, in the same order. */
  predicate IsSubsequence(a: seq<Contribution>, b: seq<Contribution>) {
    if a == [] then true
    else if b == [] then false
    else
      (a[|a| - 1] == b[|b| - 1] && IsSubsequence(a[..|a| - 1], b[..|b| - 1]))
      || IsSubsequence(a, b[..|b| - 1])
  }

  /**
   * The kept contributions: exactly the kept ones, each as often as in the input,
   * in input order.
   */
  function KeptContributions(cs: seq<Contribution>, excludedRepos: seq<string>, excludedIds: seq<string>)
    : (r: seq<Contribution>)
    ensures forall c :: c in r ==> Kept(c, excludedRepos, excludedIds)
    ensures forall c :: multiset(r)[c] == if Kept(c, excludedRepos, excludedIds) then multiset(cs)[c] else 0
    ensures IsSubsequence(r, cs)
  {
    if cs == [] then []
    else
      var init := cs[..|cs| - 1];
      var c := cs[|cs| - 1];
      var f := KeptContributions(init, excludedRepos, excludedIds);
      assert cs == init + [c];
      if Kept(c, excludedRepos, excludedIds) then
        var r := f + [c];
        assert r[..|r| - 1] == f;
        r
      else
        f
  }

  /**
   * `filterExcludedContributions`: the very same evidence when both lists are empty;
   * otherwise the evidence with its contributions (a missing list read as empty)
   * narrowed to the kept ones, and every other field as it was.
   */
  function FilterExcludedContributions(e: Evidence, excludedRepos: seq<string>, excludedIds: seq<string>)
    : (r: Evidence)
    ensures excludedRepos == [] && excludedIds == [] ==> r == e
    ensures excludedRepos != [] || excludedIds != [] ==>
      && r.timeframe == e.timeframe
      && r.otherFields == e.otherFields
      && r.contributions == Some(KeptContributions(e.contributions.GetOr([]), excludedRepos, excludedIds))
  {
    if excludedRepos == [] && excludedIds == [] then e
    else e.(contributions := Some(KeptContributions(e.contributions.GetOr([]), excludedRepos, excludedIds)))
  }
}
