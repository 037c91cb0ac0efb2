/**
 * The cookie codec: signing a session id with an HMAC and checking a signed value
 * (split at its last '.'), reading the session and OAuth-state cookies from a
 * request's `Cookie` header, and building the `Set-Cookie` headers a response carries.
 * HMAC-SHA-256 and the URI component encoding are parameters: `h(key, message)` is
 * the hex digest, `encode`/`decode` stand for `encodeURIComponent`/`decodeURIComponent`.
 */
module Cookies {
  import opened JsText

  const CookieName := "ar_session"
  const StateCookieName := "ar_oauth_state"
  /** Seven days in seconds, the default `Max-Age` of the session cookie. */
  const DefaultMaxAge := 60 * 60 * 24 * 7
  const StateMaxAge := 600

  /** A keyed digest: `h(secret, message)`. */
  type Hmac = (string, string) -> string

  /** A hex digest never contains '.'. */
  ghost predicate DotFree(h: Hmac) {
    forall key, msg :: '.' !in h(key, msg)
  }

  predicate IsHexDigit(c: char) {
    '0' <= c <= '9' || 'a' <= c <= 'f'
  }

  /** Every digest is written in lower-case hex, as `digest("hex")` does. */
  ghost predicate HexDigest(h: Hmac) {
    forall key, msg :: forall i :: 0 <= i < |h(key, msg)| ==> IsHexDigit(h(key, msg)[i])
  }

  lemma HexDigestIsDotFree(h: Hmac)
    requires HexDigest(h)
    ensures DotFree(h)
  {
    forall key, msg
      ensures '.' !in h(key, msg)
    {
      var d := h(key, msg);
      assert forall i :: 0 <= i < |d| ==> d[i] != '.';
    }
  }

  // ---------------------------------------------------------------------------
  // signSessionId / verifySessionId

  /** `signSessionId(id, secret)`: the id, a '.', and the digest of the id. */
  function Sign(id: string, secret: string, h: Hmac): string {
    id + "." + h(secret, id)
  }

  /**
   * `verifySessionId(value, secret)`: None (null) for an absent or empty value, for a
   * value whose last '.' is missing or first, and for a suffix that is not the digest
   * of the prefix; otherwise the prefix. Whatever it accepts is a non-empty id whose
   * signature is exactly the value.
   */
  function Verify(value: Option<string>, secret: string, h: Hmac): (r: Option<string>)
    ensures r.Some? ==> r.value != "" && value == Some(Sign(r.value, secret, h))
  {
    if !Truthy(value) then None
    else
      var v := value.value;
      var i := LastIndexOf(v, '.');
      if i <= 0 then None
      else if v[i + 1..] == h(secret, v[..i]) then
        assert v == v[..i] + "." + v[i + 1..];
        Some(v[..i])
      else None
  }

  /** Verifying a signed id gives the id back, also when the id itself contains '.'. */
  lemma SignThenVerify(id: string, secret: string, h: Hmac)
    requires id != "" && DotFree(h)
    ensures Verify(Some(Sign(id, secret, h)), secret, h) == Some(id)
  {
    var v := Sign(id, secret, h);
    assert v[|id| + 1..] == h(secret, id);
    LastIndexOfAt(v, '.', |id|);
    assert v[..|id|] == id;
  }

  /** With a dot-free digest, the values accepted for `id` are exactly its signature. */
  lemma VerifyAcceptsExactlySigned(v: string, id: string, secret: string, h: Hmac)
    requires DotFree(h)
    ensures Verify(Some(v), secret, h) == Some(id) <==> id != "" && v == Sign(id, secret, h)
  {
    if id != "" && v == Sign(id, secret, h) {
      SignThenVerify(id, secret, h);
    }
  }

  /** The null cases: no value, an empty value, no '.', or a '.' only at index 0. */
  lemma VerifyRejectsMalformed(value: Option<string>, secret: string, h: Hmac)
    ensures value.None? ==> Verify(value, secret, h) == None
    ensures value == Some("") ==> Verify(value, secret, h) == None
    ensures value.Some? && '.' !in value.value ==> Verify(value, secret, h) == None
    ensures value.Some? && |value.value| > 0 && value.value[0] == '.' && '.' !in value.value[1..] ==>
      Verify(value, secret, h) == None
  {
    if value.Some? && |value.value| > 0 && value.value[0] == '.' && '.' !in value.value[1..] {
      LastIndexOfAt(value.value, '.', 0);
    }
  }

  /** A signature that is not the digest of the id is rejected. */
  lemma VerifyRejectsForgedSignature(id: string, sig: string, secret: string, h: Hmac)
    requires '.' !in sig && sig != h(secret, id)
    ensures Verify(Some(id + "." + sig), secret, h) == None
  {
    var v := id + "." + sig;
    assert v[|id| + 1..] == sig;
    LastIndexOfAt(v, '.', |id|);
    assert v[..|id|] == id;
  }

  // ---------------------------------------------------------------------------
  // Reading cookies from the request header

  /** The longest prefix of `s` without `c`: what `[^;]+` consumes (when non-empty). */
  function RunUntil(s: string, c: char): (r: string)
    ensures c !in r && |r| <= |s| && s[..|r|] == r
    ensures |r| == |s| || s[|r|] == c
  {
    if s == [] || s[0] == c then []
    else [s[0]] + RunUntil(s[1..], c)
  }

  lemma {:induction false} RunUntilStops(v: string, rest: string, c: char)
    requires c !in v && (rest == [] || rest[0] == c)
    ensures RunUntil(v + rest, c) == v
  {
    if v != [] {
      assert (v + rest)[1..] == v[1..] + rest;
      RunUntilStops(v[1..], rest, c);
    }
  }

  /** The regular expression `pat([^;]+)` tried at the start of `s`: the captured group. */
  function MatchAt(s: string, pat: string): Option<string> {
    if StartsWith(s, pat) && |s| > |pat| && s[|pat|] != ';' then Some(RunUntil(s[|pat|..], ';'))
    else None
  }

  /**
   * `s.match(new RegExp(pat + "([^;]+)"))[1]` for a pattern without metacharacters:
   * the group captured at the leftmost position where the expression matches.
   */
  function FirstMatch(s: string, pat: string): (r: Option<string>)
    ensures r.Some? ==> r.value != "" && ';' !in r.value
    decreases |s|
  {
    if MatchAt(s, pat).Some? then MatchAt(s, pat)
    else if s == [] then None
    else FirstMatch(s[1..], pat)
  }

  /** A header that does not contain the name gives no match. */
  lemma {:induction false} FirstMatchAbsent(s: string, pat: string)
    requires !Contains(s, pat)
    ensures FirstMatch(s, pat) == None
    decreases |s|
  {
    if s != [] {
      FirstMatchAbsent(s[1..], pat);
    }
  }

  /** A header that starts with `name=value` gives that value. */
  lemma FirstMatchOfLeadingCookie(pat: string, v: string, rest: string)
    requires v != "" && ';' !in v && (rest == [] || rest[0] == ';')
    ensures FirstMatch(pat + v + rest, pat) == Some(v)
  {
    var s := pat + v + rest;
    assert s[..|pat|] == pat;
    assert s[|pat|..] == v + rest;
    RunUntilStops(v, rest, ';');
  }

  /**
   * The expression is not anchored at a cookie boundary: a cookie whose name merely
   * ends in the session cookie's name is read as the session cookie.
   */
  lemma LongerNameAlsoMatches(v: string)
    requires v != "" && ';' !in v
    ensures FirstMatch("x" + CookieName + "=" + v, CookieName + "=") == Some(v)
  {
    var s := "x" + CookieName + "=" + v;
    assert !StartsWith(s, CookieName + "=") by {
      assert s[0] == 'x';
    }
    assert s[1..] == CookieName + "=" + v + [];
    FirstMatchOfLeadingCookie(CookieName + "=", v, []);
  }

  /**
   * `getSessionIdFromRequest(req, secret)`: None without a (non-empty) cookie header
   * or without a match; otherwise the verified id of the decoded, trimmed value.
   */
  function SessionIdFromRequest(cookie: Option<string>, secret: string, h: Hmac,
                                decode: string -> string): (r: Option<string>)
    ensures r.Some? ==> r.value != ""
  {
    if !Truthy(cookie) then None
    else match FirstMatch(cookie.value, CookieName + "=")
      case None => None
      case Some(raw) => Verify(Some(decode(Trim(raw))), secret, h)
  }

  /** `getStateFromRequest(req)`: the decoded, trimmed value of the state cookie, or None. */
  function StateFromRequest(cookie: Option<string>, decode: string -> string): Option<string> {
    if !Truthy(cookie) then None
    else match FirstMatch(cookie.value, StateCookieName + "=")
      case None => None
      case Some(raw) => Some(decode(Trim(raw)))
  }

  /** No header, an empty header, or a header without the cookie name: null. */
  lemma RequestWithoutSessionCookie(cookie: Option<string>, secret: string, h: Hmac, decode: string -> string)
    requires !Truthy(cookie) || !Contains(cookie.value, CookieName + "=")
    ensures SessionIdFromRequest(cookie, secret, h, decode) == None
  {
    if Truthy(cookie) {
      FirstMatchAbsent(cookie.value, CookieName + "=");
    }
  }

  lemma RequestWithoutStateCookie(cookie: Option<string>, decode: string -> string)
    requires !Truthy(cookie) || !Contains(cookie.value, StateCookieName + "=")
    ensures StateFromRequest(cookie, decode) == None
  {
    if Truthy(cookie) {
      FirstMatchAbsent(cookie.value, StateCookieName + "=");
    }
  }

  /**
   * What `encodeURIComponent` guarantees here: a non-empty input gives a non-empty
   * output, and the output has neither ';' nor white space.
   */
  ghost predicate CookieSafe(encode: string -> string) {
    forall x :: (x != "" ==> encode(x) != "")
      && forall i :: 0 <= i < |encode(x)| ==> encode(x)[i] != ';' && !IsJsSpace(encode(x)[i])
  }

  ghost predicate Decodes(encode: string -> string, decode: string -> string) {
    forall x :: decode(encode(x)) == x
  }

  lemma CookieSafeValue(encode: string -> string, x: string)
    requires CookieSafe(encode)
    ensures ';' !in encode(x) && Trimmed(encode(x))
    ensures Plain(encode(x))
    ensures x != "" ==> encode(x) != ""
  {
    var e := encode(x);
    assert forall i :: 0 <= i < |e| ==> e[i] != ';' && !IsJsSpace(e[i]);
  }

  /**
   * A request that sends back the cookie `setSessionCookie` set, first in its header,
   * yields the session id again.
   */
  lemma SessionCookieRoundTrip(id: string, secret: string, h: Hmac,
                               encode: string -> string, decode: string -> string, rest: string)
    requires id != "" && DotFree(h) && CookieSafe(encode) && Decodes(encode, decode)
    requires rest == [] || rest[0] == ';'
    ensures SessionIdFromRequest(Some(CookieName + "=" + encode(Sign(id, secret, h)) + rest), secret, h, decode)
      == Some(id)
  {
    var e := encode(Sign(id, secret, h));
    CookieSafeValue(encode, Sign(id, secret, h));
    FirstMatchOfLeadingCookie(CookieName + "=", e, rest);
    TrimOfTrimmed(e);
    SignThenVerify(id, secret, h);
  }

  /** Likewise for a non-empty OAuth state and the state cookie. */
  lemma StateCookieRoundTrip(state: string, encode: string -> string, decode: string -> string, rest: string)
    requires state != "" && CookieSafe(encode) && Decodes(encode, decode)
    requires rest == [] || rest[0] == ';'
    ensures StateFromRequest(Some(StateCookieName + "=" + encode(state) + rest), decode) == Some(state)
  {
    var e := encode(state);
    CookieSafeValue(encode, state);
    FirstMatchOfLeadingCookie(StateCookieName + "=", e, rest);
    TrimOfTrimmed(e);
  }

  /** A state cookie with an empty value is not read: `[^;]+` needs a character. */
  lemma EmptyStateCookieIsNotRead(decode: string -> string)
    ensures StateFromRequest(Some(StateCookieName + "="), decode) == None
  {
    var s := StateCookieName + "=";
    assert MatchAt(s, s).None?;
    var t := s;
    while t != []
      invariant |t| <= |s| && t == s[|s| - |t|..]
      invariant FirstMatch(s, s) == FirstMatch(t, s)
      decreases |t|
    {
      assert MatchAt(t, s).None?;
      t := t[1..];
    }
  }

  // ---------------------------------------------------------------------------
  // Set-Cookie headers

  /** `{ secure?, maxAge? }`; None stands for an absent option. */
  datatype CookieOptions = CookieOptions(secure: Option<bool>, maxAge: Option<int>)

  /** The attribute list `setSessionCookie` joins. */
  function SessionCookieParts(sessionId: string, secret: string, h: Hmac,
                              encode: string -> string, opts: CookieOptions): seq<string>
  {
    [CookieName + "=" + encode(Sign(sessionId, secret, h)),
     "Path=/", "HttpOnly", "SameSite=Lax",
     "Max-Age=" + IntToString(opts.maxAge.GetOr(DefaultMaxAge))]
    + (if opts.secure.GetOr(false) then ["Secure"] else [])
  }

  function SessionCookieHeader(sessionId: string, secret: string, h: Hmac,
                               encode: string -> string, opts: CookieOptions): string
  {
    Join(SessionCookieParts(sessionId, secret, h, encode, opts), "; ")
  }

  /**
   * The attributes every cookie of this service carries, up to the max-age value:
   * `; Path=/; HttpOnly; SameSite=Lax; Max-Age=`.
   */
  const AttributeTail := "; " + "Path=/" + "; " + "HttpOnly" + "; " + "SameSite=Lax" + "; " + "Max-Age="

  /** `ar_session=; Path=/; HttpOnly; SameSite=Lax; Max-Age=0`. */
  const ClearSessionCookieHeader := CookieName + "=" + AttributeTail + "0"

  /** `ar_oauth_state=<enc(state)>; Path=/; HttpOnly; SameSite=Lax; Max-Age=600`. */
  function StateCookieHeader(state: string, encode: string -> string): string {
    StateCookieName + "=" + encode(state) + AttributeTail + "600"
  }

  /** The five attributes, and Secure when asked for, joined with "; ", written out. */
  lemma AttributeListText(first: string, maxAge: string, secure: bool)
    ensures Join([first, "Path=/", "HttpOnly", "SameSite=Lax", "Max-Age=" + maxAge]
                 + (if secure then ["Secure"] else []), "; ")
      == first + AttributeTail + maxAge + (if secure then "; Secure" else "")
  {
    var sep := "; ";
    var five := [first, "Path=/", "HttpOnly", "SameSite=Lax", "Max-Age=" + maxAge];
    JoinFive(first, "Path=/", "HttpOnly", "SameSite=Lax", "Max-Age=" + maxAge, sep);
    // Regroup the joined text as `first`, the fixed tail, then the max-age value.
    var t1 := sep + "Path=/";
    AppendAssoc(first, sep, "Path=/");
    var t2 := t1 + sep;
    AppendAssoc(first, t1, sep);
    var t3 := t2 + "HttpOnly";
    AppendAssoc(first, t2, "HttpOnly");
    var t4 := t3 + sep;
    AppendAssoc(first, t3, sep);
    var t5 := t4 + "SameSite=Lax";
    AppendAssoc(first, t4, "SameSite=Lax");
    var t6 := t5 + sep;
    AppendAssoc(first, t5, sep);
    AppendAssoc(first + t6, "Max-Age=", maxAge);
    AppendAssoc(first, t6, "Max-Age=");
    var j := Join(five, sep);
    assert j == first + AttributeTail + maxAge;
    if secure {
      JoinSnoc(five, "Secure", sep);
      AppendAssoc(j, sep, "Secure");
    } else {
      assert five + [] == five;
    }
  }

  /** The session cookie header written out. */
  lemma SessionCookieHeaderText(sessionId: string, secret: string, h: Hmac,
                                encode: string -> string, opts: CookieOptions)
    ensures SessionCookieHeader(sessionId, secret, h, encode, opts)
      == CookieName + "=" + encode(Sign(sessionId, secret, h))
         + AttributeTail + IntToString(opts.maxAge.GetOr(DefaultMaxAge))
         + (if opts.secure.GetOr(false) then "; Secure" else "")
  {
    AttributeListText(CookieName + "=" + encode(Sign(sessionId, secret, h)),
                      IntToString(opts.maxAge.GetOr(DefaultMaxAge)), opts.secure.GetOr(false));
  }

  /** One more decimal digit. */
  lemma NatToStringStep(n: nat, front: string, d: char)
    requires n >= 10 && NatToString(n / 10) == front && d == DigitChar(n % 10)
    ensures NatToString(n) == front + [d]
  {
  }

  lemma DefaultMaxAgeText()
    ensures IntToString(DefaultMaxAge) == "604800"
  {
    assert DefaultMaxAge == 604800;
    assert NatToString(6) == "6";
    NatToStringStep(60, "6", '0');
    NatToStringStep(604, "60", '4');
    NatToStringStep(6048, "604", '8');
    NatToStringStep(60480, "6048", '0');
    NatToStringStep(604800, "60480", '0');
  }

  /** `s.split(c)`. */
  function Split(s: string, c: char): (r: seq<string>)
    ensures |r| >= 1
    ensures forall k :: 0 <= k < |r| ==> c !in r[k]
    decreases |s|
  {
    if s == [] then [""]
    else if s[0] == c then [""] + Split(s[1..], c)
    else
      var rest := Split(s[1..], c);
      [[s[0]] + rest[0]] + rest[1..]
  }

  function TrimAll(xs: seq<string>): (r: seq<string>)
    ensures |r| == |xs| && forall k :: 0 <= k < |xs| ==> r[k] == Trim(xs[k])
  {
    seq(|xs|, k requires 0 <= k < |xs| => Trim(xs[k]))
  }

  /**
   * How a cookie header is read back: split at ';' and each piece trimmed (the
   * procedure of section 5.2 of RFC 6265).
   */
  function CookieAttributes(header: string): seq<string> {
    TrimAll(Split(header, ';'))
  }

  lemma {:induction false} SplitAfterPiece(a: string, b: string, c: char)
    requires c !in a
    ensures Split(a + [c] + b, c) == [a] + Split(b, c)
  {
    if a != [] {
      assert (a + [c] + b)[1..] == a[1..] + [c] + b;
      SplitAfterPiece(a[1..], b, c);
      assert [a[0]] + a[1..] == a;
    } else {
      assert a + [c] + b == [c] + b;
      assert ([c] + b)[1..] == b;
    }
  }

  lemma {:induction false} SplitJoined(parts: seq<string>)
    requires |parts| >= 1 && forall k :: 0 <= k < |parts| ==> ';' !in parts[k]
    ensures Split(Join(parts, "; "), ';')
      == [parts[0]] + seq(|parts| - 1, k requires 0 <= k < |parts| - 1 => " " + parts[k + 1])
    decreases |parts|
  {
    if |parts| == 1 {
      SplitNoSeparator(parts[0], ';');
    } else {
      var tail := parts[1..];
      JoinCons(parts, "; ");
      var j := Join(tail, "; ");
      assert parts[0] + "; " + j == parts[0] + [';'] + (" " + j);
      SplitAfterPiece(parts[0], " " + j, ';');
      SplitJoined(tail);
      var rest := seq(|tail| - 1, k requires 0 <= k < |tail| - 1 => " " + tail[k + 1]);
      assert Split(j, ';') == [tail[0]] + rest;
      assert (" " + j)[1..] == j;
      var st := Split(j, ';');
      assert Split(" " + j, ';') == [" " + st[0]] + st[1..];
      assert st[1..] == rest;
      var all := seq(|parts| - 1, k requires 0 <= k < |parts| - 1 => " " + parts[k + 1]);
      assert all == [" " + tail[0]] + rest;
    }
  }

  lemma {:induction false} SplitNoSeparator(a: string, c: char)
    requires c !in a
    ensures Split(a, c) == [a]
  {
    if a != [] {
      SplitNoSeparator(a[1..], c);
      assert [a[0]] + a[1..] == a;
    }
  }

  /** An attribute that survives `split(';')` and `trim` as one piece. */
  predicate Plain(s: string) {
    ';' !in s && Trimmed(s)
  }

  lemma PlainConcat(a: string, b: string)
    requires Plain(a) && Plain(b)
    ensures Plain(a + b)
  {
    if b != [] {
      assert (a + b)[|a + b| - 1] == b[|b| - 1];
    }
    if a != [] {
      assert (a + b)[0] == a[0];
    } else {
      assert a + b == b;
    }
  }

  /** A printable ASCII character other than ';'. */
  predicate AttrChar(c: char) {
    '!' <= c <= '~' && c != ';'
  }

  lemma AttrCharsPlain(s: string)
    requires forall k :: 0 <= k < |s| ==> AttrChar(s[k])
    ensures Plain(s)
  {
  }

  lemma FixedAttributesPlain()
    ensures Plain("Path=/") && Plain("HttpOnly") && Plain("SameSite=Lax") && Plain("Secure")
    ensures Plain(CookieName + "=") && Plain(StateCookieName + "=") && Plain("Max-Age=")
  {
    assert Plain("Path=/") by { AttrCharsPlain("Path=/"); }
    assert Plain("HttpOnly") by { AttrCharsPlain("HttpOnly"); }
    assert Plain("SameSite=Lax") by { AttrCharsPlain("SameSite=Lax"); }
    assert Plain("Secure") by { AttrCharsPlain("Secure"); }
    assert Plain(CookieName + "=") by { AttrCharsPlain(CookieName + "="); }
    assert Plain(StateCookieName + "=") by { AttrCharsPlain(StateCookieName + "="); }
    assert Plain("Max-Age=") by { AttrCharsPlain("Max-Age="); }
  }

  /** Trimming the pieces of a "; "-joined list removes exactly the padding spaces. */
  lemma TrimSpacedPieces(parts: seq<string>, pieces: seq<string>)
    requires |parts| >= 1
    requires forall k :: 0 <= k < |parts| ==> Trimmed(parts[k])
    requires pieces == [parts[0]] + seq(|parts| - 1, k requires 0 <= k < |parts| - 1 => " " + parts[k + 1])
    ensures TrimAll(pieces) == parts
  {
    assert |pieces| == |parts|;
    forall k | 0 <= k < |parts|
      ensures Trim(pieces[k]) == parts[k]
    {
      if k == 0 {
        assert pieces[0] == parts[0];
        TrimOfTrimmed(parts[0]);
      } else {
        assert pieces[k] == " " + parts[k];
        TrimAfterSpace(parts[k]);
      }
    }
  }

  /** Joining trimmed attributes with "; " and reading them back gives the attributes. */
  lemma AttributesOfJoin(parts: seq<string>)
    requires |parts| >= 1
    requires forall k :: 0 <= k < |parts| ==> Plain(parts[k])
    ensures CookieAttributes(Join(parts, "; ")) == parts
  {
    SplitJoined(parts);
    TrimSpacedPieces(parts, Split(Join(parts, "; "), ';'));
  }

  lemma IntToStringPlain(i: int)
    ensures Plain(IntToString(i))
  {
    var s := IntToString(i);
    if i < 0 {
      var t := NatToString(-i);
      assert s == "-" + t;
      forall k | 0 <= k < |s|
        ensures AttrChar(s[k])
      {
        if k > 0 {
          assert s[k] == t[k - 1];
        }
      }
    } else {
      assert forall k :: 0 <= k < |s| ==> AttrChar(s[k]);
    }
    AttrCharsPlain(s);
  }

  lemma SessionCookiePartsPlain(sessionId: string, secret: string, h: Hmac,
                                encode: string -> string, opts: CookieOptions)
    requires CookieSafe(encode)
    ensures var p := SessionCookieParts(sessionId, secret, h, encode, opts);
      forall k :: 0 <= k < |p| ==> Plain(p[k])
  {
    var e := encode(Sign(sessionId, secret, h));
    var n := IntToString(opts.maxAge.GetOr(DefaultMaxAge));
    CookieSafeValue(encode, Sign(sessionId, secret, h));
    FixedAttributesPlain();
    PlainConcat(CookieName + "=", e);
    IntToStringPlain(opts.maxAge.GetOr(DefaultMaxAge));
    PlainConcat("Max-Age=", n);
  }

  /**
   * The session cookie as a browser reads it: the signed, encoded value under
   * `ar_session`, path `/`, HttpOnly, SameSite=Lax, the given max age or seven days,
   * and Secure exactly when the option asks for it.
   */
  lemma SessionCookieAttributes(sessionId: string, secret: string, h: Hmac,
                                encode: string -> string, opts: CookieOptions)
    requires CookieSafe(encode)
    ensures var attrs := CookieAttributes(SessionCookieHeader(sessionId, secret, h, encode, opts));
      && |attrs| >= 5
      && attrs[0] == CookieName + "=" + encode(Sign(sessionId, secret, h))
      && attrs[1..5] == ["Path=/", "HttpOnly", "SameSite=Lax", "Max-Age=" + IntToString(opts.maxAge.GetOr(DefaultMaxAge))]
      && (opts.maxAge.None? ==> attrs[4] == "Max-Age=604800")
      && ("Secure" in attrs <==> opts.secure == Some(true))
  {
    var p := SessionCookieParts(sessionId, secret, h, encode, opts);
    var n := IntToString(opts.maxAge.GetOr(DefaultMaxAge));
    SessionCookieReadBack(sessionId, secret, h, encode, opts);
    assert p[1..5] == ["Path=/", "HttpOnly", "SameSite=Lax", "Max-Age=" + n];
    if opts.maxAge.None? {
      DefaultMaxAgeText();
      assert n == "604800";
    }
    SecureAttribute(sessionId, secret, h, encode, opts);
  }

  /** Reading the session cookie header back gives exactly the attribute list. */
  lemma SessionCookieReadBack(sessionId: string, secret: string, h: Hmac,
                              encode: string -> string, opts: CookieOptions)
    requires CookieSafe(encode)
    ensures CookieAttributes(SessionCookieHeader(sessionId, secret, h, encode, opts))
      == SessionCookieParts(sessionId, secret, h, encode, opts)
  {
    SessionCookiePartsPlain(sessionId, secret, h, encode, opts);
    AttributesOfJoin(SessionCookieParts(sessionId, secret, h, encode, opts));
  }

  /** The Secure attribute is in the list exactly when the option asks for it. */
  lemma SecureAttribute(sessionId: string, secret: string, h: Hmac,
                        encode: string -> string, opts: CookieOptions)
    ensures "Secure" in SessionCookieParts(sessionId, secret, h, encode, opts) <==> opts.secure == Some(true)
  {
    var p := SessionCookieParts(sessionId, secret, h, encode, opts);
    assert p[0] != "Secure" by {
      assert p[0][0] == 'a';
    }
    assert p[4] != "Secure" by {
      assert p[4][0] == 'M';
    }
    assert p[1] != "Secure" && p[2] != "Secure" && p[3] != "Secure";
  }

  /** The clearing header: an empty `ar_session` value and `Max-Age=0`. */
  lemma ClearSessionCookieAttributes()
    ensures CookieAttributes(ClearSessionCookieHeader)
      == [CookieName + "=", "Path=/", "HttpOnly", "SameSite=Lax", "Max-Age=0"]
  {
    var p := [CookieName + "=", "Path=/", "HttpOnly", "SameSite=Lax", "Max-Age=0"];
    AttributeListText(CookieName + "=", "0", false);
    assert p + [] == p;
    assert "Max-Age=" + "0" == "Max-Age=0";
    assert Join(p, "; ") == ClearSessionCookieHeader;
    FixedAttributesPlain();
    assert Plain("Max-Age=0");
    assert forall k :: 0 <= k < |p| ==> Plain(p[k]);
    AttributesOfJoin(p);
  }

  /** The state cookie: encoded state, HttpOnly, SameSite=Lax, ten minutes, never Secure. */
  lemma StateCookieAttributes(state: string, encode: string -> string)
    requires CookieSafe(encode)
    ensures var attrs := CookieAttributes(StateCookieHeader(state, encode));
      && attrs == [StateCookieName + "=" + encode(state), "Path=/", "HttpOnly", "SameSite=Lax", "Max-Age=600"]
      && "Secure" !in attrs
  {
    var first := StateCookieName + "=" + encode(state);
    var p := [first, "Path=/", "HttpOnly", "SameSite=Lax", "Max-Age=600"];
    StateCookiePartsPlain(state, encode);
    StateCookieHeaderText(state, encode);
    AttributesOfJoin(p);
    assert first != "Secure" by {
      assert first[0] == 'a';
    }
  }

  lemma StateCookiePartsPlain(state: string, encode: string -> string)
    requires CookieSafe(encode)
    ensures var p := [StateCookieName + "=" + encode(state), "Path=/", "HttpOnly", "SameSite=Lax", "Max-Age=600"];
      forall k :: 0 <= k < |p| ==> Plain(p[k])
  {
    CookieSafeValue(encode, state);
    FixedAttributesPlain();
    PlainConcat(StateCookieName + "=", encode(state));
    assert Plain("Max-Age=600") by { AttrCharsPlain("Max-Age=600"); }
  }

  /** The state cookie header is its attribute list joined with "; ". */
  lemma StateCookieHeaderText(state: string, encode: string -> string)
    ensures Join([StateCookieName + "=" + encode(state), "Path=/", "HttpOnly", "SameSite=Lax", "Max-Age=600"], "; ")
      == StateCookieHeader(state, encode)
  {
    var first := StateCookieName + "=" + encode(state);
    var p := [first, "Path=/", "HttpOnly", "SameSite=Lax", "Max-Age=600"];
    AttributeListText(first, "600", false);
    assert p + [] == p;
    assert "Max-Age=" + "600" == "Max-Age=600";
  }

  /** The response side that the cookie setters write through. */
  class Response {
    var headers: map<string, string>

    constructor ()
      ensures headers == map[]
    {
      headers := map[];
    }

    /** `res.setHeader(name, value)`: replaces any earlier value of that header. */
    method SetHeader(name: string, value: string)
      modifies this
      ensures headers == old(headers)[name := value]
    {
      headers := headers[name := value];
    }

    /** `setSessionCookie(res, sessionId, secret, opts)`. */
    method SetSessionCookie(sessionId: string, secret: string, h: Hmac,
                            encode: string -> string, opts: CookieOptions)
      modifies this
      ensures headers == old(headers)["Set-Cookie" := SessionCookieHeader(sessionId, secret, h, encode, opts)]
    {
      var value := Sign(sessionId, secret, h);
      var secure := opts.secure.GetOr(false);
      var maxAge := opts.maxAge.GetOr(DefaultMaxAge);
      var parts := [CookieName + "=" + encode(value), "Path=/", "HttpOnly", "SameSite=Lax",
                    "Max-Age=" + IntToString(maxAge)];
      if secure {
        parts := parts + ["Secure"];
      }
      assert parts == SessionCookieParts(sessionId, secret, h, encode, opts);
      SetHeader("Set-Cookie", Join(parts, "; "));
    }

    /** `clearSessionCookie(res)`. */
    method ClearSessionCookie()
      modifies this
      ensures headers == old(headers)["Set-Cookie" := ClearSessionCookieHeader]
    {
      SetHeader("Set-Cookie", ClearSessionCookieHeader);
    }

    /** `setStateCookie(res, state)`. */
    method SetStateCookie(state: string, encode: string -> string)
      modifies this
      ensures headers == old(headers)["Set-Cookie" := StateCookieHeader(state, encode)]
    {
      SetHeader("Set-Cookie", StateCookieHeader(state, encode));
    }
  }
}
