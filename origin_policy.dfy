/**
 * The CORS origin-admission policy of the habit-tracker API server.
 *
 * Each incoming cross-origin request reports an `Origin`; the policy admits it
 * or rejects it with a fixed message. The rules are tried in order, and the
 * first that matches admits the origin:
 *   1. an absent or empty (JavaScript-falsy) origin;
 *   2. `^http://localhost(:\d+)?$` or `^http://127\.0\.0\.1(:\d+)?$`;
 *   3. `^https://.*\.vercel\.app$`;
 *   4. an exact member of the explicit allow-list.
 *
 * The regular expressions are modelled by hand-written matchers (prefix, an
 * optional `:` and a digit run, suffix, a scan for line terminators). Each
 * matcher is proved equal to a declarative description of the language its
 * regular expression denotes.
 */
module OriginPolicy {
  import opened Wrappers

  /**
   * The explicit allow-list of origins: the single deployment
   * `https://habit-tracker-ois91z4n8-kailashs-projects-8c368369.vercel.app`,
   * written as scheme, deployment host and suffix.
   */
  const AllowedOrigins: seq<string> := [VercelScheme + DeploymentHost + VercelSuffix]
  const DeploymentHost: string := "habit-tracker-ois91z4n8-kailashs-projects-8c368369"

  /** The message of the error raised for a rejected origin. */
  const DenyMessage: string :=
    "The CORS policy for this site does not allow access from the specified Origin."

  /** Methods and request headers the CORS middleware announces for admitted origins. */
  const AllowedMethods: seq<string> := ["GET", "POST", "PUT", "DELETE", "PATCH", "OPTIONS"]
  const AllowedHeaders: seq<string> := ["Content-Type", "Authorization"]

  const LocalhostBase: string := "http://localhost"
  const LoopbackBase: string := "http://127.0.0.1"
  const VercelScheme: string := "https://"
  const VercelSuffix: string := ".vercel.app"

  /** What the origin callback hands to the CORS middleware. */
  datatype Decision = Allow | Deny(message: string)

  // ---------------------------------------------------------------------------
  // Character classes
  // ---------------------------------------------------------------------------

  /** `\d` in a JavaScript regular expression without the `u` flag. */
  predicate IsAsciiDigit(c: char) {
    '0' <= c <= '9'
  }

  /** The characters a JavaScript `.` does not match (no `s` flag). */
  predicate IsLineTerminator(c: char) {
    c == '\n' || c == '\r' || c == '\U{2028}' || c == '\U{2029}'
  }

  // ---------------------------------------------------------------------------
  // Hand-written matchers
  // ---------------------------------------------------------------------------

  /** Scans `s` from the left, consuming `\d*`; true when the scan reaches the end. */
  predicate ScanDigits(s: string)
    decreases |s|
  {
    s == [] || (IsAsciiDigit(s[0]) && ScanDigits(s[1..]))
  }

  /** Scans `s` from the left, consuming `.*`; true when the scan reaches the end. */
  predicate ScanNonTerminators(s: string)
    decreases |s|
  {
    s == [] || (!IsLineTerminator(s[0]) && ScanNonTerminators(s[1..]))
  }

  predicate EndsWith(s: string, suffix: string) {
    |suffix| <= |s| && s[|s| - |suffix|..] == suffix
  }

  /** Matcher for `^<base>(:\d+)?$`. */
  predicate MatchHostPort(origin: string, base: string) {
    origin == base
    || (base + ":" <= origin && |base| + 1 < |origin| && ScanDigits(origin[|base| + 1..]))
  }

  /** Matcher for `^http://localhost(:\d+)?$`. */
  predicate MatchLocalhost(origin: string) {
    MatchHostPort(origin, LocalhostBase)
  }

  /** Matcher for `^http://127\.0\.0\.1(:\d+)?$`. */
  predicate MatchLoopback(origin: string) {
    MatchHostPort(origin, LoopbackBase)
  }

  /** Matcher for `^https://.*\.vercel\.app$`. */
  predicate MatchVercel(origin: string) {
    |VercelScheme| + |VercelSuffix| <= |origin|
    && VercelScheme <= origin
    && EndsWith(origin, VercelSuffix)
    && ScanNonTerminators(origin[|VercelScheme|..|origin| - |VercelSuffix|])
  }

  /** `!origin` in JavaScript: `undefined` or the empty string. */
  predicate IsFalsy(origin: Option<string>) {
    origin.None? || origin.value == ""
  }

  // ---------------------------------------------------------------------------
  // The origin callback
  // ---------------------------------------------------------------------------

  /**
   * The origin callback with the allow-list as a parameter: the same chain of
   * early returns, in the same order, as the server's callback.
   */
  function AdmitUnder(allowList: seq<string>, origin: Option<string>): (d: Decision)
    ensures d.Allow? <==> AdmissibleUnder(allowList, origin)
    ensures d.Deny? ==> d.message == DenyMessage
  {
    if IsFalsy(origin) then
      Allow
    else
      var o := origin.value;
      MatchHostPortIsLanguage(o, LocalhostBase);
      MatchHostPortIsLanguage(o, LoopbackBase);
      MatchVercelIsLanguage(o);
      if MatchLocalhost(o) || MatchLoopback(o) then
        Allow
      else if MatchVercel(o) then
        Allow
      else if o in allowList then
        Allow
      else
        Deny(DenyMessage)
  }

  /** The server's origin callback, with its own allow-list. */
  function Admit(origin: Option<string>): (d: Decision)
    ensures d.Allow? <==> AdmissibleUnder(AllowedOrigins, origin)
    ensures d.Allow? <==> AdmissibleUnder([], origin)
    ensures d.Deny? ==> d.message == DenyMessage
  {
    AllowListRedundant(origin);
    AdmitUnder(AllowedOrigins, origin)
  }

  // ---------------------------------------------------------------------------
  // Reference definitions: the languages the regular expressions denote
  // ---------------------------------------------------------------------------

  /** `\d+`: a non-empty string of ASCII digits. */
  ghost predicate IsDigitRun(d: string) {
    |d| > 0 && forall i :: 0 <= i < |d| ==> IsAsciiDigit(d[i])
  }

  /** `.*`: a string without line terminators. */
  ghost predicate IsLineFree(s: string) {
    forall i :: 0 <= i < |s| ==> !IsLineTerminator(s[i])
  }

  /** The language of `^<base>(:\d+)?$`. */
  ghost predicate InHostPortLanguage(origin: string, base: string) {
    origin == base || exists d :: IsDigitRun(d) && origin == base + ":" + d
  }

  /** The language of `^https://.*\.vercel\.app$`. */
  ghost predicate InVercelLanguage(origin: string) {
    exists mid :: IsLineFree(mid) && origin == VercelScheme + mid + VercelSuffix
  }

  /** The disjunction of the four rules, in no particular order. */
  ghost predicate AdmissibleUnder(allowList: seq<string>, origin: Option<string>) {
    IsFalsy(origin)
    || (origin.Some? && origin.value in allowList)
    || (origin.Some? && InVercelLanguage(origin.value))
    || (origin.Some? && InHostPortLanguage(origin.value, LoopbackBase))
    || (origin.Some? && InHostPortLanguage(origin.value, LocalhostBase))
  }

  // ---------------------------------------------------------------------------
  // Matchers against their languages
  // ---------------------------------------------------------------------------

  lemma {:induction false} ScanDigitsIsPointwise(s: string)
    ensures ScanDigits(s) <==> forall i :: 0 <= i < |s| ==> IsAsciiDigit(s[i])
    decreases |s|
  {
    if s != [] {
      ScanDigitsIsPointwise(s[1..]);
      assert forall i :: 1 <= i < |s| ==> s[i] == s[1..][i - 1];
    }
  }

  lemma {:induction false} ScanNonTerminatorsIsLineFree(s: string)
    ensures ScanNonTerminators(s) <==> IsLineFree(s)
    decreases |s|
  {
    if s != [] {
      ScanNonTerminatorsIsLineFree(s[1..]);
      assert forall i :: 1 <= i < |s| ==> s[i] == s[1..][i - 1];
    }
  }

  /** The `^<base>(:\d+)?$` matcher accepts exactly that language. */
  lemma MatchHostPortIsLanguage(origin: string, base: string)
    ensures MatchHostPort(origin, base) <==> InHostPortLanguage(origin, base)
  {
    var n := |base| + 1;
    if MatchHostPort(origin, base) && origin != base {
      var d := origin[n..];
      ScanDigitsIsPointwise(d);
      assert origin == origin[..n] + d;
      assert IsDigitRun(d) && origin == base + ":" + d;
    }
    if InHostPortLanguage(origin, base) && origin != base {
      var d :| IsDigitRun(d) && origin == base + ":" + d;
      assert origin[..n] == base + ":";
      assert origin[n..] == d;
      ScanDigitsIsPointwise(d);
    }
  }

  /** The `^https://.*\.vercel\.app$` matcher accepts exactly that language. */
  lemma MatchVercelIsLanguage(origin: string)
    ensures MatchVercel(origin) <==> InVercelLanguage(origin)
  {
    var lo := |VercelScheme|;
    if MatchVercel(origin) {
      var hi := |origin| - |VercelSuffix|;
      var mid := origin[lo..hi];
      ScanNonTerminatorsIsLineFree(mid);
      assert origin == origin[..lo] + mid + origin[hi..];
      assert IsLineFree(mid) && origin == VercelScheme + mid + VercelSuffix;
    }
    if InVercelLanguage(origin) {
      var mid :| IsLineFree(mid) && origin == VercelScheme + mid + VercelSuffix;
      var hi := |origin| - |VercelSuffix|;
      assert origin[..lo] == VercelScheme;
      assert origin[hi..] == VercelSuffix;
      assert origin[lo..hi] == mid;
      ScanNonTerminatorsIsLineFree(mid);
    }
  }

  // ---------------------------------------------------------------------------
  // The explicit allow-list is redundant
  // ---------------------------------------------------------------------------

  lemma LineFreeConcat(a: string, b: string)
    requires IsLineFree(a) && IsLineFree(b)
    ensures IsLineFree(a + b)
  {
    assert forall i :: |a| <= i < |a + b| ==> (a + b)[i] == b[i - |a|];
  }

  /** The deployment host holds no line terminator. */
  lemma DeploymentHostIsLineFree()
    ensures IsLineFree(DeploymentHost)
  {
    var a, b, c, d, e := "habit-tracker-", "ois91z4n8-", "kailashs-", "projects-", "8c368369";
    assert DeploymentHost == a + b + c + d + e;
    LineFreeConcat(a, b);
    LineFreeConcat(a + b, c);
    LineFreeConcat(a + b + c, d);
    LineFreeConcat(a + b + c + d, e);
  }

  /** The one allow-listed origin already matches the `*.vercel.app` rule. */
  lemma AllowedOriginsAreVercel()
    ensures forall o :: o in AllowedOrigins ==> MatchVercel(o)
  {
    DeploymentHostIsLineFree();
    assert InVercelLanguage(AllowedOrigins[0]);
    MatchVercelIsLanguage(AllowedOrigins[0]);
  }

  /** Dropping the allow-list changes no decision. */
  lemma AllowListRedundant(origin: Option<string>)
    ensures AdmitUnder(AllowedOrigins, origin) == AdmitUnder([], origin)
  {
    if origin.Some? && origin.value in AllowedOrigins {
      AllowedOriginsAreVercel();
    }
  }

  // ---------------------------------------------------------------------------
  // The individual rules
  // ---------------------------------------------------------------------------

  /** A falsy origin is admitted whatever the allow-list. */
  lemma FalsyAdmitted(allowList: seq<string>, origin: Option<string>)
    requires IsFalsy(origin)
    ensures AdmitUnder(allowList, origin) == Allow
  {
  }

  /** `http://localhost` and `http://127.0.0.1`, bare or with any digit-run port, are admitted. */
  lemma LoopbackPortsAdmitted(port: string)
    requires IsDigitRun(port)
    ensures Admit(Some(LocalhostBase)) == Allow
    ensures Admit(Some(LocalhostBase + ":" + port)) == Allow
    ensures Admit(Some(LoopbackBase)) == Allow
    ensures Admit(Some(LoopbackBase + ":" + port)) == Allow
  {
  }

  /** Every `https://...vercel.app` origin free of line terminators is admitted. */
  lemma VercelSubdomainsAdmitted(mid: string)
    requires IsLineFree(mid)
    ensures Admit(Some(VercelScheme + mid + VercelSuffix)) == Allow
  {
  }

  /** A match of the host-and-port rule starts with the base and ends in the base or a digit. */
  lemma HostPortShape(origin: string, base: string)
    requires MatchHostPort(origin, base)
    ensures base <= origin
    ensures origin == base || IsAsciiDigit(origin[|origin| - 1])
  {
    if origin != base {
      var d := origin[|base| + 1..];
      ScanDigitsIsPointwise(d);
      assert origin[|origin| - 1] == d[|d| - 1];
    }
  }

  /** `<base>:` with no digits does not match `^<base>(:\d+)?$`. */
  lemma EmptyPortRejected(base: string)
    ensures !MatchHostPort(base + ":", base)
  {
  }

  /** An absent and an empty origin are admitted. */
  lemma FalsyExample()
    ensures Admit(None) == Allow
    ensures Admit(Some("")) == Allow
  {
  }

  /** A development server's origin is admitted. */
  lemma LocalhostPortExample()
    ensures Admit(Some("http://localhost:5173")) == Allow
  {
    assert "http://localhost:5173" == LocalhostBase + ":" + "5173";
    assert IsDigitRun("5173");
    assert InHostPortLanguage("http://localhost:5173", LocalhostBase);
  }

  /** The degenerate `https://.vercel.app` is admitted: `.*` may match nothing. */
  lemma EmptySubdomainExample()
    ensures Admit(Some("https://.vercel.app")) == Allow
  {
    assert "https://.vercel.app" == VercelScheme + "" + VercelSuffix;
    assert InVercelLanguage("https://.vercel.app");
  }

  /** `http://localhost:` with no digits is rejected. */
  lemma EmptyPortExample()
    ensures Admit(Some("http://localhost:")) == Deny(DenyMessage)
  {
  }

  /** A trailing `/` is rejected. */
  lemma TrailingSlashExample()
    ensures Admit(Some("http://localhost/")) == Deny(DenyMessage)
  {
  }

  /** The `https` scheme does not satisfy the localhost rule. */
  lemma SecureLocalhostExample()
    ensures Admit(Some("https://localhost")) == Deny(DenyMessage)
  {
  }

  /** Matching is case-sensitive. */
  lemma UpperCaseSchemeExample()
    ensures Admit(Some("HTTP://localhost")) == Deny(DenyMessage)
  {
  }

  /** The dots of `127.0.0.1` are literal. */
  lemma LiteralDotsExample()
    ensures Admit(Some("http://127x0x0x1")) == Deny(DenyMessage)
  {
  }

  /** `$` does not match before a trailing line feed. */
  lemma TrailingNewlineExample()
    ensures Admit(Some("https://a.vercel.app\n")) == Deny(DenyMessage)
  {
  }
}
