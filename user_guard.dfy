/**
 * The Builder web app's two route guards: one lets a user in who has an
 * OAuth code in the query string or a GitHub token in the store, the
 * other guards the signed-out pages. A guard that refuses sends the
 * browser to the configured www URL.
 *
 * The query string, the stored token and the configured URL are inputs;
 * the browser location is an object whose `href` the guards assign.
 */
module UserGuard {
  import Wrappers
  type Option<T> = Wrappers.Option<T>

  /** `[\w-]`: an ASCII letter, digit, '_' or '-'. */
  predicate IsCodeChar(c: char)
  {
    ('a' <= c <= 'z') || ('A' <= c <= 'Z') || ('0' <= c <= '9') || c == '_' || c == '-'
  }

  /** The regular expression `[\?&]code=[\w-]+` matches at position `i`. */
  predicate CodeAt(qs: string, i: nat)
  {
    i + 6 < |qs| && (qs[i] == '?' || qs[i] == '&') && qs[i + 1..i + 6] == "code=" && IsCodeChar(qs[i + 6])
  }

  /** `hasCode`: the expression matches somewhere. */
  ghost predicate HasCode(qs: string)
  {
    exists i: nat :: CodeAt(qs, i)
  }

  /** A left-to-right search for the first match from position `i`. */
  function FindCode(qs: string, i: nat): (r: Option<nat>)
    requires i <= |qs|
    ensures r.Some? ==> i <= r.value && CodeAt(qs, r.value) && forall j: nat :: i <= j < r.value ==> !CodeAt(qs, j)
    ensures r.None? ==> forall j: nat :: i <= j ==> !CodeAt(qs, j)
    decreases |qs| - i
  {
    if i + 6 >= |qs| then Wrappers.None
    else if CodeAt(qs, i) then Wrappers.Some(i)
    else FindCode(qs, i + 1)
  }

  /** The search finds a match exactly when the expression matches. */
  lemma FindCodeIff(qs: string)
    ensures FindCode(qs, 0).Some? <==> HasCode(qs)
  {
    if FindCode(qs, 0).Some? {
      assert CodeAt(qs, FindCode(qs, 0).value);
    }
  }

  /** `hasToken`: `!!authToken`, so an absent or empty token counts as none. */
  predicate HasToken(token: Option<string>)
  {
    token.Some? && token.value != ""
  }

  /** `UserLoggedInGuard.canActivate`'s decision. */
  predicate LoggedInAllows(qs: string, token: Option<string>)
  {
    FindCode(qs, 0).Some? || HasToken(token)
  }

  /** `UserLoggedOutGuard.canActivate`'s decision, as written: refused only with both a code and a token. */
  predicate LoggedOutAllows(qs: string, token: Option<string>)
  {
    FindCode(qs, 0).None? || !HasToken(token)
  }

  /** The two decisions in terms of the expression and the token. */
  lemma GuardRules(qs: string, token: Option<string>)
    ensures LoggedInAllows(qs, token) <==> HasCode(qs) || HasToken(token)
    ensures LoggedOutAllows(qs, token) <==> !HasCode(qs) || !HasToken(token)
  {
    FindCodeIff(qs);
  }

  /**
   * The logged-out guard refuses only when the logged-in one admits, but
   * both admit a user with a token and no code in the query string.
   */
  lemma GuardsOverlap(qs: string, token: Option<string>)
    ensures !LoggedOutAllows(qs, token) ==> LoggedInAllows(qs, token)
    ensures !HasCode(qs) && HasToken(token) ==> LoggedInAllows(qs, token) && LoggedOutAllows(qs, token)
    ensures !HasCode(qs) && !HasToken(token) ==> !LoggedInAllows(qs, token) && LoggedOutAllows(qs, token)
  {
    FindCodeIff(qs);
  }

  /** "?code=abc" carries a code; "?state=x" and "?code=" do not. */
  lemma CodeExamples()
    ensures HasCode("?code=abc")
    ensures !HasCode("?state=x")
    ensures !HasCode("?code=")
  {
    assert CodeAt("?code=abc", 0) by {
      assert "?code=abc"[1..6] == "code=";
    }
    FindCodeIff("?state=x");
    FindCodeIff("?code=");
  }

  /** `window.location`. */
  class Location {
    var href: string

    constructor (href: string)
      ensures this.href == href
    {
      this.href := href;
    }
  }

  /** `UserLoggedInGuard.canActivate`: a refusal redirects to `wwwUrl`. */
  method LoggedInCanActivate(qs: string, token: Option<string>, location: Location, wwwUrl: string) returns (r: bool)
    modifies location
    ensures r == LoggedInAllows(qs, token)
    ensures r ==> location.href == old(location.href)
    ensures !r ==> location.href == wwwUrl
  {
    var hasCode := FindCode(qs, 0).Some?;
    var hasToken := HasToken(token);
    if hasCode || hasToken {
      return true;
    }
    location.href := wwwUrl;
    r := false;
  }

  /** `UserLoggedOutGuard.canActivate`: a refusal redirects to `wwwUrl`. */
  method LoggedOutCanActivate(qs: string, token: Option<string>, location: Location, wwwUrl: string) returns (r: bool)
    modifies location
    ensures r == LoggedOutAllows(qs, token)
    ensures r ==> location.href == old(location.href)
    ensures !r ==> location.href == wwwUrl
  {
    var hasCode := FindCode(qs, 0).Some?;
    var hasToken := HasToken(token);
    if !hasCode || !hasToken {
      return true;
    }
    location.href := wwwUrl;
    r := false;
  }
}
