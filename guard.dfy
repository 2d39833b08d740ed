/** The middleware `authenticateToken` that runs before every task handler:
    it takes the second space-separated word of the Authorization header as
    the token, answers 401 when there is none, 403 when verification fails,
    and otherwise hands the decoded claims to the handler. Token verification
    (signature and expiry) is the parameter `verify`: a partial function from
    token text to claims. */
module SessionGuard {
  import opened JsValues
  import opened Wire

  const MsgTokenRequired: string := "액세스 토큰이 필요합니다."
  const MsgTokenInvalid: string := "유효하지 않은 토큰입니다."

  /** The text of `s` before its first space (all of `s` when it has none). */
  function UpToSpace(s: string): (w: string)
    ensures w <= s && ' ' !in w
    ensures |w| < |s| ==> s[|w|] == ' '
  {
    if s == [] || s[0] == ' ' then [] else [s[0]] + UpToSpace(s[1..])
  }

  /** The text of `s` after its first space; `None` when it has no space. */
  function AfterFirstSpace(s: string): (r: Option<string>)
    ensures r.None? <==> ' ' !in s
    ensures r.Some? ==> UpToSpace(s) + " " + r.value == s
  {
    if s == [] then None
    else if s[0] == ' ' then Some(s[1..])
    else
      var r := AfterFirstSpace(s[1..]);
      assert r.Some? ==> [s[0]] + (UpToSpace(s[1..]) + " " + r.value) == s;
      r
  }

  /** `authHeader && authHeader.split(" ")[1]`: the second field of the
      header split at single spaces; `None` stands for `undefined`. An
      absent or empty header gives no token either way. */
  function HeaderToken(header: Option<string>): (r: Option<string>)
    ensures r.None? <==> header.None? || ' ' !in header.value
    ensures r.Some? ==> ' ' !in r.value
    ensures r.Some? ==> var h, k := header.value, |UpToSpace(header.value)|;
            && k < |h| && h[k] == ' ' && ' ' !in h[..k]
            && k + 1 + |r.value| <= |h| && h[k + 1..k + 1 + |r.value|] == r.value
            && (k + 1 + |r.value| == |h| || h[k + 1 + |r.value|] == ' ')
  {
    match header
    case None => None
    case Some(h) =>
      match AfterFirstSpace(h)
      case None => None
      case Some(rest) =>
        var w, token := UpToSpace(h), UpToSpace(rest);
        assert h == w + " " + rest;
        assert h[|w| + 1..] == rest;
        assert h[..|w|] == w;
        Some(token)
  }

  /** The token is truthy: present and non-empty. */
  predicate HasToken(header: Option<string>) {
    HeaderToken(header).Some? && HeaderToken(header).value != ""
  }

  datatype GuardOutcome = MissingToken | InvalidToken | Proceed(claims: Claims)

  /** The decision of `authenticateToken`. */
  function Guard(header: Option<string>, verify: string -> Option<Claims>): (g: GuardOutcome)
    ensures g.MissingToken? <==> !HasToken(header)
    ensures g.InvalidToken? <==> HasToken(header) && verify(HeaderToken(header).value).None?
    ensures g.Proceed? <==> HasToken(header) && verify(HeaderToken(header).value).Some?
    ensures g.Proceed? ==> verify(HeaderToken(header).value) == Some(g.claims)
  {
    match HeaderToken(header)
    case None => MissingToken
    case Some(token) =>
      if token == "" then MissingToken
      else
        match verify(token)
        case None => InvalidToken
        case Some(claims) => Proceed(claims)
  }

  /** The response the guard sends when it stops a request. */
  function Rejection(g: GuardOutcome): (r: Response)
    requires !g.Proceed?
    ensures r.status == (if g.MissingToken? then 401 else 403)
  {
    if g.MissingToken? then Response(401, Message(MsgTokenRequired))
    else Response(403, Message(MsgTokenInvalid))
  }

  /** A header of one word, a space and a token without spaces yields that
      token, whatever the first word is: the scheme is not checked. */
  lemma {:induction false} SchemeAndToken(scheme: string, token: string)
    requires ' ' !in scheme && ' ' !in token
    ensures HeaderToken(Some(scheme + " " + token)) == Some(token)
  {
    SpaceFreeWord(token);
    FirstSpaceAfterWord(scheme, token);
  }

  lemma {:induction false} SpaceFreeWord(w: string)
    requires ' ' !in w
    ensures UpToSpace(w) == w
  {
    if w != [] {
      assert w[0] != ' ' && ' ' !in w[1..];
      SpaceFreeWord(w[1..]);
    }
  }

  lemma {:induction false} FirstSpaceAfterWord(scheme: string, rest: string)
    requires ' ' !in scheme
    ensures AfterFirstSpace(scheme + " " + rest) == Some(rest)
  {
    if scheme == [] {
      assert scheme + " " + rest == [' '] + rest;
    } else {
      assert (scheme + " " + rest)[1..] == scheme[1..] + " " + rest;
      assert ' ' !in scheme[1..];
      FirstSpaceAfterWord(scheme[1..], rest);
    }
  }

  /** A header without a space, or with an empty second field, is answered
      with 401 before `verify` is consulted. */
  lemma NoSecondWordIsMissing(h: string, verify: string -> Option<Claims>)
    requires ' ' !in h
    ensures Guard(Some(h), verify) == MissingToken
  {
  }
}
