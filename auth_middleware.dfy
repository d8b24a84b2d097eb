/**
 * `authenticateJWT`: the bearer-header check, the token taken as the second
 * space-separated segment of the header, and the two outcomes: a 401 without
 * calling `next`, or `req.user` set to the decoded payload and `next` called
 * once. Token verification is an oracle from token to payload or failure.
 */
module AuthMiddleware {
  import opened Js

  predicate NoSpace(s: string)
  {
    forall j :: 0 <= j < |s| ==> s[j] != ' '
  }

  /** `s.split(" ")`: the maximal space-free pieces, empty ones included. */
  function Split(s: string): (parts: seq<string>)
    ensures |parts| >= 1
    ensures forall k :: 0 <= k < |parts| ==> NoSpace(parts[k])
    decreases |s|
  {
    match IndexOf(s, ' ')
    case None => [s]
    case Some(i) => [s[..i]] + Split(s[i + 1..])
  }

  /** `parts.join(" ")`. */
  function Join(parts: seq<string>): string
    requires |parts| >= 1
  {
    if |parts| == 1 then parts[0] else parts[0] + " " + Join(parts[1..])
  }

  /** Joining the pieces gives the header back. */
  lemma {:induction false} JoinSplit(s: string)
    ensures Join(Split(s)) == s
    decreases |s|
  {
    match IndexOf(s, ' ')
    case None =>
    case Some(i) =>
      JoinSplit(s[i + 1..]);
      assert Split(s)[1..] == Split(s[i + 1..]);
      assert s == s[..i] + " " + s[i + 1..];
  }

  /** Splitting space-free pieces joined by single spaces gives the pieces back. */
  lemma {:induction false} SplitJoin(parts: seq<string>)
    requires |parts| >= 1 && forall k :: 0 <= k < |parts| ==> NoSpace(parts[k])
    ensures Split(Join(parts)) == parts
  {
    if |parts| == 1 {
      assert IndexOf(parts[0], ' ').None?;
    } else {
      var s := Join(parts);
      var p := parts[0];
      var rest := Join(parts[1..]);
      assert s == p + " " + rest;
      assert s[|p|] == ' ';
      assert forall j :: 0 <= j < |p| ==> s[j] == p[j];
      assert IndexOf(s, ' ') == Some(|p|);
      assert s[..|p|] == p;
      assert s[|p| + 1..] == rest;
      SplitJoin(parts[1..]);
    }
  }

  /** `authHeader.split(" ")[1]` for a header that starts with "Bearer ". */
  function Token(header: string): (token: string)
    requires StartsWith(header, "Bearer ")
    ensures NoSpace(token)
  {
    assert header[6] == ' ';
    assert forall j :: 0 <= j < 6 ==> header[j] != ' ';
    assert IndexOf(header, ' ') == Some(6);
    Split(header)[1]
  }

  /** The token is what follows "Bearer " up to the next space, if any. */
  lemma BearerToken(token: string, rest: string)
    requires NoSpace(token)
    ensures Token("Bearer " + token) == token
    ensures Token("Bearer " + token + " " + rest) == token
  {
    var h1 := "Bearer " + token;
    SplitJoin(["Bearer", token]);
    assert Join(["Bearer", token]) == h1;
    var h2 := h1 + " " + rest;
    assert h2[..7] == "Bearer ";
    assert h2[7 + |token|] == ' ';
    assert forall j :: 0 <= j < 6 ==> h2[j] != ' ';
    assert h2[6] == ' ';
    assert IndexOf(h2, ' ') == Some(6);
    assert h2[7..] == token + " " + rest;
    assert forall j :: 0 <= j < |token| ==> h2[7..][j] == token[j];
    assert IndexOf(h2[7..], ' ') == Some(|token|);
    assert h2[7..][..|token|] == token;
    assert Split(h2[7..])[0] == token;
    assert Split(h2) == [h2[..6]] + Split(h2[6 + 1..]);
  }

  /** The middleware's verdict: a response, or the decoded payload to continue with. */
  datatype Outcome = Deny(response: Response) | Admit(payload: JsValue)

  /** The verdict for a header (`None` when absent) given the verifier. */
  function Authenticate(header: Option<string>, verify: string -> Result<JsValue>): (r: Outcome)
    ensures r == Deny(Response(401, "Authorization header missing"))
            <==> header.None? || !StartsWith(header.value, "Bearer ")
    ensures r.Admit? <==> header.Some? && StartsWith(header.value, "Bearer ") && verify(Token(header.value)).Ok?
    ensures r.Admit? ==> r.payload == verify(Token(header.value)).value
    ensures r.Deny? ==> r.response.status == 401
  {
    if header.None? || header.value == "" || !StartsWith(header.value, "Bearer ") then
      Deny(Response(401, "Authorization header missing"))
    else
      match verify(Token(header.value))
      case Ok(payload) => Admit(payload)
      case Err(_) => Deny(Response(401, "Invalid or expired token"))
  }

  /** The token reaches the verifier unchanged: two headers with the same token get the same verdict. */
  lemma SameTokenSameVerdict(token: string, rest1: string, rest2: string, verify: string -> Result<JsValue>)
    requires NoSpace(token)
    ensures Authenticate(Some("Bearer " + token + " " + rest1), verify)
            == Authenticate(Some("Bearer " + token + " " + rest2), verify)
            == Authenticate(Some("Bearer " + token), verify)
  {
    BearerToken(token, rest1);
    BearerToken(token, rest2);
    assert StartsWith("Bearer " + token + " " + rest1, "Bearer ");
    assert StartsWith("Bearer " + token + " " + rest2, "Bearer ");
    assert StartsWith("Bearer " + token, "Bearer ");
  }

  /** The request and response as the middleware touches them, with a count of `next()` calls. */
  class Exchange {
    var user: Option<JsValue>
    var response: Option<Response>
    var nextCalls: nat

    constructor()
      ensures user.None? && response.None? && nextCalls == 0
    {
      user := None;
      response := None;
      nextCalls := 0;
    }

    /** `authenticateJWT(req, res, next)`. */
    method AuthenticateJwt(header: Option<string>, verify: string -> Result<JsValue>)
      modifies this
      ensures Authenticate(header, verify).Deny?
              ==> response == Some(Authenticate(header, verify).response)
                  && user == old(user) && nextCalls == old(nextCalls)
      ensures Authenticate(header, verify).Admit?
              ==> user == Some(Authenticate(header, verify).payload)
                  && nextCalls == old(nextCalls) + 1 && response == old(response)
    {
      if header.None? || header.value == "" || !StartsWith(header.value, "Bearer ") {
        response := Some(Response(401, "Authorization header missing"));
        return;
      }
      var token := Token(header.value);
      var decoded := verify(token);
      if decoded.Err? {
        response := Some(Response(401, "Invalid or expired token"));
        return;
      }
      user := Some(decoded.value);
      nextCalls := nextCalls + 1;
    }
  }
}
