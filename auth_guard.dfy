/** The API gateway's authentication guard: the bearer token taken from the Authorization
    header, and the decision to let a request through once the user service has answered
    whether the token is valid. */
module AuthGuard {
  import opened Common
  import opened Collections

  /** The user the user service reports for a valid token (`UserDto`). */
  datatype AuthUser = AuthUser(id: string, name: string, email: string, role: string, provider: string)

  /** What the `VALIDATE_TOKEN` request to the user service comes back with: a reply
      (`AuthResponseDto`), or a failure of the call itself. */
  datatype Validation = Replied(valid: bool, user: Option<AuthUser>) | CallFailed

  const TokenNotFound := Unauthorized("Token not found")
  const AuthenticationFailed := Unauthorized("Authentication failed")

  /** The position of the first space in s, or -1. */
  function SpaceIndex(s: string): (i: int)
    ensures -1 <= i < |s|
    ensures i == -1 <==> ' ' !in s
    ensures 0 <= i ==> s[i] == ' ' && ' ' !in s[..i]
    decreases |s|
  {
    if |s| == 0 then -1
    else if s[0] == ' ' then 0
    else
      var j := SpaceIndex(s[1..]);
      assert s == [s[0]] + s[1..];
      assert 0 <= j ==> s[..j + 1] == [s[0]] + s[1..][..j];
      if j == -1 then -1 else j + 1
  }

  /** `s.split(' ')`: the fields between spaces, empty ones included. */
  function Split(s: string): (fields: seq<string>)
    ensures |fields| >= 1
    ensures forall k :: 0 <= k < |fields| ==> ' ' !in fields[k]
    decreases |s|
  {
    var i := SpaceIndex(s);
    if i == -1 then [s] else [s[..i]] + Split(s[i + 1..])
  }

  /** `fields.join(' ')` */
  function Join(fields: seq<string>): string
    requires |fields| >= 1
    decreases |fields|
  {
    if |fields| == 1 then fields[0] else fields[0] + " " + Join(fields[1..])
  }

  /** Joining a field in front of at least one more puts a space between them. */
  lemma JoinCons(a: string, rest: seq<string>)
    requires |rest| >= 1
    ensures Join([a] + rest) == a + " " + Join(rest)
  {
    assert ([a] + rest)[1..] == rest;
  }

  /** A string is the part before a space, the space, and the part after it. */
  lemma CutAtSpace(s: string, i: int)
    requires 0 <= i < |s| && s[i] == ' '
    ensures s == s[..i] + " " + s[i + 1..]
  {
  }

  /** Joining the fields of a split gives back the string. */
  lemma {:induction false} JoinSplit(s: string)
    ensures Join(Split(s)) == s
    decreases |s|
  {
    var i := SpaceIndex(s);
    if i >= 0 {
      var rest := Split(s[i + 1..]);
      JoinSplit(s[i + 1..]);
      JoinCons(s[..i], rest);
      CutAtSpace(s, i);
    }
  }

  /** Splitting `a + " " + b`, with no space in `a`, gives `a` and then the fields of `b`. */
  lemma SplitAfterSpace(a: string, b: string)
    requires ' ' !in a
    ensures Split(a + " " + b) == [a] + Split(b)
  {
    var s := a + " " + b;
    assert s[|a|] == ' ';
    assert s[..|a|] == a;
    assert s[|a| + 1..] == b;
    assert SpaceIndex(s) == |a|;
  }

  /** Splitting fields joined by single spaces, none holding a space, gives back the fields. */
  lemma {:induction false} SplitJoin(fields: seq<string>)
    requires |fields| >= 1
    requires forall k :: 0 <= k < |fields| ==> ' ' !in fields[k]
    ensures Split(Join(fields)) == fields
    decreases |fields|
  {
    if |fields| > 1 {
      var tail := fields[1..];
      SplitJoin(tail);
      SplitAfterSpace(fields[0], Join(tail));
      assert fields == [fields[0]] + tail;
    } else {
      assert SpaceIndex(fields[0]) == -1;
    }
  }

  /** `extractTokenFromHeader`: the second field of the header when the first is exactly
      `Bearer`; nothing for a missing header or another scheme. */
  function ExtractTokenFromHeader(authorization: Option<string>): (token: Option<string>)
    ensures authorization.None? ==> token.None?
    ensures token.Some? ==> ' ' !in token.value
  {
    if authorization.None? then None
    else
      var fields := Split(authorization.value);
      if fields[0] == "Bearer" && |fields| >= 2 then Some(fields[1]) else None
  }

  /** A header whose space-separated fields are `Bearer`, a token and possibly more yields
      exactly that token. */
  lemma BearerHeaderYieldsToken(fields: seq<string>)
    requires |fields| >= 2 && fields[0] == "Bearer"
    requires forall k :: 0 <= k < |fields| ==> ' ' !in fields[k]
    ensures ExtractTokenFromHeader(Some(Join(fields))) == Some(fields[1])
  {
    SplitJoin(fields);
  }

  /** The first field of a split is a prefix of the string, followed by its end or a space. */
  lemma FirstField(s: string)
    ensures var f := Split(s)[0];
            && |f| <= |s| && s[..|f|] == f && (|f| == |s| || s[|f|] == ' ')
  {
    var i := SpaceIndex(s);
    if i >= 0 {
      assert Split(s)[0] == s[..i];
    }
  }

  /** A split into two or more fields cuts at the first space. */
  lemma SplitAtFirstSpace(s: string)
    requires |Split(s)| >= 2
    ensures var i := SpaceIndex(s);
            && 0 <= i && Split(s)[0] == s[..i] && Split(s)[1] == Split(s[i + 1..])[0]
  {
  }

  /** Conversely, a token comes only from a header that starts with `Bearer `, followed by
      the token and then either the end of the header or a space. */
  lemma TokenComesFromBearerHeader(authorization: Option<string>)
    ensures var token := ExtractTokenFromHeader(authorization);
            token.Some? ==>
              var h, n := authorization.value, |token.value|;
              && 7 + n <= |h| && h[..7] == "Bearer " && h[7..7 + n] == token.value
              && (7 + n == |h| || h[7 + n] == ' ')
  {
    var token := ExtractTokenFromHeader(authorization);
    if token.Some? {
      var h := authorization.value;
      SplitAtFirstSpace(h);
      var i := SpaceIndex(h);
      var rest := h[i + 1..];
      FirstField(rest);
      assert |h[..i]| == 6;
      assert h[..7] == h[..6] + [h[6]];
      assert h[7..7 + |token.value|] == rest[..|token.value|];
    }
  }

  /** The decision of `canActivate`: no (or an empty) token is refused as not found; a token
      lets the request through with the reported user only when the user service replies
      that it is valid and names a user; every other outcome is an authentication failure. */
  function Decide(authorization: Option<string>, validate: string -> Validation): (r: Result<AuthUser>)
    ensures var token := ExtractTokenFromHeader(authorization);
            (token.None? || token.value == "") <==> r == Err(TokenNotFound)
    ensures var token := ExtractTokenFromHeader(authorization);
            r.Ok? <==> && token.Some? && token.value != ""
                       && validate(token.value).Replied? && validate(token.value).valid
                       && validate(token.value).user.Some?
    ensures r.Ok? ==> r.value == validate(ExtractTokenFromHeader(authorization).value).user.value
    ensures r.Err? ==> r.error in {TokenNotFound, AuthenticationFailed}
  {
    var token := ExtractTokenFromHeader(authorization);
    if token.None? || token.value == "" then Err(TokenNotFound)
    else
      match validate(token.value)
      case Replied(valid, user) =>
        if valid && user.Some? then Ok(user.value) else Err(AuthenticationFailed)
      case CallFailed => Err(AuthenticationFailed)
  }

  /** The fields of the incoming request the guard reads and writes. */
  class Request {
    var authorization: Option<string>
    var user: Option<AuthUser>

    constructor (authorization: Option<string>)
      ensures this.authorization == authorization && user.None?
    {
      this.authorization := authorization;
      user := None;
    }

    /** `canActivate`: true with `request.user` set, or the Unauthorized exception with the
        request untouched. */
    method CanActivate(validate: string -> Validation) returns (r: Result<bool>)
      modifies this
      ensures authorization == old(authorization)
      ensures var d := Decide(old(authorization), validate);
              && (d.Ok? ==> r == Ok(true) && user == Some(d.value))
              && (d.Err? ==> r == Err(d.error) && user == old(user))
    {
      var d := Decide(authorization, validate);
      if d.Err? {
        return Err(d.error);
      }
      user := Some(d.value);
      r := Ok(true);
    }
  }
}
