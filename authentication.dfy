/** middleware/authentication.js: `protect`, which reads the bearer token from
    the Authorization header, verifies it and loads the user it names.

    `jwt.verify` is a parameter: for a token it either decodes a payload (of
    which only `id` is read) or throws an error with a name. */
module Authentication {
  import opened Common
  import opened Store

  const BEARER := "Bearer"

  const MISSING_HEADER := "Authorization header missing or malformed"
  const BAD_PAYLOAD := "Invalid token payload"
  const NO_USER := "User not found"
  const EXPIRED := "Token expired"
  const INVALID := "Invalid token"
  const NOT_AUTHORIZED := "Not authorized"

  /** The error names `protect` tells apart. */
  const EXPIRED_ERROR := "TokenExpiredError"
  const JWT_ERROR := "JsonWebTokenError"

  /** What `jwt.verify` does with a token: a payload with its `id` claim, or a thrown error. */
  datatype Verdict = Decoded(id: Field) | Thrown(name: string)

  predicate StartsWith(s: string, prefix: string) {
    |prefix| <= |s| && s[..|prefix|] == prefix
  }

  /** `s.split(sep)` for a one-character separator: the pieces between separators, in order. */
  function Split(s: string, sep: char): (pieces: seq<string>)
    ensures |pieces| >= 1
  {
    if s == [] then [""]
    else
      var rest := Split(s[1..], sep);
      if s[0] == sep then [""] + rest
      else [[s[0]] + rest[0]] + rest[1..]
  }

  /** `pieces.join(sep)`. */
  function Join(pieces: seq<string>, sep: char): string
    requires |pieces| >= 1
  {
    if |pieces| == 1 then pieces[0] else pieces[0] + [sep] + Join(pieces[1..], sep)
  }

  /** Splitting loses nothing: the pieces joined back give the string, and no
      piece holds the separator. */
  lemma {:induction false} SplitJoin(s: string, sep: char)
    ensures Join(Split(s, sep), sep) == s
    ensures forall i :: 0 <= i < |Split(s, sep)| ==> sep !in Split(s, sep)[i]
  {
    if s != [] {
      SplitJoin(s[1..], sep);
      var rest := Split(s[1..], sep);
      if s[0] == sep {
        assert ([""] + rest)[1..] == rest;
        assert s == [sep] + s[1..];
      } else {
        var p := [[s[0]] + rest[0]] + rest[1..];
        assert p[1..] == rest[1..];
        assert s == [s[0]] + s[1..];
        forall i | 0 <= i < |p|
          ensures sep !in p[i]
        {
          if i > 0 {
            assert p[i] == rest[i];
          }
        }
      }
    }
  }

  /** A string without the separator is a single piece. */
  lemma {:induction false} SplitWithoutSeparator(s: string, sep: char)
    requires sep !in s
    ensures Split(s, sep) == [s]
  {
    if s != [] {
      SplitWithoutSeparator(s[1..], sep);
      assert s == [s[0]] + s[1..];
    }
  }

  /** A separator-free prefix followed by the separator is the first piece. */
  lemma {:induction false} SplitAfterPrefix(a: string, sep: char, b: string)
    requires sep !in a
    ensures Split(a + [sep] + b, sep) == [a] + Split(b, sep)
  {
    if a == [] {
      assert a + [sep] + b == [sep] + b;
    } else {
      var s := a + [sep] + b;
      assert s[0] == a[0] && s[1..] == a[1..] + [sep] + b;
      SplitAfterPrefix(a[1..], sep, b);
      var rest := Split(s[1..], sep);
      assert rest[0] == a[1..] && rest[1..] == Split(b, sep);
      assert [a[0]] + a[1..] == a;
    }
  }

  /** `authorization.split(' ')[1]`: the second space-separated piece, if there is one. */
  function BearerToken(header: string): Option<string> {
    var pieces := Split(header, ' ');
    if |pieces| >= 2 then Some(pieces[1]) else None
  }

  /** The token written after "Bearer " is the token `protect` verifies. */
  lemma BearerTokenRoundTrip(t: string)
    requires ' ' !in t
    ensures BearerToken(BEARER + " " + t) == Some(t)
  {
    SplitWithoutSeparator(t, ' ');
    SplitAfterPrefix(BEARER, ' ', t);
    assert BEARER + " " + t == BEARER + [' '] + t;
  }

  /** `jwt.verify` on the extracted token. A missing or empty token is refused
      by jsonwebtoken itself with a `JsonWebTokenError`. */
  function VerifyHeader(header: string, verify: string -> Verdict): Verdict {
    var t := BearerToken(header);
    if Truthy(t) then verify(t.value) else Thrown(JWT_ERROR)
  }

  /** The catch block's mapping from error name to message. */
  function ErrorMessage(name: string): (m: string)
    ensures m == EXPIRED <==> name == EXPIRED_ERROR
    ensures m == INVALID <==> name == JWT_ERROR
    ensures m in {EXPIRED, INVALID, NOT_AUTHORIZED}
  {
    if name == EXPIRED_ERROR then EXPIRED
    else if name == JWT_ERROR then INVALID
    else NOT_AUTHORIZED
  }

  /** `protect`: `Next` carries `req.user` as loaded from `users`. */
  function Protect(header: Field, verify: string -> Verdict, users: map<Id, User>): (o: Outcome)
    ensures o.Respond? ==> o.status == 401
    ensures !(Truthy(header) && StartsWith(header.value, BEARER)) ==> o == Respond(401, MISSING_HEADER)
    ensures o.Next? <==>
              Truthy(header) && StartsWith(header.value, BEARER)
              && VerifyHeader(header.value, verify).Decoded?
              && Truthy(VerifyHeader(header.value, verify).id)
              && VerifyHeader(header.value, verify).id.value in users
    ensures o.Next? ==> o.user.id == VerifyHeader(header.value, verify).id.value
                        && o.user.role == users[o.user.id].role
    // Past the header check, each way of failing has its own message.
    ensures Truthy(header) && StartsWith(header.value, BEARER) ==>
              var v := VerifyHeader(header.value, verify);
              (v.Thrown? ==> o == Respond(401, ErrorMessage(v.name)))
              && (v.Decoded? && !Truthy(v.id) ==> o == Respond(401, BAD_PAYLOAD))
              && (v.Decoded? && Truthy(v.id) && v.id.value !in users ==> o == Respond(401, NO_USER))
  {
    if !(Truthy(header) && StartsWith(header.value, BEARER)) then Respond(401, MISSING_HEADER)
    else
      match VerifyHeader(header.value, verify)
      case Thrown(name) => Respond(401, ErrorMessage(name))
      case Decoded(id) =>
        if !Truthy(id) then Respond(401, BAD_PAYLOAD)
        else if id.value !in users then Respond(401, NO_USER)
        else Next(Principal(id.value, users[id.value].role))
  }

  /** A well-formed header whose token verifies to a known user passes, as that user. */
  lemma ValidBearerPasses(t: string, verify: string -> Verdict, users: map<Id, User>, id: Id)
    requires ' ' !in t && t != ""
    requires verify(t) == Decoded(Some(id)) && id != "" && id in users
    ensures Protect(Some(BEARER + " " + t), verify, users) == Next(Principal(id, users[id].role))
  {
    BearerTokenRoundTrip(t);
    assert StartsWith(BEARER + " " + t, BEARER);
  }

  /** The prefix test needs no space: "Bearer" glued to a token passes it, but
      then no second piece exists and the request fails as an invalid token. */
  lemma GluedBearerIsInvalid(t: string, verify: string -> Verdict, users: map<Id, User>)
    requires ' ' !in t
    ensures Protect(Some(BEARER + t), verify, users) == Respond(401, INVALID)
  {
    assert ' ' !in BEARER + t;
    SplitWithoutSeparator(BEARER + t, ' ');
    assert StartsWith(BEARER + t, BEARER);
  }
}
