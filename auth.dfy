/**
 * The `auth` middleware of app.js: reads the Authorization header, takes its
 * second space-separated piece as a session token and has it verified. The
 * verification (jwt.verify with the server's secret) is a parameter.
 */
module Auth {
  import opened Wrappers
  import opened Http

  /** The payload of a session token: what /login signs and `auth` puts in req.user. */
  datatype Claims = Claims(id: nat, email: string)

  /** `s.split(sep)` on a one-character separator: n separators give n + 1 pieces, none containing sep. */
  function Split(s: string, sep: char): (parts: seq<string>)
    ensures |parts| >= 1
    ensures forall i :: 0 <= i < |parts| ==> sep !in parts[i]
    ensures |parts| == 1 <==> sep !in s
  {
    if s == [] then [""]
    else
      var rest := Split(s[1..], sep);
      if s[0] == sep then [""] + rest
      else [[s[0]] + rest[0]] + rest[1..]
  }

  /** `parts.join(sep)`. */
  function Join(parts: seq<string>, sep: char): string
    requires |parts| >= 1
  {
    if |parts| == 1 then parts[0] else parts[0] + [sep] + Join(parts[1..], sep)
  }

  /** Joining the pieces back with the separator gives the original string. */
  lemma {:induction false} JoinSplit(s: string, sep: char)
    ensures Join(Split(s, sep), sep) == s
  {
    if s != [] {
      var rest := Split(s[1..], sep);
      JoinSplit(s[1..], sep);
      if s[0] == sep {
        assert Split(s, sep) == [""] + rest;
        assert ([""] + rest)[1..] == rest;
      } else {
        var parts := [[s[0]] + rest[0]] + rest[1..];
        assert Split(s, sep) == parts;
        if |rest| > 1 {
          assert parts[1..] == rest[1..];
          assert Join(rest, sep) == rest[0] + [sep] + Join(rest[1..], sep);
        }
      }
    }
  }

  /** A piece free of the separator, then the separator, splits into that piece first. */
  lemma {:induction false} SplitAfterPiece(piece: string, sep: char, tail: string)
    requires sep !in piece
    ensures Split(piece + [sep] + tail, sep) == [piece] + Split(tail, sep)
  {
    if piece == [] {
      assert [sep] + tail == ([] + [sep] + tail);
      assert ([sep] + tail)[1..] == tail;
    } else {
      SplitAfterPiece(piece[1..], sep, tail);
      var s := piece + [sep] + tail;
      assert s[0] == piece[0] != sep;
      assert s[1..] == piece[1..] + [sep] + tail;
      var rest := [piece[1..]] + Split(tail, sep);
      assert Split(s, sep) == [[piece[0]] + rest[0]] + rest[1..];
      assert [piece[0]] + piece[1..] == piece;
    }
  }

  /** A string free of the separator is one piece. */
  lemma {:induction false} SplitWhole(s: string, sep: char)
    requires sep !in s
    ensures Split(s, sep) == [s]
  {
    if s != [] {
      SplitWhole(s[1..], sep);
      assert [s[0]] + s[1..] == s;
    }
  }

  /** `header.split(' ')[1]`: the second space-separated piece, undefined when the header has no space. */
  function BearerToken(header: string): (token: Option<string>)
    ensures token.None? <==> ' ' !in header
    ensures token.Some? ==> ' ' !in token.value
  {
    var parts := Split(header, ' ');
    if |parts| > 1 then Some(parts[1]) else None
  }

  /** "<scheme> <token>", optionally followed by more space-separated text, yields <token>. */
  lemma SchemeThenToken(scheme: string, token: string, more: string)
    requires ' ' !in scheme && ' ' !in token
    requires more == [] || more[0] == ' '
    ensures BearerToken(scheme + " " + token + more) == Some(token)
  {
    assert scheme + " " + token + more == scheme + [' '] + (token + more);
    SplitAfterPiece(scheme, ' ', token + more);
    if more == [] {
      assert token + more == token;
      SplitWhole(token, ' ');
    } else {
      assert token + more == token + [' '] + more[1..];
      SplitAfterPiece(token, ' ', more[1..]);
    }
  }

  /**
   * `auth(req, res, next)`: with a falsy Authorization header it answers 401
   * "Missing token"; otherwise a token that is missing or fails verification
   * gets 401 "Invalid token". Only a verified token yields the claims that
   * become req.user before next() is called.
   */
  function Authenticate(authorization: Option<string>, verify: string -> Option<Claims>)
    : (r: Result<Claims, Response>)
    ensures !Truthy(authorization) ==> r == Err(Reply(401, false, "Missing token"))
    ensures Truthy(authorization) && r.Err? ==> r == Err(Reply(401, false, "Invalid token"))
    ensures r.Ok? <==>
      && Truthy(authorization)
      && BearerToken(authorization.value).Some?
      && verify(BearerToken(authorization.value).value).Some?
    ensures r.Ok? ==> Some(r.value) == verify(BearerToken(authorization.value).value)
  {
    if !Truthy(authorization) then Err(Reply(401, false, "Missing token"))
    else
      match BearerToken(authorization.value)
      case None => Err(Reply(401, false, "Invalid token"))
      case Some(token) =>
        match verify(token)
        case None => Err(Reply(401, false, "Invalid token"))
        case Some(claims) => Ok(claims)
  }

  /** A "Bearer <token>" header passes exactly when the verifier accepts <token>. */
  lemma AuthenticateBearer(token: string, verify: string -> Option<Claims>)
    requires ' ' !in token
    ensures Authenticate(Some("Bearer " + token), verify).Ok? <==> verify(token).Some?
    ensures Authenticate(Some("Bearer " + token), verify).Ok? ==>
      Authenticate(Some("Bearer " + token), verify).value == verify(token).value
  {
    SchemeThenToken("Bearer", token, "");
    assert "Bearer" + " " + token + "" == "Bearer " + token;
  }
}
