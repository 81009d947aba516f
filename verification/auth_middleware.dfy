/**
 * The guard in front of every protected route: it reads the
 * `Authorization` header, insists on the "Bearer" scheme of section 2.1 of
 * RFC 6750 (the header must start with `Bearer` and a space, matched
 * case-sensitively), takes the second space-separated piece of the header
 * as the token (empty when a second space follows the scheme), and
 * lets the request through with the token's user id only when the token
 * verifies. Token verification is an oracle given as a parameter.
 */
module AuthMiddleware {
  import opened Common
  import Expenses

  const UNAUTHORIZED := 401
  const NO_TOKEN := "Not authorized, no token"
  const TOKEN_FAILED := "Not authorized, token failed"

  /** The scheme prefix the header must start with. */
  const BEARER := "Bearer "

  /** `s.split(sep)` for a one-character separator: the pieces between separators, empty ones included. */
  function Split(s: string, sep: char): (r: seq<string>)
    ensures |r| >= 1
    ensures forall i :: 0 <= i < |r| ==> sep !in r[i]
    decreases |s|
  {
    if s == [] then [""]
    else
      var rest := Split(s[1..], sep);
      if s[0] == sep then [""] + rest
      else [[s[0]] + rest[0]] + rest[1..]
  }

  /** `pieces.join(sep)`: the pieces with one separator between each two. */
  function Join(pieces: seq<string>, sep: char): string
    requires |pieces| >= 1
    decreases |pieces|
  {
    if |pieces| == 1 then pieces[0] else pieces[0] + [sep] + Join(pieces[1..], sep)
  }

  /** Splitting loses nothing: joining the pieces back gives the text. */
  lemma {:induction false} JoinSplit(s: string, sep: char)
    ensures Join(Split(s, sep), sep) == s
    decreases |s|
  {
    if s != [] {
      var rest := Split(s[1..], sep);
      JoinSplit(s[1..], sep);
      if s[0] == sep {
        assert ([""] + rest)[1..] == rest;
        assert s == [sep] + s[1..];
      } else if |rest| == 1 {
        assert s == [s[0]] + rest[0];
      } else {
        assert ([[s[0]] + rest[0]] + rest[1..])[1..] == rest[1..];
        assert s == [s[0]] + (rest[0] + [sep] + Join(rest[1..], sep));
      }
    }
  }

  /** A text without the separator is one piece: itself. */
  lemma {:induction false} SplitWithoutSeparator(s: string, sep: char)
    requires sep !in s
    ensures Split(s, sep) == [s]
    decreases |s|
  {
    if s != [] {
      assert sep !in s[1..];
      SplitWithoutSeparator(s[1..], sep);
      assert s == [s[0]] + s[1..];
    }
  }

  /** Pieces before a separator: a word, the separator, then the rest split. */
  lemma {:induction false} SplitAfterWord(w: string, rest: string, sep: char)
    requires sep !in w
    ensures Split(w + [sep] + rest, sep) == [w] + Split(rest, sep)
    decreases |w|
  {
    if w == [] {
      assert w + [sep] + rest == [sep] + rest;
      assert ([sep] + rest)[1..] == rest;
    } else {
      assert (w + [sep] + rest)[1..] == w[1..] + [sep] + rest;
      assert sep !in w[1..];
      SplitAfterWord(w[1..], rest, sep);
      assert [w[0]] + w[1..] == w;
    }
  }

  /** Whether the header is present, non-empty and starts with the scheme prefix. */
  predicate HasBearer(header: Option<string>) {
    header.Some? && header.value != "" && BEARER <= header.value
  }

  /** `authHeader.split(" ")[1]`: the token, for a header that passed the scheme check. */
  function Token(header: string): (t: string)
    requires BEARER <= header
    ensures ' ' !in t
  {
    SplitAfterWord("Bearer", header[|BEARER|..], ' ');
    assert header == "Bearer" + [' '] + header[|BEARER|..];
    Split(header, ' ')[1]
  }

  /**
   * The token is what follows the scheme up to the next space, if any: for
   * a token without spaces, the header "Bearer <token>" gives back exactly
   * that token, and anything after a further space is ignored.
   */
  lemma TokenAfterScheme(token: string, tail: Option<string>)
    requires ' ' !in token
    ensures tail.None? ==> Token(BEARER + token) == token
    ensures tail.Some? ==> Token(BEARER + token + [' '] + tail.value) == token
  {
    SplitAfterWord("Bearer", token, ' ');
    assert BEARER + token == "Bearer" + [' '] + token;
    SplitWithoutSeparator(token, ' ');
    if tail.Some? {
      SplitAfterWord("Bearer", token + [' '] + tail.value, ' ');
      assert BEARER + token + [' '] + tail.value == "Bearer" + [' '] + (token + [' '] + tail.value);
      SplitAfterWord(token, tail.value, ' ');
    }
  }

  /** A second space right after the scheme passes the scheme check and leaves the token empty. */
  lemma SecondSpaceGivesEmptyToken(rest: string)
    ensures BEARER <= BEARER + " " + rest
    ensures Token(BEARER + " " + rest) == ""
  {
    SplitAfterWord("Bearer", " " + rest, ' ');
    assert BEARER + " " + rest == "Bearer" + [' '] + (" " + rest);
    SplitAfterWord("", rest, ' ');
    assert " " + rest == "" + [' '] + rest;
  }

  /** What the guard decides: refuse with a message, or let the request through as a user. */
  datatype Outcome = Refused(message: string) | Admitted(user: Expenses.Id)

  /**
   * The guard's decision for a header, `verify` standing for the token
   * check (`None` when the token does not verify).
   */
  function Authenticate(header: Option<string>, verify: string -> Option<Expenses.Id>): (o: Outcome)
    ensures !HasBearer(header) ==> o == Refused(NO_TOKEN)
    ensures HasBearer(header) && verify(Token(header.value)).None? ==> o == Refused(TOKEN_FAILED)
    ensures o.Admitted? <==> HasBearer(header) && verify(Token(header.value)).Some?
    ensures o.Admitted? ==> o.user == verify(Token(header.value)).value
  {
    if header.None? || header.value == "" || !(BEARER <= header.value) then Refused(NO_TOKEN)
    else
      var decoded := verify(Token(header.value));
      if decoded.None? then Refused(TOKEN_FAILED) else Admitted(decoded.value)
  }

  /** An incoming request as the guard sees it: its header, and the user it attaches. */
  class Request {
    const authorization: Option<string>
    var user: Option<Expenses.Id>

    constructor (authorization: Option<string>)
      ensures this.authorization == authorization && user == None
    {
      this.authorization := authorization;
      user := None;
    }
  }

  /**
   * `protect`: either answer 401 with the reason and never call the next
   * handler, leaving the request as it was, or attach the decoded user id
   * and call the next handler exactly once.
   */
  method Protect(req: Request, verify: string -> Option<Expenses.Id>)
    returns (res: Option<Expenses.Response>, nextCalls: nat)
    modifies req
    ensures Authenticate(req.authorization, verify).Refused? ==>
      res == Some(Expenses.Response(UNAUTHORIZED, Expenses.Message(Authenticate(req.authorization, verify).message)))
      && nextCalls == 0 && req.user == old(req.user)
    ensures Authenticate(req.authorization, verify).Admitted? ==>
      res == None && nextCalls == 1 && req.user == Some(Authenticate(req.authorization, verify).user)
  {
    var header := req.authorization;
    if header.None? || header.value == "" || !(BEARER <= header.value) {
      return Some(Expenses.Response(UNAUTHORIZED, Expenses.Message(NO_TOKEN))), 0;
    }
    var token := Token(header.value);
    var decoded := verify(token);
    if decoded.None? {
      return Some(Expenses.Response(UNAUTHORIZED, Expenses.Message(TOKEN_FAILED))), 0;
    }
    req.user := Some(decoded.value);
    res, nextCalls := None, 1;
  }
}
