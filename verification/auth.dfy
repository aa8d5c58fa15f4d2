/** The `protect` and `restrictTo` middleware: bearer-token extraction,
    token verification, user lookup and role membership. */
module Auth {
  import opened Records
  import opened DocumentStore

  const NotLoggedIn := "You are not logged in! Please log in to get access."
  const InvalidToken := "Invalid token. Please log in again."
  const UserGone := "The user belonging to this token no longer exists."
  const NoPermission := "You do not have permission to perform this action"

  /** ASCII lower-casing. Only the first six characters of a header matter to
      the prefix test, and no non-ASCII character lower-cases to one of the
      letters of "bearer", so this agrees with `toLowerCase` there. */
  function Lower(c: char): char
  {
    if 'A' <= c <= 'Z' then (c as int + 32) as char else c
  }

  /** `authorization.toLowerCase().startsWith("bearer")`. */
  predicate IsBearer(h: string)
  {
    |h| >= 6 && forall i :: 0 <= i < 6 ==> Lower(h[i]) == "bearer"[i]
  }

  /** `s.split(" ")`: the pieces between single spaces, in order; empty
      pieces are kept. */
  function Split(s: string): (ps: seq<string>)
    ensures |ps| >= 1
    ensures forall k :: 0 <= k < |ps| ==> ' ' !in ps[k]
  {
    if s == [] then [""]
    else if s[0] == ' ' then [""] + Split(s[1..])
    else
      var rest := Split(s[1..]);
      [[s[0]] + rest[0]] + rest[1..]
  }

  /** `ps.join(" ")`. */
  function Join(ps: seq<string>): string
    requires |ps| >= 1
  {
    if |ps| == 1 then ps[0] else ps[0] + " " + Join(ps[1..])
  }

  /** Splitting loses nothing: joining the pieces with spaces gives the string back. */
  lemma {:induction false} JoinSplit(s: string)
    ensures Join(Split(s)) == s
  {
    if s == [] {
    } else if s[0] == ' ' {
      JoinSplit(s[1..]);
      assert s == [' '] + s[1..];
    } else {
      var rest := Split(s[1..]);
      JoinSplit(s[1..]);
      if |rest| == 1 {
      } else {
        calc {
          Join(Split(s));
          ([s[0]] + rest[0]) + " " + Join(rest[1..]);
          [s[0]] + (rest[0] + " " + Join(rest[1..]));
          [s[0]] + Join(rest);
          [s[0]] + s[1..];
          s;
        }
      }
    }
  }

  /** A string without spaces is a single piece. */
  lemma {:induction false} SplitWord(w: string)
    requires ' ' !in w
    ensures Split(w) == [w]
  {
    if w != [] {
      SplitWord(w[1..]);
      assert [w[0]] + w[1..] == w;
    }
  }

  /** A word followed by a space starts a new piece after it. */
  lemma {:induction false} SplitAfterWord(w: string, rest: string)
    requires ' ' !in w
    ensures Split(w + " " + rest) == [w] + Split(rest)
  {
    if w == [] {
      assert w + " " + rest == [' '] + rest;
    } else {
      SplitAfterWord(w[1..], rest);
      assert (w + " " + rest)[1..] == w[1..] + " " + rest;
      assert [w[0]] + w[1..] == w;
    }
  }

  /** The token of `protect`: present only when the header starts with
      "bearer" in any letter case, and then the second space-separated piece
      of the header, unless that piece is missing or empty. */
  function ExtractToken(authorization: Option<string>): (token: Option<string>)
    ensures token.Some? ==> authorization.Some? && IsBearer(authorization.value)
    ensures token.Some? ==> token.value != "" && ' ' !in token.value
    ensures token.Some? ==>
              |Split(authorization.value)| >= 2 && token.value == Split(authorization.value)[1]
    ensures authorization.None? ==> token.None?
    ensures authorization.Some? && IsBearer(authorization.value) &&
            |Split(authorization.value)| >= 2 && Split(authorization.value)[1] != "" ==>
              token == Some(Split(authorization.value)[1])
  {
    if authorization.Some? && IsBearer(authorization.value) then
      var pieces := Split(authorization.value);
      if |pieces| >= 2 && pieces[1] != "" then Some(pieces[1]) else None
    else None
  }

  /** "Bearer <t>" and "bearer <t>" (any letter case of the scheme) yield `t`. */
  lemma BearerHeaderYieldsToken(scheme: string, t: string)
    requires |scheme| == 6 && forall i :: 0 <= i < 6 ==> Lower(scheme[i]) == "bearer"[i]
    requires t != "" && ' ' !in t
    ensures ExtractToken(Some(scheme + " " + t)) == Some(t)
  {
    assert ' ' !in scheme by {
      forall i | 0 <= i < 6 ensures scheme[i] != ' ' {
        assert Lower(scheme[i]) == "bearer"[i];
      }
    }
    SplitAfterWord(scheme, t);
    SplitWord(t);
    assert (scheme + " " + t)[..6] == scheme;
  }

  /** A header whose first letter is not "b" in either case yields no token, whatever follows. */
  lemma NonBearerYieldsNothing(h: string)
    requires |h| >= 1 && Lower(h[0]) != 'b'
    ensures ExtractToken(Some(h)).None?
  {
  }

  /** The outcome of `protect`: `next()` with the found user, or a 401 reply. */
  datatype AuthResult = Granted(user: User) | Denied(reply: Reply<()>)

  /** The user id a verified payload names: `decoded.id`, which a ticket payload lacks. */
  function PayloadUser(p: Payload): Option<UserId>
  {
    match p
    case LoginPayload(id) => Some(id)
    case TicketPayload(_, _) => None
  }

  /** The decision of `protect`: token, then verification, then user lookup. */
  function Authenticate(authorization: Option<string>, verify: string -> Option<Payload>,
                        users: seq<User>): (r: AuthResult)
    ensures ExtractToken(authorization).None? ==> r == Denied(Fail(401, NotLoggedIn))
    ensures ExtractToken(authorization).Some? && verify(ExtractToken(authorization).value).None? ==>
              r == Denied(Fail(401, InvalidToken))
    ensures r.Granted? <==>
              && ExtractToken(authorization).Some?
              && verify(ExtractToken(authorization).value).Some?
              && var p := verify(ExtractToken(authorization).value).value;
                 p.LoginPayload? && exists i :: 0 <= i < |users| && users[i].id == p.id
    ensures r.Granted? ==>
              && r.user in users
              && verify(ExtractToken(authorization).value) == Some(LoginPayload(r.user.id))
    ensures ExtractToken(authorization).Some? && verify(ExtractToken(authorization).value).Some? && r.Denied? ==>
              r == Denied(Fail(401, UserGone))
    ensures r.Denied? ==> r.reply.status == 401
  {
    match ExtractToken(authorization)
    case None => Denied(Fail(401, NotLoggedIn))
    case Some(token) =>
      match verify(token)
      case None => Denied(Fail(401, InvalidToken))
      case Some(p) =>
        match PayloadUser(p)
        case None => Denied(Fail(401, UserGone))
        case Some(id) =>
          match UserIndex(users, id)
          case None => Denied(Fail(401, UserGone))
          case Some(i) => Granted(users[i])
  }

  /** A login token is accepted exactly when verification gives back its
      payload and the user still exists. */
  lemma LoginTokenAccepted(scheme: string, token: string, verify: string -> Option<Payload>,
                           users: seq<User>, u: User)
    requires |scheme| == 6 && forall i :: 0 <= i < 6 ==> Lower(scheme[i]) == "bearer"[i]
    requires token != "" && ' ' !in token
    requires verify(token) == Some(LoginPayload(u.id))
    ensures Authenticate(Some(scheme + " " + token), verify, users).Granted? <==>
              exists i :: 0 <= i < |users| && users[i].id == u.id
  {
    BearerHeaderYieldsToken(scheme, token);
  }

  /** The request object as `protect` sees it: the attached user and the
      number of times `next` has been called. */
  class Request {
    var user: Option<User>
    var nextCalls: nat

    constructor ()
      ensures user.None? && nextCalls == 0
    {
      user := None;
      nextCalls := 0;
    }
  }

  /** `protect`: on success `req.user` is set and `next` is called once; on
      failure the 401 reply is returned and neither happens. */
  method Protect(req: Request, authorization: Option<string>, verify: string -> Option<Payload>,
                 users: seq<User>) returns (reply: Option<Reply<()>>)
    modifies req
    ensures Authenticate(authorization, verify, users).Granted? ==>
              reply.None? && req.user == Some(Authenticate(authorization, verify, users).user) &&
              req.nextCalls == old(req.nextCalls) + 1
    ensures Authenticate(authorization, verify, users).Denied? ==>
              reply == Some(Authenticate(authorization, verify, users).reply) &&
              req.user == old(req.user) && req.nextCalls == old(req.nextCalls)
  {
    var token := ExtractToken(authorization);
    if token.None? {
      return Some(Fail(401, NotLoggedIn));
    }
    var decoded := verify(token.value);
    if decoded.None? {
      return Some(Fail(401, InvalidToken));
    }
    var id := PayloadUser(decoded.value);
    if id.None? {
      return Some(Fail(401, UserGone));
    }
    var found := UserIndex(users, id.value);
    if found.None? {
      return Some(Fail(401, UserGone));
    }
    req.user := Some(users[found.value]);
    req.nextCalls := req.nextCalls + 1;
    reply := None;
  }

  /** `restrictTo(...roles)`: `next` (None) exactly when the user's role is
      one of `roles`, compared as exact strings; otherwise a 403 reply. */
  function RestrictTo(roles: seq<string>, user: User): (r: Option<Reply<()>>)
    ensures r.None? <==> user.role in roles
    ensures r.Some? ==> r.value.status == 403
  {
    if user.role in roles then None else Some(Fail(403, NoPermission))
  }

  /** Role matching is case-sensitive: "Organizer" is not "organizer". */
  lemma RoleMatchIsCaseSensitive(u: User)
    requires u.role == "Organizer"
    ensures RestrictTo(["organizer"], u).Some?
  {
    assert u.role[0] != "organizer"[0];
  }
}
