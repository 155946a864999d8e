/**
 * The `authenticate` middleware: take the bearer token from the
 * `Authorization` header, verify it, load the user it names and attach the
 * user to the request. Token verification (signature and expiry) is a
 * parameter: the model only sees whether a token is accepted and which
 * `userId` claim it carries.
 */
module Auth {
  import opened Store
  import opened Http
  import UserModel

  const BearerPrefix: string := "Bearer "

  const NoTokenMessage: string := "Token não fornecido"
  const BadTokenMessage: string := "Token inválido"
  const UnknownUserMessage: string := "Usuário não encontrado"

  // ---------------------------------------------------------------------------
  // `String.prototype.split` with a one-character separator.

  /** The position of the first `c` in `s`, or `|s|` when there is none. */
  function IndexOf(s: string, c: char): (i: nat)
    ensures i <= |s|
    ensures i < |s| ==> s[i] == c
    ensures forall j :: 0 <= j < i ==> s[j] != c
  {
    if s == [] then 0
    else if s[0] == c then 0
    else 1 + IndexOf(s[1..], c)
  }

  /** The pieces between separators, empty pieces included; a string without the separator is one piece. */
  function Split(s: string, sep: char): (parts: seq<string>)
    ensures 1 <= |parts|
    ensures parts[0] == s[..IndexOf(s, sep)]
    ensures sep in s <==> 2 <= |parts|
    decreases |s|
  {
    var i := IndexOf(s, sep);
    if i == |s| then [s] else [s[..i]] + Split(s[i + 1..], sep)
  }

  /** `Array.prototype.join` with a one-character separator. */
  function Join(parts: seq<string>, sep: char): string {
    if |parts| == 0 then ""
    else if |parts| == 1 then parts[0]
    else parts[0] + [sep] + Join(parts[1..], sep)
  }

  /** Splitting loses nothing: the pieces joined back give the string, and no piece holds the separator. */
  lemma {:induction false} SplitJoin(s: string, sep: char)
    ensures Join(Split(s, sep), sep) == s
    ensures forall k :: 0 <= k < |Split(s, sep)| ==> sep !in Split(s, sep)[k]
    decreases |s|
  {
    var i := IndexOf(s, sep);
    if i < |s| {
      var rest := s[i + 1..];
      SplitJoin(rest, sep);
      assert s == s[..i] + [sep] + rest;
      var parts := Split(s, sep);
      assert parts == [s[..i]] + Split(rest, sep);
      assert parts[1..] == Split(rest, sep);
      forall k | 0 <= k < |parts| ensures sep !in parts[k] {
        if k > 0 {
          assert parts[k] == Split(rest, sep)[k - 1];
        }
      }
    }
  }

  /** Pieces free of the separator come back unchanged from their join. */
  lemma {:induction false} JoinSplit(parts: seq<string>, sep: char)
    requires 1 <= |parts|
    requires forall k :: 0 <= k < |parts| ==> sep !in parts[k]
    ensures Split(Join(parts, sep), sep) == parts
    decreases |parts|
  {
    var p := parts[0];
    if |parts| == 1 {
      NoSeparatorIndex(p, sep);
    } else {
      var rest := Join(parts[1..], sep);
      var s := p + [sep] + rest;
      assert Join(parts, sep) == s;
      assert s[..|p|] == p;
      NoSeparatorIndex(p, sep);
      PrefixIndex(p, [sep] + rest, sep);
      assert s == p + ([sep] + rest);
      assert s[|p| + 1..] == rest;
      JoinSplit(parts[1..], sep);
    }
  }

  lemma {:induction false} NoSeparatorIndex(s: string, sep: char)
    requires sep !in s
    ensures IndexOf(s, sep) == |s|
  {
    assert forall j :: 0 <= j < |s| ==> s[j] != sep;
  }

  /** The first separator of `a + b`, when `a` has none, is the first one of `b`, shifted. */
  lemma {:induction false} PrefixIndex(a: string, b: string, sep: char)
    requires sep !in a
    ensures IndexOf(a + b, sep) == |a| + IndexOf(b, sep)
    decreases |a|
  {
    if a != [] {
      assert a[0] in a;
      assert (a + b)[1..] == a[1..] + b;
      PrefixIndex(a[1..], b, sep);
    } else {
      assert a + b == b;
    }
  }

  // ---------------------------------------------------------------------------
  // The bearer token.

  /** The second space-separated piece of a header that starts with "Bearer ", or none. */
  function BearerToken(header: Option<string>): (t: Option<string>)
    ensures t.Some? <==> header.Some? && BearerPrefix <= header.value
  {
    if header.None? || !(BearerPrefix <= header.value) then None
    else
      var parts := Split(header.value, ' ');
      assert header.value[6] == ' ';
      Some(parts[1])
  }

  /** The token is the text after "Bearer " up to the next space (possibly empty). */
  lemma BearerTokenIsFirstWord(h: string)
    requires BearerPrefix <= h
    ensures var rest := h[|BearerPrefix|..];
      BearerToken(Some(h)) == Some(rest[..IndexOf(rest, ' ')])
  {
    var rest := h[|BearerPrefix|..];
    assert h == "Bearer" + ([' '] + rest);
    NoSeparatorIndex("Bearer", ' ');
    PrefixIndex("Bearer", [' '] + rest, ' ');
    assert h[7..] == rest;
  }

  /** A token without spaces sent as "Bearer <token>" is read back exactly. */
  lemma BearerRoundTrip(t: string)
    requires ' ' !in t
    ensures BearerToken(Some(BearerPrefix + t)) == Some(t)
  {
    var h := BearerPrefix + t;
    assert h[..|BearerPrefix|] == BearerPrefix;
    BearerTokenIsFirstWord(h);
    assert h[|BearerPrefix|..] == t;
    NoSeparatorIndex(t, ' ');
    assert t[..|t|] == t;
  }

  // ---------------------------------------------------------------------------
  // The middleware.

  /** What token verification reports: refused (bad signature, expired, malformed), or the `userId` claim. */
  datatype Claims = Refused | Verified(userId: Option<UserId>)

  /** How a request leaves the middleware. */
  datatype AuthStep =
    | NoToken
    | BadToken
    | UnknownUser(userId: Option<UserId>)
    | Admitted(id: UserId, user: PublicUser)

  /** The decision for a header against the current `users` table. */
  function Authentication(users: map<UserId, User>, header: Option<string>, verify: string -> Claims): AuthStep {
    match BearerToken(header)
    case None => NoToken
    case Some(t) =>
      match verify(t)
      case Refused => BadToken
      case Verified(uid) =>
        if uid.Some? && uid.value in users then Admitted(uid.value, PublicOf(users[uid.value]))
        else UnknownUser(uid)
  }

  /** The response for each decision; only an admitted request reaches the handler. */
  function AuthGate(step: AuthStep): (g: GateOutcome)
    ensures g.Next? <==> step.Admitted?
    ensures g.Halt? ==> g.status == 401
  {
    match step
    case NoToken => Halt(401, NoTokenMessage)
    case BadToken => Halt(401, BadTokenMessage)
    case UnknownUser(_) => Halt(401, UnknownUserMessage)
    case Admitted(_, _) => Next
  }

  /**
   * A request admitted by the middleware carries a token that verifies and
   * names an existing user, and the attached user is that user's current row.
   */
  lemma AdmittedMeansVerifiedAndStored(users: map<UserId, User>, next: UserId, header: Option<string>, verify: string -> Claims)
    requires UsersKeyed(users, next)
    ensures var step := Authentication(users, header, verify);
      step.Admitted? <==>
        && BearerToken(header).Some?
        && verify(BearerToken(header).value).Verified?
        && verify(BearerToken(header).value).userId.Some?
        && verify(BearerToken(header).value).userId.value in users
    ensures var step := Authentication(users, header, verify);
      step.Admitted? ==> step.id in users && step.user == PublicOf(users[step.id]) && step.user.id == step.id
  {
  }

  /** A token the verifier accepts for an existing user, sent as a bearer header, is admitted. */
  lemma IssuedTokenAuthenticates(users: map<UserId, User>, id: UserId, t: string, verify: string -> Claims)
    requires id in users && ' ' !in t
    requires verify(t) == Verified(Some(id))
    ensures Authentication(users, Some(BearerPrefix + t), verify) == Admitted(id, PublicOf(users[id]))
  {
    BearerRoundTrip(t);
  }

  /** The request as the middleware sees it: the header it reads and the two fields it fills. */
  class Request {
    var authorization: Option<string>
    /** `req.userId`; None while unset (or when the claim is missing). */
    var userId: Option<UserId>
    /** `req.user`. */
    var user: Option<PublicUser>

    constructor (authorization: Option<string>)
      ensures this.authorization == authorization && userId == None && user == None
    {
      this.authorization := authorization;
      userId := None;
      user := None;
    }
  }

  /**
   * `authenticate`: `req.userId` is set as soon as the token verifies, even
   * when no user has that id; `req.user` only when the user is found.
   */
  method Authenticate(db: Database, req: Request, verify: string -> Claims) returns (g: GateOutcome)
    requires db.Valid()
    modifies req`userId, req`user
    ensures var step := Authentication(db.users, req.authorization, verify);
      && g == AuthGate(step)
      && ((step.NoToken? || step.BadToken?) ==> req.userId == old(req.userId) && req.user == old(req.user))
      && (step.UnknownUser? ==> req.userId == step.userId && req.user == old(req.user))
      && (step.Admitted? ==> req.userId == Some(step.id) && req.user == Some(step.user))
  {
    var token := BearerToken(req.authorization);
    if token.None? {
      return Halt(401, NoTokenMessage);
    }
    var claims := verify(token.value);
    if claims.Refused? {
      return Halt(401, BadTokenMessage);
    }
    req.userId := claims.userId;
    var user := if claims.userId.Some? then UserModel.GetUserById(db, claims.userId.value) else None;
    if user.None? {
      return Halt(401, UnknownUserMessage);
    }
    req.user := user;
    g := Next;
  }
}
