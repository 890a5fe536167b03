/** The role gate that runs before every handler of the listing service: it decides,
    from the roles a route declares and the caller's bearer token, whether the
    handler may run. Every outcome of a foreign step is an input: `verify` is what
    `jwt.verify` returns for a non-empty token (`None` when it throws), and
    `findUnique` is what the user store answers for an id. */
module AuthGuard {
  import opened Wrappers
  import opened JsStrings

  /** The closed enumeration of account kinds. */
  datatype UserType = Buyer | Realtor | Admin

  /** The claims of a verified token; the handlers see the same record as the decoded user. */
  datatype JwtPayload = JwtPayload(id: int, name: string, iat: int, exp: int)

  /** A user record as the store holds it (only the fields the gate reads). */
  datatype User = User(id: int, name: string, userType: UserType)

  /** The three ways `findUnique` can end: a record, no record (`null`), or an exception. */
  datatype UserLookup = Found(user: User) | NoSuchUser | LookupFailed

  /** An observable step of the gate, in the order it happens. */
  datatype Effect =
    | ReadAuthorization                 // the request's `authorization` header is read
    | VerifyJwt(token: Option<string>)  // `jwt.verify` is called on the extracted token
    | FindUser(id: int)                 // the user store is queried by this id

  /** The gate's answer together with the steps taken to reach it. */
  datatype Verdict = Verdict(allowed: bool, effects: seq<Effect>)

  const BearerPrefix: string := "Bearer "

  /** The route declares at least one role (`roles?.length` is truthy). */
  predicate Protected(roles: Option<seq<UserType>>) {
    roles.Some? && |roles.value| > 0
  }

  /** `authorization?.split('Bearer ')[1]`: the piece after the first "Bearer ",
      up to the next one; undefined when the header or the separator is missing. */
  function BearerToken(authorization: Option<string>): Option<string> {
    match authorization
    case None => None
    case Some(h) =>
      var parts := Split(h, BearerPrefix);
      if |parts| > 1 then Some(parts[1]) else None
  }

  /** `jwt.verify(token, key)`: a missing or empty token is rejected by the library
      itself ("jwt must be provided"); any other token is decided by the oracle. */
  function VerifyToken(token: Option<string>, verify: string -> Option<JwtPayload>): (p: Option<JwtPayload>)
    ensures (token.None? || token.value == "") ==> p.None?
    ensures token.Some? && token.value != "" ==> p == verify(token.value)
  {
    match token
    case None => None
    case Some(t) => if t == "" then None else verify(t)
  }

  /** `AuthGuard.canActivate`. A route without declared roles is let through at once;
      otherwise the token is taken from the header and verified, the user is looked up
      by the payload's id, and the call is allowed only if that user's type is one of
      the roles. Every failure, thrown or not, ends in `false`. */
  function CanActivate(
    roles: Option<seq<UserType>>,
    authorization: Option<string>,
    verify: string -> Option<JwtPayload>,
    findUnique: int -> UserLookup): (v: Verdict)
    ensures !Protected(roles) ==> v.allowed && v.effects == []
    ensures Protected(roles) ==> 2 <= |v.effects| <= 3
    ensures Protected(roles) ==>
      v.effects[0] == ReadAuthorization && v.effects[1] == VerifyJwt(BearerToken(authorization))
  {
    if !Protected(roles) then Verdict(true, [])
    else
      var token := BearerToken(authorization);
      match VerifyToken(token, verify)
      case None => Verdict(false, [ReadAuthorization, VerifyJwt(token)])
      case Some(payload) =>
        var steps := [ReadAuthorization, VerifyJwt(token), FindUser(payload.id)];
        match findUnique(payload.id)
        case NoSuchUser => Verdict(false, steps)
        case LookupFailed => Verdict(false, steps)
        case Found(user) => Verdict(user.userType in roles.value, steps)
  }

  // ---------------------------------------------------------------------------
  // Token extraction

  /** A header yields no token exactly when "Bearer " does not occur in it. */
  lemma NoBearerNoToken(h: string)
    ensures BearerToken(Some(h)).None? <==> forall j: nat :: !OccursAt(h, BearerPrefix, j)
  {
    match IndexOf(h, BearerPrefix, 0)
    case None =>
    case Some(i) =>
      assert Split(h, BearerPrefix) == [h[..i]] + Split(h[i + |BearerPrefix|..], BearerPrefix);
  }

  /** Two first occurrences coincide, so `IndexOf(.., 0)` finds the one given. */
  lemma FirstOccurrence(s: string, sep: string, i: nat)
    requires OccursAt(s, sep, i)
    requires forall j: nat :: j < i ==> !OccursAt(s, sep, j)
    ensures IndexOf(s, sep, 0) == Some(i)
  {
  }

  /** The token is the text between the first "Bearer " (at `i`) and the next one
      (at `k`), or the end of the header when there is no second one. */
  lemma {:induction false} TokenBetweenBearers(h: string, i: nat, k: nat)
    requires OccursAt(h, BearerPrefix, i)
    requires forall j: nat :: j < i ==> !OccursAt(h, BearerPrefix, j)
    requires i + |BearerPrefix| <= k <= |h|
    requires k == |h| || OccursAt(h, BearerPrefix, k)
    requires forall j: nat :: i + |BearerPrefix| <= j < k ==> !OccursAt(h, BearerPrefix, j)
    ensures BearerToken(Some(h)) == Some(h[i + |BearerPrefix|..k])
  {
    var n := |BearerPrefix|;
    var rest := h[i + n..];
    FirstOccurrence(h, BearerPrefix, i);
    assert Split(h, BearerPrefix) == [h[..i]] + Split(rest, BearerPrefix);
    forall j: nat | j < k - (i + n)
      ensures !OccursAt(rest, BearerPrefix, j)
    {
      OccursInSuffix(h, BearerPrefix, i + n, j);
    }
    if k == |h| {
      forall j: nat ensures !OccursAt(rest, BearerPrefix, j) {
        OccursInSuffix(h, BearerPrefix, i + n, j);
      }
      assert IndexOf(rest, BearerPrefix, 0) == None;
      assert Split(rest, BearerPrefix) == [rest];
      assert rest == h[i + n..k];
    } else {
      OccursInSuffix(h, BearerPrefix, i + n, k - (i + n));
      FirstOccurrence(rest, BearerPrefix, k - (i + n));
      var m := k - (i + n);
      assert Split(rest, BearerPrefix) == [rest[..m]] + Split(rest[m + n..], BearerPrefix);
      assert rest[..m] == h[i + n..k];
    }
  }

  /** A token taken from a header never contains "Bearer " itself. */
  lemma TokenHasNoBearer(h: string, j: nat)
    requires BearerToken(Some(h)).Some?
    ensures !OccursAt(BearerToken(Some(h)).value, BearerPrefix, j)
  {
    SplitPiecesAvoidSeparator(h, BearerPrefix, 1, j);
  }

  /** The usual header shape: "Bearer <jwt>" gives back "<jwt>" whenever the jwt
      itself holds no "Bearer ". */
  lemma {:induction false} PlainBearerHeader(jwt: string)
    requires forall j: nat :: !OccursAt(jwt, BearerPrefix, j)
    ensures BearerToken(Some(BearerPrefix + jwt)) == Some(jwt)
  {
    var h := BearerPrefix + jwt;
    var n := |BearerPrefix|;
    assert h[0..n] == BearerPrefix;
    assert h[n..] == jwt;
    forall j: nat | n <= j < |h|
      ensures !OccursAt(h, BearerPrefix, j)
    {
      OccursInSuffix(h, BearerPrefix, n, j - n);
    }
    TokenBetweenBearers(h, 0, |h|);
    assert h[0 + n..|h|] == jwt;
  }

  // ---------------------------------------------------------------------------
  // The decision

  /** With no declared roles the answer depends on nothing else: the header, the
      verifier and the user store are never consulted. */
  lemma UnprotectedIgnoresRequest(
    roles: Option<seq<UserType>>,
    a1: Option<string>, verify1: string -> Option<JwtPayload>, find1: int -> UserLookup,
    a2: Option<string>, verify2: string -> Option<JwtPayload>, find2: int -> UserLookup)
    requires !Protected(roles)
    ensures CanActivate(roles, a1, verify1, find1) == CanActivate(roles, a2, verify2, find2)
    ensures CanActivate(roles, a1, verify1, find1) == Verdict(true, [])
  {
  }

  /** A protected route whose token is missing, empty or rejected by `jwt.verify` is
      refused, and the user store is never queried. */
  lemma FailedVerificationDenies(
    roles: Option<seq<UserType>>, authorization: Option<string>,
    verify: string -> Option<JwtPayload>, findUnique: int -> UserLookup)
    requires Protected(roles)
    requires VerifyToken(BearerToken(authorization), verify).None?
    ensures !CanActivate(roles, authorization, verify, findUnique).allowed
    ensures forall e | e in CanActivate(roles, authorization, verify, findUnique).effects :: !e.FindUser?
  {
  }

  /** In particular a protected route with no "Bearer " in the header is refused. */
  lemma MissingTokenDenies(
    roles: Option<seq<UserType>>, authorization: Option<string>,
    verify: string -> Option<JwtPayload>, findUnique: int -> UserLookup)
    requires Protected(roles)
    requires authorization.None? || forall j: nat :: !OccursAt(authorization.value, BearerPrefix, j)
    ensures !CanActivate(roles, authorization, verify, findUnique).allowed
  {
    if authorization.Some? {
      NoBearerNoToken(authorization.value);
    }
  }

  /** A verified token whose id matches no user (or whose lookup throws) is refused. */
  lemma UnknownUserDenies(
    roles: Option<seq<UserType>>, authorization: Option<string>,
    verify: string -> Option<JwtPayload>, findUnique: int -> UserLookup)
    requires Protected(roles)
    requires var p := VerifyToken(BearerToken(authorization), verify);
      p.Some? && !findUnique(p.value.id).Found?
    ensures !CanActivate(roles, authorization, verify, findUnique).allowed
  {
  }

  /** On a protected route the call is allowed exactly when the token verifies to some
      payload, the store holds a user under that payload's id, and the user's type is
      one of the declared roles. */
  lemma AllowedIff(
    roles: Option<seq<UserType>>, authorization: Option<string>,
    verify: string -> Option<JwtPayload>, findUnique: int -> UserLookup)
    requires Protected(roles)
    ensures CanActivate(roles, authorization, verify, findUnique).allowed <==>
      exists p: JwtPayload, u: User ::
        VerifyToken(BearerToken(authorization), verify) == Some(p) &&
        findUnique(p.id) == Found(u) && u.userType in roles.value
  {
    var v := CanActivate(roles, authorization, verify, findUnique);
    var vp := VerifyToken(BearerToken(authorization), verify);
    if v.allowed {
      var p := vp.value;
      var u := findUnique(p.id).user;
      assert vp == Some(p) && findUnique(p.id) == Found(u) && u.userType in roles.value;
    }
  }

  /** At most one user lookup happens; it comes right after a successful verification
      and is keyed by exactly the verified payload's id. */
  lemma LookupDiscipline(
    roles: Option<seq<UserType>>, authorization: Option<string>,
    verify: string -> Option<JwtPayload>, findUnique: int -> UserLookup, k: nat)
    requires k < |CanActivate(roles, authorization, verify, findUnique).effects|
    requires CanActivate(roles, authorization, verify, findUnique).effects[k].FindUser?
    ensures var v := CanActivate(roles, authorization, verify, findUnique);
      var p := VerifyToken(BearerToken(authorization), verify);
      k == |v.effects| - 1 && k > 0 &&
      v.effects[k - 1] == VerifyJwt(BearerToken(authorization)) &&
      p.Some? && v.effects[k] == FindUser(p.value.id)
    ensures forall l :: 0 <= l < |CanActivate(roles, authorization, verify, findUnique).effects| && l != k ==>
      !CanActivate(roles, authorization, verify, findUnique).effects[l].FindUser?
  {
  }

  /** Declaring more roles never takes access away from a protected route. */
  lemma MoreRolesAdmitMore(
    roles: seq<UserType>, wider: seq<UserType>, authorization: Option<string>,
    verify: string -> Option<JwtPayload>, findUnique: int -> UserLookup)
    requires |roles| > 0
    requires forall t :: t in roles ==> t in wider
    requires CanActivate(Some(roles), authorization, verify, findUnique).allowed
    ensures CanActivate(Some(wider), authorization, verify, findUnique).allowed
  {
  }
}
