/** The roles each home-controller endpoint declares, as a static table, and what the
    role gate then decides for each endpoint. */
module HomeRoles {
  import opened Wrappers
  import opened JsStrings
  import opened AuthGuard

  /** The endpoints of the home controller. */
  datatype Operation =
    | ListHomes       // GET  /home             getHomes
    | ShowHome        // GET  /home/:id         getHome
    | CreateListing   // POST /home             createHome
    | UpdateListing   // PUT  /home/:id         updateHome
    | DeleteListing   // DELETE /home/:id       deleteHome
    | Inquire         // POST /home/:id/inquire inquire
    | ListMessages    // GET  /home/:id/messages getHomeMessages

  /** The `@Roles(...)` list of an endpoint; `None` where the endpoint has no decorator
      (the controller class declares none either). */
  function RequiredRoles(op: Operation): Option<seq<UserType>> {
    match op
    case ListHomes => None
    case ShowHome => None
    case CreateListing => Some([Realtor])
    case UpdateListing => Some([Realtor])
    case DeleteListing => Some([Realtor])
    case Inquire => Some([Buyer])
    case ListMessages => Some([Realtor])
  }

  /** The single account kind an endpoint admits, if it declares roles. */
  function SoleRole(op: Operation): (t: Option<UserType>)
    ensures RequiredRoles(op).None? <==> t.None?
    ensures t.Some? ==> RequiredRoles(op) == Some([t.value])
  {
    match op
    case ListHomes => None
    case ShowHome => None
    case Inquire => Some(Buyer)
    case _ => Some(Realtor)
  }

  /** Which endpoints are open, realtor-only and buyer-only. */
  lemma RoleTable(op: Operation)
    ensures RequiredRoles(op).None? <==> op == ListHomes || op == ShowHome
    ensures SoleRole(op) == Some(Realtor) <==>
      op == CreateListing || op == UpdateListing || op == DeleteListing || op == ListMessages
    ensures SoleRole(op) == Some(Buyer) <==> op == Inquire
  {
  }

  /** The gate's decision for an endpoint: open endpoints pass with no token work at all;
      any other passes exactly when the token verifies, its id names a stored user, and
      that user is of the endpoint's one admitted kind. */
  lemma EndpointAccess(
    op: Operation, authorization: Option<string>,
    verify: string -> Option<JwtPayload>, findUnique: int -> UserLookup)
    ensures SoleRole(op).None? ==>
      CanActivate(RequiredRoles(op), authorization, verify, findUnique) == Verdict(true, [])
    ensures SoleRole(op).Some? ==>
      (CanActivate(RequiredRoles(op), authorization, verify, findUnique).allowed <==>
        exists p: JwtPayload, u: User ::
          VerifyToken(BearerToken(authorization), verify) == Some(p) &&
          findUnique(p.id) == Found(u) && u.userType == SoleRole(op).value)
  {
    if SoleRole(op).Some? {
      AllowedIff(RequiredRoles(op), authorization, verify, findUnique);
      assert RequiredRoles(op).value == [SoleRole(op).value];
    }
  }

  /** No caller can both inquire about a home and manage listings: the buyer-only and
      realtor-only endpoints never both admit the same verified user. */
  lemma BuyersAndRealtorsDisjoint(
    op1: Operation, op2: Operation, authorization: Option<string>,
    verify: string -> Option<JwtPayload>, findUnique: int -> UserLookup)
    requires SoleRole(op1) == Some(Buyer) && SoleRole(op2) == Some(Realtor)
    ensures !(CanActivate(RequiredRoles(op1), authorization, verify, findUnique).allowed &&
              CanActivate(RequiredRoles(op2), authorization, verify, findUnique).allowed)
  {
    EndpointAccess(op1, authorization, verify, findUnique);
    EndpointAccess(op2, authorization, verify, findUnique);
  }

  /** A realtor holding a valid "Bearer <jwt>" header may update a listing. */
  lemma RealtorMayUpdate(jwt: string, p: JwtPayload, u: User,
    verify: string -> Option<JwtPayload>, findUnique: int -> UserLookup)
    requires jwt != "" && forall j: nat :: !OccursAt(jwt, BearerPrefix, j)
    requires verify(jwt) == Some(p) && findUnique(p.id) == Found(u) && u.userType == Realtor
    ensures CanActivate(RequiredRoles(UpdateListing), Some(BearerPrefix + jwt), verify, findUnique) ==
      Verdict(true, [ReadAuthorization, VerifyJwt(Some(jwt)), FindUser(p.id)])
  {
    PlainBearerHeader(jwt);
  }
}
