/** The home listing controller's own decisions: the filter `getHomes` hands to the
    listing service, and the owner check that `updateHome`, `deleteHome` and
    `getHomeMessages` make before touching a home. The service itself is an oracle:
    each of its methods is a function parameter. */
module HomeController {
  import opened Wrappers
  import opened AuthGuard

  /** The decorator-supplied caller: the verified token's claims. */
  type DecodedUser = JwtPayload

  // ---------------------------------------------------------------------------
  // The listing filter

  /** JavaScript truthiness of an optional query string: `undefined` and `""` are falsy. */
  predicate Truthy(s: Option<string>) {
    s.Some? && |s.value| > 0
  }

  /** The `price` sub-object: inclusive bounds, each key present or not. */
  datatype PriceRange = PriceRange(gte: Option<real>, lte: Option<real>)

  /** The `where` object sent to the store; an absent field is an absent key. */
  datatype HomeFilter = HomeFilter(city: Option<string>, price: Option<PriceRange>, propertyType: Option<string>)

  /** The fields of a stored home that a filter can test. */
  datatype Listing = Listing(city: string, price: real, propertyType: string)

  /** The filter built by `getHomes` from its four query strings; `parseFloat` is the
      number parsing applied to the price bounds. */
  function GetHomesFilter(
    city: Option<string>, minPrice: Option<string>, maxPrice: Option<string>,
    propertyType: Option<string>, parseFloat: string -> real): (f: HomeFilter)
    ensures f.city.Some? <==> Truthy(city)
    ensures f.city.Some? ==> f.city == city
    ensures f.price.Some? <==> Truthy(minPrice) || Truthy(maxPrice)
    ensures f.price.Some? ==> f.price.value.gte.Some? || f.price.value.lte.Some?
    ensures f.price.Some? ==> (f.price.value.gte.Some? <==> Truthy(minPrice))
    ensures f.price.Some? ==> (f.price.value.lte.Some? <==> Truthy(maxPrice))
    ensures f.price.Some? && f.price.value.gte.Some? ==> f.price.value.gte.value == parseFloat(minPrice.value)
    ensures f.price.Some? && f.price.value.lte.Some? ==> f.price.value.lte.value == parseFloat(maxPrice.value)
    ensures f.propertyType.Some? <==> Truthy(propertyType)
    ensures f.propertyType.Some? ==> f.propertyType == propertyType
  {
    var price :=
      if Truthy(minPrice) || Truthy(maxPrice) then
        Some(PriceRange(
          if Truthy(minPrice) then Some(parseFloat(minPrice.value)) else None,
          if Truthy(maxPrice) then Some(parseFloat(maxPrice.value)) else None))
      else None;
    HomeFilter(
      if Truthy(city) then city else None,
      price,
      if Truthy(propertyType) then propertyType else None)
  }

  /** Whether the store's `where` reading of a filter selects a home: every present key
      is a condition, `gte`/`lte` are inclusive bounds, an absent key asks nothing. */
  predicate Selects(f: HomeFilter, h: Listing) {
    (f.city.Some? ==> h.city == f.city.value) &&
    (f.price.Some? ==>
      (f.price.value.gte.Some? ==> f.price.value.gte.value <= h.price) &&
      (f.price.value.lte.Some? ==> h.price <= f.price.value.lte.value)) &&
    (f.propertyType.Some? ==> h.propertyType == f.propertyType.value)
  }

  /** The lower bound (if any) a filter imposes. */
  function LowerBound(f: HomeFilter): Option<real> {
    if f.price.Some? then f.price.value.gte else None
  }

  /** The upper bound (if any) a filter imposes. */
  function UpperBound(f: HomeFilter): Option<real> {
    if f.price.Some? then f.price.value.lte else None
  }

  /** What a built filter asks of a home, stated on the query strings alone: each
      non-empty parameter is one condition, and the empty ones ask nothing. */
  lemma FilterSelectsIff(
    city: Option<string>, minPrice: Option<string>, maxPrice: Option<string>,
    propertyType: Option<string>, parseFloat: string -> real, h: Listing)
    ensures Selects(GetHomesFilter(city, minPrice, maxPrice, propertyType, parseFloat), h) <==>
      (Truthy(city) ==> h.city == city.value) &&
      (Truthy(minPrice) ==> parseFloat(minPrice.value) <= h.price) &&
      (Truthy(maxPrice) ==> h.price <= parseFloat(maxPrice.value)) &&
      (Truthy(propertyType) ==> h.propertyType == propertyType.value)
  {
  }

  /** With every parameter absent or empty the filter is the empty object, which
      selects every home. */
  lemma EmptyQueryIsUnconstrained(
    city: Option<string>, minPrice: Option<string>, maxPrice: Option<string>,
    propertyType: Option<string>, parseFloat: string -> real, h: Listing)
    requires !Truthy(city) && !Truthy(minPrice) && !Truthy(maxPrice) && !Truthy(propertyType)
    ensures GetHomesFilter(city, minPrice, maxPrice, propertyType, parseFloat) == HomeFilter(None, None, None)
    ensures Selects(GetHomesFilter(city, minPrice, maxPrice, propertyType, parseFloat), h)
  {
  }

  /** The two price bounds are independent: the lower bound depends only on `minPrice`
      and the upper bound only on `maxPrice`. */
  lemma BoundsIndependent(
    city: Option<string>, minPrice: Option<string>, maxPrice: Option<string>,
    propertyType: Option<string>, parseFloat: string -> real,
    otherMin: Option<string>, otherMax: Option<string>)
    ensures LowerBound(GetHomesFilter(city, minPrice, maxPrice, propertyType, parseFloat)) ==
            LowerBound(GetHomesFilter(city, minPrice, otherMax, propertyType, parseFloat))
    ensures UpperBound(GetHomesFilter(city, minPrice, maxPrice, propertyType, parseFloat)) ==
            UpperBound(GetHomesFilter(city, otherMin, maxPrice, propertyType, parseFloat))
  {
  }

  /** `getHomes('Yabroud', '12000')` asks for the city and a lower bound, with no
      `lte` key and no property type. */
  lemma CityAndMinPriceExample(parseFloat: string -> real)
    ensures GetHomesFilter(Some("Yabroud"), Some("12000"), None, None, parseFloat) ==
      HomeFilter(Some("Yabroud"), Some(PriceRange(Some(parseFloat("12000")), None)), None)
  {
  }

  /** All four parameters given: both bounds and the property type are present. */
  lemma FullQueryExample(parseFloat: string -> real)
    ensures GetHomesFilter(Some("Yabroud"), Some("1000000"), Some("1500000"), Some("RESIDENTIAL"), parseFloat) ==
      HomeFilter(Some("Yabroud"),
        Some(PriceRange(Some(parseFloat("1000000")), Some(parseFloat("1500000")))),
        Some("RESIDENTIAL"))
  {
  }

  // ---------------------------------------------------------------------------
  // The owner check

  /** The exceptions a handler can end with. */
  datatype Exception =
    | Unauthorized      // `UnauthorizedException`, raised by the handler
    | ServiceError      // whatever a service method threw, passed through unchanged

  /** What a service method or handler produces: a value, or a thrown exception. */
  datatype Response<T> = Returned(value: T) | Thrown(error: Exception)

  /** The realtor record the service returns for a home. */
  datatype Realtor = Realtor(id: int, name: string)

  /** The service calls a handler makes, in order. */
  datatype ServiceCall =
    | GetRealtorByHomeId(homeId: int)
    | UpdateHomeById(id: int)
    | DeleteHomeById(id: int)
    | GetMessagesByHome(homeId: int)

  /** A handler's outcome with the service calls it made. */
  datatype Run<T> = Run(response: Response<T>, calls: seq<ServiceCall>)

  /** Fetch the home's realtor; if the caller is not that realtor throw `Unauthorized`,
      otherwise make `action`, whose answer is `performed`. */
  function OwnerOnly<T>(
    homeId: int, user: DecodedUser, getRealtorByHomeId: int -> Response<Realtor>,
    action: ServiceCall, performed: Response<T>): (r: Run<T>)
    ensures |r.calls| > 0 && r.calls[0] == GetRealtorByHomeId(homeId)
    ensures (action in r.calls[1..]) <==>
      (getRealtorByHomeId(homeId).Returned? && getRealtorByHomeId(homeId).value.id == user.id)
    ensures getRealtorByHomeId(homeId).Returned? && getRealtorByHomeId(homeId).value.id == user.id ==>
      r == Run(performed, [GetRealtorByHomeId(homeId), action])
    ensures getRealtorByHomeId(homeId).Returned? && getRealtorByHomeId(homeId).value.id != user.id ==>
      r == Run(Thrown(Unauthorized), [GetRealtorByHomeId(homeId)])
    ensures getRealtorByHomeId(homeId).Thrown? ==>
      r == Run(Thrown(getRealtorByHomeId(homeId).error), [GetRealtorByHomeId(homeId)])
  {
    match getRealtorByHomeId(homeId)
    case Thrown(e) => Run(Thrown(e), [GetRealtorByHomeId(homeId)])
    case Returned(realtor) =>
      if realtor.id != user.id then Run(Thrown(Unauthorized), [GetRealtorByHomeId(homeId)])
      else Run(performed, [GetRealtorByHomeId(homeId), action])
  }

  /** `updateHome(id, body, user)`: only the home's realtor may update it. */
  function UpdateHome<B, T>(
    id: int, body: B, user: DecodedUser,
    getRealtorByHomeId: int -> Response<Realtor>, updateHomeById: (int, B) -> Response<T>): (r: Run<T>)
    ensures UpdateHomeById(id) in r.calls <==>
      (getRealtorByHomeId(id).Returned? && getRealtorByHomeId(id).value.id == user.id)
    ensures getRealtorByHomeId(id).Returned? && getRealtorByHomeId(id).value.id == user.id ==>
      r.response == updateHomeById(id, body)
    ensures getRealtorByHomeId(id).Returned? && getRealtorByHomeId(id).value.id != user.id ==>
      r == Run(Thrown(Unauthorized), [GetRealtorByHomeId(id)])
  {
    OwnerOnly(id, user, getRealtorByHomeId, UpdateHomeById(id), updateHomeById(id, body))
  }

  /** `deleteHome(id, user)`: only the home's realtor may delete it. */
  function DeleteHome<T>(
    id: int, user: DecodedUser,
    getRealtorByHomeId: int -> Response<Realtor>, deleteHomeById: int -> Response<T>): (r: Run<T>)
    ensures DeleteHomeById(id) in r.calls <==>
      (getRealtorByHomeId(id).Returned? && getRealtorByHomeId(id).value.id == user.id)
    ensures getRealtorByHomeId(id).Returned? && getRealtorByHomeId(id).value.id == user.id ==>
      r.response == deleteHomeById(id)
    ensures getRealtorByHomeId(id).Returned? && getRealtorByHomeId(id).value.id != user.id ==>
      r == Run(Thrown(Unauthorized), [GetRealtorByHomeId(id)])
  {
    OwnerOnly(id, user, getRealtorByHomeId, DeleteHomeById(id), deleteHomeById(id))
  }

  /** `getHomeMessages(homeId, user)`: only the home's realtor may read its inquiries. */
  function GetHomeMessages<T>(
    homeId: int, user: DecodedUser,
    getRealtorByHomeId: int -> Response<Realtor>, getMessagesByHome: int -> Response<T>): (r: Run<T>)
    ensures GetMessagesByHome(homeId) in r.calls <==>
      (getRealtorByHomeId(homeId).Returned? && getRealtorByHomeId(homeId).value.id == user.id)
    ensures getRealtorByHomeId(homeId).Returned? && getRealtorByHomeId(homeId).value.id == user.id ==>
      r.response == getMessagesByHome(homeId)
    ensures getRealtorByHomeId(homeId).Returned? && getRealtorByHomeId(homeId).value.id != user.id ==>
      r == Run(Thrown(Unauthorized), [GetRealtorByHomeId(homeId)])
  {
    OwnerOnly(homeId, user, getRealtorByHomeId, GetMessagesByHome(homeId), getMessagesByHome(homeId))
  }

  /** An update by someone other than the home's realtor ends in `Unauthorized` and makes
      no other service call, whatever the update would have answered; by the realtor
      it is carried out. Here the home's realtor has id 53 and callers 30 and 53 try. */
  lemma UpdateHomeOwnershipExample<B, T>(body: B, updateHomeById: (int, B) -> Response<T>)
    ensures var realtorOf := (homeId: int) => Returned(Realtor.Realtor(53, "hanny"));
      var stranger := JwtPayload(30, "hanny", 1, 23000);
      var owner := JwtPayload(53, "hanny", 1, 23000);
      UpdateHome(5, body, stranger, realtorOf, updateHomeById).response == Thrown(Unauthorized) &&
      UpdateHome(5, body, owner, realtorOf, updateHomeById).calls == [GetRealtorByHomeId(5), UpdateHomeById(5)]
  {
  }
}
