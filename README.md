# Realtor listing service: role gate and home controller, in Dafny

This project models the two pieces of the listing service that make decisions:

- **`AuthGuard.canActivate`**, the role gate in front of every endpoint.
  If the endpoint declares no roles, the gate lets the request through without reading it.
  Otherwise it cuts the token out of the `authorization` header with `split('Bearer ')[1]`, verifies it with `jwt.verify`, and looks the user up by the payload's `id`.
  It allows the call only when that user's `user_type` is one of the declared roles.
  Every failure, thrown or not, becomes `false`.
- **`HomeController`**, in three parts:
  - the filter object that `getHomes` builds from four optional query strings;
  - the realtor-ownership check in `updateHome`, `deleteHome` and `getHomeMessages`;
  - the table of roles each endpoint declares with `@Roles`.

Everything in the modelled code is pure. So it is written as Dafny functions over datatypes, with lemmas.
The foreign steps become function parameters (oracles):

- `verify: string -> Option<JwtPayload>` is what `jwt.verify` returns for a token, with `None` when it throws.
- `findUnique: int -> UserLookup` is the user store's answer: `Found`, `NoSuchUser` (`null`) or `LookupFailed` (thrown).
- `parseFloat: string -> real` parses the price bounds.
- `HomeService` methods are functions returning `Response<T>`, which is either `Returned` or `Thrown`.

The gate returns a `Verdict`. It holds the boolean answer and the ordered list of effects: a header read, a `jwt.verify` call, a user lookup.
The effects list lets the lemmas state the order of the steps and what the gate skips.
Each owner-checked handler returns a `Run`: its response and the list of service calls it made.

Modules:

- `Wrappers` (`wrappers.dfy`): `Option`.
- `JsStrings` (`js_strings.dfy`): `indexOf`, `split` with a non-empty string separator, and `join`, following the ECMAScript algorithm.
- `AuthGuard` (`auth_guard.dfy`): the gate.
- `HomeController` (`home_controller.dfy`): the filter and the owner checks.
- `HomeRoles` (`home_roles.dfy`): the endpoint → roles table, and what the gate decides for each endpoint.

Three points of the code's behaviour that a reader might expect otherwise; the model follows the code:

- The code never checks `propertyType` against the property-type enumeration. Any non-empty string is copied into the filter.
- The gate returns a plain boolean. There are no Unauthenticated / Forbidden / NotFound reasons and no separate infrastructure error: a throwing store gives `false` like any other failure.
- The ownership check lives in the handlers, after the gate. A realtor lookup that throws (for example, a missing home) passes its exception through unchanged (`ServiceError`). A realtor who is not the owner gets `UnauthorizedException`.

## Model

| member | source | states |
|---|---|---|
| `JsStrings.IndexOf` | src/guards/auth.guard.ts:31 | the result is the first index at or after `from` where the separator occurs; `None` means it occurs nowhere from `from` on |
| `JsStrings.JoinSplit` | src/guards/auth.guard.ts:31 | `split` loses nothing: joining its pieces with the separator gives back the header |
| `JsStrings.SplitPiecesAvoidSeparator` | src/guards/auth.guard.ts:31 | no piece produced by `split` contains the separator |
| `AuthGuard.VerifyToken` | src/guards/auth.guard.ts:33-36 | a missing or empty token always fails verification; any other token gets the verifier's answer |
| `AuthGuard.CanActivate` | src/guards/auth.guard.ts:20-53 | with no declared roles: allowed, no effects; otherwise the header is read first, then `jwt.verify` runs on the extracted token, and at most one more step follows |
| `AuthGuard.NoBearerNoToken` | src/guards/auth.guard.ts:31 | a header yields no token if and only if "Bearer " does not occur in it |
| `AuthGuard.TokenBetweenBearers` | src/guards/auth.guard.ts:31 | the token is the text after the first "Bearer ", up to the next "Bearer " or the end of the header |
| `AuthGuard.TokenHasNoBearer` | src/guards/auth.guard.ts:31 | an extracted token never contains "Bearer " |
| `AuthGuard.PlainBearerHeader` | src/guards/auth.guard.ts:31 | the header "Bearer <jwt>" yields exactly `<jwt>` when the jwt holds no "Bearer " |
| `AuthGuard.UnprotectedIgnoresRequest` | src/guards/auth.guard.ts:28-52 | with no roles, or an empty list, the verdict is allow-with-no-effects, whatever the header, verifier and store hold |
| `AuthGuard.FailedVerificationDenies` | src/guards/auth.guard.ts:32-50 | on a protected route a missing, empty or rejected token is refused, and no user lookup happens |
| `AuthGuard.MissingTokenDenies` | src/guards/auth.guard.ts:31-36 | a protected route is refused when the header is absent or holds no "Bearer " |
| `AuthGuard.UnknownUserDenies` | src/guards/auth.guard.ts:39-43 | a verified payload whose id matches no user, or whose lookup throws, is refused |
| `AuthGuard.AllowedIff` | src/guards/auth.guard.ts:33-47 | on a protected route: allowed if and only if the token verifies to a payload, a user is stored under the payload's id, and that user's type is in the role list |
| `AuthGuard.LookupDiscipline` | src/guards/auth.guard.ts:33-41 | there is at most one user lookup; it is the last step, right after a successful `jwt.verify`, and keyed by that payload's id |
| `AuthGuard.MoreRolesAdmitMore` | src/guards/auth.guard.ts:45 | on a protected route, widening the role list never turns an allow into a deny |
| `HomeController.GetHomesFilter` | src/home/home.controller.ts:31-51 | `city` and `propertyType` keys are present iff their strings are non-empty, and are copied verbatim; `price` is present iff `minPrice` or `maxPrice` is non-empty, and is never empty; `gte` is present iff `minPrice` is non-empty and `lte` iff `maxPrice` is, each holding its parsed value |
| `HomeController.FilterSelectsIff` | src/home/home.controller.ts:37-50 | a home matches the built filter iff it meets each condition whose query string is non-empty: same city, price ≥ min, price ≤ max, same type |
| `HomeController.EmptyQueryIsUnconstrained` | src/home/home.controller.ts:45-49 | with all four strings absent or empty the filter has no keys and matches every home |
| `HomeController.BoundsIndependent` | src/home/home.controller.ts:37-43 | the lower bound depends only on `minPrice` and the upper bound only on `maxPrice` |
| `HomeController.CityAndMinPriceExample` | src/home/home.controller.spec.ts:50-59 | `('Yabroud', '12000')` gives `{city: 'Yabroud', price: {gte: 12000}}`, with no `lte` key |
| `HomeController.FullQueryExample` | src/home/home.controller.ts:37-49 | all four parameters given yields city, both bounds and the property type |
| `HomeController.OwnerOnly` | src/home/home.controller.ts:71-75 | the realtor lookup always comes first. The guarded call is made iff the lookup returned a realtor whose id equals the caller's, and then its answer is the response. A different realtor gives `Unauthorized` with no further call. A throwing lookup passes its exception through |
| `HomeController.UpdateHome` | src/home/home.controller.ts:64-76 | `updateHomeById` runs, with the given id and body, iff the caller is the home's realtor; otherwise `Unauthorized` and nothing else is called |
| `HomeController.DeleteHome` | src/home/home.controller.ts:78-89 | `deleteHomeById` runs iff the caller is the home's realtor; otherwise `Unauthorized` and nothing else is called |
| `HomeController.GetHomeMessages` | src/home/home.controller.ts:101-113 | `getMessagesByHome` runs iff the caller is the home's realtor; otherwise `Unauthorized` and nothing else is called |
| `HomeController.UpdateHomeOwnershipExample` | src/home/home.controller.spec.ts:80-98 | for a home owned by realtor 53: caller 30 gets `Unauthorized`, and caller 53 has the update carried out |
| `HomeRoles.SoleRole` | src/home/home.controller.ts:58-101 | every endpoint declares either no roles or exactly one role |
| `HomeRoles.RoleTable` | src/home/home.controller.ts:30-101 | `getHomes` and `getHome` declare no roles. `createHome`, `updateHome`, `deleteHome` and `getHomeMessages` require REALTOR. `inquire` requires BUYER |
| `HomeRoles.EndpointAccess` | src/home/home.controller.ts:30-102 | open endpoints pass with no token work. Any other endpoint passes iff the token verifies, a user is stored under its id, and that user is of the endpoint's one admitted kind |
| `HomeRoles.BuyersAndRealtorsDisjoint` | src/home/home.controller.ts:91-101 | no request is admitted both to the buyer-only endpoint and to a realtor-only one |
| `HomeRoles.RealtorMayUpdate` | src/home/home.controller.ts:64-65 | a realtor with a valid "Bearer <jwt>" header is admitted to `updateHome` after exactly three steps: header read, verify, one lookup |

## Left out

- JWT cryptography: signature and expiry checks happen inside `jwt.verify`, which is the `verify` oracle. The one library rule that is modelled is that a falsy token (undefined or `""`) is rejected without consulting the key.
- The verification key from `process.env.JSON_TOKEN_KEY` is ambient configuration. The `verify` oracle stands for verification under whatever key is configured.
- The user store (`prismaService.user.findUnique`) and every `HomeService` method are oracles. The service file is not part of this model, so it is not modelled: the field mapping in `createHome`, and the not-found exception for an empty listing result.
- `getHome`, `createHome` and `inquire` forward their arguments to the service and decide nothing. Only their role declarations are modelled (`HomeRoles.RequiredRoles`).
- `Reflector.getAllAndOverride` and the `@Roles` decorator: the endpoint table stands for the metadata lookup. The controller class declares no roles, so the class-level fallback never applies.
- `console.log(roles)` is output only.
- `ExecutionContext`, request objects, `ParseIntPipe`, DTO validation and the `@User` decorator are framework plumbing. The caller reaches the handlers as a `JwtPayload`.
- An `authorization` header that is not a single string (repeated headers) is not modelled: the header is an optional string.
- `HomeController.GetHomesFilter`: the bounds are only `parseFloat(...)` of the strings. `parseFloat` is a parameter, so NaN and the parsing of a numeric prefix are not modelled.
- `HomeController.OwnerOnly`: a service that returns `null` for the realtor would make `realtor.id` throw a `TypeError`. The model assumes the lookup either returns a realtor or throws.
- Promises and `async`/`await` are sequential here, since the calls are made one after another.
- The `UserType` enumeration is taken as BUYER, REALTOR and ADMIN. The database schema that defines it is not part of this model.
