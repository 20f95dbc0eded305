# Mana Food API gateway: decision logic in Dafny

This project models the start-up and request-time decision logic of the
Mana Food API gateway, an ASP.NET Core / YARP reverse proxy in front of a
user service and an authentication lambda, and proves properties of it.

- **Configuration validators.** `JwtConfiguration.Validate` checks Secret, then
  Issuer, then Audience, and fails on the first blank one.
  `ServiceEndpoint.Validate` first rejects a blank URL, then a URL that is
  not absolute. Each failure becomes a `Fail`/`Err` value that carries the
  exception's exact message.
- **Claim rename** (`TransformClaims`). For role, e-mail and name-identifier,
  the method finds the first claim whose type is the long URI form. It
  queues that claim for removal and queues a short `role`/`email`/`sub` claim
  with the same value for addition. Then it removes every queued claim
  and appends every new one.
  - The model is imperative. `Claim` is a class, because `RemoveClaim`
    removes a particular instance. `ClaimsIdentity` is a class whose
    `claims` field the methods update.
  - The method is proved against the specification function
    `Normalize`, which works on the (type, value) view.
- **Authorization policies.** The eight named policies are modelled with
  `RequireRole` any-of semantics and `RequireAuthenticatedUser`. They come
  with the registry lookup by name and the decision `Allows(policy, caller)`.
- **JWT bearer set-up.** `AddJwtAuthentication` first clears the token
  handler's inbound claim map. Then it fails on a missing `Jwt` section,
  validates the section, and registers a fixed
  `TokenValidationParameters` record. That record's signing key is the UTF-8
  encoding of the secret. Its `OnTokenValidated` handler runs
  `TransformClaims`.
- **Reverse-proxy tables.** The model covers the eight routes and the two
  clusters, and the guard chain of `AddGatewayReverseProxy`: a missing
  `Services` section, then UserService, then AuthLambda.

Modules:

| module | file | contents |
|---|---|---|
| `Results` | `Results.dfy` | Option, Outcome, Result |
| `Text` | `Text.dfy` | `string.IsNullOrWhiteSpace` and UTF-8 |
| `JwtConfiguration` | `JwtConfiguration.dfy` | the `Jwt` section and its validator |
| `RouteConfiguration` | `RouteConfiguration.dfy` | the `Services` section and `ServiceEndpoint.Validate` |
| `ClaimTransformation` | `ClaimTransformation.dfy` | `TransformClaims` |
| `AuthExtension` | `AuthExtension.dfy` | policies, role decisions, JWT bearer options |
| `ReverseProxyExtension` | `ReverseProxyExtension.dfy` | routes, clusters, proxy loading |
| `ServiceRegistration` | `Registration.dfy` | the service collection, the inbound claim map, the three `Add…` extension methods |

Where the code and its tests disagree, the model follows the code.
`tests/Extensions/ReverseProxyExtensionTests.cs:166` expects three clusters
and line 215 passes a PaymentService URL. `BuildClusters` builds two, and
`ServicesConfiguration` has no such field. The model builds the two.

## Model

| member | source | states |
|---|---|---|
| `Text.IsWhiteSpace` | src/Configurations/JwtConfiguration.cs:11-17 | `char.IsWhiteSpace`: the Unicode white-space set .NET uses (tab to carriage return, space, U+0085, U+00A0, U+1680, U+2000..U+200A, U+2028, U+2029, U+202F, U+205F, U+3000); its lemma is `Text.BlankCases` |
| `Text.IsNullOrWhiteSpace` | src/Configurations/JwtConfiguration.cs:11-17 | `string.IsNullOrWhiteSpace`: null, empty or made only of white space; its lemma is `Text.BlankCases` |
| `Text.BlankCases` | src/Configurations/RouteConfiguration.cs:15 | null, the empty string and an all-white string are blank; a string holding one non-white character is not |
| `Text.EqualsIgnoreCaseIsCharwise` | src/Extensions/AuthExtension.cs:63-88 | `OrdinalIgnoreCase` equality holds exactly when the strings have the same length and agree character by character after upper-casing |
| `Text.EncodeScalar` | src/Extensions/AuthExtension.cs:46 | one character's UTF-8 encoding: 1 to 4 bytes, one byte exactly for code points below 0x80 and then equal to it, otherwise a lead byte of at least 0xC0 followed by continuation bytes in 0x80..0xBF |
| `Text.Utf8` | src/Extensions/AuthExtension.cs:46 | `Encoding.UTF8.GetBytes`: the encoding of a string has between one and four bytes per character |
| `Text.Utf8OfAscii` | src/Extensions/AuthExtension.cs:46 | an ASCII secret encodes to the same number of bytes, each equal to its character's code |
| `JwtConfiguration.Validate` | src/Configurations/JwtConfiguration.cs:9-19 | passes exactly when Secret, Issuer and Audience are all non-blank (null, empty and whitespace-only are blank); a failure carries the message of a blank field |
| `JwtConfiguration.RequiredMessageInjective` | src/Configurations/JwtConfiguration.cs:11-18 | the three "JWT … is required" messages are pairwise distinct, so the message identifies the field |
| `JwtConfiguration.ValidateReportsFirstBlankField` | src/Configurations/JwtConfiguration.cs:11-18 | Validate fails with field f's message if and only if f is blank and every field checked before it is not |
| `JwtConfiguration.DefaultFailsOnSecret` | src/Configurations/JwtConfiguration.cs:5-7 | a fresh configuration has empty Secret, Issuer and Audience and is rejected with "JWT Secret is required" |
| `RouteConfiguration.Validate` | src/Configurations/RouteConfiguration.cs:13-20 | passes exactly when the URL is non-blank and absolute; a blank URL gives "<name> URL é obrigatória"; a non-blank non-absolute one gives "<name> URL é inválida: <url>" |
| `RouteConfiguration.InvalidMessageEchoesUrl` | src/Configurations/RouteConfiguration.cs:18-19 | the invalid-URL message starts with the service name and ends with the raw URL, verbatim |
| `RouteConfiguration.RequiredAndInvalidDiffer` | src/Configurations/RouteConfiguration.cs:15-19 | the two error messages of one service never coincide, whatever the URL |
| `RouteConfiguration.BlankReportedBeforeParse` | src/Configurations/RouteConfiguration.cs:15-19 | for a blank URL the outcome does not depend on the URI parser: it is always the "obrigatória" error |
| `RouteConfiguration.DefaultServicesAreMissing` | src/Configurations/RouteConfiguration.cs:3-11 | a default ServicesConfiguration has both endpoints present with empty URLs, and each fails validation as missing |
| `ClaimTransformation.Normalize` | src/Extensions/ClaimTransformationExtension.cs:8-55 | the specification of the rename on (type, value) pairs: the claims that are kept, then the short claims added; its properties are the `Normalize…` lemmas below and `TransformClaims` is proved against it |
| `ClaimTransformation.FirstIndex` | src/Extensions/ClaimTransformationExtension.cs:17-19 | `FindFirst` on the value view: the index of a claim of the kind's long form with none before it, or none when no claim matches |
| `ClaimTransformation.LongFormsDisjoint` | src/Extensions/ClaimTransformationExtension.cs:17-39 | a claim type matches at most one of the three selectors |
| `ClaimTransformation.ShortFormsAreNotLongForms` | src/Extensions/ClaimTransformationExtension.cs:23-43 | no added short claim matches any selector, so a second pass would not rename it |
| `ClaimTransformation.NormalizePreservesCount` | src/Extensions/ClaimTransformationExtension.cs:20-54 | the rename keeps the number of claims: each removal is paired with one addition |
| `ClaimTransformation.NormalizeRewritesOnlyFirst` | src/Extensions/ClaimTransformationExtension.cs:17-44 | of the long-form claims of a kind, exactly the first is removed; later ones stay, in order |
| `ClaimTransformation.NormalizeAddsShortClaim` | src/Extensions/ClaimTransformationExtension.cs:20-24 | when a long-form claim of a kind exists, a short claim with its value is in the result |
| `ClaimTransformation.NormalizeKeepsUnrelatedClaims` | src/Extensions/ClaimTransformationExtension.cs:46-54 | the claims that are neither long nor short forms come out unchanged and in their original order |
| `ClaimTransformation.RemoveFirstOfRetains` | src/Extensions/ClaimTransformationExtension.cs:47-50 | removing the first claim of one kind keeps every claim that does not match that kind |
| `ClaimTransformation.KeptRetainsUnmatched` | src/Extensions/ClaimTransformationExtension.cs:47-50 | a claim matching none of the three kinds is still present after the rename |
| `ClaimTransformation.NormalizeWithoutLongFormsIsIdentity` | tests/Extensions/ClaimTransformationExtensionTests.cs:191-211 | with no long-form claims the claim list is unchanged |
| `ClaimTransformation.NormalizeAppendsInOrder` | tests/Extensions/ClaimTransformationExtensionTests.cs:165-188 | when all three kinds are present, the last three claims are role, email, sub, each with its original value |
| `ClaimTransformation.RemoveFoundClaim` | src/Extensions/ClaimTransformationExtension.cs:22 | removing the instance FindFirst returned removes, in the value view, exactly the first claim of that kind |
| `ClaimTransformation.FoundAfterRemovingOther` | src/Extensions/ClaimTransformationExtension.cs:47-50 | removing the claim found for one kind leaves what FindFirst finds for the other kinds unchanged |
| `ClaimTransformation.RemoveFoundAll` | src/Extensions/ClaimTransformationExtension.cs:46-50 | removing the three found instances one after another leaves the claims that `Normalize` keeps |
| `ClaimTransformation.ClaimsIdentity.FindFirst` | src/Extensions/ClaimTransformationExtension.cs:17-19 | returns the claim object at the first matching index, or null when none matches |
| `ClaimTransformation.ClaimsIdentity.RemoveClaim` | src/Extensions/ClaimTransformationExtension.cs:49 | removes the first occurrence of that very instance, comparing references; reports false exactly when it is absent, which is where .NET throws |
| `ClaimTransformation.ClaimsIdentity.AddClaim` | src/Extensions/ClaimTransformationExtension.cs:53 | appends a claim with the same type and value and leaves the earlier claims in place |
| `ClaimTransformation.CollectRename` | src/Extensions/ClaimTransformationExtension.cs:16-44 | one map block: the found claim is queued for removal and a short claim with its value for addition, or nothing is queued |
| `ClaimTransformation.RemoveEach` | src/Extensions/ClaimTransformationExtension.cs:47-50 | succeeds exactly when each queued instance is still present at its turn, and then leaves the old claims with those instances removed one by one; otherwise it stops at the first missing one with RemoveClaim's exception |
| `ClaimTransformation.FoundAllPresent` | src/Extensions/ClaimTransformationExtension.cs:22-49 | the three claims queued for removal are distinct objects of the identity, and removing one keeps the others, so no RemoveClaim call throws |
| `ClaimTransformation.AddEach` | src/Extensions/ClaimTransformationExtension.cs:51-54 | the queued claims are appended, in order, after the existing ones |
| `ClaimTransformation.TransformClaims` | src/Extensions/ClaimTransformationExtension.cs:8-55 | never fails; without a ClaimsIdentity nothing changes; otherwise the new claims are `Normalize` of the old ones, and the prefix before the appended claims holds the surviving original objects |
| `AuthExtension.Requirements` | src/Extensions/AuthExtension.cs:65-87 | the requirements each `AddPolicy` call builds: one `RequireRole` any-of set per role policy, `RequireAuthenticatedUser` for AuthenticatedUser; stated by `AuthExtension.RoleTableListsRequiredRoles` |
| `AuthExtension.Allows` | src/Extensions/AuthExtension.cs:65-87 | a policy allows a caller when every requirement is satisfied; characterised by `AuthExtension.AllowsMatchesRoleTable` |
| `AuthExtension.RolesOf` | src/Extensions/AuthExtension.cs:65-87 | the independent role table (role set per policy, none for AuthenticatedUser) that `AuthExtension.AllowsMatchesRoleTable` and `AuthExtension.RoleTableListsRequiredRoles` tie to `Requirements` and `Allows` |
| `AuthExtension.CallerOf` | src/Extensions/AuthExtension.cs:53 | the caller's roles are exactly the values of the claims whose type equals `role` ignoring case, as `ClaimsPrincipal.IsInRole` reads them |
| `AuthExtension.CallerOfIgnoresTypeCase` | src/Extensions/AuthExtension.cs:53 | a claim typed `Role` grants its role; a claim with the long role URI type grants none |
| `AuthExtension.GetPolicy` | src/Extensions/AuthExtension.cs:63-88 | `AuthorizationOptions.GetPolicy`: a found policy is registered and its name equals the requested one ignoring case; none is found only when no registered name matches |
| `AuthExtension.GetPolicyLastWins` | src/Extensions/AuthExtension.cs:63-88 | when several registered names match ignoring case, the last one registered is returned, as a later `AddPolicy` replaces an earlier one |
| `AuthExtension.AllowsMatchesRoleTable` | src/Extensions/AuthExtension.cs:65-87 | a role policy allows a caller exactly when the caller is authenticated and holds a role in that policy's set; AuthenticatedUser allows exactly the authenticated callers |
| `AuthExtension.RoleTableListsRequiredRoles` | src/Extensions/AuthExtension.cs:65-87 | each role policy has one RolesRequirement whose roles are that policy's role set |
| `AuthExtension.CatalogueIsComplete` | src/Extensions/AuthExtension.cs:65-87 | exactly eight policies are registered, with distinct names, each with one requirement |
| `AuthExtension.CatalogueNamesDifferIgnoringCase` | src/Extensions/AuthExtension.cs:65-87 | no two of the eight registered names are equal even ignoring case, so no registration replaces another |
| `AuthExtension.PolicyNamesDifferIgnoringCase` | src/Extensions/AuthExtension.cs:65-87 | two policies whose names are equal ignoring case are the same policy |
| `AuthExtension.PolicyNameInjective` | tests/Constants/RolesAndPoliciesTests.cs:36-43 | two policies with the same name are the same policy |
| `AuthExtension.LookupPolicyRoundTrip` | src/Extensions/AuthExtension.cs:65-87 | looking a policy up by its name yields that policy |
| `AuthExtension.LookupPolicyIgnoresCase` | src/Extensions/AuthExtension.cs:65-87 | any spelling of a policy's name that equals it ignoring case resolves to that policy |
| `AuthExtension.LookupPolicyCaseVariant` | src/Extensions/AuthExtension.cs:65-66 | "adminonly" resolves to AdminOnly |
| `AuthExtension.LookupPolicyKnowsOnlyPolicyNames` | src/Extensions/AuthExtension.cs:65-87 | a name resolves exactly when it equals one of the eight policy names ignoring case |
| `AuthExtension.AdminAllowedEverywhere` | src/Extensions/AuthExtension.cs:65-87 | a caller holding ADMIN is allowed by every policy |
| `AuthExtension.CustomerOnlyAllowedByAuthenticatedUser` | src/Extensions/AuthExtension.cs:65-87 | a caller holding only CUSTOMER is allowed by AuthenticatedUser and by no other policy |
| `AuthExtension.AdminOnlyRequiresAdmin` | src/Extensions/AuthExtension.cs:65-66 | AdminOnly allows a caller exactly when the caller holds ADMIN; a manager-only caller is refused |
| `AuthExtension.AnonymousDeniedEverywhere` | src/Extensions/AuthExtension.cs:65-87 | no policy allows an unauthenticated request |
| `AuthExtension.AuthenticatedUserAdmitsAll` | src/Extensions/AuthExtension.cs:80-81 | AuthenticatedUser allows a request exactly when the caller is authenticated, whatever the roles |
| `AuthExtension.ManagementIsAdminOrManager` | src/Extensions/AuthExtension.cs:68-78 | Management and AdminOrManager decide every request alike |
| `AuthExtension.RoleNamesAreKnown` | tests/Constants/RolesAndPoliciesTests.cs:10-30 | there are five distinct role names; every role a policy requires is one of them, and none requires CUSTOMER |
| `AuthExtension.OperatorMayQueryData` | src/Extensions/AuthExtension.cs:68-87 | an operator-only caller is allowed by DataQuery and refused by AdminOrManager |
| `AuthExtension.RenameGrantsFirstLongFormRole` | src/Extensions/ClaimTransformationExtension.cs:17-24 | after the rename, the value of the first long-form role claim is a role under the `role` claim type, and no role the caller had is lost |
| `AuthExtension.ShortRoleClaimSurvives` | src/Extensions/ClaimTransformationExtension.cs:17-19 | a claim already of type `role` is not touched by the rename |
| `AuthExtension.TransformedAdminTokenAllowedEverywhere` | src/Extensions/AuthExtension.cs:32-35 | a token whose first long-form role claim is ADMIN is allowed by every policy once transformed |
| `AuthExtension.JwtBearerSetup` | src/Extensions/AuthExtension.cs:17-55 | a missing section gives "JWT configuration is missing"; a failed validation gives its message; whenever there is no error the result is the Bearer options with the configured issuer, audience and UTF-8 key and the TransformClaims handler |
| `AuthExtension.ValidationParametersAreFixed` | src/Extensions/AuthExtension.cs:43-55 | in the registered parameters the key, issuer, audience and lifetime are all validated, the clock skew is zero, roles are read from `role` and names from `name`, and the key is non-empty |
| `AuthExtension.SetupReportsFirstBlankField` | src/Extensions/AuthExtension.cs:20 | the set-up fails with the first blank field's message |
| `AuthExtension.OnTokenValidated` | src/Extensions/AuthExtension.cs:32-35 | a validated token's ClaimsIdentity always gets its claims rewritten as TransformClaims does, without an error |
| `ReverseProxyExtension.BuildRoutes` | src/Extensions/ReverseProxyExtension.cs:29-103 | the eight routes as data; stated by `RouteIdsAreUnique`, `PathMethodPairsAreUnique`, `RoutesReferToClusters` and `RoutePolicies` |
| `ReverseProxyExtension.BuildClusters` | src/Extensions/ReverseProxyExtension.cs:105-126 | the two clusters as data; stated by `ClusterTable` |
| `ReverseProxyExtension.RouteAdmits` | src/Extensions/ReverseProxyExtension.cs:29-103 | a route without a policy admits every request; otherwise the request must be allowed by the policy its name resolves to; stated by `PublicRoutesAdmitAnonymous`, `ProtectedRoutesDenyAnonymous` and `AdminReachesEveryRoute` |
| `ReverseProxyExtension.LoadProxyConfig` | src/Extensions/ReverseProxyExtension.cs:14-21 | a missing section gives "Services configuration is missing"; a loaded configuration comes from a present section and holds BuildRoutes and BuildClusters of it |
| `ReverseProxyExtension.RouteIdsAreUnique` | src/Extensions/ReverseProxyExtension.cs:29-102 | there are exactly eight routes, with pairwise distinct ids |
| `ReverseProxyExtension.PathMethodPairsAreUnique` | src/Extensions/ReverseProxyExtension.cs:29-102 | two routes with the same path share no HTTP method |
| `ReverseProxyExtension.RoutesReferToClusters` | src/Extensions/ReverseProxyExtension.cs:29-126 | every route's cluster id is the id of a built cluster |
| `ReverseProxyExtension.RoutePolicies` | src/Extensions/ReverseProxyExtension.cs:33-101 | exactly the first two routes, auth-login and users-create, have no policy; every other route names AdminOrManager or DataQuery |
| `ReverseProxyExtension.RoutePoliciesAreRegistered` | src/Extensions/ReverseProxyExtension.cs:33-101 | every policy name a route carries resolves to AdminOrManager or DataQuery in the policy registry |
| `ReverseProxyExtension.ClusterTable` | src/Extensions/ReverseProxyExtension.cs:105-126 | exactly two clusters, authCluster and userServiceCluster, each with one destination whose address is the configured AuthLambda or UserService URL |
| `ReverseProxyExtension.MissingSectionFailsFirst` | src/Extensions/ReverseProxyExtension.cs:14-15 | without a `Services` section the load fails with "Services configuration is missing" |
| `ReverseProxyExtension.ServicesValidatedInOrder` | src/Extensions/ReverseProxyExtension.cs:17-18 | a UserService error is reported first; an AuthLambda error is reported only when UserService passes; the load succeeds exactly when both pass |
| `ReverseProxyExtension.BlankUserServiceReportedFirst` | src/Extensions/ReverseProxyExtension.cs:17 | a blank UserService URL fails the load with "UserService URL é obrigatória", whatever AuthLambda holds |
| `ReverseProxyExtension.LoadedDestinationsAreAbsolute` | src/Extensions/ReverseProxyExtension.cs:17-21 | every destination of a loaded configuration has a non-blank, absolute address |
| `ReverseProxyExtension.PublicRoutesAdmitAnonymous` | src/Extensions/ReverseProxyExtension.cs:33-47 | routes auth-login and users-create exist and admit unauthenticated requests |
| `ReverseProxyExtension.ProtectedRoutesDenyAnonymous` | src/Extensions/ReverseProxyExtension.cs:49-101 | every route carrying a policy refuses unauthenticated requests |
| `ReverseProxyExtension.OperatorCannotListUsers` | src/Extensions/ReverseProxyExtension.cs:50-56 | route users-list exists and refuses an operator-only caller |
| `ReverseProxyExtension.OperatorCanFindUserByEmail` | src/Extensions/ReverseProxyExtension.cs:68-74 | route users-by-email exists and admits an operator-only caller |
| `ReverseProxyExtension.AdminReachesEveryRoute` | src/Extensions/ReverseProxyExtension.cs:29-102 | an ADMIN caller is admitted by every route |
| `ServiceRegistration.InboundClaimTypeMap.Clear` | src/Extensions/AuthExtension.cs:14 | the inbound claim-type map becomes empty |
| `ServiceRegistration.MapInbound` | src/Extensions/AuthExtension.cs:14 | the handler's inbound rename keeps the number of claims and their values |
| `ServiceRegistration.ClearedMapKeepsTokenClaimTypes` | src/Extensions/AuthExtension.cs:14 | an empty inbound map renames no claim, so the caller's roles are those of the claims as given |
| `ServiceRegistration.AddJwtAuthentication` | src/Extensions/AuthExtension.cs:12-59 | the inbound map is cleared whatever follows; on a missing or invalid section the call fails with that message and registers nothing; otherwise it registers the Bearer options and returns normally |
| `ServiceRegistration.AddAuthorizationPolicies` | src/Extensions/AuthExtension.cs:61-91 | the eight policies are registered, appended after the earlier registrations |
| `ServiceRegistration.AddGatewayReverseProxy` | src/Extensions/ReverseProxyExtension.cs:12-27 | on a missing section or an invalid URL the call fails with that message and registers nothing; otherwise it registers the loaded routes and clusters |
| `ServiceRegistration.RoutePoliciesAreInCatalogue` | src/Program.cs:7-9 | every policy a loaded route names is one AddAuthorizationPolicies registers |

## Left out

- Token cryptography: signature, issuer, audience and lifetime checks are done by the token handler library. Only the parameter record is modelled.
- Path-template matching, route precedence and request forwarding are YARP internals. The route table is data, and routes are looked up only by id.
- `ReverseProxyExtension.RouteAdmits`: a route without a policy admits everyone, because no fallback policy is configured. A route naming an unknown policy is a configuration YARP rejects when it loads; the model answers `false` for it instead. `ServiceRegistration.RoutePoliciesAreInCatalogue` shows the eight routes never name one.
- `Uri.TryCreate(…, UriKind.Absolute)` is the parameter `isAbsoluteUri`. Nothing is assumed about it, so the claim that absolute http/https URLs pass holds exactly for the URLs the parser accepts.
- Configuration binding (`GetSection("…").Get<T>()`) is the input: an absent section is `None`, a bound one `Some(…)`, and a null string property `None`.
- The dependency-injection container is a list of registrations. The `AddJwtBearer` options lambda, which ASP.NET runs lazily, is modelled as computed at once.
- CORS, `/healthz`, the middleware pipeline, `src/Program.cs` and the root `Program.cs` are host wiring. The root file repeats `TransformClaims` and the route table without policies.
- `OnAuthenticationFailed` (console logging) and `OnChallenge` (does nothing) are not modelled.
- Claim types in `TransformClaims` are compared by ordinal equality, which is what its lambdas do. Policy names and the role claim type read by `IsInRole` are compared ignoring case, as ASP.NET does.
- `Text.FoldCase` folds ASCII letters only. `OrdinalIgnoreCase` also folds non-ASCII letters; none of the policy or role names has one.
- `ServiceRegistration.ClearedMapKeepsTokenClaimTypes` is about the rename table only. The token handler `AddJwtBearer` uses is chosen by the framework, not by the code, so the model does not connect the cleared map to the claims `TransformClaims` receives. `TransformClaims` renames long-form claim types whether or not they arrive.
- `ClaimTransformation.TransformClaims`: the new claims' issuer and the identity's other properties are not modelled, only type and value.
- `ClaimTransformation.TransformClaims`: the three map blocks are factored into `CollectRename`, and the two loops into `RemoveEach` and `AddEach`. The statements and their order are unchanged.
- `ClaimTransformation.ClaimNotRemovedMessage` stands for the text of the InvalidOperationException `RemoveClaim` throws. The framework's full message is not reproduced.
- `ClaimTransformation.ClaimsIdentity.RemoveClaim` considers only the identity's own claims. Claims the framework exposes from elsewhere, which .NET also refuses to remove, do not arise here.
- `Text.Utf8` works on Unicode scalar values, with one `char` per code point. Strings holding lone UTF-16 surrogates, which .NET encodes as U+FFFD, are not modelled.
- `JwtConfiguration.Validate` and `RouteConfiguration.Validate` are functions, so they cannot modify the configuration they check.
- The default inbound claim-type map's initial content is not modelled. It comes from the token handler library, and the code only clears it.
