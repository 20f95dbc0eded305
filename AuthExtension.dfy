/** The authentication and authorization set-up of the gateway
    (src/Extensions/AuthExtension.cs): the fixed catalogue of eight named
    policies, what each demands of a caller, and the JWT bearer options
    registered once the `Jwt` section has been validated. */
module AuthExtension {
  import opened Results
  import opened Text
  import opened JwtConfiguration
  import opened ClaimTransformation

  // ---------------------------------------------------------------------
  // Roles and policies (ApiGateway.Constants)
  // ---------------------------------------------------------------------

  const Admin := "ADMIN"
  const Customer := "CUSTOMER"
  const Kitchen := "KITCHEN"
  const Operator := "OPERATOR"
  const Manager := "MANAGER"

  /** The roles a token can carry. */
  const AllRoles: seq<string> := [Admin, Customer, Kitchen, Operator, Manager]

  datatype Policy =
    | AdminOnly | AdminOrManager | KitchenStaff | Operators
    | Management | AuthenticatedUser | OrderManagement | DataQuery

  /** The policy's registered name (the Policies constants). */
  function PolicyName(p: Policy): string {
    match p
    case AdminOnly => "AdminOnly"
    case AdminOrManager => "AdminOrManager"
    case KitchenStaff => "KitchenStaff"
    case Operators => "Operators"
    case Management => "Management"
    case AuthenticatedUser => "AuthenticatedUser"
    case OrderManagement => "OrderManagement"
    case DataQuery => "DataQuery"
  }

  /** The policies in the order AddAuthorizationPolicies registers them. */
  const Catalogue: seq<Policy> :=
    [AdminOnly, AdminOrManager, KitchenStaff, Operators, Management, AuthenticatedUser, OrderManagement, DataQuery]

  /** The requirement an authorization policy builder call adds:
      RequireRole(r1, ..., rn) adds a roles requirement, satisfied by a
      caller in at least one of the roles; RequireAuthenticatedUser adds the
      deny-anonymous requirement. */
  datatype Requirement = RolesRequirement(allowedRoles: seq<string>) | DenyAnonymous

  /** The requirements of each policy, in the role order the source lists. */
  function Requirements(p: Policy): seq<Requirement> {
    match p
    case AdminOnly => [RolesRequirement([Admin])]
    case AdminOrManager => [RolesRequirement([Admin, Manager])]
    case KitchenStaff => [RolesRequirement([Kitchen, Admin, Manager])]
    case Operators => [RolesRequirement([Operator, Admin, Manager])]
    case Management => [RolesRequirement([Admin, Manager])]
    case AuthenticatedUser => [DenyAnonymous]
    case OrderManagement => [RolesRequirement([Admin, Kitchen])]
    case DataQuery => [RolesRequirement([Admin, Manager, Operator])]
  }

  /** An authenticated caller, seen through the roles its principal is in. */
  datatype Caller = Caller(roles: set<string>)

  /** Whether one requirement holds for a caller; `None` is an anonymous
      request. */
  predicate Satisfies(who: Option<Caller>, req: Requirement) {
    match req
    case RolesRequirement(rs) => who.Some? && exists r :: r in rs && r in who.value.roles
    case DenyAnonymous => who.Some?
  }

  /** A policy succeeds when each of its requirements holds. */
  predicate Allows(p: Policy, who: Option<Caller>) {
    forall i :: 0 <= i < |Requirements(p)| ==> Satisfies(who, Requirements(p)[i])
  }

  /** The role table: the any-of role set of a role policy, or None for the
      policy that only asks for an authenticated user. */
  function RolesOf(p: Policy): Option<set<string>> {
    match p
    case AdminOnly => Some({Admin})
    case AdminOrManager => Some({Admin, Manager})
    case KitchenStaff => Some({Kitchen, Admin, Manager})
    case Operators => Some({Operator, Admin, Manager})
    case Management => Some({Admin, Manager})
    case AuthenticatedUser => None
    case OrderManagement => Some({Admin, Kitchen})
    case DataQuery => Some({Admin, Manager, Operator})
  }

  /** AuthorizationOptions.GetPolicy over the registered list. The options
      keep their policies in a dictionary whose keys compare with
      OrdinalIgnoreCase, and a later AddPolicy under an equal name replaces
      the earlier one: the lookup yields the LAST registered policy whose
      name equals `name` ignoring case. */
  function GetPolicy(options: seq<Policy>, name: string): (r: Option<Policy>)
    decreases |options|
    ensures r.Some? ==> r.value in options && EqualsIgnoreCase(PolicyName(r.value), name)
    ensures r.None? ==> forall i :: 0 <= i < |options| ==> !EqualsIgnoreCase(PolicyName(options[i]), name)
  {
    if |options| == 0 then None
    else if EqualsIgnoreCase(PolicyName(options[|options| - 1]), name) then Some(options[|options| - 1])
    else GetPolicy(options[..|options| - 1], name)
  }

  /** Last registration wins: the lookup yields the policy at the last
      position whose name equals `name` ignoring case. */
  lemma {:induction false} GetPolicyLastWins(options: seq<Policy>, name: string, i: nat)
    requires i < |options| && EqualsIgnoreCase(PolicyName(options[i]), name)
    requires forall j :: i < j < |options| ==> !EqualsIgnoreCase(PolicyName(options[j]), name)
    ensures GetPolicy(options, name) == Some(options[i])
    decreases |options|
  {
    if i < |options| - 1 {
      var front := options[..|options| - 1];
      assert front[i] == options[i];
      GetPolicyLastWins(front, name, i);
    }
  }

  /** The policy named `name` in the registered catalogue. */
  function LookupPolicy(name: string): Option<Policy> {
    GetPolicy(Catalogue, name)
  }

  // ---------------------------------------------------------------------
  // Properties of the catalogue
  // ---------------------------------------------------------------------

  /** Allows agrees with the role table: an authenticated caller passes a
      role policy exactly when it holds one of the listed roles, and passes
      AuthenticatedUser whatever its roles; an anonymous caller passes none. */
  lemma AllowsMatchesRoleTable(p: Policy, who: Option<Caller>)
    ensures Allows(p, who) <==>
      who.Some? && (RolesOf(p).None? || exists r :: r in RolesOf(p).value && r in who.value.roles)
  {
    var req := Requirements(p)[0];
    assert Requirements(p) == [req];
    assert Allows(p, who) == Satisfies(who, req);
    if RolesOf(p).Some? {
      RoleTableListsRequiredRoles(p);
    }
  }

  /** The role table holds exactly the roles each RequireRole call lists. */
  lemma RoleTableListsRequiredRoles(p: Policy)
    requires RolesOf(p).Some?
    ensures Requirements(p)[0].RolesRequirement?
    ensures forall r :: r in RolesOf(p).value <==> r in Requirements(p)[0].allowedRoles
  {
  }

  /** Exactly eight policies are registered, under distinct names, and each
      has exactly one requirement. */
  lemma CatalogueIsComplete(p: Policy)
    ensures |Catalogue| == 8 && p in Catalogue
    ensures |Requirements(p)| == 1
    ensures forall i, j :: 0 <= i < j < |Catalogue| ==> PolicyName(Catalogue[i]) != PolicyName(Catalogue[j])
  {
  }

  /** No two registered names are equal even ignoring case, so no AddPolicy
      call replaces an earlier one. */
  lemma CatalogueNamesDifferIgnoringCase(i: nat, j: nat)
    requires i < j < |Catalogue|
    ensures !EqualsIgnoreCase(PolicyName(Catalogue[i]), PolicyName(Catalogue[j]))
  {
    PolicyNamesDifferIgnoringCase(Catalogue[i], Catalogue[j]);
  }

  /** Distinct policies have names that differ even ignoring case. */
  lemma PolicyNamesDifferIgnoringCase(p: Policy, q: Policy)
    ensures EqualsIgnoreCase(PolicyName(p), PolicyName(q)) ==> p == q
  {
    if p != q && |PolicyName(p)| == |PolicyName(q)| {
      assert FoldCase(PolicyName(p))[0] == UpperAscii(PolicyName(p)[0]);
      assert FoldCase(PolicyName(q))[0] == UpperAscii(PolicyName(q)[0]);
      assert PolicyName(p)[0] != PolicyName(q)[0];
    }
  }

  /** Distinct policies have distinct names. */
  lemma PolicyNameInjective(p: Policy, q: Policy)
    ensures PolicyName(p) == PolicyName(q) ==> p == q
  {
    PolicyNamesDifferIgnoringCase(p, q);
  }

  /** A name equal to a policy's name ignoring case finds that policy. */
  lemma LookupPolicyIgnoresCase(p: Policy, name: string)
    requires EqualsIgnoreCase(PolicyName(p), name)
    ensures LookupPolicy(name) == Some(p)
  {
    var r := LookupPolicy(name);
    assert p in Catalogue;
    assert r.Some?;
    assert EqualsIgnoreCase(PolicyName(r.value), PolicyName(p));
    PolicyNamesDifferIgnoringCase(p, r.value);
  }

  /** Every policy can be found again under its own name. */
  lemma LookupPolicyRoundTrip(p: Policy)
    ensures LookupPolicy(PolicyName(p)) == Some(p)
  {
    LookupPolicyIgnoresCase(p, PolicyName(p));
  }

  lemma AdminOnlyInLowerCase()
    ensures EqualsIgnoreCase(PolicyName(AdminOnly), "adminonly")
  {
    var a, b := PolicyName(AdminOnly), "adminonly";
    assert UpperAscii(a[0]) == UpperAscii(b[0]) == 'A';
    assert UpperAscii(a[5]) == UpperAscii(b[5]) == 'O';
    assert forall i :: 0 <= i < |a| ==> UpperAscii(a[i]) == UpperAscii(b[i]);
    EqualsIgnoreCaseIsCharwise(a, b);
  }

  /** A lower-case spelling of a policy name finds the policy. */
  lemma LookupPolicyCaseVariant()
    ensures LookupPolicy("adminonly") == Some(AdminOnly)
  {
    AdminOnlyInLowerCase();
    LookupPolicyIgnoresCase(AdminOnly, "adminonly");
  }

  /** A name resolves exactly when it equals one of the eight policy names
      ignoring case. */
  lemma LookupPolicyKnowsOnlyPolicyNames(name: string)
    ensures LookupPolicy(name).Some? <==> exists q :: EqualsIgnoreCase(PolicyName(q), name)
  {
    if exists q :: EqualsIgnoreCase(PolicyName(q), name) {
      var q :| EqualsIgnoreCase(PolicyName(q), name);
      LookupPolicyIgnoresCase(q, name);
    }
  }

  /** An administrator passes every policy. */
  lemma AdminAllowedEverywhere(p: Policy, c: Caller)
    requires Admin in c.roles
    ensures Allows(p, Some(c))
  {
    AllowsMatchesRoleTable(p, Some(c));
    if RolesOf(p).Some? {
      assert Admin in RolesOf(p).value;
    }
  }

  /** A caller whose only role is CUSTOMER passes AuthenticatedUser and no
      other policy. */
  lemma CustomerOnlyAllowedByAuthenticatedUser(p: Policy)
    ensures Allows(p, Some(Caller({Customer}))) <==> p == AuthenticatedUser
  {
    AllowsMatchesRoleTable(p, Some(Caller({Customer})));
  }

  /** AdminOnly refuses a manager and admits an administrator. */
  lemma AdminOnlyRequiresAdmin(c: Caller)
    ensures Allows(AdminOnly, Some(c)) <==> Admin in c.roles
    ensures !Allows(AdminOnly, Some(Caller({Manager}))) && Allows(AdminOnly, Some(Caller({Admin})))
  {
    AllowsMatchesRoleTable(AdminOnly, Some(c));
    AllowsMatchesRoleTable(AdminOnly, Some(Caller({Manager})));
    AllowsMatchesRoleTable(AdminOnly, Some(Caller({Admin})));
  }

  /** No policy admits an anonymous request. */
  lemma AnonymousDeniedEverywhere(p: Policy)
    ensures !Allows(p, None)
  {
    assert Requirements(p)[0] in Requirements(p);
  }

  /** AuthenticatedUser admits every authenticated caller, even one with no
      role at all. */
  lemma AuthenticatedUserAdmitsAll(who: Option<Caller>)
    ensures Allows(AuthenticatedUser, who) <==> who.Some?
  {
    AllowsMatchesRoleTable(AuthenticatedUser, who);
  }

  /** Management and AdminOrManager are registered with the same roles, so
      they decide every request alike. */
  lemma ManagementIsAdminOrManager(who: Option<Caller>)
    ensures Allows(Management, who) == Allows(AdminOrManager, who)
  {
    AllowsMatchesRoleTable(Management, who);
    AllowsMatchesRoleTable(AdminOrManager, who);
  }

  /** The five role names are distinct, and every role a policy requires is
      one of them; no policy names the customer role. */
  lemma RoleNamesAreKnown(p: Policy)
    ensures |AllRoles| == 5
    ensures forall i, j :: 0 <= i < j < |AllRoles| ==> AllRoles[i] != AllRoles[j]
    ensures RolesOf(p).Some? ==> forall r :: r in RolesOf(p).value ==> r in AllRoles && r != Customer
  {
  }

  /** An operator may query data (DataQuery) but is neither an administrator
      nor a manager (AdminOrManager). */
  lemma OperatorMayQueryData()
    ensures Allows(DataQuery, Some(Caller({Operator})))
    ensures !Allows(AdminOrManager, Some(Caller({Operator})))
  {
    AllowsMatchesRoleTable(DataQuery, Some(Caller({Operator})));
    AllowsMatchesRoleTable(AdminOrManager, Some(Caller({Operator})));
    assert Operator in RolesOf(DataQuery).value;
  }

  // ---------------------------------------------------------------------
  // Roles of a validated token
  // ---------------------------------------------------------------------

  /** TokenValidationParameters.RoleClaimType and NameClaimType. */
  const RoleClaimType := "role"
  const NameClaimType := "name"

  /** ClaimsIdentity.HasClaim(RoleClaimType, _) compares the claim type
      with OrdinalIgnoreCase (the value is compared exactly). */
  predicate IsRoleClaim(d: ClaimData) {
    EqualsIgnoreCase(d.claimType, RoleClaimType)
  }

  /** The roles ClaimsPrincipal.IsInRole reports: the values of the claims
      whose type is the configured role claim type, ignoring case. */
  function CallerOf(ds: seq<ClaimData>): (c: Caller)
    ensures forall r :: r in c.roles <==> exists i :: 0 <= i < |ds| && IsRoleClaim(ds[i]) && ds[i].value == r
  {
    Caller(set i | 0 <= i < |ds| && IsRoleClaim(ds[i]) :: ds[i].value)
  }

  /** A role claim whose type is spelled in another case still counts. */
  lemma CallerOfIgnoresTypeCase()
    ensures Admin in CallerOf([ClaimData("Role", Admin)]).roles
    ensures CallerOf([ClaimData(RoleClaimUri, Admin)]).roles == {}
  {
    var ds := [ClaimData("Role", Admin)];
    EqualsIgnoreCaseIsCharwise("Role", RoleClaimType);
    assert UpperAscii('R') == UpperAscii('r');
    assert IsRoleClaim(ds[0]);
    var long := [ClaimData(RoleClaimUri, Admin)];
    assert |FoldCase(long[0].claimType)| != |FoldCase(RoleClaimType)|;
  }

  /** Before the rename a role in long URI form is no role at all; after it
      the first such role counts, and every short `role` claim still does. */
  lemma RenameGrantsFirstLongFormRole(ds: seq<ClaimData>)
    ensures FirstIndex(ds, RoleKind).Some? ==>
      ds[FirstIndex(ds, RoleKind).value].value in CallerOf(Normalize(ds)).roles
    ensures CallerOf(ds).roles <= CallerOf(Normalize(ds)).roles
  {
    var n := Normalize(ds);
    if FirstIndex(ds, RoleKind).Some? {
      var d := ClaimData(ShortForm(RoleKind), ds[FirstIndex(ds, RoleKind).value].value);
      NormalizeAddsShortClaim(ds, RoleKind);
      var j :| 0 <= j < |n| && n[j] == d;
      assert IsRoleClaim(n[j]);
    }
    forall r | r in CallerOf(ds).roles
      ensures r in CallerOf(n).roles
    {
      var i :| 0 <= i < |ds| && IsRoleClaim(ds[i]) && ds[i].value == r;
      ShortRoleClaimSurvives(ds, i);
      var j :| 0 <= j < |n| && n[j] == ds[i];
      assert IsRoleClaim(n[j]);
    }
  }

  /** A short `role` claim, in any case, is never one of the claims the
      rename removes. */
  lemma ShortRoleClaimSurvives(ds: seq<ClaimData>, i: nat)
    requires i < |ds| && IsRoleClaim(ds[i])
    ensures ds[i] in Normalize(ds)
  {
    assert |ds[i].claimType| == |FoldCase(ds[i].claimType)| == |FoldCase(RoleClaimType)| == 4;
    ShortFormsAreNotLongForms(RoleKind, RoleKind);
    ShortFormsAreNotLongForms(RoleKind, EmailKind);
    ShortFormsAreNotLongForms(RoleKind, SubKind);
    KeptRetainsUnmatched(ds, i);
  }

  /** An administrator whose token carries the role in long URI form is
      allowed by every policy once the token has been transformed. */
  lemma TransformedAdminTokenAllowedEverywhere(ds: seq<ClaimData>, p: Policy)
    requires FirstIndex(ds, RoleKind).Some? && ds[FirstIndex(ds, RoleKind).value].value == Admin
    ensures Allows(p, Some(CallerOf(Normalize(ds))))
  {
    RenameGrantsFirstLongFormRole(ds);
    AdminAllowedEverywhere(p, CallerOf(Normalize(ds)));
  }

  // ---------------------------------------------------------------------
  // JWT bearer options (AddJwtAuthentication)
  // ---------------------------------------------------------------------

  /** The TokenValidationParameters record the gateway registers. The
      signing key is a SymmetricSecurityKey over the UTF-8 bytes of the
      secret; ClockSkew is a duration, here in seconds. */
  datatype TokenValidationParameters = TokenValidationParameters(
    validateIssuerSigningKey: bool,
    issuerSigningKey: seq<byte>,
    validateIssuer: bool,
    validIssuer: string,
    validateAudience: bool,
    validAudience: string,
    validateLifetime: bool,
    clockSkewSeconds: int,
    roleClaimType: string,
    nameClaimType: string)

  /** The handler installed as JwtBearerEvents.OnTokenValidated. */
  datatype TokenValidatedHandler = RunTransformClaims

  /** The options of the "Bearer" scheme. */
  datatype JwtBearerOptions = JwtBearerOptions(
    scheme: string,
    onTokenValidated: TokenValidatedHandler,
    parameters: TokenValidationParameters)

  const BearerScheme := "Bearer"
  const MissingJwtMessage := "JWT configuration is missing"

  /** What AddJwtAuthentication registers for the bound `Jwt` section
      (None when the section is absent): the missing-section error first,
      then the first validation error, otherwise the bearer options. */
  function JwtBearerSetup(section: Option<JwtConfig>): (r: Result<JwtBearerOptions>)
    ensures section.None? ==> r == Err(MissingJwtMessage)
    ensures section.Some? && Validate(section.value).Fail? ==> r == Err(Validate(section.value).message)
    ensures r.Ok? <==> section.Some? && Validate(section.value) == Pass
    ensures r.Ok? ==>
      var c := section.value;
      && r.value.scheme == BearerScheme
      && r.value.onTokenValidated == RunTransformClaims
      && r.value.parameters.validIssuer == c.issuer.value
      && r.value.parameters.validAudience == c.audience.value
      && r.value.parameters.issuerSigningKey == Utf8(c.secret.value)
  {
    match section
    case None => Err(MissingJwtMessage)
    case Some(c) =>
      match Validate(c)
      case Fail(msg) => Err(msg)
      case Pass =>
        Ok(JwtBearerOptions(BearerScheme, RunTransformClaims, TokenValidationParameters(
          validateIssuerSigningKey := true,
          issuerSigningKey := Utf8(c.secret.value),
          validateIssuer := true,
          validIssuer := c.issuer.value,
          validateAudience := true,
          validAudience := c.audience.value,
          validateLifetime := true,
          clockSkewSeconds := 0,
          roleClaimType := RoleClaimType,
          nameClaimType := NameClaimType)))
  }

  /** Whatever the configured values, the registered parameters validate
      the signing key, issuer, audience and lifetime with no clock skew,
      read roles from `role` and names from `name`, and hold a non-empty key. */
  lemma ValidationParametersAreFixed(section: Option<JwtConfig>)
    requires JwtBearerSetup(section).Ok?
    ensures var t := JwtBearerSetup(section).value.parameters;
      && t.validateIssuerSigningKey && t.validateIssuer && t.validateAudience && t.validateLifetime
      && t.clockSkewSeconds == 0
      && t.roleClaimType == "role" && t.nameClaimType == "name"
      && |t.issuerSigningKey| > 0
  {
    var c := section.value;
    assert !IsNullOrWhiteSpace(c.secret);
    assert |c.secret.value| > 0;
  }

  /** A configuration whose first blank field is f is rejected with that
      field's message, and nothing is registered. */
  lemma SetupReportsFirstBlankField(c: JwtConfig, f: Field)
    requires IsBlank(c, f) && forall g :: Rank(g) < Rank(f) ==> !IsBlank(c, g)
    ensures JwtBearerSetup(Some(c)) == Err(RequiredMessage(f))
  {
    ValidateReportsFirstBlankField(c, f);
  }

  /** JwtBearerEvents.OnTokenValidated: the installed handler rewrites the
      validated principal's claims, and never fails. */
  method OnTokenValidated(options: JwtBearerOptions, p: Principal) returns (r: Outcome)
    modifies Footprint(p)
    ensures r == Pass
    ensures p.WithClaimsIdentity? ==>
      View(p.identity.claims) == Normalize(old(View(p.identity.claims)))
  {
    match options.onTokenValidated
    case RunTransformClaims =>
      r := TransformClaims(p);
  }
}
