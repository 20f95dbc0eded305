/** The reverse-proxy tables of the gateway
    (src/Extensions/ReverseProxyExtension.cs): eight routes to two clusters,
    built once the `Services` section has been validated. */
module ReverseProxyExtension {
  import opened Results
  import opened RouteConfiguration
  import opened AuthExtension

  const UserServiceCluster := "userServiceCluster"
  const AuthCluster := "authCluster"
  const AuthDestination := "authDestination"
  const UserServiceDestination := "userServiceDestination"
  const MissingServicesMessage := "Services configuration is missing"

  /** YARP's RouteMatch: a path template and the HTTP methods it accepts. */
  datatype RouteMatch = RouteMatch(path: string, methods: seq<string>)

  /** YARP's RouteConfig; a route without a policy has none. */
  datatype RouteConfig = RouteConfig(
    routeId: string,
    clusterId: string,
    routeMatch: RouteMatch,
    authorizationPolicy: Option<string>)

  /** YARP's DestinationConfig: the address copied from a configured Url. */
  datatype DestinationConfig = DestinationConfig(address: Option<string>)

  /** YARP's ClusterConfig: its destinations keyed by name. */
  datatype ClusterConfig = ClusterConfig(clusterId: string, destinations: map<string, DestinationConfig>)

  /** The tables handed to LoadFromMemory. */
  datatype ProxyConfig = ProxyConfig(routes: seq<RouteConfig>, clusters: seq<ClusterConfig>)

  /** BuildRoutes: the fixed route table, in the source's order. */
  function BuildRoutes(): seq<RouteConfig> {
    [ RouteConfig("auth-login", AuthCluster, RouteMatch("/api/auth/login", ["POST", "OPTIONS"]), None),
      RouteConfig("users-create", UserServiceCluster, RouteMatch("/api/users", ["POST"]), None),
      RouteConfig("users-list", UserServiceCluster, RouteMatch("/api/users", ["GET"]),
        Some(PolicyName(AdminOrManager))),
      RouteConfig("users-get-by-id", UserServiceCluster, RouteMatch("/api/users/{id}", ["GET"]),
        Some(PolicyName(AdminOrManager))),
      RouteConfig("users-by-email", UserServiceCluster, RouteMatch("/api/users/email/{email}", ["GET"]),
        Some(PolicyName(DataQuery))),
      RouteConfig("users-by-cpf", UserServiceCluster, RouteMatch("/api/users/cpf/{cpf}", ["GET"]),
        Some(PolicyName(DataQuery))),
      RouteConfig("users-update", UserServiceCluster, RouteMatch("/api/users/{id}", ["PUT"]),
        Some(PolicyName(AdminOrManager))),
      RouteConfig("users-delete", UserServiceCluster, RouteMatch("/api/users/{id}", ["DELETE"]),
        Some(PolicyName(AdminOrManager))) ]
  }

  /** BuildClusters: one cluster per service, each with a single destination
      at the service's configured URL. */
  function BuildClusters(config: ServicesConfiguration): seq<ClusterConfig> {
    [ ClusterConfig(AuthCluster, map[AuthDestination := DestinationConfig(config.authLambda.url)]),
      ClusterConfig(UserServiceCluster, map[UserServiceDestination := DestinationConfig(config.userService.url)]) ]
  }

  /** The checks and tables of AddGatewayReverseProxy for the bound
      `Services` section (None when it is absent): the missing-section error,
      then UserService's URL, then AuthLambda's, then the two tables. */
  function LoadProxyConfig(section: Option<ServicesConfiguration>, isAbsoluteUri: string -> bool): (r: Result<ProxyConfig>)
    ensures section.None? ==> r == Err(MissingServicesMessage)
    ensures r.Ok? ==> section.Some? && r.value == ProxyConfig(BuildRoutes(), BuildClusters(section.value))
  {
    match section
    case None => Err(MissingServicesMessage)
    case Some(c) =>
      match Validate(c.userService, "UserService", isAbsoluteUri)
      case Fail(msg) => Err(msg)
      case Pass =>
        match Validate(c.authLambda, "AuthLambda", isAbsoluteUri)
        case Fail(msg) => Err(msg)
        case Pass => Ok(ProxyConfig(BuildRoutes(), BuildClusters(c)))
  }

  /** The route with a given id, if any. */
  function FindRoute(routes: seq<RouteConfig>, routeId: string): (r: Option<RouteConfig>)
    ensures r.Some? ==> r.value in routes && r.value.routeId == routeId
    ensures r.None? ==> forall i :: 0 <= i < |routes| ==> routes[i].routeId != routeId
  {
    if |routes| == 0 then None
    else if routes[0].routeId == routeId then Some(routes[0])
    else FindRoute(routes[1..], routeId)
  }

  /** Whether the authorization middleware lets a request through to the
      route: with no policy named (and no fallback policy registered) any
      request passes; otherwise the named policy decides, and a name that
      is not registered admits nobody. */
  predicate RouteAdmits(route: RouteConfig, who: Option<Caller>) {
    match route.authorizationPolicy
    case None => true
    case Some(name) =>
      match LookupPolicy(name)
      case None => false
      case Some(p) => Allows(p, who)
  }

  predicate Disjoint(a: seq<string>, b: seq<string>) {
    forall m :: m in a ==> m !in b
  }

  // ---------------------------------------------------------------------
  // Table invariants
  // ---------------------------------------------------------------------

  /** Eight routes with pairwise distinct ids. */
  lemma RouteIdsAreUnique()
    ensures |BuildRoutes()| == 8
    ensures forall i, j :: 0 <= i < j < |BuildRoutes()| ==> BuildRoutes()[i].routeId != BuildRoutes()[j].routeId
  {
    var rs := BuildRoutes();
    assert rs[0].routeId[0] != rs[2].routeId[0];
    assert rs[1].routeId[6] != rs[5].routeId[6] && rs[1].routeId[6] != rs[6].routeId[6];
    assert rs[1].routeId[6] != rs[7].routeId[6] && rs[5].routeId[6] != rs[6].routeId[6];
    assert rs[5].routeId[6] != rs[7].routeId[6] && rs[6].routeId[6] != rs[7].routeId[6];
  }

  /** No (path, method) pair is claimed by two routes. */
  lemma PathMethodPairsAreUnique()
    ensures forall i, j :: 0 <= i < j < |BuildRoutes()| && BuildRoutes()[i].routeMatch.path == BuildRoutes()[j].routeMatch.path ==>
      Disjoint(BuildRoutes()[i].routeMatch.methods, BuildRoutes()[j].routeMatch.methods)
  {
    var rs := BuildRoutes();
    assert rs[0].routeMatch.path[5] != rs[3].routeMatch.path[5];
  }

  /** Every route forwards to one of the clusters BuildClusters produces. */
  lemma RoutesReferToClusters(config: ServicesConfiguration, i: nat)
    requires i < |BuildRoutes()|
    ensures exists j :: 0 <= j < |BuildClusters(config)| && BuildClusters(config)[j].clusterId == BuildRoutes()[i].clusterId
  {
    var rs, cs := BuildRoutes(), BuildClusters(config);
    if rs[i].clusterId == AuthCluster {
      assert cs[0].clusterId == rs[i].clusterId;
    } else {
      assert cs[1].clusterId == rs[i].clusterId;
    }
  }

  /** Only the first two routes, auth-login and users-create, are public;
      every other route names AdminOrManager or DataQuery. */
  lemma RoutePolicies(i: nat)
    requires i < |BuildRoutes()|
    ensures BuildRoutes()[0].routeId == "auth-login" && BuildRoutes()[1].routeId == "users-create"
    ensures BuildRoutes()[i].authorizationPolicy.None? <==> i < 2
    ensures BuildRoutes()[i].authorizationPolicy.Some? ==>
      BuildRoutes()[i].authorizationPolicy.value in {PolicyName(AdminOrManager), PolicyName(DataQuery)}
  {
  }

  /** Every policy a route names is registered in the catalogue. */
  lemma RoutePoliciesAreRegistered(i: nat)
    requires i < |BuildRoutes()| && BuildRoutes()[i].authorizationPolicy.Some?
    ensures LookupPolicy(BuildRoutes()[i].authorizationPolicy.value) in {Some(AdminOrManager), Some(DataQuery)}
  {
    RoutePolicies(i);
    var name := BuildRoutes()[i].authorizationPolicy.value;
    if name == PolicyName(AdminOrManager) {
      LookupPolicyRoundTrip(AdminOrManager);
    } else {
      LookupPolicyRoundTrip(DataQuery);
    }
  }

  /** With unique ids, FindRoute returns the route carrying the id. */
  lemma {:induction false} FindRouteByUniqueId(routes: seq<RouteConfig>, i: nat)
    requires i < |routes|
    requires forall a, b :: 0 <= a < b < |routes| ==> routes[a].routeId != routes[b].routeId
    ensures FindRoute(routes, routes[i].routeId) == Some(routes[i])
  {
    if i > 0 {
      assert routes[0].routeId != routes[i].routeId;
      assert routes[1..][i - 1] == routes[i];
      FindRouteByUniqueId(routes[1..], i - 1);
    }
  }

  /** Two clusters, authCluster then userServiceCluster, each with one
      destination whose address is the matching configured URL. */
  lemma ClusterTable(config: ServicesConfiguration)
    ensures var cs := BuildClusters(config);
      && |cs| == 2
      && cs[0].clusterId == AuthCluster && cs[1].clusterId == UserServiceCluster
      && cs[0].destinations.Keys == {AuthDestination} && cs[1].destinations.Keys == {UserServiceDestination}
      && cs[0].destinations[AuthDestination].address == config.authLambda.url
      && cs[1].destinations[UserServiceDestination].address == config.userService.url
  {
  }

  // ---------------------------------------------------------------------
  // Validation order of AddGatewayReverseProxy
  // ---------------------------------------------------------------------

  /** A missing section fails before any URL is looked at. */
  lemma MissingSectionFailsFirst(isAbsoluteUri: string -> bool)
    ensures LoadProxyConfig(None, isAbsoluteUri) == Err(MissingServicesMessage)
  {
  }

  /** UserService is checked before AuthLambda, and each error carries its
      service's name; the tables are built exactly when both URLs pass. */
  lemma ServicesValidatedInOrder(c: ServicesConfiguration, isAbsoluteUri: string -> bool)
    ensures Validate(c.userService, "UserService", isAbsoluteUri).Fail? ==>
      LoadProxyConfig(Some(c), isAbsoluteUri) == Err(Validate(c.userService, "UserService", isAbsoluteUri).message)
    ensures Validate(c.userService, "UserService", isAbsoluteUri) == Pass && Validate(c.authLambda, "AuthLambda", isAbsoluteUri).Fail? ==>
      LoadProxyConfig(Some(c), isAbsoluteUri) == Err(Validate(c.authLambda, "AuthLambda", isAbsoluteUri).message)
    ensures LoadProxyConfig(Some(c), isAbsoluteUri).Ok? <==>
      Validate(c.userService, "UserService", isAbsoluteUri) == Pass && Validate(c.authLambda, "AuthLambda", isAbsoluteUri) == Pass
  {
  }

  /** A blank UserService URL is reported as missing even when AuthLambda's
      URL is also wrong. */
  lemma BlankUserServiceReportedFirst(c: ServicesConfiguration, isAbsoluteUri: string -> bool)
    requires Text.IsNullOrWhiteSpace(c.userService.url)
    ensures LoadProxyConfig(Some(c), isAbsoluteUri) == Err("UserService" + RequiredSuffix)
  {
  }

  /** Once loaded, every destination address is a non-blank absolute URI. */
  lemma LoadedDestinationsAreAbsolute(section: Option<ServicesConfiguration>, isAbsoluteUri: string -> bool, j: nat, key: string)
    requires LoadProxyConfig(section, isAbsoluteUri).Ok?
    requires j < |LoadProxyConfig(section, isAbsoluteUri).value.clusters|
    requires key in LoadProxyConfig(section, isAbsoluteUri).value.clusters[j].destinations
    ensures var a := LoadProxyConfig(section, isAbsoluteUri).value.clusters[j].destinations[key].address;
      a.Some? && !Text.IsNullOrWhiteSpace(a) && isAbsoluteUri(a.value)
  {
    var c := section.value;
    assert Validate(c.userService, "UserService", isAbsoluteUri) == Pass;
    assert Validate(c.authLambda, "AuthLambda", isAbsoluteUri) == Pass;
  }

  // ---------------------------------------------------------------------
  // Who reaches which route
  // ---------------------------------------------------------------------

  /** Logging in and creating a user need no token. */
  lemma PublicRoutesAdmitAnonymous()
    ensures FindRoute(BuildRoutes(), "auth-login").Some? && RouteAdmits(FindRoute(BuildRoutes(), "auth-login").value, None)
    ensures FindRoute(BuildRoutes(), "users-create").Some? && RouteAdmits(FindRoute(BuildRoutes(), "users-create").value, None)
  {
    FindRouteInTable(0);
    FindRouteInTable(1);
  }

  /** Every other route refuses anonymous requests. */
  lemma ProtectedRoutesDenyAnonymous(i: nat)
    requires i < |BuildRoutes()| && BuildRoutes()[i].authorizationPolicy.Some?
    ensures !RouteAdmits(BuildRoutes()[i], None)
  {
    var r := BuildRoutes()[i];
    RoutePoliciesAreRegistered(i);
    AnonymousDeniedEverywhere(LookupPolicy(r.authorizationPolicy.value).value);
  }

  /** A route's lookup by id finds it. */
  lemma FindRouteInTable(i: nat)
    requires i < |BuildRoutes()|
    ensures FindRoute(BuildRoutes(), BuildRoutes()[i].routeId) == Some(BuildRoutes()[i])
  {
    RouteIdsAreUnique();
    FindRouteByUniqueId(BuildRoutes(), i);
  }

  /** Listing users is for administrators and managers: an operator is
      refused. */
  lemma OperatorCannotListUsers()
    ensures FindRoute(BuildRoutes(), "users-list").Some?
    ensures !RouteAdmits(FindRoute(BuildRoutes(), "users-list").value, Some(Caller({Operator})))
  {
    FindRouteInTable(2);
    assert BuildRoutes()[2].routeId == "users-list";
    assert BuildRoutes()[2].authorizationPolicy == Some(PolicyName(AdminOrManager));
    LookupPolicyRoundTrip(AdminOrManager);
    OperatorMayQueryData();
  }

  /** Looking a user up by e-mail is open to operators. */
  lemma OperatorCanFindUserByEmail()
    ensures FindRoute(BuildRoutes(), "users-by-email").Some?
    ensures RouteAdmits(FindRoute(BuildRoutes(), "users-by-email").value, Some(Caller({Operator})))
  {
    FindRouteInTable(4);
    assert BuildRoutes()[4].routeId == "users-by-email";
    assert BuildRoutes()[4].authorizationPolicy == Some(PolicyName(DataQuery));
    LookupPolicyRoundTrip(DataQuery);
    OperatorMayQueryData();
  }

  /** An administrator reaches every route. */
  lemma AdminReachesEveryRoute(i: nat, c: Caller)
    requires i < |BuildRoutes()| && Admin in c.roles
    ensures RouteAdmits(BuildRoutes()[i], Some(c))
  {
    var r := BuildRoutes()[i];
    if r.authorizationPolicy.Some? {
      RoutePoliciesAreRegistered(i);
      AdminAllowedEverywhere(LookupPolicy(r.authorizationPolicy.value).value, c);
    }
  }
}
