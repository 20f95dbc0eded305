/** The start-up side of the gateway: the service collection the extension
    methods register into, the token handler's inbound claim-type map, and
    the three extension methods AddJwtAuthentication,
    AddAuthorizationPolicies and AddGatewayReverseProxy. What each one
    registers is computed by the pure functions of AuthExtension and
    ReverseProxyExtension; the methods here perform the registration. */
module ServiceRegistration {
  import opened Results
  import opened JwtConfiguration
  import opened RouteConfiguration
  import opened ClaimTransformation
  import opened AuthExtension
  import opened ReverseProxyExtension

  /** What one extension method adds to the service collection. */
  datatype Registration =
    | JwtBearer(options: JwtBearerOptions)
    | AuthorizationPolicies(policies: seq<Policy>)
    | ReverseProxy(config: ProxyConfig)

  /** IServiceCollection: the registrations in the order they were made. */
  class ServiceCollection {
    var registrations: seq<Registration>

    constructor()
      ensures registrations == []
    {
      registrations := [];
    }

    method Add(r: Registration)
      modifies this
      ensures registrations == old(registrations) + [r]
    {
      registrations := registrations + [r];
    }
  }

  /** JwtSecurityTokenHandler.DefaultInboundClaimTypeMap: the process-wide
      table that renames a token's claim types as the token is read. */
  class InboundClaimTypeMap {
    var entries: map<string, string>

    constructor(initial: map<string, string>)
      ensures entries == initial
    {
      entries := initial;
    }

    method Clear()
      modifies this
      ensures entries == map[]
    {
      entries := map[];
    }
  }

  /** The claims of a token as the handler hands them over: every claim type
      the table knows is replaced by its mapped name. */
  function MapInbound(m: map<string, string>, ds: seq<ClaimData>): (r: seq<ClaimData>)
    ensures |r| == |ds|
    ensures forall i :: 0 <= i < |ds| ==> r[i].value == ds[i].value
  {
    seq(|ds|, i requires 0 <= i < |ds| =>
      ClaimData(if ds[i].claimType in m then m[ds[i].claimType] else ds[i].claimType, ds[i].value))
  }

  /** A cleared table renames no claim type. */
  lemma ClearedMapKeepsTokenClaimTypes(ds: seq<ClaimData>)
    ensures MapInbound(map[], ds) == ds
    ensures CallerOf(MapInbound(map[], ds)) == CallerOf(ds)
  {
    assert forall i :: 0 <= i < |ds| ==> MapInbound(map[], ds)[i] == ds[i];
  }

  /** AddJwtAuthentication: the inbound claim-type map is cleared first,
      whatever follows; then a missing or invalid `Jwt` section fails the
      call with registering nothing, and otherwise the bearer scheme is
      registered. */
  method AddJwtAuthentication(services: ServiceCollection, handlerMap: InboundClaimTypeMap,
                              section: Option<JwtConfig>) returns (r: Outcome)
    modifies services, handlerMap
    ensures handlerMap.entries == map[]
    ensures r.Pass? <==> JwtBearerSetup(section).Ok?
    ensures JwtBearerSetup(section).Err? ==>
      r == Fail(JwtBearerSetup(section).message) && services.registrations == old(services.registrations)
    ensures JwtBearerSetup(section).Ok? ==>
      services.registrations == old(services.registrations) + [JwtBearer(JwtBearerSetup(section).value)]
  {
    handlerMap.Clear();
    match JwtBearerSetup(section)
    case Err(msg) =>
      r := Fail(msg);
    case Ok(options) =>
      services.Add(JwtBearer(options));
      r := Pass;
  }

  /** AddAuthorizationPolicies: the eight policies are registered, in the
      order of the source. */
  method AddAuthorizationPolicies(services: ServiceCollection)
    modifies services
    ensures services.registrations == old(services.registrations) + [AuthorizationPolicies(Catalogue)]
  {
    services.Add(AuthorizationPolicies(Catalogue));
  }

  /** AddGatewayReverseProxy: a missing or invalid `Services` section fails
      the call with registering nothing; otherwise the routes and clusters
      are loaded into the proxy. */
  method AddGatewayReverseProxy(services: ServiceCollection, section: Option<ServicesConfiguration>,
                                isAbsoluteUri: string -> bool) returns (r: Outcome)
    modifies services
    ensures r.Pass? <==> LoadProxyConfig(section, isAbsoluteUri).Ok?
    ensures LoadProxyConfig(section, isAbsoluteUri).Err? ==>
      r == Fail(LoadProxyConfig(section, isAbsoluteUri).message)
      && services.registrations == old(services.registrations)
    ensures LoadProxyConfig(section, isAbsoluteUri).Ok? ==>
      services.registrations == old(services.registrations) + [ReverseProxy(LoadProxyConfig(section, isAbsoluteUri).value)]
  {
    match LoadProxyConfig(section, isAbsoluteUri)
    case Err(msg) =>
      r := Fail(msg);
    case Ok(config) =>
      services.Add(ReverseProxy(config));
      r := Pass;
  }

  /** Every policy a loaded route names is among the registered ones, so
      AddAuthorizationPolicies covers what AddGatewayReverseProxy asks for. */
  lemma RoutePoliciesAreInCatalogue(section: Option<ServicesConfiguration>, isAbsoluteUri: string -> bool, i: nat)
    requires LoadProxyConfig(section, isAbsoluteUri).Ok?
    requires i < |LoadProxyConfig(section, isAbsoluteUri).value.routes|
    requires LoadProxyConfig(section, isAbsoluteUri).value.routes[i].authorizationPolicy.Some?
    ensures LookupPolicy(LoadProxyConfig(section, isAbsoluteUri).value.routes[i].authorizationPolicy.value).Some?
    ensures LookupPolicy(LoadProxyConfig(section, isAbsoluteUri).value.routes[i].authorizationPolicy.value).value in Catalogue
  {
    RoutePoliciesAreRegistered(i);
    CatalogueIsComplete(LookupPolicy(BuildRoutes()[i].authorizationPolicy.value).value);
  }
}
