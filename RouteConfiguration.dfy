/** The `Services` configuration section: one endpoint per backend service
    and the start-up check of its URL (src/Configurations/RouteConfiguration.cs). */
module RouteConfiguration {
  import opened Results
  import opened Text

  /** ServiceEndpoint: its Url may be null after binding. */
  datatype ServiceEndpoint = ServiceEndpoint(url: Option<string>)

  /** ServicesConfiguration: the two endpoints the gateway forwards to. */
  datatype ServicesConfiguration = ServicesConfiguration(userService: ServiceEndpoint, authLambda: ServiceEndpoint)

  /** `new ServiceEndpoint()`: Url starts as string.Empty. */
  function DefaultEndpoint(): ServiceEndpoint {
    ServiceEndpoint(Some(""))
  }

  /** `new ServicesConfiguration()`: both endpoints are created eagerly. */
  function DefaultServices(): ServicesConfiguration {
    ServicesConfiguration(DefaultEndpoint(), DefaultEndpoint())
  }

  const RequiredSuffix := " URL é obrigatória"
  const InvalidInfix := " URL é inválida: "

  function RequiredMessage(serviceName: string): string {
    serviceName + RequiredSuffix
  }

  function InvalidMessage(serviceName: string, url: string): string {
    serviceName + InvalidInfix + url
  }

  /** ServiceEndpoint.Validate(serviceName). `isAbsoluteUri` stands for
      `Uri.TryCreate(url, UriKind.Absolute, out _)`, which is not modelled:
      every property below holds whatever that parser decides. */
  function Validate(e: ServiceEndpoint, serviceName: string, isAbsoluteUri: string -> bool): (r: Outcome)
    ensures r == Pass <==> !IsNullOrWhiteSpace(e.url) && isAbsoluteUri(e.url.value)
    ensures IsNullOrWhiteSpace(e.url) ==> r == Fail(RequiredMessage(serviceName))
    ensures !IsNullOrWhiteSpace(e.url) && !isAbsoluteUri(e.url.value) ==>
              r == Fail(InvalidMessage(serviceName, e.url.value))
  {
    if IsNullOrWhiteSpace(e.url) then Fail(RequiredMessage(serviceName))
    else if !isAbsoluteUri(e.url.value) then Fail(InvalidMessage(serviceName, e.url.value))
    else Pass
  }

  /** The "invalid" message echoes the raw URL verbatim after a fixed
      prefix, so the URL can be read back from it. */
  lemma InvalidMessageEchoesUrl(serviceName: string, url: string)
    ensures |serviceName + InvalidInfix| <= |InvalidMessage(serviceName, url)|
    ensures InvalidMessage(serviceName, url)[..|serviceName|] == serviceName
    ensures InvalidMessage(serviceName, url)[|serviceName + InvalidInfix|..] == url
  {
    var m := InvalidMessage(serviceName, url);
    assert m == (serviceName + InvalidInfix) + url;
  }

  /** The two failures of one service are told apart by their messages:
      "obrigatória" (missing) never reads as "inválida" (unparsable). */
  lemma RequiredAndInvalidDiffer(serviceName: string, url: string)
    ensures RequiredMessage(serviceName) != InvalidMessage(serviceName, url)
  {
    var k := |serviceName| + 7;
    assert RequiredMessage(serviceName)[k] == 'o';
    assert InvalidMessage(serviceName, url)[k] == 'i';
  }

  /** The blank check runs first: a blank URL is reported as missing
      whatever the URI parser would say about it. */
  lemma BlankReportedBeforeParse(e: ServiceEndpoint, serviceName: string, p: string -> bool, q: string -> bool)
    requires IsNullOrWhiteSpace(e.url)
    ensures Validate(e, serviceName, p) == Validate(e, serviceName, q) == Fail(RequiredMessage(serviceName))
  {
  }

  /** A default configuration holds two endpoints with empty URLs, and each
      of them fails validation as missing. */
  lemma DefaultServicesAreMissing(name: string, isAbsoluteUri: string -> bool)
    ensures DefaultServices().userService.url == Some("") && DefaultServices().authLambda.url == Some("")
    ensures Validate(DefaultServices().userService, name, isAbsoluteUri) == Fail(RequiredMessage(name))
    ensures Validate(DefaultServices().authLambda, name, isAbsoluteUri) == Fail(RequiredMessage(name))
  {
  }
}
