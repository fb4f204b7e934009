/** The entries that describe what the proxy should hold for a project:
    the wildcard server, its TLS automation policy, the reverse proxy for
    one dev server port, and the deletion of that reverse proxy. Each entry
    names the write to issue when its object is absent (`httpMethod`,
    `target`, `json`), its id, and optionally a smaller object (`update`)
    that the reconciler compares and patches when the object exists. */
module Configurator {
  import opened Base
  import opened Json
  import opened Grammar
  import CaddySchema
  import ProjectSchema

  datatype Update = Update(id: string, json: Json)

  datatype CaddyEntry = CaddyEntry(
    target: string,
    httpMethod: string,
    id: string,
    json: Json,
    update: Option<Update>)

  /** Where the server's single route sits. */
  const RoutePath: seq<Step> := [Key("routes"), Index(0)]
  /** Where the wildcard host matcher sits in the server object. */
  const MatchPath: seq<Step> := RoutePath + [Key("match"), Index(0)]
  /** Where the subroute handler that holds the per-project routes sits. */
  const SubroutePath: seq<Step> := RoutePath + [Key("handle"), Index(0)]
  /** Where a route's first handler sits. */
  const HandlerStep: seq<Step> := [Key("handle"), Index(0)]
  /** Where the upstream address sits in a reverse-proxy handler. */
  const UpstreamStep: seq<Step> := [Key("upstreams"), Index(0), Key("dial")]
  /** Where the upstream address sits in a reverse-proxy route. */
  const DialPath: seq<Step> := HandlerStep + UpstreamStep
  /** Where the DNS provider sits in a TLS policy. */
  const ProviderPath: seq<Step> :=
    [Key("issuers"), Index(0), Key("challenges"), Key("dns"), Key("provider")]

  /** The `@id` of the subroute handler that collects per-project routes. */
  const SubrouteId: string := "nuxt-wildcard-routes"

  function HostnameId(devPort: nat): string {
    "nuxt-hostname-" + Decimal(devPort)
  }

  /** Dev servers on different ports get different route ids. */
  lemma HostnameIdInjective(p: nat, q: nat)
    ensures HostnameId(p) == HostnameId(q) <==> p == q
  {
    if HostnameId(p) == HostnameId(q) {
      TaggedDecimalInjective("nuxt-hostname-", p, q);
    }
  }

  function WildcardMatch(domain: string): (j: Json)
    ensures At(j, [Key("@id")]) == Some(JStr("nuxt-wildcard-match"))
    ensures At(j, [Key("host")]) == Some(JArr([JStr("*." + domain)]))
  {
    JObj(map["@id" := JStr("nuxt-wildcard-match"), "host" := JArr([JStr("*." + domain)])])
  }

  /** The subroute handler, empty until projects add their routes. */
  function WildcardRoutes(): (j: Json)
    ensures At(j, [Key("@id")]) == Some(JStr(SubrouteId))
    ensures At(j, [Key("routes")]) == Some(JArr([]))
  {
    JObj(map["@id" := JStr(SubrouteId), "handler" := JStr("subroute"), "routes" := JArr([])])
  }

  /** The answer given when no project route matched. */
  function NotFoundResponse(): Json {
    JObj(map[
      "body" := JStr("Nuxt project \"{http.request.host}\" appears to be down."),
      "handler" := JStr("static_response"),
      "status_code" := JNum(404.0)])
  }

  function WildcardRoute(domain: string): (j: Json)
    ensures At(j, [Key("match"), Index(0)]) == Some(WildcardMatch(domain))
    ensures At(j, [Key("handle"), Index(0)]) == Some(WildcardRoutes())
  {
    JObj(map[
      "match" := JArr([WildcardMatch(domain)]),
      "handle" := JArr([WildcardRoutes(), NotFoundResponse()]),
      "terminal" := JBool(true)])
  }

  function ServerObject(domain: string): (j: Json)
    ensures At(j, [Key("@id")]) == Some(JStr("nuxt-server"))
    ensures At(j, [Key("listen")]) == Some(JArr([JStr(":443")]))
    ensures At(j, RoutePath) == Some(WildcardRoute(domain))
  {
    JObj(map[
      "@id" := JStr("nuxt-server"),
      "listen" := JArr([JStr(":443")]),
      "routes" := JArr([WildcardRoute(domain)])])
  }

  /** The HTTPS server for the wildcard domain: listens on :443, matches
      `*.domain`, hands matched requests to an (initially empty) subroute,
      and answers 404 when no project route applies. Its update is the
      host matcher alone. */
  function Server(domain: string): (e: CaddyEntry)
    ensures e.id == "nuxt-server" && e.httpMethod == "PUT"
    ensures e.target == "/config/apps/http/servers/nuxt"
    ensures At(e.json, [Key("@id")]) == Some(JStr(e.id))
    ensures At(e.json, [Key("listen")]) == Some(JArr([JStr(":443")]))
    ensures e.update.Some? && e.update.value.id == "nuxt-wildcard-match"
    ensures At(e.json, MatchPath) == Some(e.update.value.json)
    ensures At(e.update.value.json, [Key("@id")]) == Some(JStr(e.update.value.id))
    ensures At(e.update.value.json, [Key("host")]) == Some(JArr([JStr("*." + domain)]))
    ensures At(e.json, SubroutePath + [Key("@id")]) == Some(JStr(SubrouteId))
    ensures At(e.json, SubroutePath + [Key("routes")]) == Some(JArr([]))
  {
    var json := ServerObject(domain);
    AtConcat(json, RoutePath, [Key("match"), Index(0)]);
    AtConcat(json, RoutePath, [Key("handle"), Index(0)]);
    AtConcat(json, SubroutePath, [Key("@id")]);
    AtConcat(json, SubroutePath, [Key("routes")]);
    CaddyEntry(
      "/config/apps/http/servers/nuxt", "PUT", "nuxt-server", json,
      Some(Update("nuxt-wildcard-match", WildcardMatch(domain))))
  }

  function TlsPolicy(domain: string, provider: Json): Json {
    JObj(map[
      "@id" := JStr("nuxt-wildcard-tls"),
      "subjects" := JArr([JStr("*." + domain)]),
      "issuers" := JArr([JObj(map[
        "module" := JStr("acme"),
        "challenges" := JObj(map["dns" := JObj(map["provider" := provider])])])])])
  }

  /** The TLS automation policy for `*.domain`, solved through the DNS
      provider: a one-element policy array whose sole element is the
      update. */
  function Tls(domain: string, provider: Json): (e: CaddyEntry)
    ensures e.id == "nuxt-wildcard-tls" && e.httpMethod == "PUT"
    ensures e.target == "/config/apps/tls/automation/policies"
    ensures e.update.Some? && e.update.value.id == e.id
    ensures e.json == JArr([e.update.value.json])
    ensures At(e.update.value.json, [Key("@id")]) == Some(JStr(e.id))
    ensures At(e.update.value.json, [Key("subjects")]) == Some(JArr([JStr("*." + domain)]))
    ensures At(e.update.value.json, ProviderPath) == Some(provider)
  {
    var policy := TlsPolicy(domain, provider);
    assert At(policy, ProviderPath) == Some(provider) by {
      var issuer := policy.fields["issuers"].elems[0];
      assert At(policy, ProviderPath) == At(issuer, ProviderPath[2..]);
    }
    CaddyEntry(
      "/config/apps/tls/automation/policies", "PUT", "nuxt-wildcard-tls",
      JArr([policy]), Some(Update("nuxt-wildcard-tls", policy)))
  }

  /** The matcher `{host: [subdomain.domain]}`, with no other key. */
  function HostMatcher(subdomain: string, domain: string): Json {
    JObj(map["host" := JArr([JStr(subdomain + "." + domain)])])
  }

  /** The reverse-proxy handler towards the dev server on `devPort`,
      forwarding the upstream's host and port as `Host`. */
  function ProxyHandler(devPort: nat): (j: Json)
    ensures At(j, [Key("handler")]) == Some(JStr("reverse_proxy"))
    ensures At(j, UpstreamStep) == Some(JStr("localhost:" + Decimal(devPort)))
  {
    JObj(map[
      "handler" := JStr("reverse_proxy"),
      "headers" := JObj(map["request" := JObj(map["set" := JObj(map[
        "Host" := JArr([JStr("{http.reverse_proxy.upstream.hostport}")])])])]),
      "upstreams" := JArr([JObj(map["dial" := JStr("localhost:" + Decimal(devPort))])])])
  }

  /** One host matcher per subdomain, in order. */
  function HostMatchers(subdomains: seq<string>, domain: string): (hs: seq<Json>)
    ensures |hs| == |subdomains|
    ensures forall i :: 0 <= i < |subdomains| ==> hs[i] == HostMatcher(subdomains[i], domain)
  {
    seq(|subdomains|, i requires 0 <= i < |subdomains| => HostMatcher(subdomains[i], domain))
  }

  /** A route object with an `@id`, one handler and its matchers. */
  function Route(id: string, handler: Json, matchers: seq<Json>): (j: Json)
    ensures At(j, [Key("@id")]) == Some(JStr(id))
    ensures At(j, HandlerStep) == Some(handler)
    ensures forall i :: 0 <= i < |matchers| ==> At(j, [Key("match"), Index(i)]) == Some(matchers[i])
    ensures At(j, [Key("match"), Index(|matchers|)]) == None
  {
    JObj(map["@id" := JStr(id), "handle" := JArr([handler]), "match" := JArr(matchers)])
  }

  /** The reverse proxy from every `subdomain.domain` to the dev server on
      `devPort`, put first among the subroute's routes. */
  function Hostnames(subdomains: seq<string>, domain: string, devPort: nat): (e: CaddyEntry)
    ensures e.id == HostnameId(devPort) && e.httpMethod == "PUT" && e.update.None?
    ensures e.target == "/id/" + SubrouteId + "/routes/0"
    ensures At(e.json, [Key("@id")]) == Some(JStr(e.id))
    ensures At(e.json, HandlerStep) == Some(ProxyHandler(devPort))
    ensures At(e.json, DialPath) == Some(JStr("localhost:" + Decimal(devPort)))
    ensures forall i :: 0 <= i < |subdomains| ==>
      At(e.json, [Key("match"), Index(i)]) == Some(HostMatcher(subdomains[i], domain))
    ensures forall i :: 0 <= i < |subdomains| ==>
      At(e.json, [Key("match"), Index(i), Key("host")]) == Some(JArr([JStr(subdomains[i] + "." + domain)]))
    ensures At(e.json, [Key("match"), Index(|subdomains|)]) == None
  {
    var id := HostnameId(devPort);
    var hosts := HostMatchers(subdomains, domain);
    var json := Route(id, ProxyHandler(devPort), hosts);
    AtConcat(json, HandlerStep, UpstreamStep);
    forall i | 0 <= i < |subdomains|
      ensures At(json, [Key("match"), Index(i), Key("host")]) == Some(JArr([JStr(subdomains[i] + "." + domain)]))
    {
      AtConcat(json, [Key("match"), Index(i)], [Key("host")]);
      assert [Key("match"), Index(i)] + [Key("host")] == [Key("match"), Index(i), Key("host")];
    }
    CaddyEntry("/id/" + SubrouteId + "/routes/0", "PUT", id, json, None)
  }

  /** The deletion of the reverse proxy of the dev server on `devPort`. */
  function Down(devPort: nat): (e: CaddyEntry)
    ensures e.httpMethod == "DELETE" && e.json == EmptyObject && e.update.None?
    ensures e.id == HostnameId(devPort) && e.target == "/id/" + e.id
  {
    var id := HostnameId(devPort);
    CaddyEntry("/id/" + id, "DELETE", id, EmptyObject, None)
  }

  /** Taking a dev server down deletes exactly the route that bringing it
      up created, and no route created for another port. */
  lemma DownDeletesItsOwnRoute(subdomains: seq<string>, domain: string, p: nat, q: nat)
    ensures Down(p).id == Hostnames(subdomains, domain, q).id <==> p == q
    ensures Down(p).target == "/id/" + Hostnames(subdomains, domain, p).id
  {
    HostnameIdInjective(p, q);
  }

  /** The per-project routes are put into the subroute the server entry
      creates: the route target names the subroute's `@id`, and that
      subroute has a `routes` array. */
  lemma HostnamesLandInServerSubroute(subdomains: seq<string>, domain: string, devPort: nat)
    ensures At(Server(domain).json, SubroutePath + [Key("@id")]) == Some(JStr(SubrouteId))
    ensures Hostnames(subdomains, domain, devPort).target == "/id/" + SubrouteId + "/routes/0"
    ensures At(Server(domain).json, SubroutePath + [Key("routes")]).value.JArr?
  {
  }

  /** With valid settings, every host the reverse proxy matches is a valid
      domain name under the configured domain. */
  lemma HostnamesMatchValidDomains(subdomains: seq<string>, domain: string, devPort: nat)
    requires forall i :: 0 <= i < |subdomains| ==> IsLabel(subdomains[i])
    requires CaddySchema.IsDomain(domain)
    ensures forall i :: 0 <= i < |subdomains| ==>
      && At(Hostnames(subdomains, domain, devPort).json, [Key("match"), Index(i), Key("host")])
           == Some(JArr([JStr(subdomains[i] + "." + domain)]))
      && CaddySchema.IsDomain(subdomains[i] + "." + domain)
  {
    forall i | 0 <= i < |subdomains|
      ensures CaddySchema.IsDomain(subdomains[i] + "." + domain)
    {
      ProjectSchema.HostnameUnderDomain(subdomains[i], domain);
    }
  }
}
