/** The framework plugin's own route management: outside production, when
    the dev server starts listening, delete any earlier route of this
    hostname, fetch the proxy's servers, and put the route into the first
    server that listens on `:443`. The answers of the admin API are
    inputs. */
module NuxtModule {
  import opened Base
  import opened Json
  import opened Http
  import Configurator
  import CaddySchema

  /** The process environment and plugin options the hook reads. */
  datatype Settings = Settings(
    nodeEnv: Option<string>,
    adminUrlOption: Option<string>,
    adminUrlEnv: Option<string>,
    hostnameOption: Option<string>,
    hostnameEnv: Option<string>)

  /** In production the plugin registers nothing. */
  predicate IsProduction(s: Settings) {
    s.nodeEnv == Some("production")
  }

  const DefaultAdminUrl: string := "http://localhost:2019"

  /** `a ?? b`: only a missing value falls through (an empty string does not). */
  function Coalesce(a: Option<string>, b: Option<string>): Option<string> {
    if a.Some? then a else b
  }

  /** Option, then environment variable, then the default admin address. */
  function AdminUrl(s: Settings): (url: string)
    ensures s.adminUrlOption.Some? ==> url == s.adminUrlOption.value
    ensures s.adminUrlOption.None? && s.adminUrlEnv.Some? ==> url == s.adminUrlEnv.value
    ensures s.adminUrlOption.None? && s.adminUrlEnv.None? ==> url == DefaultAdminUrl
  {
    match Coalesce(s.adminUrlOption, s.adminUrlEnv)
    case Some(u) => u
    case None => DefaultAdminUrl
  }

  /** With nothing configured, the plugin talks to the admin port that the
      proxy settings default to. */
  lemma DefaultAdminUrlUsesDefaultPort()
    ensures DefaultAdminUrl == "http://localhost:" + Decimal(CaddySchema.DefaultPort)
  {
    assert Decimal(2) == "2";
    assert Decimal(20) == "20";
    assert Decimal(201) == "201";
    assert Decimal(2019) == "2019";
  }

  function Hostname(s: Settings): Option<string> {
    Coalesce(s.hostnameOption, s.hostnameEnv)
  }

  /** The template literal renders a missing hostname as `undefined`. */
  function RouteId(hostname: Option<string>): string {
    "nuxt-caddy-route-" + match hostname case Some(h) => h case None => "undefined"
  }

  /** Different hostnames get different route ids; a missing hostname
      shares its id with the hostname `undefined`. */
  lemma RouteIdDistinguishesHostnames(h1: string, h2: string)
    ensures RouteId(Some(h1)) == RouteId(Some(h2)) <==> h1 == h2
    ensures RouteId(None) == RouteId(Some("undefined"))
  {
    var tag := "nuxt-caddy-route-";
    if RouteId(Some(h1)) == RouteId(Some(h2)) {
      assert h1 == RouteId(Some(h1))[|tag|..];
      assert h2 == RouteId(Some(h2))[|tag|..];
    }
  }

  /** `deleteConfig` accepts an ok answer or a 404 (the route did not
      exist); any other status, or no answer at all, is thrown. */
  predicate DeleteAccepted(response: Option<int>) {
    response.Some? && (IsOk(response.value) || response.value == 404)
  }

  /** `JSON.stringify` writes an undefined array element as `null`. */
  function HostJson(hostname: Option<string>): Json {
    match hostname case Some(h) => JStr(h) case None => JNull
  }

  /** Where the upstream address sits in the plugin's route:
      `handle[0].routes[0].handle[0].upstreams[0].dial`. */
  const UpstreamPath: seq<Step> := Configurator.HandlerStep + Configurator.RoutePath + Configurator.DialPath

  /** The inner route: the same reverse-proxy handler the entry builders use. */
  function ProxyRoute(port: nat): (j: Json)
    ensures At(j, Configurator.HandlerStep) == Some(Configurator.ProxyHandler(port))
  {
    JObj(map["handle" := JArr([Configurator.ProxyHandler(port)])])
  }

  function Subroute(port: nat): (j: Json)
    ensures At(j, Configurator.RoutePath) == Some(ProxyRoute(port))
  {
    JObj(map["handler" := JStr("subroute"), "routes" := JArr([ProxyRoute(port)])])
  }

  /** The route put into the HTTPS server: matches the hostname and
      proxies to `localhost:<port>`. */
  function RouteConfig(routeId: string, hostname: Option<string>, port: nat): (j: Json)
    ensures At(j, [Key("@id")]) == Some(JStr(routeId))
    ensures At(j, UpstreamPath) == Some(JStr("localhost:" + Decimal(port)))
    ensures At(j, [Key("match"), Index(0), Key("host")]) == Some(JArr([HostJson(hostname)]))
  {
    var j := Configurator.Route(routeId, Subroute(port), [JObj(map["host" := JArr([HostJson(hostname)])])]);
    AtConcat(j, Configurator.HandlerStep, Configurator.RoutePath);
    AtConcat(j, Configurator.HandlerStep + Configurator.RoutePath, Configurator.DialPath);
    AtConcat(ProxyRoute(port), Configurator.HandlerStep, Configurator.UpstreamStep);
    AtConcat(j, [Key("match"), Index(0)], [Key("host")]);
    assert [Key("match"), Index(0)] + [Key("host")] == [Key("match"), Index(0), Key("host")];
    j
  }

  /** One entry of the proxy's `servers` object, in iteration order; a
      server without a `listen` array is `None`. */
  datatype Server = Server(name: string, listen: Option<seq<string>>)

  predicate Listens443(s: Server) {
    s.listen.Some? && ":443" in s.listen.value
  }

  /** The index of the first server without a `listen` array (reading it
      throws), or the number of servers. */
  function FirstUnreadable(servers: seq<Server>): (n: nat)
    ensures n <= |servers|
    ensures forall j :: 0 <= j < n ==> servers[j].listen.Some?
    ensures n < |servers| ==> servers[n].listen.None?
  {
    if servers == [] || servers[0].listen.None? then 0
    else 1 + FirstUnreadable(servers[1..])
  }

  /** The first server, before any unreadable one, that listens on `:443`. */
  function FirstHttps(servers: seq<Server>): (r: Option<nat>)
    ensures r.Some? ==>
      && r.value < FirstUnreadable(servers)
      && Listens443(servers[r.value])
      && forall j :: 0 <= j < r.value ==> !Listens443(servers[j])
    ensures r.None? ==> forall j :: 0 <= j < FirstUnreadable(servers) ==> !Listens443(servers[j])
  {
    if servers == [] || servers[0].listen.None? then None
    else if Listens443(servers[0]) then Some(0)
    else
      match FirstHttps(servers[1..])
      case None => None
      case Some(k) => Some(k + 1)
  }

  /** The properties of `FirstHttps` determine it. */
  lemma FirstHttpsUnique(servers: seq<Server>, i: nat)
    requires i < FirstUnreadable(servers) && Listens443(servers[i])
    requires forall j :: 0 <= j < i ==> !Listens443(servers[j])
    ensures FirstHttps(servers) == Some(i)
  {
  }

  /** The matching loop: over the servers in order and over each one's
      listen addresses, the first `:443` seen claims the route and later
      ones are passed over. Reading a server without `listen` throws. */
  method MatchServers(servers: seq<Server>) returns (chosen: Option<nat>, crashed: bool)
    ensures chosen == FirstHttps(servers)
    ensures crashed <==> FirstUnreadable(servers) < |servers|
  {
    var matched := false;
    chosen := None;
    crashed := false;
    var i := 0;
    while i < |servers|
      invariant 0 <= i <= |servers|
      invariant forall j :: 0 <= j < i ==> servers[j].listen.Some?
      invariant matched <==> chosen.Some?
      invariant chosen.Some? ==>
        chosen.value < i && Listens443(servers[chosen.value])
        && forall j :: 0 <= j < chosen.value ==> !Listens443(servers[j])
      invariant chosen.None? ==> forall j :: 0 <= j < i ==> !Listens443(servers[j])
    {
      if servers[i].listen.None? {
        crashed := true;
        assert FirstUnreadable(servers) == i;
        if chosen.Some? { FirstHttpsUnique(servers, chosen.value); }
        return;
      }
      var listen := servers[i].listen.value;
      var k := 0;
      while k < |listen|
        invariant 0 <= k <= |listen|
        invariant matched <==> chosen.Some?
        invariant chosen.Some? ==>
          (chosen.value < i || (chosen.value == i && ":443" in listen[..k]))
          && Listens443(servers[chosen.value])
          && forall j :: 0 <= j < chosen.value ==> !Listens443(servers[j])
        invariant chosen.None? ==>
          ":443" !in listen[..k] && forall j :: 0 <= j < i ==> !Listens443(servers[j])
      {
        if !matched && listen[k] == ":443" {
          matched := true;
          chosen := Some(i);
        }
        assert listen[..k + 1] == listen[..k] + [listen[k]];
        k := k + 1;
      }
      assert listen[..k] == listen;
      i := i + 1;
    }
    assert FirstUnreadable(servers) == |servers|;
    if chosen.Some? {
      FirstHttpsUnique(servers, chosen.value);
    }
  }

  /** How one listen event ends. */
  datatype HookOutcome =
    | Inactive            // production: no hook was registered
    | DeleteFailed        // the earlier route could not be removed
    | ServersUnreadable   // a server had no `listen` array
    | Routed(server: string)
    | NoHttpsServer       // reported as an error; no route was put

  /** The listen hook for a dev server on `port`: the requests it issues,
      in order, and how it ends. */
  method OnListen(s: Settings, port: nat, deleteResponse: Option<int>, servers: seq<Server>)
    returns (calls: seq<HttpCall>, outcome: HookOutcome)
    ensures IsProduction(s) ==> calls == [] && outcome == Inactive
    ensures !IsProduction(s) ==>
      && |calls| >= 1
      && calls[0] == HttpCall("DELETE", AdminUrl(s) + "/id/" + RouteId(Hostname(s)), None)
      && (!DeleteAccepted(deleteResponse) <==> outcome == DeleteFailed)
      && (!DeleteAccepted(deleteResponse) ==> |calls| == 1)
    ensures !IsProduction(s) && DeleteAccepted(deleteResponse) ==>
      && |calls| >= 2
      && calls[1] == HttpCall("GET", AdminUrl(s) + "/config/apps/http/servers", None)
      && (|calls| == 3 <==> FirstHttps(servers).Some?)
      && |calls| <= 3
      && (FirstHttps(servers).Some? ==>
            calls[2] == HttpCall(
              "PUT",
              AdminUrl(s) + "/config/apps/http/servers/" + servers[FirstHttps(servers).value].name + "/routes/0",
              Some(RouteConfig(RouteId(Hostname(s)), Hostname(s), port))))
      && outcome == (if FirstUnreadable(servers) < |servers| then ServersUnreadable
                     else if FirstHttps(servers).Some? then Routed(servers[FirstHttps(servers).value].name)
                     else NoHttpsServer)
  {
    if IsProduction(s) {
      return [], Inactive;
    }
    var adminUrl := AdminUrl(s);
    var hostname := Hostname(s);
    var routeId := RouteId(hostname);
    var delete := HttpCall("DELETE", adminUrl + "/id/" + routeId, None);
    if !DeleteAccepted(deleteResponse) {
      return [delete], DeleteFailed;
    }
    var get := HttpCall("GET", adminUrl + "/config/apps/http/servers", None);
    var chosen, crashed := MatchServers(servers);
    if chosen.Some? {
      var name := servers[chosen.value].name;
      var config := RouteConfig(routeId, hostname, port);
      calls := [delete, get, HttpCall("PUT", adminUrl + "/config/apps/http/servers/" + name + "/routes/0", Some(config))];
    } else {
      calls := [delete, get];
    }
    if crashed {
      outcome := ServersUnreadable;
    } else if chosen.Some? {
      outcome := Routed(servers[chosen.value].name);
    } else {
      outcome := NoHttpsServer;
    }
  }
}
