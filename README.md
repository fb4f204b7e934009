# nuxt-caddy, modelled in Dafny

nuxt-caddy is a Nuxt plugin that gives each dev server a reverse-proxy route
in a Caddy server. It configures Caddy through Caddy's admin API. This project
models the plugin's core and proves what it promises:

- **Reconciler** (`CaddyClient`, caddy.dfy). `Caddy.fetch` takes a desired
  *entry*: a target, a method, an id, a JSON body and an optional smaller
  `update`. It looks up the object stored under the entry's id. Then it
  skips, PATCHes the differing object, or issues the entry's own write, and
  reports *created*, *updated*, *deleted*, *skipped* or an error.
  - The decision is a pure function, `Plan`, and the report is `Report`.
  - The class `Caddy` runs the same steps one by one. It records every
    request it sends and rewrites the entry's body in place (`Entry`).
  - `launch` applies the server, TLS and reverse-proxy entries in order, and
    stops at the first error.
- **Entry builders** (`Configurator`, configurator.dfy). The server, TLS,
  per-port reverse-proxy and delete entries. Their contracts tie ids,
  targets and update payloads to the JSON they sit in.
- **Settings schemas** (`CaddySchema`, `ProjectSchema`, `Grammar`).
  - Both settings objects are strict: unknown keys are rejected.
  - The admin port is an integer from 1 to 65535, and 2019 when absent.
  - The domain is a dot-joined sequence of labels. A hostname is a single
    label. Both match case-insensitively.
  - Each schema is modelled as the set of issues it reports, with a
    characterisation of when that set is empty.
- **Listen hook** (`NuxtModule`, module.dfy). Outside production, the hook
  deletes the route of the configured hostname, then fetches the servers.
  It puts the route into the first server that listens on `:443`, using
  the same nested loop as the source.

The answers of the admin API are inputs to the model:
- the status and body of a lookup (`Answer`), read as absent or found by
  `Observe`;
- the status of a write, or none when the write got no response
  (`Option<int>`);
- whether any other request got a response at all (`Option<int>`);
- the list of servers.

JSON is a datatype whose objects are maps, so `==` ignores key order, as the
deep comparison used by the source does. JavaScript's `||` on values, `??`,
`Response.ok`, and the rendering of `undefined` in template literals and in
`JSON.stringify` are written out explicitly.

## Model

| member | source | states |
|---|---|---|
| Base.Decimal | src/caddy/configurator.ts:24-26 | the decimal rendering of a port is a non-empty string of digits that reads back to the number, with no leading zero |
| Base.DecimalInjective | src/caddy/configurator.ts:24-26 | different numbers render as different strings, because the rendering reads back to the number |
| Base.TaggedDecimalInjective | src/caddy/configurator.ts:24-26 | ids built as a fixed tag followed by a number never collide for different numbers |
| Json.Or | src/caddy.ts:114 | `a \|\| b` is `a` unless `a` is falsy, and is never falsy when `b` is not |
| Grammar.LabelShape | src/schemas/project.ts:5 | the label regex accepts exactly the non-empty runs of letters, digits and hyphens that start and end with a letter or digit; a label holds no dot |
| Grammar.LabelIgnoresCase | src/schemas/project.ts:5 | label matching is case-insensitive |
| CaddySchema.DomainLabels | src/schemas/caddy.ts:12 | every accepted domain splits into one or more labels joined by single dots |
| CaddySchema.LabelsMakeDomain | src/schemas/caddy.ts:12 | any one or more labels joined by dots form an accepted domain |
| CaddySchema.DomainIsDotJoinOfLabels | src/schemas/caddy.ts:12 | the domain matcher accepts exactly the dot-joined label sequences (both directions) |
| CaddySchema.DomainIsLocal | src/schemas/caddy.ts:12 | an accepted domain uses only letters, digits, hyphens and dots, starts and ends alphanumeric, and every dot has an alphanumeric on each side |
| CaddySchema.LocalIsDomain | src/schemas/caddy.ts:12 | every string with that character-level shape is an accepted domain |
| CaddySchema.DomainIffLocal | src/schemas/caddy.ts:12 | the regex reading and the character-level reading agree, both ways |
| CaddySchema.DomainRejectsStrayDots | src/schemas/caddy.ts:12 | an accepted domain is non-empty, and has no leading dot, no trailing dot and no two dots in a row |
| CaddySchema.LabelIsDomain | src/schemas/caddy.ts:12 | a single label with no dot is a domain, whatever its length |
| CaddySchema.DomainIgnoresCase | src/schemas/caddy.ts:12 | domain matching is case-insensitive |
| CaddySchema.PortIssuesEmpty | src/schemas/caddy.ts:6-9 | a given port is accepted exactly when it is an integer from 1 to 65535 |
| CaddySchema.IssuesEmpty | src/schemas/caddy.ts:4-13 | the settings produce no issue exactly when there is no unknown key, a provider is present, the port (if present) is in range, and the domain is a string that matches the grammar |
| CaddySchema.Parse | src/schemas/caddy.ts:4-13 | parsing succeeds exactly for acceptable objects; it keeps the provider and domain, and defaults the port to 2019 (always in 1..65535); failures list every unknown key; a non-object reports only that |
| ProjectSchema.IssuesEmpty | src/schemas/project.ts:3-7 | the project settings produce no issue exactly when `hostnames` is the only key and is a non-empty array of labels |
| ProjectSchema.Parse | src/schemas/project.ts:3-7 | parsing succeeds exactly for acceptable objects and yields the hostnames in order, each a label, at least one; failures list every unknown key |
| ProjectSchema.HostnameUnderDomain | src/schemas/project.ts:5 | a hostname, a dot and a valid domain together form a valid domain |
| Configurator.HostnameIdInjective | src/caddy/configurator.ts:24-26 | two ports get the same route id exactly when they are equal |
| Configurator.WildcardMatch | src/caddy/configurator.ts:48-53 | the wildcard matcher has `@id` `nuxt-wildcard-match` and host `*.domain` |
| Configurator.WildcardRoutes | src/caddy/configurator.ts:55-59 | the subroute handler has `@id` `nuxt-wildcard-routes` and starts with no routes |
| Configurator.WildcardRoute | src/caddy/configurator.ts:47-67 | the server's route matches with the wildcard matcher and hands off to the subroute first |
| Configurator.ServerObject | src/caddy/configurator.ts:43-69 | the server object has `@id` `nuxt-server`, listens on `:443` and holds the wildcard route |
| Configurator.Server | src/caddy/configurator.ts:38-77 | the server entry has id `nuxt-server` and PUTs to `/config/apps/http/servers/nuxt`; its update has id `nuxt-wildcard-match` and is exactly the matcher embedded in the body, with host `*.domain`; the embedded subroute has `@id` `nuxt-wildcard-routes` and an empty `routes` array |
| Configurator.Tls | src/caddy/configurator.ts:80-116 | the TLS entry PUTs a one-element policy array whose sole element is the update; the policy's `@id` is the entry id, its subjects are `*.domain`, and it carries the provider under issuers/challenges/dns |
| Configurator.ProxyHandler | src/caddy/configurator.ts:133-149 | the handler is a `reverse_proxy` whose upstream dial is `localhost:<port>` |
| Configurator.HostMatchers | src/caddy/configurator.ts:121-125 | one host matcher per subdomain, in order |
| Configurator.Route | src/caddy/configurator.ts:131-151 | a route object exposes its `@id`, its handler and exactly its matchers, in order |
| Configurator.Hostnames | src/caddy/configurator.ts:119-153 | the reverse-proxy entry has id and `@id` equal to the port's route id, method PUT, target `/id/nuxt-wildcard-routes/routes/0`, no update, handler exactly the `reverse_proxy` handler with dial `localhost:<port>`, and exactly one matcher per subdomain, in order, each exactly `{host: [sub.domain]}` with no other key |
| Configurator.Down | src/caddy/configurator.ts:155-164 | the delete entry is a DELETE of `/id/` plus the port's route id, with an empty body and no update |
| Configurator.DownDeletesItsOwnRoute | src/caddy/configurator.ts:155-164 | taking a port down deletes the id that bringing the same port up created, and never the id of another port |
| Configurator.HostnamesMatchValidDomains | src/caddy/configurator.ts:121-125 | with valid settings, every host the reverse proxy matches is a valid domain |
| CaddyClient.Observe | src/caddy.ts:121-128 | a lookup finds the stored object exactly when the answer is ok; every reconciliation reads its lookup answer through it |
| CaddyClient.LookupStatusDecides | src/caddy.ts:121-137 | for a non-deletion, a lookup not answered ok leads to the entry's own write with its (defaulted) body; an ok lookup writes nothing exactly when its body equals the replacement |
| CaddyClient.WithDefaultJson | src/caddy.ts:114 | a falsy body becomes `{}`, any other body is kept, and nothing else in the entry changes |
| CaddyClient.LookupId | src/caddy.ts:121 | the looked-up id is the update's id unless it is missing or empty, otherwise the entry's id |
| CaddyClient.Replacement | src/caddy.ts:129 | the compared object is the update's body unless it is missing or falsy, otherwise the entry's body |
| CaddyClient.Plan | src/caddy.ts:113-147 | a DELETE is sent as is, whatever is stored; an absent object gets the entry's own write; an equal object gets no write; a differing object gets a PATCH of `/id/<looked-up id>` with the replacement |
| CaddyClient.Report | src/caddy.ts:158-174 | a skip reports skipped; an ok write reports deleted, updated or created; a 404 on a DELETE entry reports deleted; a write with no response, and any other failure, is an error naming the method and target used, and the status if there was one |
| CaddyClient.SkipIffUnchanged | src/caddy.ts:127-133 | nothing is written exactly when the entry is not a DELETE and the stored object equals the replacement, and only then is the outcome skipped |
| CaddyClient.DeleteIgnoresLookup | src/caddy.ts:116-119 | a DELETE does not depend on the lookup and goes to the entry's target |
| CaddyClient.PatchHitsComparedObject | src/caddy.ts:143-147 | a replacement write is a PATCH of the looked-up id, carrying the object it was compared against, and happens only when the stored object differs |
| CaddyClient.OutcomeTable | src/caddy.ts:143-178 | a DELETE yields deleted on ok or 404; a create yields created or an error on the entry's own target; a patch yields updated or an error on `/id/<id>`; a write with no response is always an error, for a DELETE too |
| CaddyClient.ServerAnchored | src/caddy/configurator.ts:38-77 | the server entry's update is the object its body places under the looked-up id |
| CaddyClient.TlsAnchored | src/caddy/configurator.ts:80-116 | the TLS entry's update is the object its body places under the looked-up id |
| CaddyClient.HostnamesAnchored | src/caddy/configurator.ts:119-153 | the reverse-proxy entry's body is the object stored under its id |
| CaddyClient.ReapplySkips | src/caddy.ts:121-133 | once an anchored entry's write took effect, applying it again is skipped |
| CaddyClient.Chain | src/caddy.ts:259-273 | a run reports at most one action per entry, and ends without error exactly when every entry reported |
| CaddyClient.ChainStopsAtFirstFailure | src/caddy.ts:259-273 | a run reports the outcomes of a prefix of the entries, in order, and its error is the outcome of the entry right after that prefix |
| CaddyClient.ChainIssuesReachedRequests | src/caddy.ts:259-273 | a run issues exactly the requests of the entries it reached, in order, and of no later entry |
| CaddyClient.ChainOfThree | src/caddy.ts:259-273 | a run of three entries, case by case: which requests are issued and which actions and error are reported |
| CaddyClient.Entry.constructor | src/caddy/configurator.ts:5-14 | an entry object holds the given target, method, id, body and update |
| CaddyClient.Caddy.constructor | src/caddy.ts:23-29 | a client keeps its settings and dev port, and has sent nothing yet |
| CaddyClient.Caddy.Exists | src/caddy.ts:95-104 | one GET of the path; true exactly when an answer came and it was ok |
| CaddyClient.Caddy.IsUp | src/caddy.ts:106-108 | one GET of `/config`; true exactly when it was answered ok |
| CaddyClient.Caddy.Fetch | src/caddy.ts:110-184 | the entry's body is defaulted to `{}` in place; the requests sent are the lookup (except for a DELETE) followed by the planned write; the result is the outcome of the plan; a non-deletion whose lookup is not answered ok ends with the entry's own write of its defaulted body |
| CaddyClient.Caddy.Apply | src/caddy.ts:249-256 | reconciling a freshly built entry sends that entry's requests and returns its outcome |
| CaddyClient.Caddy.ApplyInOrder | src/caddy.ts:259-273 | three entries are applied in order, each only after the previous one succeeded; the requests and result are those of the run |
| CaddyClient.Caddy.Launch | src/caddy.ts:259-289 | launching applies the server entry, then TLS, then the reverse proxies for the project's hostnames, and stops at the first error |
| CaddyClient.Caddy.Down | src/caddy.ts:291-295 | taking down sends exactly one DELETE of this port's route id; ok or 404 is deleted; no response or any other status is an error |
| NuxtModule.AdminUrl | src/module.ts:23 | the admin URL is the option if given, otherwise the environment variable, otherwise `http://localhost:2019`; an empty string is kept |
| NuxtModule.RouteIdDistinguishesHostnames | src/module.ts:25-26 | different hostnames get different route ids; a missing hostname shares its id with the hostname `undefined` |
| NuxtModule.ProxyRoute | src/module.ts:69-89 | the inner route's first handler is the reverse-proxy handler to the listener's port |
| NuxtModule.Subroute | src/module.ts:66-91 | the subroute handler's first route is the proxy route |
| NuxtModule.RouteConfig | src/module.ts:63-100 | the route has `@id` equal to the route id, proxies to `localhost:<port>`, and matches the hostname (null when missing) |
| NuxtModule.FirstUnreadable | src/module.ts:106-107 | the first server with no `listen` array, where the loop throws; every earlier server has one |
| NuxtModule.FirstHttps | src/module.ts:104-119 | the chosen server listens on `:443`, comes before any unreadable server, and no earlier server listens on `:443`; none is chosen only when no reachable server does |
| NuxtModule.FirstHttpsUnique | src/module.ts:104-119 | those properties determine the chosen server |
| NuxtModule.MatchServers | src/module.ts:104-119 | the nested loop claims exactly the first server listening on `:443`, and throws exactly when some server has no `listen` array |
| NuxtModule.OnListen | src/module.ts:19-125 | in production nothing happens; otherwise the route id is DELETEd first, and a rejected delete ends the hook; then the servers are fetched and at most one PUT of the route goes to the first `:443` server; the hook ends as routed, crashed or with no HTTPS server |

## Left out

- Process spawning (`Caddy.spawn`, src/caddy.ts:35-93): it launches an OS process and scans its log lines.
- HTTP transport: requests are recorded as `HttpCall` values, and every answer is an input. A write with no response is an error, as in the source. A lookup, or the `text()` of an ok lookup, that rejects leaves the source's promise pending forever; the model does not have that path.
- Base.Decimal: renders every natural number in plain digits. JavaScript switches to exponent notation from 10^21, far above any port.
- Terminal output (`chalkify`, `speak`, the message half of `verboseFetch`, the failure box and `process.exit`): these are formatting and side effects only.
- `Configurator.get` (src/caddy/configurator.ts:28-36): it reads a file from disk. The zod parse it applies is modelled as `CaddySchema.Parse`.
- src/scripts/preinstall.js: filesystem walking and external commands.
- Provider schemas (src/schemas/providers.ts, src/schemas/provider/): the provider is an opaque JSON value.
- CaddySchema.Parse: the provider is only required to be present. Its own schema, and the issues that schema would add, are not modelled.
- Nuxt hook registration and the empty `process.on('exit')` handler (src/module.ts:56-60): framework wiring. `NuxtModule.OnListen` is the hook's body.
- NuxtModule.OnListen: the servers are given as a list in `Object.entries` order. The fetch of that list and its JSON decoding are inputs. The PUT's answer is ignored, as in the source.
- NuxtModule.Server: `listen` entries are strings. A non-string entry is never equal to `:443` in the source, so it is not modelled.
- Json.Json: numbers are reals. NaN, infinities and floating-point rounding are not modelled.
- CaddySchema.Issues and ProjectSchema.Issues: issues are sets. Their order and zod's messages are not modelled.
- The per-hostname "ready" messages after a launch (src/caddy.ts:273-281) are output only.
- CaddyClient.Caddy.Launch: the model starts from the entries' three answers. Whether the admin API was already up before `spawn` is not modelled.
