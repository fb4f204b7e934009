/** The reconciler: for one entry, look up the object stored under its id,
    and then skip, patch the differing object, or issue the entry's own
    write; the outcome is reported as created, updated, deleted, skipped or
    an error. The HTTP answers are inputs: the lookup's status and body,
    and the write's status, or none when the write got no response. */
module CaddyClient {
  import opened Base
  import opened Json
  import opened Http
  import opened Configurator
  import CaddySchema
  import ProjectSchema

  /** What the admin API holds under the looked-up id. */
  datatype Lookup = Absent | Found(current: Json)

  /** A lookup answer: any status that is not ok means the id is absent;
      otherwise the parsed body is the stored object. */
  function Observe(status: int, body: Json): (l: Lookup)
    ensures l.Found? <==> IsOk(status)
    ensures l.Found? ==> l.current == body
  {
    if IsOk(status) then Found(body) else Absent
  }

  /** The write request, with a target relative to the admin API. */
  datatype Request = Request(httpMethod: string, target: string, body: Json)

  /** The decision: no write at all, or one write, which either replaces
      an existing object (`replace`) or is the entry's own request. */
  datatype Decision = Skip | Write(request: Request, replace: bool)

  datatype Action = Created | Updated | Deleted | Skipped

  /** A failed write names its method, target and status; the status is
      `None` when the write got no response at all. */
  datatype WriteError = WriteError(httpMethod: string, target: string, status: Option<int>)

  /** A missing (falsy) body becomes `{}` before anything else happens. */
  function WithDefaultJson(e: CaddyEntry): (n: CaddyEntry)
    ensures !Falsy(n.json)
    ensures !Falsy(e.json) ==> n == e
    ensures Falsy(e.json) ==> n.json == EmptyObject
    ensures n.target == e.target && n.httpMethod == e.httpMethod && n.id == e.id && n.update == e.update
  {
    e.(json := Or(e.json, EmptyObject))
  }

  /** The id looked up and patched: the update's id unless it is empty. */
  function LookupId(e: CaddyEntry): (id: string)
    ensures e.update.Some? && e.update.value.id != "" ==> id == e.update.value.id
    ensures e.update.None? || e.update.value.id == "" ==> id == e.id
  {
    if e.update.Some? && e.update.value.id != "" then e.update.value.id else e.id
  }

  /** The object compared against and patched in: the update's body
      unless it is falsy. */
  function Replacement(e: CaddyEntry): (j: Json)
    ensures e.update.Some? && !Falsy(e.update.value.json) ==> j == e.update.value.json
    ensures e.update.None? || Falsy(e.update.value.json) ==> j == e.json
  {
    if e.update.Some? then Or(e.update.value.json, e.json) else e.json
  }

  function Plan(e: CaddyEntry, lookup: Lookup): (p: Decision)
    ensures e.httpMethod == "DELETE" ==>
      p == Write(Request("DELETE", e.target, Or(e.json, EmptyObject)), false)
    ensures e.httpMethod != "DELETE" && lookup.Absent? ==>
      p == Write(Request(e.httpMethod, e.target, Or(e.json, EmptyObject)), false)
    ensures e.httpMethod != "DELETE" && lookup.Found? && lookup.current == Replacement(WithDefaultJson(e)) ==>
      p == Skip
    ensures e.httpMethod != "DELETE" && lookup.Found? && lookup.current != Replacement(WithDefaultJson(e)) ==>
      p == Write(Request("PATCH", "/id/" + LookupId(e), Replacement(WithDefaultJson(e))), true)
  {
    var n := WithDefaultJson(e);
    var found := n.httpMethod != "DELETE" && lookup.Found?;
    if found && lookup.current == Replacement(n) then Skip
    else
      var replace := found;
      var id := LookupId(n);
      var json := if replace then Replacement(n) else n.json;
      var target := if replace then "/id/" + id else n.target;
      var verb := if replace then "PATCH" else n.httpMethod;
      Write(Request(verb, target, json), replace)
  }

  /** How the write's answer is reported. */
  function Report(e: CaddyEntry, p: Decision, write: Option<int>): (r: Result<Action, WriteError>)
    ensures p.Skip? ==> r == Ok(Skipped)
    ensures p.Write? && write.None? ==> r == Err(WriteError(p.request.httpMethod, p.request.target, None))
    ensures p.Write? && write.Some? && IsOk(write.value) ==>
      r == Ok(if p.request.httpMethod == "DELETE" then Deleted else if p.replace then Updated else Created)
    ensures p.Write? && write == Some(404) && e.httpMethod == "DELETE" ==> r == Ok(Deleted)
    ensures p.Write? && write.Some? && !IsOk(write.value) && !(write.value == 404 && e.httpMethod == "DELETE") ==>
      r == Err(WriteError(p.request.httpMethod, p.request.target, write))
  {
    match p
    case Skip => Ok(Skipped)
    case Write(req, replace) =>
      match write
      case None => Err(WriteError(req.httpMethod, req.target, None))
      case Some(status) =>
        if !IsOk(status) then
          if status == 404 && e.httpMethod == "DELETE" then Ok(Deleted)
          else Err(WriteError(req.httpMethod, req.target, write))
        else
          Ok(if req.httpMethod == "DELETE" then Deleted else if replace then Updated else Created)
  }

  /** The reconciliation of one entry against one pair of answers. */
  function Outcome(e: CaddyEntry, lookup: Lookup, write: Option<int>): Result<Action, WriteError> {
    Report(e, Plan(e, lookup), write)
  }

  /** The reconciler writes nothing exactly when the entry is not a
      deletion and the stored object already equals the replacement. */
  lemma SkipIffUnchanged(e: CaddyEntry, lookup: Lookup, write: Option<int>)
    ensures Plan(e, lookup) == Skip <==>
      e.httpMethod != "DELETE" && lookup == Found(Replacement(WithDefaultJson(e)))
    ensures Outcome(e, lookup, write) == Ok(Skipped) <==> Plan(e, lookup) == Skip
  {
  }

  /** A deletion never consults the lookup: it is sent as DELETE to the
      entry's target with the entry's body, whatever is stored. */
  lemma DeleteIgnoresLookup(e: CaddyEntry, l1: Lookup, l2: Lookup)
    requires e.httpMethod == "DELETE"
    ensures Plan(e, l1) == Plan(e, l2)
    ensures Plan(e, l1).Write? && Plan(e, l1).request.httpMethod == "DELETE"
    ensures Plan(e, l1).request.target == e.target
  {
  }

  /** A patch goes to the very object that was looked up and compared, and
      carries the object it was compared against. */
  lemma PatchHitsComparedObject(e: CaddyEntry, lookup: Lookup)
    requires Plan(e, lookup).Write? && Plan(e, lookup).replace
    ensures Plan(e, lookup).request ==
      Request("PATCH", "/id/" + LookupId(e), Replacement(WithDefaultJson(e)))
    ensures lookup.Found? && lookup.current != Replacement(WithDefaultJson(e))
  {
  }

  /** The outcome table: success of a deletion, 404 included, is
      `deleted`; success of a patch is `updated`; success of the entry's own
      write is `created`; every other failure is an error naming the
      method, target and status actually used. */
  lemma OutcomeTable(e: CaddyEntry, lookup: Lookup, write: Option<int>)
    ensures e.httpMethod == "DELETE" ==>
      Outcome(e, lookup, write) ==
        if write.Some? && (IsOk(write.value) || write.value == 404) then Ok(Deleted)
        else Err(WriteError("DELETE", e.target, write))
    ensures e.httpMethod != "DELETE" && lookup.Absent? ==>
      Outcome(e, lookup, write) ==
        if write.Some? && IsOk(write.value) then Ok(Created)
        else Err(WriteError(e.httpMethod, e.target, write))
    ensures e.httpMethod != "DELETE" && lookup.Found? && lookup.current != Replacement(WithDefaultJson(e)) ==>
      Outcome(e, lookup, write) ==
        if write.Some? && IsOk(write.value) then Ok(Updated)
        else Err(WriteError("PATCH", "/id/" + LookupId(e), write))
  {
  }

  /** The lookup's status decides between the entry's own write and the
      comparison: a lookup not answered ok means absent, so a non-deletion
      then issues its own write; an ok lookup writes nothing exactly when
      its body equals the replacement. */
  lemma LookupStatusDecides(e: CaddyEntry, status: int, body: Json)
    requires e.httpMethod != "DELETE"
    ensures !IsOk(status) ==>
      Plan(e, Observe(status, body)) == Write(Request(e.httpMethod, e.target, Or(e.json, EmptyObject)), false)
    ensures IsOk(status) ==>
      (Plan(e, Observe(status, body)) == Skip <==> body == Replacement(WithDefaultJson(e)))
  {
  }

  /** The object that the entry's write leaves under the looked-up id is
      the replacement: it sits in the written body at `path` and carries
      that id as its `@id`. So once a write has been applied, looking the
      id up again finds the replacement, and the next run skips. */
  ghost predicate Anchored(e: CaddyEntry, path: seq<Step>) {
    && At(WithDefaultJson(e).json, path) == Some(Replacement(WithDefaultJson(e)))
    && At(Replacement(WithDefaultJson(e)), [Key("@id")]) == Some(JStr(LookupId(e)))
  }

  lemma ServerAnchored(domain: string)
    ensures Anchored(Server(domain), MatchPath)
  {
    var s := Server(domain);
    assert !Falsy(s.update.value.json) by { assert s.update.value.json.JObj?; }
    assert !Falsy(s.json) by { assert s.json.JObj?; }
  }

  lemma TlsAnchored(domain: string, provider: Json)
    ensures Anchored(Tls(domain, provider), [Index(0)])
  {
    var t := Tls(domain, provider);
    assert !Falsy(t.update.value.json) by { assert t.update.value.json.JObj?; }
    assert !Falsy(t.json) by { assert t.json.JArr?; }
    assert At(t.json, [Index(0)]) == Some(t.update.value.json);
  }

  lemma HostnamesAnchored(subdomains: seq<string>, domain: string, devPort: nat)
    ensures Anchored(Hostnames(subdomains, domain, devPort), [])
  {
    var h := Hostnames(subdomains, domain, devPort);
    assert !Falsy(h.json) by { assert h.json.JObj?; }
  }

  /** Re-applying an anchored entry whose write took effect does nothing. */
  lemma ReapplySkips(e: CaddyEntry, path: seq<Step>, write: Option<int>)
    requires Anchored(e, path) && e.httpMethod != "DELETE"
    ensures Outcome(e, Found(At(WithDefaultJson(e).json, path).value), write) == Ok(Skipped)
  {
  }

  /** The HTTP requests one reconciliation issues, in order: the lookup
      (not for a deletion), then the write, if any. */
  function FetchCalls(api: string, e: CaddyEntry, lookup: Lookup): seq<HttpCall> {
    (if e.httpMethod == "DELETE" then [] else [HttpCall("GET", api + "/id/" + LookupId(e), None)])
    + (match Plan(e, lookup)
       case Skip => []
       case Write(req, _) => [HttpCall(req.httpMethod, api + req.target, Some(req.body))])
  }

  /** The answers the admin API gives to one entry: the lookup's status and
      body, and the write's status, if the write got a response. */
  datatype Answer = Answer(lookupStatus: int, lookupBody: Json, write: Option<int>) {
    /** What the lookup found. */
    function Observed(): Lookup {
      Observe(lookupStatus, lookupBody)
    }
  }

  /** Requests issued, actions reported, and the error that stopped the run. */
  datatype Run = Run(calls: seq<HttpCall>, actions: seq<Action>, failure: Option<WriteError>)

  /** Entries applied one after the other, each only once the previous one
      succeeded; the first error ends the run. */
  function Chain(api: string, entries: seq<CaddyEntry>, answers: seq<Answer>): (r: Run)
    requires |answers| == |entries|
    ensures |r.actions| <= |entries|
    ensures r.failure.None? <==> |r.actions| == |entries|
    decreases |entries|
  {
    if entries == [] then Run([], [], None)
    else
      var calls := FetchCalls(api, entries[0], answers[0].Observed());
      match Outcome(entries[0], answers[0].Observed(), answers[0].write)
      case Err(w) => Run(calls, [], Some(w))
      case Ok(a) =>
        var rest := Chain(api, entries[1..], answers[1..]);
        Run(calls + rest.calls, [a] + rest.actions, rest.failure)
  }

  /** All requests of the given entries, back to back. */
  function Issued(api: string, entries: seq<CaddyEntry>, answers: seq<Answer>): seq<HttpCall>
    requires |answers| == |entries|
    decreases |entries|
  {
    if entries == [] then []
    else FetchCalls(api, entries[0], answers[0].Observed()) + Issued(api, entries[1..], answers[1..])
  }

  /** A run reports the outcomes of a prefix of the entries, in order, and
      stops at the first error. */
  lemma {:induction false} ChainStopsAtFirstFailure(api: string, entries: seq<CaddyEntry>, answers: seq<Answer>)
    requires |answers| == |entries|
    ensures var r := Chain(api, entries, answers);
      var k := |r.actions|;
      && (forall i :: 0 <= i < k ==> Outcome(entries[i], answers[i].Observed(), answers[i].write) == Ok(r.actions[i]))
      && (r.failure.Some? ==> k < |entries| && Outcome(entries[k], answers[k].Observed(), answers[k].write) == Err(r.failure.value))
    decreases |entries|
  {
    if entries != [] {
      match Outcome(entries[0], answers[0].Observed(), answers[0].write)
      case Err(w) =>
      case Ok(act) =>
        var r := Chain(api, entries, answers);
        var rest := Chain(api, entries[1..], answers[1..]);
        ChainStopsAtFirstFailure(api, entries[1..], answers[1..]);
        assert r.actions == [act] + rest.actions;
        forall i | 0 < i < |r.actions|
          ensures Outcome(entries[i], answers[i].Observed(), answers[i].write) == Ok(r.actions[i])
        {
          assert entries[i] == entries[1..][i - 1] && answers[i] == answers[1..][i - 1];
        }
    }
  }

  /** The number of entries a run reached: the succeeded ones and the one
      that failed, if any. */
  function Reached(r: Run): nat {
    if r.failure.Some? then |r.actions| + 1 else |r.actions|
  }

  /** A run issues exactly the requests of the entries it reached, in
      order. */
  lemma {:induction false} ChainIssuesReachedRequests(api: string, entries: seq<CaddyEntry>, answers: seq<Answer>)
    requires |answers| == |entries|
    ensures var r := Chain(api, entries, answers);
      && Reached(r) <= |entries|
      && r.calls == Issued(api, entries[..Reached(r)], answers[..Reached(r)])
    decreases |entries|
  {
    if entries != [] {
      var e, a := entries[0], answers[0];
      var calls := FetchCalls(api, e, a.Observed());
      var r := Chain(api, entries, answers);
      match Outcome(e, a.Observed(), a.write)
      case Err(w) =>
        assert r == Run(calls, [], Some(w));
        assert entries[..1][1..] == [] && answers[..1][1..] == [];
        assert Issued(api, entries[..1], answers[..1]) == calls + Issued(api, [], []);
      case Ok(act) =>
        var rest := Chain(api, entries[1..], answers[1..]);
        assert r == Run(calls + rest.calls, [act] + rest.actions, rest.failure);
        ChainIssuesReachedRequests(api, entries[1..], answers[1..]);
        var n := Reached(rest);
        assert Reached(r) == n + 1;
        assert entries[..n + 1][1..] == entries[1..][..n];
        assert answers[..n + 1][1..] == answers[1..][..n];
        assert Issued(api, entries[..n + 1], answers[..n + 1])
          == calls + Issued(api, entries[1..][..n], answers[1..][..n]);
    }
  }

  /** A run of three entries, spelled out. */
  lemma ChainOfThree(api: string, e0: CaddyEntry, e1: CaddyEntry, e2: CaddyEntry, a0: Answer, a1: Answer, a2: Answer)
    ensures var r := Chain(api, [e0, e1, e2], [a0, a1, a2]);
      var o0, o1, o2 := Outcome(e0, a0.Observed(), a0.write), Outcome(e1, a1.Observed(), a1.write), Outcome(e2, a2.Observed(), a2.write);
      var c0, c1, c2 := FetchCalls(api, e0, a0.Observed()), FetchCalls(api, e1, a1.Observed()), FetchCalls(api, e2, a2.Observed());
      && (o0.Err? ==> r == Run(c0, [], Some(o0.error)))
      && (o0.Ok? && o1.Err? ==> r == Run(c0 + c1, [o0.value], Some(o1.error)))
      && (o0.Ok? && o1.Ok? && o2.Err? ==> r == Run(c0 + c1 + c2, [o0.value, o1.value], Some(o2.error)))
      && (o0.Ok? && o1.Ok? && o2.Ok? ==> r == Run(c0 + c1 + c2, [o0.value, o1.value, o2.value], None))
  {
    var o0, o1, o2 := Outcome(e0, a0.Observed(), a0.write), Outcome(e1, a1.Observed(), a1.write), Outcome(e2, a2.Observed(), a2.write);
    var c0, c1, c2 := FetchCalls(api, e0, a0.Observed()), FetchCalls(api, e1, a1.Observed()), FetchCalls(api, e2, a2.Observed());
    assert [e2][1..] == [] && [a2][1..] == [];
    assert Chain(api, [], []) == Run([], [], None);
    var r2 := Chain(api, [e2], [a2]);
    assert r2 == if o2.Err? then Run(c2, [], Some(o2.error)) else Run(c2 + [], [o2.value], None);
    assert [e1, e2][1..] == [e2] && [a1, a2][1..] == [a2];
    var r1 := Chain(api, [e1, e2], [a1, a2]);
    assert r1 == if o1.Err? then Run(c1, [], Some(o1.error)) else Run(c1 + r2.calls, [o1.value] + r2.actions, r2.failure);
    assert [e0, e1, e2][1..] == [e1, e2] && [a0, a1, a2][1..] == [a1, a2];
    assert Chain(api, [e0, e1, e2], [a0, a1, a2]) ==
      if o0.Err? then Run(c0, [], Some(o0.error)) else Run(c0 + r1.calls, [o0.value] + r1.actions, r1.failure);
    assert c0 + (c1 + c2) == c0 + c1 + c2;
    assert c0 + (c1 + (c2 + [])) == c0 + c1 + c2;
  }

  /** An entry as the reconciler holds it: everything but its body is
      fixed, and the body may be rewritten in place. */
  class Entry {
    const target: string
    const httpMethod: string
    const id: string
    var json: Json
    const update: Option<Update>

    constructor (e: CaddyEntry)
      ensures Value() == e
    {
      target, httpMethod, id, json, update := e.target, e.httpMethod, e.id, e.json, e.update;
    }

    /** The entry's current contents. */
    function Value(): CaddyEntry
      reads this
    {
      CaddyEntry(target, httpMethod, id, json, update)
    }
  }

  /** The client of one dev server: the parsed settings, the dev server's
      port, and the requests sent to the admin API so far. */
  class Caddy {
    const config: CaddySchema.CaddyConfiguration
    const devPort: nat
    var calls: seq<HttpCall>

    constructor (config: CaddySchema.CaddyConfiguration, devPort: nat)
      ensures this.config == config && this.devPort == devPort && calls == []
    {
      this.config := config;
      this.devPort := devPort;
      calls := [];
    }

    /** The admin API's base URL. */
    function ApiUrl(): string {
      "http://localhost:" + Decimal(config.port)
    }

    /** A GET of `path`; a request that fails outright counts as absent. */
    method Exists(path: string, response: Option<int>) returns (ok: bool)
      modifies this
      ensures calls == old(calls) + [HttpCall("GET", ApiUrl() + path, None)]
      ensures ok <==> response.Some? && IsOk(response.value)
    {
      calls := calls + [HttpCall("GET", ApiUrl() + path, None)];
      ok := response.Some? && IsOk(response.value);
    }

    method IsUp(response: Option<int>) returns (up: bool)
      modifies this
      ensures calls == old(calls) + [HttpCall("GET", ApiUrl() + "/config", None)]
      ensures up <==> response.Some? && IsOk(response.value)
    {
      up := Exists("/config", response);
    }

    /** One reconciliation, step by step. The entry's body is first
      defaulted to `{}` in place; the outcome is reported. */
    method Fetch(entry: Entry, answer: Answer) returns (result: Result<Action, WriteError>)
      modifies this, entry
      ensures entry.Value() == WithDefaultJson(old(entry.Value()))
      ensures calls == old(calls) + FetchCalls(ApiUrl(), old(entry.Value()), answer.Observed())
      ensures result == Outcome(old(entry.Value()), answer.Observed(), answer.write)
      ensures entry.httpMethod != "DELETE" && !IsOk(answer.lookupStatus) ==>
        && |calls| == |old(calls)| + 2
        && calls[|calls| - 1] == HttpCall(entry.httpMethod, ApiUrl() + entry.target, Some(entry.json))
    {
      entry.json := Or(entry.json, EmptyObject);
      var e := entry.Value();
      var replace := false;
      if e.httpMethod != "DELETE" {
        calls := calls + [HttpCall("GET", ApiUrl() + "/id/" + LookupId(e), None)];
        var lookup := Observe(answer.lookupStatus, answer.lookupBody);
        if lookup.Found? {
          if lookup.current == Replacement(e) {
            return Ok(Skipped);
          }
          replace := true;
        }
      }
      var id := LookupId(e);
      var json := if replace then Replacement(e) else e.json;
      var target := if replace then "/id/" + id else e.target;
      var verb := if replace then "PATCH" else e.httpMethod;
      calls := calls + [HttpCall(verb, ApiUrl() + target, Some(json))];
      if answer.write.None? {
        return Err(WriteError(verb, target, None));
      }
      var status := answer.write.value;
      if !IsOk(status) {
        if status == 404 && e.httpMethod == "DELETE" {
          result := Ok(Deleted);
        } else {
          result := Err(WriteError(verb, target, answer.write));
        }
        return;
      }
      result := Ok(if verb == "DELETE" then Deleted else if replace then Updated else Created);
    }

    /** Reconciles a freshly built entry object against its answers. */
    method Apply(e: CaddyEntry, answer: Answer) returns (result: Result<Action, WriteError>)
      modifies this
      ensures calls == old(calls) + FetchCalls(ApiUrl(), e, answer.Observed())
      ensures result == Outcome(e, answer.Observed(), answer.write)
    {
      var held := new Entry(e);
      result := Fetch(held, answer);
    }

    /** Applies three entries in order; each starts only once the previous
      one succeeded, and an error ends the sequence. */
    method ApplyInOrder(e0: CaddyEntry, e1: CaddyEntry, e2: CaddyEntry, a0: Answer, a1: Answer, a2: Answer)
      returns (result: Result<seq<Action>, WriteError>)
      modifies this
      ensures var run := Chain(ApiUrl(), [e0, e1, e2], [a0, a1, a2]);
        && calls == old(calls) + run.calls
        && result == if run.failure.Some? then Err(run.failure.value) else Ok(run.actions)
    {
      ChainOfThree(ApiUrl(), e0, e1, e2, a0, a1, a2);
      ghost var c0, c1, c2 := FetchCalls(ApiUrl(), e0, a0.Observed()), FetchCalls(ApiUrl(), e1, a1.Observed()), FetchCalls(ApiUrl(), e2, a2.Observed());
      var r0 := Apply(e0, a0);
      assert calls == old(calls) + c0;
      if r0.Err? { return Err(r0.error); }
      var r1 := Apply(e1, a1);
      assert calls == old(calls) + c0 + c1;
      if r1.Err? { return Err(r1.error); }
      var r2 := Apply(e2, a2);
      assert calls == old(calls) + (c0 + c1 + c2);
      if r2.Err? { return Err(r2.error); }
      result := Ok([r0.value, r1.value, r2.value]);
    }

    /** Server, then TLS policy, then the reverse proxies. */
    method Launch(project: ProjectSchema.ProjectConfiguration, server: Answer, tls: Answer, proxies: Answer)
      returns (result: Result<seq<Action>, WriteError>)
      modifies this
      ensures var entries := [Server(config.domain), Tls(config.domain, config.provider),
                              Hostnames(project.hostnames, config.domain, devPort)];
        var run := Chain(ApiUrl(), entries, [server, tls, proxies]);
        && calls == old(calls) + run.calls
        && result == if run.failure.Some? then Err(run.failure.value) else Ok(run.actions)
    {
      result := ApplyInOrder(Server(config.domain), Tls(config.domain, config.provider),
                             Hostnames(project.hostnames, config.domain, devPort), server, tls, proxies);
    }

    /** Removes this dev server's reverse proxy. A deletion makes no
      lookup, so only the write's answer matters. */
    method Down(write: Option<int>) returns (result: Result<Action, WriteError>)
      modifies this
      ensures calls == old(calls) + [HttpCall("DELETE", ApiUrl() + "/id/" + HostnameId(devPort), Some(EmptyObject))]
      ensures result == if write.Some? && (IsOk(write.value) || write.value == 404) then Ok(Deleted)
                        else Err(WriteError("DELETE", "/id/" + HostnameId(devPort), write))
    {
      var entry := Configurator.Down(devPort);
      var answer := Answer(404, JNull, write);
      OutcomeTable(entry, answer.Observed(), write);
      assert Plan(entry, answer.Observed()) == Write(Request("DELETE", entry.target, EmptyObject), false);
      assert ApiUrl() + entry.target == ApiUrl() + "/id/" + HostnameId(devPort);
      result := Apply(entry, answer);
    }
  }
}
