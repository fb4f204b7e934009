/** The per-project settings: a strict object whose `hostnames` is a
    non-empty array of single labels (letters, digits and hyphens, starting
    and ending with a letter or digit, either case). */
module ProjectSchema {
  import opened Base
  import opened Json
  import opened Grammar
  import CaddySchema

  const Keys: set<string> := {"hostnames"}

  datatype Issue =
    | NotAnObject
    | UnrecognizedKey(key: string)
    | HostnamesNotArray
    | HostnameNotString(index: nat)
    | HostnameFormat(index: nat)
    | NoHostname

  datatype ProjectConfiguration = ProjectConfiguration(hostnames: seq<string>)

  predicate IsHostname(j: Json) {
    j.JStr? && IsLabel(j.s)
  }

  /** Each element is checked, and the length check runs beside them. */
  function HostnameIssues(elems: seq<Json>): set<Issue> {
    (set i | 0 <= i < |elems| && !elems[i].JStr? :: HostnameNotString(i))
    + (set i | 0 <= i < |elems| && elems[i].JStr? && !IsLabel(elems[i].s) :: HostnameFormat(i))
    + (if |elems| == 0 then {NoHostname} else {})
  }

  function Issues(fields: map<string, Json>): set<Issue> {
    (set k | k in fields.Keys && k !in Keys :: UnrecognizedKey(k))
    + (if "hostnames" !in fields || !fields["hostnames"].JArr? then {HostnamesNotArray}
       else HostnameIssues(fields["hostnames"].elems))
  }

  /** The conditions under which the schema reports nothing. */
  predicate Acceptable(fields: map<string, Json>) {
    && fields.Keys <= Keys
    && "hostnames" in fields && fields["hostnames"].JArr?
    && |fields["hostnames"].elems| >= 1
    && forall i :: 0 <= i < |fields["hostnames"].elems| ==> IsHostname(fields["hostnames"].elems[i])
  }

  lemma IssuesEmpty(fields: map<string, Json>)
    ensures Issues(fields) == {} <==> Acceptable(fields)
  {
    var issues := Issues(fields);
    if issues == {} {
      assert forall k :: k in fields.Keys && k !in Keys ==> UnrecognizedKey(k) in issues;
      assert HostnamesNotArray !in issues;
      var elems := fields["hostnames"].elems;
      assert NoHostname !in issues;
      forall i | 0 <= i < |elems| ensures IsHostname(elems[i]) {
        assert HostnameNotString(i) !in issues;
        assert HostnameFormat(i) !in issues;
      }
    }
    if Acceptable(fields) {
      var elems := fields["hostnames"].elems;
      assert (set k | k in fields.Keys && k !in Keys :: UnrecognizedKey(k)) == {};
      assert (set i | 0 <= i < |elems| && !elems[i].JStr? :: HostnameNotString(i)) == {};
      assert (set i | 0 <= i < |elems| && elems[i].JStr? && !IsLabel(elems[i].s) :: HostnameFormat(i)) == {};
    }
  }

  /** Parsing the project settings. */
  function Parse(j: Json): (r: Result<ProjectConfiguration, set<Issue>>)
    ensures r.Ok? <==> j.JObj? && Acceptable(j.fields)
    ensures r.Ok? ==>
      && |r.value.hostnames| == |j.fields["hostnames"].elems| >= 1
      && forall i :: 0 <= i < |r.value.hostnames| ==>
           JStr(r.value.hostnames[i]) == j.fields["hostnames"].elems[i] && IsLabel(r.value.hostnames[i])
    ensures r.Err? && j.JObj? ==> forall k :: k in j.fields.Keys && k !in Keys ==> UnrecognizedKey(k) in r.error
    ensures r.Err? && !j.JObj? ==> r.error == {NotAnObject}
  {
    if !j.JObj? then Err({NotAnObject})
    else
      var fields := j.fields;
      IssuesEmpty(fields);
      var issues := Issues(fields);
      if issues != {} then Err(issues)
      else
        var elems := fields["hostnames"].elems;
        Ok(ProjectConfiguration(seq(|elems|, i requires 0 <= i < |elems| && elems[i].JStr? => elems[i].s)))
  }

  /** A hostname holds no dot, so a hostname, a dot and a valid domain
      make a valid domain again: every host the reverse proxy matches is
      well formed. */
  lemma HostnameUnderDomain(h: string, d: string)
    requires IsLabel(h) && CaddySchema.IsDomain(d)
    ensures CaddySchema.IsDomain(h + "." + d)
  {
    LabelShape(h);
    var s := h + "." + d;
    assert s[..|h|] == h && s[|h|] == '.';
    CaddySchema.FirstDotAt(s, |h|);
    assert s[|h| + 1..] == d;
  }
}
