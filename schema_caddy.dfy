/** The proxy settings file: a strict object with a DNS provider, the admin
    port (an integer from 1 to 65535, 2019 when absent) and the wildcard
    domain, which must match
    `^[a-z0-9]([a-z0-9-]*[a-z0-9])?(\.[a-z0-9]([a-z0-9-]*[a-z0-9])?)*$`
    case-insensitively. */
module CaddySchema {
  import opened Base
  import opened Json
  import opened Grammar

  /** Position of the first dot. */
  function FirstDot(s: string): (k: nat)
    requires '.' in s
    ensures k < |s| && s[k] == '.' && '.' !in s[..k]
  {
    if s[0] == '.' then 0
    else
      assert '.' in s[1..] by {
        var i :| 0 <= i < |s| && s[i] == '.';
        assert s[1..][i - 1] == '.';
      }
      var k := 1 + FirstDot(s[1..]);
      assert s[..k] == [s[0]] + s[1..][..k - 1];
      k
  }

  /** The domain regex: a label, then any number of `.` + label. A label
      holds no dot, so the first label ends at the first dot. */
  predicate IsDomain(s: string)
    decreases |s|
  {
    if '.' in s then
      var k := FirstDot(s);
      IsLabel(s[..k]) && IsDomain(s[k + 1..])
    else
      IsLabel(s)
  }

  /** The labels joined with dots. */
  function JoinDots(labels: seq<string>): string
    requires |labels| >= 1
  {
    if |labels| == 1 then labels[0] else labels[0] + "." + JoinDots(labels[1..])
  }

  /** The language of the regex, stated directly: one or more labels joined
      by single dots. */
  ghost predicate IsDotJoinOfLabels(s: string) {
    exists labels: seq<string> ::
      |labels| >= 1 && (forall i :: 0 <= i < |labels| ==> IsLabel(labels[i])) && JoinDots(labels) == s
  }

  /** A dot that follows a dot-free prefix is the first dot. */
  lemma FirstDotAt(s: string, k: nat)
    requires k < |s| && s[k] == '.' && '.' !in s[..k]
    ensures FirstDot(s) == k
  {
    var j := FirstDot(s);
    assert forall i :: 0 <= i < k ==> s[i] != '.' by {
      forall i | 0 <= i < k ensures s[i] != '.' { assert s[..k][i] == s[i]; }
    }
    assert forall i :: 0 <= i < j ==> s[i] != '.' by {
      forall i | 0 <= i < j ensures s[i] != '.' { assert s[..j][i] == s[i]; }
    }
  }

  lemma {:induction false} DomainLabels(s: string) returns (labels: seq<string>)
    requires IsDomain(s)
    ensures |labels| >= 1 && JoinDots(labels) == s
    ensures forall i :: 0 <= i < |labels| ==> IsLabel(labels[i])
    decreases |s|
  {
    if '.' in s {
      var k := FirstDot(s);
      var l, r := s[..k], s[k + 1..];
      var rest := DomainLabels(r);
      labels := [l] + rest;
      assert labels[1..] == rest;
      assert s == l + "." + r;
    } else {
      labels := [s];
    }
  }

  lemma {:induction false} LabelsMakeDomain(labels: seq<string>)
    requires |labels| >= 1 && forall i :: 0 <= i < |labels| ==> IsLabel(labels[i])
    ensures IsDomain(JoinDots(labels))
    decreases |labels|
  {
    LabelShape(labels[0]);
    if |labels| > 1 {
      var l, s := labels[0], JoinDots(labels);
      assert s == l + "." + JoinDots(labels[1..]);
      assert s[..|l|] == l;
      assert s[|l|] == '.';
      FirstDotAt(s, |l|);
      assert s[|l| + 1..] == JoinDots(labels[1..]);
      LabelsMakeDomain(labels[1..]);
    }
  }

  /** The recursive matcher accepts exactly the dot-joined label sequences. */
  lemma DomainIsDotJoinOfLabels(s: string)
    ensures IsDomain(s) <==> IsDotJoinOfLabels(s)
  {
    if IsDomain(s) {
      var labels := DomainLabels(s);
    }
    if IsDotJoinOfLabels(s) {
      var labels :| |labels| >= 1 && (forall i :: 0 <= i < |labels| ==> IsLabel(labels[i]))
                    && JoinDots(labels) == s;
      LabelsMakeDomain(labels);
    }
  }

  /** A character-level reading of the grammar: only letters, digits,
      hyphens and dots; alphanumeric at both ends; and a dot always has an
      alphanumeric on each side. */
  ghost predicate LocallyDomain(s: string) {
    && |s| >= 1
    && IsAlnum(s[0]) && IsAlnum(s[|s| - 1])
    && (forall i :: 0 <= i < |s| ==> IsLabelChar(s[i]) || s[i] == '.')
    && (forall i :: 0 <= i < |s| - 1 && s[i] == '.' ==> IsAlnum(s[i + 1]))
    && (forall i :: 0 < i < |s| && s[i] == '.' ==> IsAlnum(s[i - 1]))
  }

  /** Prefixing a label and a dot keeps the character-level reading. */
  lemma LocalAfterLabel(l: string, r: string)
    requires IsLabel(l) && LocallyDomain(r)
    ensures LocallyDomain(l + "." + r)
  {
    LabelShape(l);
    var s := l + "." + r;
    var k := |l|;
    assert forall i :: 0 <= i < k ==> s[i] == l[i] && s[i] != '.';
    assert forall i :: k < i < |s| ==> s[i] == r[i - k - 1];
    assert s[k] == '.';
  }

  lemma {:induction false} DomainIsLocal(s: string)
    requires IsDomain(s)
    ensures LocallyDomain(s)
    decreases |s|
  {
    if '.' in s {
      var k := FirstDot(s);
      var l, r := s[..k], s[k + 1..];
      assert s == l + "." + r;
      assert IsLabel(l) && IsDomain(r);
      DomainIsLocal(r);
      LocalAfterLabel(l, r);
    } else {
      LabelShape(s);
    }
  }

  lemma {:induction false} LocalIsDomain(s: string)
    requires LocallyDomain(s)
    ensures IsDomain(s)
    decreases |s|
  {
    if '.' in s {
      var k := FirstDot(s);
      var l, r := s[..k], s[k + 1..];
      assert k > 0 && k < |s| - 1;
      assert IsAlnum(s[k - 1]) && IsAlnum(s[k + 1]);
      forall i | 0 <= i < |l| ensures IsLabelChar(l[i]) {
        assert l[i] == s[i];
        assert l[i] in s[..k];
      }
      LabelShape(l);
      assert LocallyDomain(r) by {
        forall i | 0 <= i < |r| - 1 && r[i] == '.' ensures IsAlnum(r[i + 1]) {
          assert r[i] == s[k + 1 + i];
        }
        forall i | 0 < i < |r| && r[i] == '.' ensures IsAlnum(r[i - 1]) {
          assert r[i] == s[k + 1 + i];
        }
      }
      LocalIsDomain(r);
    } else {
      forall i | 0 <= i < |s| ensures IsLabelChar(s[i]) {
        assert s[i] != '.';
      }
      LabelShape(s);
    }
  }

  /** The regex matcher agrees with the character-level reading, both ways. */
  lemma DomainIffLocal(s: string)
    ensures IsDomain(s) <==> LocallyDomain(s)
  {
    if IsDomain(s) { DomainIsLocal(s); }
    if LocallyDomain(s) { LocalIsDomain(s); }
  }

  /** A valid domain has no leading dot, no trailing dot and no two dots in
      a row; it is non-empty. */
  lemma DomainRejectsStrayDots(s: string)
    requires IsDomain(s)
    ensures |s| >= 1 && s[0] != '.' && s[|s| - 1] != '.'
    ensures forall i :: 0 <= i < |s| - 1 ==> !(s[i] == '.' && s[i + 1] == '.')
  {
    DomainIsLocal(s);
  }

  /** A single label is a domain, however long: there is no length limit
      on labels or domains. */
  lemma LabelIsDomain(s: string)
    requires IsLabel(s)
    ensures IsDomain(s)
  {
    LabelShape(s);
  }

  lemma LocalIgnoresCase(s: string)
    ensures LocallyDomain(Lower(s)) <==> LocallyDomain(s)
  {
    var t := Lower(s);
    assert forall i :: 0 <= i < |s| ==>
      (IsAlnum(t[i]) <==> IsAlnum(s[i])) && (IsLabelChar(t[i]) <==> IsLabelChar(s[i])) && (t[i] == '.' <==> s[i] == '.');
  }

  /** The domain grammar ignores case. */
  lemma DomainIgnoresCase(s: string)
    ensures IsDomain(Lower(s)) <==> IsDomain(s)
  {
    DomainIffLocal(s);
    DomainIffLocal(Lower(s));
    LocalIgnoresCase(s);
  }

  const DefaultPort: nat := 2019

  /** An integer from 1 to 65535. */
  predicate IsPort(n: real) {
    n.Floor as real == n && 1.0 <= n <= 65535.0
  }

  const Keys: set<string> := {"provider", "port", "domain"}

  /** What the settings schema can complain about. */
  datatype Issue =
    | NotAnObject
    | UnrecognizedKey(key: string)
    | ProviderRequired
    | PortNotNumber
    | PortNotInteger
    | PortTooSmall
    | PortTooLarge
    | DomainNotString
    | DomainFormat

  datatype CaddyConfiguration = CaddyConfiguration(provider: Json, port: nat, domain: string)

  /** The port checks run independently, so each one that fails reports. */
  function PortIssues(port: Json): set<Issue> {
    match port
    case JNum(n) =>
      (if n.Floor as real != n then {PortNotInteger} else {})
      + (if n < 1.0 then {PortTooSmall} else {})
      + (if n > 65535.0 then {PortTooLarge} else {})
    case _ => {PortNotNumber}
  }

  function Issues(fields: map<string, Json>): set<Issue> {
    (set k | k in fields.Keys && k !in Keys :: UnrecognizedKey(k))
    + (if "provider" in fields then {} else {ProviderRequired})
    + (if "port" in fields then PortIssues(fields["port"]) else {})
    + (if "domain" !in fields || !fields["domain"].JStr? then {DomainNotString}
       else if IsDomain(fields["domain"].s) then {} else {DomainFormat})
  }

  lemma PortIssuesEmpty(port: Json)
    ensures PortIssues(port) == {} <==> port.JNum? && IsPort(port.n)
  {
    if port.JNum? && PortIssues(port) == {} {
      assert PortNotInteger !in PortIssues(port);
      assert PortTooSmall !in PortIssues(port);
      assert PortTooLarge !in PortIssues(port);
    }
  }

  /** The conditions under which the schema reports nothing. */
  predicate Acceptable(fields: map<string, Json>) {
    && fields.Keys <= Keys
    && "provider" in fields
    && ("port" in fields ==> fields["port"].JNum? && IsPort(fields["port"].n))
    && "domain" in fields && fields["domain"].JStr? && IsDomain(fields["domain"].s)
  }

  lemma IssuesEmpty(fields: map<string, Json>)
    ensures Issues(fields) == {} <==> Acceptable(fields)
  {
    var issues := Issues(fields);
    if issues == {} {
      assert forall k :: k in fields.Keys && k !in Keys ==> UnrecognizedKey(k) in issues;
      assert ProviderRequired !in issues;
      assert DomainNotString !in issues && DomainFormat !in issues;
      if "port" in fields {
        assert PortIssues(fields["port"]) <= issues;
        PortIssuesEmpty(fields["port"]);
      }
    }
    if Acceptable(fields) {
      if "port" in fields { PortIssuesEmpty(fields["port"]); }
      assert (set k | k in fields.Keys && k !in Keys :: UnrecognizedKey(k)) == {};
    }
  }

  /** Parsing the settings object. */
  function Parse(j: Json): (r: Result<CaddyConfiguration, set<Issue>>)
    ensures r.Ok? <==> j.JObj? && Acceptable(j.fields)
    ensures r.Ok? ==>
      && r.value.provider == j.fields["provider"]
      && r.value.domain == j.fields["domain"].s
      && r.value.port == (if "port" in j.fields then j.fields["port"].n.Floor else DefaultPort)
      && 1 <= r.value.port <= 65535
      && IsDomain(r.value.domain)
    ensures r.Err? && j.JObj? ==> forall k :: k in j.fields.Keys && k !in Keys ==> UnrecognizedKey(k) in r.error
    ensures r.Err? && !j.JObj? ==> r.error == {NotAnObject}
  {
    if !j.JObj? then Err({NotAnObject})
    else
      var fields := j.fields;
      IssuesEmpty(fields);
      var issues := Issues(fields);
      if issues != {} then Err(issues)
      else
        var port: nat := if "port" in fields then fields["port"].n.Floor else DefaultPort;
        Ok(CaddyConfiguration(fields["provider"], port, fields["domain"].s))
  }
}
