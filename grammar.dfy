/** The label grammar shared by the domain and hostname validators: the
    regular expression `[a-z0-9]([a-z0-9-]*[a-z0-9])?` under the
    case-insensitive flag. Without the Unicode flag, case-insensitive
    matching of `[a-z]` admits exactly the ASCII letters of either case. */
module Grammar {

  predicate IsAlnum(c: char) {
    'a' <= c <= 'z' || 'A' <= c <= 'Z' || '0' <= c <= '9'
  }

  predicate IsLabelChar(c: char) {
    IsAlnum(c) || c == '-'
  }

  /** One alphanumeric character, then optionally a run of alphanumerics
      and hyphens closed by an alphanumeric: the regex, group by group. */
  predicate IsLabel(s: string) {
    && |s| >= 1
    && IsAlnum(s[0])
    && (|s| == 1 ||
        (&& (forall i :: 1 <= i < |s| - 1 ==> IsLabelChar(s[i]))
         && IsAlnum(s[|s| - 1])))
  }

  /** A label is a non-empty run of letters, digits and hyphens that starts
      and ends with a letter or digit; in particular it holds no dot. */
  lemma LabelShape(s: string)
    ensures IsLabel(s) <==>
      && |s| >= 1 && IsAlnum(s[0]) && IsAlnum(s[|s| - 1])
      && forall i :: 0 <= i < |s| ==> IsLabelChar(s[i])
    ensures IsLabel(s) ==> '.' !in s
  {
    if IsLabel(s) && '.' in s {
      var i :| 0 <= i < |s| && s[i] == '.';
      assert IsLabelChar(s[i]);
    }
  }

  /** ASCII lower-casing, the case folding the case-insensitive flag uses. */
  function LowerChar(c: char): (d: char)
    ensures IsAlnum(d) <==> IsAlnum(c)
    ensures IsLabelChar(d) <==> IsLabelChar(c)
    ensures d == '.' <==> c == '.'
    ensures 'A' <= c <= 'Z' ==> 'a' <= d <= 'z' && d as int == c as int + 32
    ensures !('A' <= c <= 'Z') ==> d == c
  {
    if 'A' <= c <= 'Z' then (c as int + 32) as char else c
  }

  function Lower(s: string): (t: string)
    ensures |t| == |s|
    ensures forall i :: 0 <= i < |s| ==> t[i] == LowerChar(s[i])
  {
    seq(|s|, i requires 0 <= i < |s| => LowerChar(s[i]))
  }

  /** Label matching ignores case. */
  lemma LabelIgnoresCase(s: string)
    ensures IsLabel(Lower(s)) <==> IsLabel(s)
  {
    LabelShape(s);
    LabelShape(Lower(s));
  }
}
