/** The Release resource and the names derived from it (api/v1alpha1). */
module Api {
  import opened Wrappers
  import opened Charts

  /** The reasons a condition can have; phase states use the same names. */
  datatype State = Pending | InProgress | Skipped | Succeeded | Failed | PlanComplete | PackagedComponentsAvailable

  /** A phase is named by its condition type without the suffix "Upgraded". */
  type Phase = string

  const PHASE_LCM: Phase := "LCM"
  const PHASE_OS: Phase := "OS"
  const PHASE_KUBERNETES: Phase := "Kubernetes"
  const PHASE_HELM_CHARTS: Phase := "HelmCharts"

  const CONDITION_APPLIED := "Applied"
  const CONDITION_MANIFEST_RESOLVED := "ManifestResolved"

  function ConditionType(p: Phase): string {
    p + "Upgraded"
  }

  /** A completed phase succeeded or was skipped. */
  predicate Completes(s: State) {
    s.Succeeded? || s.Skipped?
  }

  /** A status condition; message and transition time are not modelled. */
  datatype Condition = Condition(ctype: string, status: bool, reason: State, observedGeneration: int)

  datatype ComponentChart = ComponentChart(chart: string, runtime: RuntimeChart)

  datatype Spec = Spec(version: string, registry: string, disableDrain: bool, components: seq<ComponentChart>)

  datatype Status = Status(version: string, conditions: seq<Condition>, observedGeneration: int)

  datatype Release = Release(name: string, generation: int, spec: Spec, status: Status)

  /** Different phases have different condition types, none of which is a fixed one. */
  lemma ConditionTypeInjective(p: Phase, q: Phase)
    ensures ConditionType(p) == ConditionType(q) <==> p == q
    ensures ConditionType(p) != CONDITION_APPLIED && ConditionType(p) != CONDITION_MANIFEST_RESOLVED
  {
    assert ConditionType(p)[..|ConditionType(p)| - 8] == p;
    assert ConditionType(q)[..|ConditionType(q)| - 8] == q;
    var t := ConditionType(p);
    assert t[|t| - 3] == 'd' && CONDITION_APPLIED[|CONDITION_APPLIED| - 3] == 'i';
    assert t[|t| - 8] == 'U' && CONDITION_MANIFEST_RESOLVED[|CONDITION_MANIFEST_RESOLVED| - 8] == 'R';
  }

  // ---------------------------------------------------------------- SanitizeVersion

  function ToLower(c: char): char {
    if 'A' <= c <= 'Z' then (c as int + 32) as char else c
  }

  predicate IsNameChar(c: char) {
    'a' <= c <= 'z' || '0' <= c <= '9' || c == '-'
  }

  function Lower(s: string): string {
    seq(|s|, i requires 0 <= i < |s| => ToLower(s[i]))
  }

  function DropOthers(s: string): (r: string)
    ensures |r| <= |s|
  {
    if s != "" && !IsNameChar(s[0]) then DropOthers(s[1..]) else s
  }

  /** Each longest run of other characters becomes one dash. */
  function ReplaceOthers(s: string): string
    decreases |s|
  {
    if s == "" then ""
    else if IsNameChar(s[0]) then [s[0]] + ReplaceOthers(s[1..])
    else "-" + ReplaceOthers(DropOthers(s[1..]))
  }

  function TrimLeft(s: string): string {
    if s != "" && s[0] == '-' then TrimLeft(s[1..]) else s
  }

  function TrimRight(s: string): string {
    if s != "" && s[|s| - 1] == '-' then TrimRight(s[..|s| - 1]) else s
  }

  /** A version in the form of a Kubernetes name suffix and label value. */
  function SanitizeVersion(version: string): string {
    TrimRight(TrimLeft(ReplaceOthers(Lower(version))))
  }

  /** Only lower-case letters, digits and inner dashes. */
  predicate IsNameSuffix(s: string) {
    && (forall i | 0 <= i < |s| :: 'a' <= s[i] <= 'z' || '0' <= s[i] <= '9' || s[i] == '-')
    && (s != "" ==> s[0] != '-' && s[|s| - 1] != '-')
  }

  lemma {:induction false} ReplacedIsValid(s: string)
    ensures forall i | 0 <= i < |ReplaceOthers(s)| :: IsNameChar(ReplaceOthers(s)[i])
    ensures (forall i | 0 <= i < |s| :: IsNameChar(s[i])) ==> ReplaceOthers(s) == s
    decreases |s|
  {
    if s == "" {
    } else if IsNameChar(s[0]) {
      ReplacedIsValid(s[1..]);
    } else {
      ReplacedIsValid(DropOthers(s[1..]));
    }
  }

  lemma {:induction false} TrimLeftValid(s: string)
    requires forall i | 0 <= i < |s| :: IsNameChar(s[i])
    ensures var r := TrimLeft(s); (forall i | 0 <= i < |r| :: IsNameChar(r[i])) && (r != "" ==> r[0] != '-')
  {
    if s != "" && s[0] == '-' {
      TrimLeftValid(s[1..]);
    }
  }

  lemma {:induction false} TrimRightValid(s: string)
    requires (forall i | 0 <= i < |s| :: IsNameChar(s[i])) && (s != "" ==> s[0] != '-')
    ensures IsNameSuffix(TrimRight(s))
  {
    if s != "" && s[|s| - 1] == '-' {
      TrimRightValid(s[..|s| - 1]);
    }
  }

  /** The result is always a valid suffix, and exactly the valid suffixes are left alone. */
  lemma SanitizeNormalizes(v: string)
    ensures IsNameSuffix(SanitizeVersion(v))
    ensures SanitizeVersion(v) == v <==> IsNameSuffix(v)
    ensures SanitizeVersion(SanitizeVersion(v)) == SanitizeVersion(v)
  {
    SanitizeValid(v);
    SanitizeFixed(SanitizeVersion(v));
    if IsNameSuffix(v) {
      SanitizeFixed(v);
    }
  }

  lemma SanitizeValid(v: string)
    ensures IsNameSuffix(SanitizeVersion(v))
  {
    ReplacedIsValid(Lower(v));
    TrimLeftValid(ReplaceOthers(Lower(v)));
    TrimRightValid(TrimLeft(ReplaceOthers(Lower(v))));
  }

  lemma SanitizeFixed(v: string)
    requires IsNameSuffix(v)
    ensures SanitizeVersion(v) == v
  {
    assert Lower(v) == v by {
      forall i | 0 <= i < |v| ensures ToLower(v[i]) == v[i] {
        assert IsNameChar(v[i]);
      }
    }
    ReplacedIsValid(v);
  }

  /** The letters, in lower case, and digits of `s`, in order. */
  function Alphanumerics(s: string): string {
    if s == "" then ""
    else (if 'A' <= s[0] <= 'Z' then [(s[0] as int + 32) as char]
          else if 'a' <= s[0] <= 'z' || '0' <= s[0] <= '9' then [s[0]] else []) + Alphanumerics(s[1..])
  }

  lemma {:induction false} AlphanumericsConcat(a: string, b: string)
    ensures Alphanumerics(a + b) == Alphanumerics(a) + Alphanumerics(b)
  {
    if a == "" {
      assert a + b == b;
    } else {
      assert (a + b)[1..] == a[1..] + b;
      AlphanumericsConcat(a[1..], b);
    }
  }

  lemma {:induction false} LowerKeeps(s: string)
    ensures Alphanumerics(Lower(s)) == Alphanumerics(s)
    ensures forall i | 0 <= i < |s| :: !('A' <= Lower(s)[i] <= 'Z')
  {
    if s != "" {
      assert Lower(s)[1..] == Lower(s[1..]);
      LowerKeeps(s[1..]);
    }
  }

  lemma {:induction false} DropKeeps(s: string)
    requires forall i | 0 <= i < |s| :: !('A' <= s[i] <= 'Z')
    ensures Alphanumerics(DropOthers(s)) == Alphanumerics(s)
    ensures forall i | 0 <= i < |DropOthers(s)| :: !('A' <= DropOthers(s)[i] <= 'Z')
  {
    if s != "" && !IsNameChar(s[0]) {
      DropKeeps(s[1..]);
    }
  }

  lemma {:induction false} ReplaceKeeps(s: string)
    requires forall i | 0 <= i < |s| :: !('A' <= s[i] <= 'Z')
    ensures Alphanumerics(ReplaceOthers(s)) == Alphanumerics(s)
    decreases |s|
  {
    if s != "" {
      if IsNameChar(s[0]) {
        ReplaceKeeps(s[1..]);
        assert ReplaceOthers(s)[1..] == ReplaceOthers(s[1..]);
      } else {
        DropKeeps(s[1..]);
        ReplaceKeeps(DropOthers(s[1..]));
        assert ReplaceOthers(s)[1..] == ReplaceOthers(DropOthers(s[1..]));
      }
    }
  }

  lemma {:induction false} TrimLeftKeeps(s: string)
    ensures Alphanumerics(TrimLeft(s)) == Alphanumerics(s)
  {
    if s != "" && s[0] == '-' {
      TrimLeftKeeps(s[1..]);
    }
  }

  lemma {:induction false} TrimRightKeeps(s: string)
    ensures Alphanumerics(TrimRight(s)) == Alphanumerics(s)
  {
    if s != "" && s[|s| - 1] == '-' {
      TrimRightKeeps(s[..|s| - 1]);
      assert s == s[..|s| - 1] + "-";
      AlphanumericsConcat(s[..|s| - 1], "-");
      assert Alphanumerics("-") == "" by {
        assert "-"[1..] == "";
      }
    }
  }

  /** Sanitizing loses, adds and reorders no letter or digit; it only lowers letters. */
  lemma SanitizeKeepsAlphanumerics(v: string)
    ensures Alphanumerics(SanitizeVersion(v)) == Alphanumerics(v)
  {
    LowerKeeps(v);
    ReplaceKeeps(Lower(v));
    TrimLeftKeeps(ReplaceOthers(Lower(v)));
    TrimRightKeeps(TrimLeft(ReplaceOthers(Lower(v))));
  }

  /** Where no two other characters are adjacent, each becomes one dash. */
  lemma {:induction false} ReplaceSingle(s: string)
    requires forall i | 0 <= i < |s| - 1 :: IsNameChar(s[i]) || IsNameChar(s[i + 1])
    ensures ReplaceOthers(s) == seq(|s|, i requires 0 <= i < |s| => if IsNameChar(s[i]) then s[i] else '-')
    decreases |s|
  {
    if s != "" {
      ReplaceSingle(s[1..]);
      assert !IsNameChar(s[0]) ==> DropOthers(s[1..]) == s[1..];
    }
  }

  /** The sanitized form of a version in which no two other characters are adjacent, read off character by character. */
  lemma SanitizeSingle(v: string, form: string)
    requires |v| == |form| && v != "" && form[0] != '-' && form[|form| - 1] != '-'
    requires forall i | 0 <= i < |v| :: form[i] == if IsNameChar(ToLower(v[i])) then ToLower(v[i]) else '-'
    requires forall i | 0 <= i < |v| - 1 :: IsNameChar(ToLower(v[i])) || IsNameChar(ToLower(v[i + 1]))
    ensures SanitizeVersion(v) == form
  {
    ReplaceSingle(Lower(v));
    assert ReplaceOthers(Lower(v)) == form;
  }

  const OLD_CANDIDATE := "1.0.0-rc.1"
  const NEW_CANDIDATE := "1.0.0-rc-1"

  /** Two versions in the form of Semantic Versioning 2.0.0 that differ only in a pre-release separator have the same
      sanitized form. */
  lemma SanitizeNotInjective()
    ensures OLD_CANDIDATE != NEW_CANDIDATE
    ensures SanitizeVersion(OLD_CANDIDATE) == SanitizeVersion(NEW_CANDIDATE) == "1-0-0-rc-1"
  {
    assert OLD_CANDIDATE[8] != NEW_CANDIDATE[8];
    SanitizeSingle(OLD_CANDIDATE, "1-0-0-rc-1");
    SanitizeSingle(NEW_CANDIDATE, "1-0-0-rc-1");
  }
}
