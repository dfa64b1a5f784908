/** Admission of Release edits (internal/webhook/v1alpha1/release_webhook.go). */
module Webhook {
  import opened Wrappers
  import opened Charts
  import opened Api
  import opened Conditions

  /** The version library: which strings parse, and the sign of comparing a parsed version with another string, None
      when that string does not parse in the same format. */
  datatype Versions = Versions(parses: string -> bool, compare: (string, string) -> Option<int>)

  predicate Newer(vs: Versions, a: string, b: string) {
    vs.compare(a, b) == Some(1)
  }

  /** Being newer is a strict order. */
  ghost predicate Ordered(vs: Versions) {
    && (forall a :: !Newer(vs, a, a))
    && forall a, b, c | Newer(vs, a, b) && Newer(vs, b, c) :: Newer(vs, a, c)
  }

  datatype Denial = RegistryRequired | VersionInvalid | ReleaseExists | UpgradeRunning | VersionNotComparable
                  | VersionUnchanged | VersionOlder | SecretMissing | DeleteForbidden

  /** Keys by secret of the "kube-system" namespace. */
  type Secrets = map<string, set<string>>

  predicate SecretPresent(secrets: Secrets, ref: SecretRef) {
    ref.name in secrets && forall k | k in ref.keys :: k in secrets[ref.name]
  }

  function ValidateSecrets(secrets: Secrets, components: seq<ComponentChart>): Option<Denial> {
    if exists c | c in components :: c.runtime.secretRef.Some? && !SecretPresent(secrets, c.runtime.secretRef.value)
    then Some(SecretMissing) else None
  }

  predicate ValidVersion(vs: Versions, version: string) {
    version != "" && vs.parses(version)
  }

  /** None admits the request. */
  function ValidateCreate(vs: Versions, secrets: Secrets, existing: set<string>, spec: Spec): Option<Denial> {
    if spec.registry == "" then Some(RegistryRequired)
    else if !ValidVersion(vs, spec.version) then Some(VersionInvalid)
    else if existing != {} then Some(ReleaseExists)
    else ValidateSecrets(secrets, spec.components)
  }

  /** No edit while an upgrade is pending or in progress; before
      its start, after success and after failure edits pass. */
  function ValidateNoUpgradeInProgress(r: Release): Option<Denial> {
    match ConditionOf(r, CONDITION_APPLIED)
    case None => None
    case Some(c) => if c.status || c.reason == Failed then None else Some(UpgradeRunning)
  }

  function ValidateNewerVersion(vs: Versions, applied: string, wanted: string): Option<Denial> {
    if applied == "" then None
    else
      match vs.compare(wanted, applied)
      case None => Some(VersionNotComparable)
      case Some(sign) => if sign == 0 then Some(VersionUnchanged) else if sign == -1 then Some(VersionOlder) else None
  }

  function ValidateUpdate(vs: Versions, secrets: Secrets, old_: Release, spec: Spec): Option<Denial> {
    if !ValidVersion(vs, spec.version) then Some(VersionInvalid)
    else if spec.registry == "" then Some(RegistryRequired)
    else if ValidateNoUpgradeInProgress(old_).Some? then ValidateNoUpgradeInProgress(old_)
    else if ValidateNewerVersion(vs, old_.status.version, spec.version).Some? then
      ValidateNewerVersion(vs, old_.status.version, spec.version)
    else ValidateSecrets(secrets, spec.components)
  }

  function ValidateDelete(r: Release): Option<Denial> {
    Some(DeleteForbidden)
  }

  /** A comparison answers -1, 0 or 1. */
  ghost predicate Signs(vs: Versions) {
    forall a, b | vs.compare(a, b).Some? :: -1 <= vs.compare(a, b).value <= 1
  }

  /** What an admitted edit guarantees: once some version is applied the new one is newer, and no upgrade is running. */
  lemma AdmittedUpdate(vs: Versions, secrets: Secrets, r: Release, spec: Spec)
    requires Signs(vs)
    ensures ValidateUpdate(vs, secrets, r, spec).None? <==>
            && ValidVersion(vs, spec.version) && spec.registry != ""
            && (ConditionOf(r, CONDITION_APPLIED).None? || IsTrue(r, CONDITION_APPLIED)
                || HasReason(r, CONDITION_APPLIED, Failed))
            && (r.status.version == "" || Newer(vs, spec.version, r.status.version))
            && forall c | c in spec.components && c.runtime.secretRef.Some? ::
               SecretPresent(secrets, c.runtime.secretRef.value)
  {
  }

  /** What an admitted creation guarantees: it is the only Release, and its version, registry and secrets are there. */
  lemma AdmittedCreate(vs: Versions, secrets: Secrets, existing: set<string>, spec: Spec)
    ensures ValidateCreate(vs, secrets, existing, spec).None? <==>
            && existing == {} && spec.registry != "" && spec.version != "" && vs.parses(spec.version)
            && forall c | c in spec.components && c.runtime.secretRef.Some? ::
                 var ref := c.runtime.secretRef.value;
                 ref.name in secrets && forall k | k in ref.keys :: k in secrets[ref.name]
  {
  }

  /** Why an edit is denied: the first of these checks that fails. A deletion always is. */
  lemma UpdateDenied(vs: Versions, secrets: Secrets, r: Release, spec: Spec, d: Denial)
    requires Signs(vs) && ValidateUpdate(vs, secrets, r, spec) == Some(d)
    ensures d in {VersionInvalid, RegistryRequired, UpgradeRunning, VersionNotComparable, VersionUnchanged,
                  VersionOlder,
                  SecretMissing}
    ensures d == VersionInvalid <==> spec.version == "" || !vs.parses(spec.version)
    ensures d == RegistryRequired ==> spec.registry == ""
    ensures d == UpgradeRunning ==> ConditionOf(r, "Applied").Some? && !IsTrue(r, "Applied")
    ensures d in {VersionNotComparable, VersionUnchanged, VersionOlder} ==>
              r.status.version != ""
              && vs.compare(spec.version, r.status.version)
                 == if d == VersionNotComparable then None else Some(if d == VersionUnchanged then 0 else -1)
    ensures d == SecretMissing ==>
              exists c | c in spec.components :: c.runtime.secretRef.Some?
                  && !SecretPresent(secrets, c.runtime.secretRef.value)
    ensures ValidateDelete(r).Some?
  {
  }
}
