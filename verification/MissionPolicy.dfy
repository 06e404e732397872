/** Resolution of mission policies: profiles, defaults and overrides (automation/mission_policy.py). */
module MissionPolicy {
  import opened Common
  import opened Backoff
  import opened Text

  /** A value found under a key: absent, present but not a number, or a number. */
  datatype Raw<T> = Missing | Bad | Val(v: T)

  datatype Slo = Slo(warning: int, critical: int, disable: int, backoffBase: real, backoffMax: real,
                     circuitThreshold: int, circuitOpen: real)

  datatype RawSlo = RawSlo(warning: Raw<int>, critical: Raw<int>, disable: Raw<int>,
                           backoffBase: Raw<real>, backoffMax: Raw<real>,
                           circuitThreshold: Raw<int>, circuitOpen: Raw<real>)

  /** A policy as given: its profile name, an `slo` dictionary if there is one, and keys at top level. */
  datatype RawPolicy = RawPolicy(profile: Option<string>, slo: Option<RawSlo>, flat: RawSlo)

  datatype Policy = Policy(profile: string, slo: Slo)

  datatype Result<T> = Ok(value: T) | Err(error: string)

  const NOTHING := RawSlo(Missing, Missing, Missing, Missing, Missing, Missing, Missing)

  const PROFILES: map<string, Slo> := map[
    "balanced" := Slo(2, 4, 6, 5.0, 300.0, 4, 120.0),
    "strict" := Slo(1, 2, 3, 10.0, 600.0, 2, 300.0),
    "watchdog" := Slo(1, 2, 4, 3.0, 90.0, 3, 90.0),
    "release" := Slo(1, 2, 3, 15.0, 900.0, 2, 600.0)
  ]

  /** Thresholds are ordered, so an automation warns before it is critical and is critical before it is disabled. */
  predicate Valid(s: Slo) {
    && 1 <= s.warning <= s.critical < s.disable
    && 1.0 <= s.backoffBase <= s.backoffMax
    && 1 <= s.circuitThreshold && 1.0 <= s.circuitOpen
  }

  function AsInt(raw: Raw<int>, minimum: int, default: int): int {
    Max(minimum, if raw.Val? then raw.v else default)
  }

  function AsReal(raw: Raw<real>, minimum: real, default: real): real {
    MaxReal(minimum, if raw.Val? then raw.v else default)
  }

  /** Whatever is given, the result is a valid SLO; each bound is the value fixed just before it. */
  function NormalizeSlo(raw: RawSlo, fallback: Slo): (s: Slo)
    ensures Valid(s)
  {
    var warning := AsInt(raw.warning, 1, fallback.warning);
    var critical := AsInt(raw.critical, warning, fallback.critical);
    var disable := AsInt(raw.disable, critical + 1, fallback.disable);
    var base := AsReal(raw.backoffBase, 1.0, fallback.backoffBase);
    var max := AsReal(raw.backoffMax, base, fallback.backoffMax);
    Slo(warning, critical, disable, base, max,
        AsInt(raw.circuitThreshold, 1, fallback.circuitThreshold), AsReal(raw.circuitOpen, 1.0, fallback.circuitOpen))
  }

  function Given(s: Slo): RawSlo {
    RawSlo(Val(s.warning), Val(s.critical), Val(s.disable), Val(s.backoffBase), Val(s.backoffMax),
           Val(s.circuitThreshold), Val(s.circuitOpen))
  }

  function Over<T>(base: T, raw: Raw<T>): Raw<T> { if raw.Missing? then Val(base) else raw }

  /** `merged`: the base values overwritten by the keys present in `raw`, good or bad. */
  function Merge(base: Slo, raw: RawSlo): RawSlo {
    RawSlo(Over(base.warning, raw.warning), Over(base.critical, raw.critical), Over(base.disable, raw.disable),
           Over(base.backoffBase, raw.backoffBase), Over(base.backoffMax, raw.backoffMax),
           Over(base.circuitThreshold, raw.circuitThreshold), Over(base.circuitOpen, raw.circuitOpen))
  }

  /** Case, outer space and the kind of dash do not matter; a blank name is none. */
  function NormalizeProfile(value: Option<string>): (name: Option<string>)
    ensures name.None? <==> value.None? || Strip(value.value) == ""
    ensures name.Some? ==>
              var given := Strip(value.value);
              && |name.value| == |given|
              && forall i | 0 <= i < |given| :: name.value[i] == if given[i] == '-' then '_' else LowerChar(given[i])
  {
    var token := if value.Some? then Lower(Strip(value.value)) else "";
    if token == "" then None else Some(Underscored(token))
  }

  /** A profile name that normalisation leaves alone. */
  predicate NormalName(name: string) { NormalizeProfile(Some(name)) == Some(name) }

  lemma ProfileIsFixed(value: Option<string>)
    ensures NormalizeProfile(value).Some? ==> NormalName(NormalizeProfile(value).value)
  {
    if NormalizeProfile(value).Some? {
      LowerFixed(Strip(value.value));
      UnderscoredFixed(Lower(Strip(value.value)));
    }
  }

  lemma BalancedIsNormal()
    ensures NormalName("balanced")
  {
    assert Lower("balanced") == "balanced" && Underscored("balanced") == "balanced";
  }

  function OrElse(a: Option<string>, b: string): string { if a.Some? then a.value else b }

  function NormalizePolicy(raw: RawPolicy): (p: Policy)
    ensures Valid(p.slo)
  {
    var profile := OrElse(NormalizeProfile(raw.profile), "balanced");
    var slo :=
      if raw.slo.Some? then raw.slo.value
      else if profile in PROFILES then Given(PROFILES[profile])
      else Given(PROFILES["balanced"]);
    Policy(profile, NormalizeSlo(slo, PROFILES["balanced"]))
  }

  function Defaults(defaults: Option<RawPolicy>): RawPolicy {
    if defaults.Some? then defaults.value else RawPolicy(Some("balanced"), Some(Given(PROFILES["balanced"])), NOTHING)
  }

  /** Which profile name applies: the explicit one, else the policy's, else that of the defaults. */
  function Selected(policy: Option<RawPolicy>, profile: Option<string>, base: Policy): string {
    OrElse(NormalizeProfile(profile),
           OrElse(if policy.Some? then NormalizeProfile(policy.value.profile) else None, base.profile))
  }

  lemma SelectedIsNormal(policy: Option<RawPolicy>, profile: Option<string>, defaults: RawPolicy)
    ensures NormalName(Selected(policy, profile, NormalizePolicy(defaults)))
  {
    BalancedIsNormal();
    ProfileIsFixed(profile);
    ProfileIsFixed(defaults.profile);
    if policy.Some? {
      ProfileIsFixed(policy.value.profile);
    }
  }

  function Overridden(slo: Slo, policy: Option<RawPolicy>): (s: Slo)
    requires Valid(slo)
    ensures Valid(s)
  {
    if policy.None? then slo
    else if policy.value.slo.Some? then NormalizeSlo(Merge(slo, policy.value.slo.value), slo)
    else if policy.value.flat != NOTHING then NormalizeSlo(Merge(slo, policy.value.flat), slo)
    else slo
  }

  function Resolve(policy: Option<RawPolicy>, profile: Option<string>, defaults: Option<RawPolicy>): Result<Policy> {
    var base := NormalizePolicy(Defaults(defaults));
    var selected := Selected(policy, profile, base);
    if selected in PROFILES then
      Ok(Policy(selected, Overridden(NormalizeSlo(Given(PROFILES[selected]), base.slo), policy)))
    else if NormalizeProfile(profile).Some? then Err("unsupported mission policy profile")
    else Ok(Policy(selected, Overridden(base.slo, policy)))
  }

  // ---- Theorems ----

  /** A valid SLO passes through normalisation unchanged, whatever the fallback. */
  lemma NormalIsFixed(s: Slo, fallback: Slo)
    requires Valid(s)
    ensures NormalizeSlo(Given(s), fallback) == s
  {
  }

  /** Every resolved policy has ordered thresholds and a normal profile name; only an explicit unknown profile fails. */
  lemma ResolvedIsValid(policy: Option<RawPolicy>, profile: Option<string>, defaults: Option<RawPolicy>)
    ensures var r := Resolve(policy, profile, defaults);
            && (r.Err? <==> NormalizeProfile(profile).Some? && NormalizeProfile(profile).value !in PROFILES)
            && (r.Ok? ==> Valid(r.value.slo) && NormalName(r.value.profile))
  {
    SelectedIsNormal(policy, profile, Defaults(defaults));
  }

  predicate NoOverrides(policy: Option<RawPolicy>) {
    policy.None? || (policy.value.slo.None? && policy.value.flat == NOTHING)
  }

  /** The name is given explicitly, or else by the policy. */
  predicate Names(policy: Option<RawPolicy>, profile: Option<string>, name: string) {
    || NormalizeProfile(profile) == Some(name)
    || (&& NormalizeProfile(profile).None? && policy.Some?
        && NormalizeProfile(policy.value.profile) == Some(name))
  }

  lemma ProfilesAreValid(name: string)
    requires name in PROFILES
    ensures Valid(PROFILES[name])
  {
  }

  /** A known profile without overrides is that profile, whatever the defaults. */
  lemma KnownProfileIsItself(policy: Option<RawPolicy>, profile: Option<string>, defaults: Option<RawPolicy>,
                             name: string)
    requires Names(policy, profile, name) && name in PROFILES && NoOverrides(policy)
    ensures Resolve(policy, profile, defaults) == Ok(Policy(name, PROFILES[name]))
  {
    ProfilesAreValid(name);
    NormalIsFixed(PROFILES[name], NormalizePolicy(Defaults(defaults)).slo);
  }

  /** An unknown name in a policy, or no name at all, leaves the objective of the defaults. */
  lemma OtherwiseDefaults(policy: Option<RawPolicy>, defaults: RawPolicy, name: string)
    requires NoOverrides(policy)
    requires if policy.Some? && NormalizeProfile(policy.value.profile).Some?
             then NormalizeProfile(policy.value.profile) == Some(name) && name !in PROFILES
             else name == NormalizePolicy(defaults).profile && name !in PROFILES
    ensures Resolve(policy, None, Some(defaults)) == Ok(Policy(name, NormalizePolicy(defaults).slo))
  {
  }

  /** With nothing given at all the policy is the balanced one. */
  lemma NothingMeansBalanced()
    ensures Resolve(None, None, None) == Ok(Policy("balanced", PROFILES["balanced"]))
  {
    BalancedIsNormal();
  }

  /** Defaults keep a valid objective as given; without one they are those of their profile, or balanced. */
  lemma DefaultsKept(raw: RawPolicy, slo: Slo)
    ensures raw.slo == Some(Given(slo)) && Valid(slo) ==> NormalizePolicy(raw).slo == slo
    ensures raw.slo.None? ==>
              var name := NormalizeProfile(raw.profile);
              NormalizePolicy(raw).slo
              == PROFILES[if name.Some? && name.value in PROFILES then name.value else "balanced"]
    ensures NormalizePolicy(raw).profile
         == if NormalizeProfile(raw.profile).Some? then NormalizeProfile(raw.profile).value else "balanced"
  {
    var name := OrElse(NormalizeProfile(raw.profile), "balanced");
    var table := PROFILES[if name in PROFILES then name else "balanced"];
    NormalIsFixed(table, PROFILES["balanced"]);
  }

  /** Keys of an objective dictionary count and those beside it do not; without one, those at top level do. */
  lemma OverridesAreOneLevel(p: RawPolicy, profile: Option<string>, defaults: Option<RawPolicy>)
    ensures p.slo.Some? ==>
              Resolve(Some(p), profile, defaults) == Resolve(Some(p.(flat := NOTHING)), profile, defaults)
    ensures p.slo.None? && p.flat != NOTHING ==>
              Resolve(Some(p), profile, defaults)
              == Resolve(Some(p.(slo := Some(p.flat), flat := NOTHING)), profile, defaults)
  {
  }

  /** How a resolved policy is stored and read back. */
  function Stored(p: Policy): RawPolicy { RawPolicy(Some(p.profile), Some(Given(p.slo)), NOTHING) }

  /** What resolution establishes. */
  predicate Resolved(p: Policy) { Valid(p.slo) && NormalName(p.profile) }

  /** A resolved policy that was stored is read back unchanged under any scheduler defaults. */
  lemma StoredPolicyIsFixed(p: Policy, later: Option<RawPolicy>)
    requires Resolved(p)
    ensures Resolve(Some(Stored(p)), None, later) == Ok(p)
  {
    var base := NormalizePolicy(Defaults(later));
    assert Selected(Some(Stored(p)), None, base) == p.profile;
    assert Merge(base.slo, Given(p.slo)) == Given(p.slo);
    NormalIsFixed(p.slo, base.slo);
  }

  /**
    Resolution is idempotent across defaults: the policy fixed when an automation was created or updated
    is exactly the one every later trigger enforces, even under a reconfigured scheduler.
   */
  lemma ResolvedIsFixedPoint(policy: Option<RawPolicy>, profile: Option<string>, defaults: Option<RawPolicy>,
                             later: Option<RawPolicy>)
    requires Resolve(policy, profile, defaults).Ok?
    ensures var p := Resolve(policy, profile, defaults).value;
            Resolve(Some(Stored(p)), None, later) == Ok(p)
  {
    ResolvedIsValid(policy, profile, defaults);
    StoredPolicyIsFixed(Resolve(policy, profile, defaults).value, later);
  }

  function Pick<T>(base: T, raw: Raw<T>): T { if raw.Val? then raw.v else base }

  /** What the overrides ask for, unparsable ones ignored. */
  function Wanted(base: Slo, raw: RawSlo): Slo {
    Slo(Pick(base.warning, raw.warning), Pick(base.critical, raw.critical), Pick(base.disable, raw.disable),
        Pick(base.backoffBase, raw.backoffBase), Pick(base.backoffMax, raw.backoffMax),
        Pick(base.circuitThreshold, raw.circuitThreshold), Pick(base.circuitOpen, raw.circuitOpen))
  }

  /** Overrides take effect exactly as given if and only if together with the base they are consistent. */
  lemma OverridesAreExact(base: Slo, raw: RawSlo)
    ensures NormalizeSlo(Merge(base, raw), base) == Wanted(base, raw) <==> Valid(Wanted(base, raw))
  {
  }

  // ---- Backoff ----

  function BackoffSeconds(failures: nat, base: real, max: real): real {
    MinReal(max, Doubled(base, if failures > 0 then failures - 1 else 0))
  }

  /** The first backoff is the base, and each further one is twice the one before, up to the maximum. */
  lemma BackoffDoubles(s: Slo, failures: nat)
    requires Valid(s) && failures >= 1
    ensures BackoffSeconds(1, s.backoffBase, s.backoffMax) == s.backoffBase
    ensures BackoffSeconds(failures + 1, s.backoffBase, s.backoffMax)
         == MinReal(s.backoffMax, 2.0 * BackoffSeconds(failures, s.backoffBase, s.backoffMax))
  {
    DoubledMonotone(s.backoffBase, 0, failures - 1);
  }

  /** Under a valid SLO the backoff stays within [base, max] and never shrinks as failures mount. */
  lemma BackoffWithinPolicy(s: Slo, m: nat, n: nat)
    requires Valid(s) && m <= n
    ensures s.backoffBase <= BackoffSeconds(m, s.backoffBase, s.backoffMax)
                          <= BackoffSeconds(n, s.backoffBase, s.backoffMax) <= s.backoffMax
  {
    var i := if m > 0 then m - 1 else 0;
    var j := if n > 0 then n - 1 else 0;
    DoubledMonotone(s.backoffBase, i, j);
  }

  /** The ceiling is reached: after enough consecutive failures the backoff is exactly the maximum. */
  lemma BackoffReachesMaximum(s: Slo, bound: nat)
    requires Valid(s) && s.backoffMax <= bound as real + 1.0
    ensures BackoffSeconds(bound + 1, s.backoffBase, s.backoffMax) == s.backoffMax
  {
    DoubledUnbounded(s.backoffBase, bound);
  }
}
