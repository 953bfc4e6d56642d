/**
 * Monitoring-policy resolution and the manager-gated configuration edits (background.js):
 * `normalizeMonitoringLevel`, `getMonitoringLevelForDomain`, `isManager`, and the
 * `UPDATE_MONITORING_CONFIG` / `SET_SITE_MONITORING_LEVEL` handlers as functions from the
 * stored `monitoringConfig` object to the new one.
 *
 * The stored configuration is a JavaScript object: `defaultLevel` is whatever value is
 * stored there and `siteOverrides` an object from hostname to level.
 */
module Policy {
  import opened Text
  import opened Js
  import opened Config

  // ---- Levels ----

  /** The three levels `normalizeMonitoringLevel` produces from a recognised name. */
  predicate IsCanonicalLevel(l: string) {
    l == "lowest" || l == "highest" || l == "medium"
  }

  /**
   * `normalizeMonitoringLevel(level)`: falsy values and unrecognised names fall back to
   * `DEFAULT_MONITORING_LEVEL` ("low"); recognised names, in any letter case, map to
   * their canonical level ("low"/"lowest" to "lowest", "high"/"highest" to "highest").
   */
  function NormalizeMonitoringLevel(level: Value): (r: string)
    ensures IsCanonicalLevel(r) || r == DefaultMonitoringLevel
    ensures !Truthy(level) ==> r == DefaultMonitoringLevel
    ensures Truthy(level) && Lower(ToJsString(level)) in {"low", "lowest"} ==> r == "lowest"
    ensures Truthy(level) && Lower(ToJsString(level)) in {"high", "highest"} ==> r == "highest"
    ensures Truthy(level) && Lower(ToJsString(level)) == "medium" ==> r == "medium"
    ensures Truthy(level) && Lower(ToJsString(level)) !in {"low", "lowest", "high", "highest", "medium"} ==>
      r == DefaultMonitoringLevel
  {
    if !Truthy(level) then DefaultMonitoringLevel
    else
      var l := Lower(ToJsString(level));
      if l == "low" || l == "lowest" then "lowest"
      else if l == "high" || l == "highest" then "highest"
      else if l == "medium" then "medium"
      else DefaultMonitoringLevel
  }

  /** ASCII lower-casing is idempotent. */
  lemma LowerIdempotent(s: string)
    ensures Lower(Lower(s)) == Lower(s)
  {
    assert forall i :: 0 <= i < |s| ==> LowerChar(LowerChar(s[i])) == LowerChar(s[i]);
  }

  /** Normalisation ignores letter case. */
  lemma {:induction false} NormalizeIgnoresCase(s: string)
    ensures NormalizeMonitoringLevel(Str(Lower(s))) == NormalizeMonitoringLevel(Str(s))
  {
    LowerIdempotent(s);
  }

  /** Each canonical level is a fixed point; the fallback "low" is not: it renormalises to "lowest". */
  lemma NormalizeFixedPoints()
    ensures forall l :: IsCanonicalLevel(l) ==> NormalizeMonitoringLevel(Str(l)) == l
    ensures NormalizeMonitoringLevel(Str(DefaultMonitoringLevel)) == "lowest" != DefaultMonitoringLevel
    ensures NormalizeMonitoringLevel(Str("HIGH")) == "highest"
  {
    assert Lower("lowest") == "lowest";
    assert Lower("highest") == "highest";
    assert Lower("medium") == "medium";
    assert Lower("low") == "low";
    assert Lower("HIGH") == "high";
  }

  /**
   * Normalising twice already reaches a canonical level, so from the second application
   * on the result no longer changes (the first application alone is not idempotent).
   */
  lemma {:induction false} NormalizeStabilises(level: Value)
    ensures IsCanonicalLevel(NormalizeMonitoringLevel(Str(NormalizeMonitoringLevel(level))))
    ensures var twice := NormalizeMonitoringLevel(Str(NormalizeMonitoringLevel(level)));
            NormalizeMonitoringLevel(Str(twice)) == twice
  {
    NormalizeFixedPoints();
  }

  // ---- Effective level ----

  /** `monitoringConfig.siteOverrides || {}`, as a set of properties. */
  function Overrides(cfg: Object): Object {
    Fields(Or(Get(cfg, "siteOverrides"), Obj(map[])))
  }

  /** The raw level before normalisation: `overrides[domain] || monitoringConfig.defaultLevel || DEFAULT_MONITORING_LEVEL`. */
  function RawLevel(cfg: Object, domain: string): Value {
    Or(Or(Get(Overrides(cfg), domain), Get(cfg, "defaultLevel")), Str(DefaultMonitoringLevel))
  }

  /** `getMonitoringLevelForDomain(domain)` over the stored configuration. */
  function GetMonitoringLevelForDomain(cfg: Object, domain: string): string {
    NormalizeMonitoringLevel(RawLevel(cfg, domain))
  }

  /**
   * Resolution order: a truthy override decides; otherwise a truthy default decides;
   * otherwise the fallback "low", which normalises to "lowest". An empty-string override
   * therefore falls through to the default.
   */
  lemma EffectiveLevelResolution(cfg: Object, domain: string)
    ensures Truthy(Get(Overrides(cfg), domain)) ==>
      GetMonitoringLevelForDomain(cfg, domain) == NormalizeMonitoringLevel(Get(Overrides(cfg), domain))
    ensures !Truthy(Get(Overrides(cfg), domain)) && Truthy(Get(cfg, "defaultLevel")) ==>
      GetMonitoringLevelForDomain(cfg, domain) == NormalizeMonitoringLevel(Get(cfg, "defaultLevel"))
    ensures !Truthy(Get(Overrides(cfg), domain)) && !Truthy(Get(cfg, "defaultLevel")) ==>
      GetMonitoringLevelForDomain(cfg, domain) == "lowest"
  {
    NormalizeFixedPoints();
  }

  /** With nothing stored, every domain resolves to "lowest"; an empty override is the same as none. */
  lemma EmptyOverrideFallsThrough(cfg: Object, domain: string)
    ensures GetMonitoringLevelForDomain(map[], domain) == "lowest"
    ensures Get(Overrides(cfg), domain) == Str("") ==>
      GetMonitoringLevelForDomain(cfg, domain) == GetMonitoringLevelForDomain(cfg[ "siteOverrides" := Obj(Overrides(cfg) - {domain}) ], domain)
  {
    NormalizeFixedPoints();
    var cfg' := cfg[ "siteOverrides" := Obj(Overrides(cfg) - {domain}) ];
    assert Get(cfg', "defaultLevel") == Get(cfg, "defaultLevel");
  }

  // ---- Roles ----

  /** `isManager()`: `MANAGER_ROLES.includes(settings.userRole)`. */
  predicate IsManager(settings: Object) {
    var role := Get(settings, "userRole");
    role.Str? && role.s in ManagerRoles
  }

  /** Exactly the role string "Manager" is a manager; a missing role or the default "Employee" is not. */
  lemma IsManagerIff(settings: Object)
    ensures IsManager(settings) <==> Get(settings, "userRole") == Str("Manager")
    ensures !IsManager(map[]) && !IsManager(map["userRole" := Str(DefaultUserRole)])
  {
  }

  // ---- Manager-gated edits ----

  const PermissionError: string := "Only managers can change monitoring settings."

  /** The handler's response: a refusal, or success with the configuration now stored. */
  datatype ConfigResponse = Denied(error: string) | Updated(monitoringConfig: Object)

  /** JavaScript `===` between a value received in a message and a stored one: objects and arrays are never identical. */
  predicate StrictEquals(a: Value, b: Value) {
    a == b && !a.StrList? && !a.Obj?
  }

  /** Whether `SET_SITE_MONITORING_LEVEL` deletes the override instead of storing `level`. */
  predicate RemovesOverride(cfg: Object, level: Value) {
    StrictEquals(level, Str("default")) || StrictEquals(level, Get(cfg, "defaultLevel"))
  }

  /**
   * The configuration `SET_SITE_MONITORING_LEVEL` stores: a copy of the overrides with
   * `domain` deleted (level "default", or the stored default itself) or set to `level`.
   */
  function SetSiteLevel(cfg: Object, domain: string, level: Value): (r: Object)
    ensures forall k :: k in cfg && k != "siteOverrides" ==> k in r && r[k] == cfg[k]
    ensures r.Keys == cfg.Keys + {"siteOverrides"}
    ensures RemovesOverride(cfg, level) ==> Overrides(r) == Overrides(cfg) - {domain}
    ensures !RemovesOverride(cfg, level) ==> Overrides(r) == Overrides(cfg)[domain := level]
  {
    var overrides := Overrides(cfg);
    var next := if RemovesOverride(cfg, level) then overrides - {domain} else overrides[domain := level];
    Spread(cfg, map["siteOverrides" := Obj(next)])
  }

  /** `UPDATE_MONITORING_CONFIG`: managers get `{ ...monitoringConfig, ...data }` stored; others nothing. */
  function UpdateMonitoringConfig(settings: Object, cfg: Object, data: Object): (r: (ConfigResponse, Object))
    ensures !IsManager(settings) ==> r == (Denied(PermissionError), cfg)
    ensures IsManager(settings) ==> r.0 == Updated(r.1)
    ensures IsManager(settings) ==> forall k :: k in r.1 <==> k in cfg || k in data
    ensures IsManager(settings) ==> forall k :: k in data ==> r.1[k] == data[k]
    ensures IsManager(settings) ==> forall k :: k in cfg && k !in data ==> r.1[k] == cfg[k]
  {
    if !IsManager(settings) then (Denied(PermissionError), cfg)
    else
      var updated := Spread(cfg, data);
      (Updated(updated), updated)
  }

  /** `SET_SITE_MONITORING_LEVEL`: the same gate, then `SetSiteLevel`. */
  function SetSiteMonitoringLevel(settings: Object, cfg: Object, domain: string, level: Value): (r: (ConfigResponse, Object))
    ensures !IsManager(settings) ==> r == (Denied(PermissionError), cfg)
    ensures IsManager(settings) ==> r == (Updated(SetSiteLevel(cfg, domain, level)), SetSiteLevel(cfg, domain, level))
  {
    if !IsManager(settings) then (Denied(PermissionError), cfg)
    else
      var updated := SetSiteLevel(cfg, domain, level);
      (Updated(updated), updated)
  }

  // ---- Properties of the edits ----

  /** No stored override is redundant: none is "default" or identical to the stored default. */
  predicate Pruned(cfg: Object) {
    var overrides := Overrides(cfg);
    forall k :: k in overrides ==> !RemovesOverride(cfg, overrides[k])
  }

  /** `SET_SITE_MONITORING_LEVEL` keeps the overrides pruned. */
  lemma {:induction false} SetSiteKeepsPruned(cfg: Object, domain: string, level: Value)
    requires Pruned(cfg)
    ensures Pruned(SetSiteLevel(cfg, domain, level))
  {
    var r := SetSiteLevel(cfg, domain, level);
    assert Get(r, "defaultLevel") == Get(cfg, "defaultLevel");
    forall k | k in Overrides(r) ensures !RemovesOverride(r, Overrides(r)[k]) {
      assert RemovesOverride(r, Overrides(r)[k]) == RemovesOverride(cfg, Overrides(r)[k]);
    }
  }

  /** What the edited domain resolves to afterwards, and that no other domain changes. */
  lemma {:induction false} SetSiteThenResolve(cfg: Object, domain: string, level: Value, other: string)
    requires other != domain
    ensures RemovesOverride(cfg, level) ==>
      GetMonitoringLevelForDomain(SetSiteLevel(cfg, domain, level), domain)
        == NormalizeMonitoringLevel(Or(Get(cfg, "defaultLevel"), Str(DefaultMonitoringLevel)))
    ensures !RemovesOverride(cfg, level) ==>
      GetMonitoringLevelForDomain(SetSiteLevel(cfg, domain, level), domain)
        == NormalizeMonitoringLevel(Or(Or(level, Get(cfg, "defaultLevel")), Str(DefaultMonitoringLevel)))
    ensures GetMonitoringLevelForDomain(SetSiteLevel(cfg, domain, level), other) == GetMonitoringLevelForDomain(cfg, other)
  {
    var r := SetSiteLevel(cfg, domain, level);
    assert Get(r, "defaultLevel") == Get(cfg, "defaultLevel");
    assert Get(Overrides(r), other) == Get(Overrides(cfg), other);
  }

  /**
   * Pruning is invisible to resolution: removing an override that equals a truthy default
   * resolves the domain exactly as storing it would have.
   */
  lemma {:induction false} PruningIsInvisible(cfg: Object, domain: string, level: Value)
    requires StrictEquals(level, Get(cfg, "defaultLevel")) && Truthy(level)
    ensures GetMonitoringLevelForDomain(SetSiteLevel(cfg, domain, level), domain) == NormalizeMonitoringLevel(level)
  {
    SetSiteThenResolve(cfg, domain, level, domain + "#");
  }

  /** Non-managers change nothing, whatever they send. */
  lemma NonManagerChangesNothing(settings: Object, cfg: Object, data: Object, domain: string, level: Value)
    requires !IsManager(settings)
    ensures UpdateMonitoringConfig(settings, cfg, data).1 == cfg
    ensures SetSiteMonitoringLevel(settings, cfg, domain, level).1 == cfg
    ensures UpdateMonitoringConfig(settings, cfg, data).0.Denied?
  {
  }

  /**
   * `UPDATE_MONITORING_CONFIG` does not prune: changing the default to a level some
   * override already holds leaves that override redundant.
   */
  lemma UpdateCanLeaveRedundantOverride()
    ensures var cfg := map["defaultLevel" := Str("low"), "siteOverrides" := Obj(map["chatgpt.com" := Str("high")])];
            var manager := map["userRole" := Str("Manager")];
            Pruned(cfg) && !Pruned(UpdateMonitoringConfig(manager, cfg, map["defaultLevel" := Str("high")]).1)
  {
    var cfg := map["defaultLevel" := Str("low"), "siteOverrides" := Obj(map["chatgpt.com" := Str("high")])];
    var manager := map["userRole" := Str("Manager")];
    var r := UpdateMonitoringConfig(manager, cfg, map["defaultLevel" := Str("high")]).1;
    assert Overrides(r)["chatgpt.com"] == Str("high");
  }

  /**
   * For every configuration: a manager's update that sets the default to the level an
   * override already holds, and leaves the overrides alone, leaves that override redundant.
   */
  lemma UpdateKeepsRedundantOverride(settings: Object, cfg: Object, data: Object, domain: string)
    requires IsManager(settings)
    requires "siteOverrides" !in data && "defaultLevel" in data
    requires domain in Overrides(cfg) && StrictEquals(Overrides(cfg)[domain], data["defaultLevel"])
    ensures !Pruned(UpdateMonitoringConfig(settings, cfg, data).1)
  {
    var r := UpdateMonitoringConfig(settings, cfg, data).1;
    assert Get(r, "siteOverrides") == Get(cfg, "siteOverrides");
    assert Overrides(r) == Overrides(cfg);
    assert Get(r, "defaultLevel") == data["defaultLevel"];
    assert RemovesOverride(r, Overrides(r)[domain]);
  }
}
