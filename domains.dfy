/**
 * Hostname classification and approval (background.js): `matchAiDomain`, the
 * `CHECK_AI_DOMAIN` handler that also consults user-added custom domains,
 * `isApprovedDomain` and `isApprovedDomainAsync`.
 *
 * URL parsing is outside the model: a URL arrives as the hostname `new URL(url)`
 * yields, or `None` when the constructor throws.
 */
module Domains {
  import opened Wrappers
  import opened Text
  import opened Config

  // ---- Array.prototype.find / some ----

  /** `xs[i]` is the element `find` stops at: it satisfies `p` and nothing before it does. */
  predicate IsFirst<T>(xs: seq<T>, p: T -> bool, i: int) {
    0 <= i < |xs| && p(xs[i]) && forall j :: 0 <= j < i ==> !p(xs[j])
  }

  /** `xs.find(p)`. */
  function Find<T(==)>(xs: seq<T>, p: T -> bool): (r: Option<T>)
    ensures r.None? <==> forall i :: 0 <= i < |xs| ==> !p(xs[i])
    ensures r.Some? ==> exists i :: IsFirst(xs, p, i) && xs[i] == r.value
    decreases |xs|
  {
    if xs == [] then None
    else if p(xs[0]) then
      assert IsFirst(xs, p, 0);
      Some(xs[0])
    else
      var r := Find(xs[1..], p);
      if r.Some? then
        var i :| IsFirst(xs[1..], p, i) && xs[1..][i] == r.value;
        assert IsFirst(xs, p, i + 1);
        r
      else
        r
  }

  /** `find` stops at the first element that satisfies the predicate. */
  lemma FindFirst<T>(xs: seq<T>, p: T -> bool, i: int)
    requires IsFirst(xs, p, i)
    ensures Find(xs, p) == Some(xs[i])
  {
    assert p(xs[i]);
    var r := Find(xs, p);
    assert r.Some?;
    var k :| IsFirst(xs, p, k) && xs[k] == r.value;
    assert p(xs[k]) && p(xs[i]);
    assert !(k < i) && !(i < k);
  }

  /** When nothing in `a` satisfies the predicate, the first hit in `a + b` is the first hit in `b`. */
  lemma IsFirstAfter<T>(a: seq<T>, b: seq<T>, p: T -> bool, i: int)
    requires forall j :: 0 <= j < |a| ==> !p(a[j])
    requires IsFirst(b, p, i)
    ensures IsFirst(a + b, p, |a| + i)
  {
    var ab := a + b;
    forall j | 0 <= j < |a| + i
      ensures !p(ab[j])
    {
      if j < |a| {
        assert ab[j] == a[j];
      } else {
        assert ab[j] == b[j - |a|];
      }
    }
  }

  /** The explicit stage of `Classify` returns the first rule the hostname matches. */
  lemma ClassifyFirst(rules: seq<DomainRule>, hostname: string, i: int)
    requires IsFirst(rules, (d: DomainRule) => HostMatches(hostname, d.domain), i)
    ensures Classify(rules, hostname) == Some(rules[i])
  {
    FindFirst(rules, (d: DomainRule) => HostMatches(hostname, d.domain), i);
  }

  /** `xs.some(p)`. */
  predicate AnyMatch<T>(xs: seq<T>, p: T -> bool) {
    exists i :: 0 <= i < |xs| && p(xs[i])
  }

  /** Searching a concatenation searches the first part first. */
  lemma {:induction false} FindAppend<T>(a: seq<T>, b: seq<T>, p: T -> bool)
    ensures Find(a + b, p) == if Find(a, p).Some? then Find(a, p) else Find(b, p)
    decreases |a|
  {
    if a != [] {
      assert (a + b)[0] == a[0];
      assert (a + b)[1..] == a[1..] + b;
      FindAppend(a[1..], b, p);
    } else {
      assert a + b == b;
    }
  }

  // ---- Matching ----

  /** `hostname === domain || hostname.endsWith("." + domain)`. */
  predicate HostMatches(hostname: string, domain: string) {
    hostname == domain || EndsWith(hostname, "." + domain)
  }

  /** The two-stage lookup shared by `matchAiDomain` and `CHECK_AI_DOMAIN`. */
  function Classify(rules: seq<DomainRule>, hostname: string): (r: Option<DomainRule>)
    ensures r.Some? ==>
      (r.value in rules && HostMatches(hostname, r.value.domain))
      || (r.value == DomainRule(hostname, "Unknown .ai Site", "AI (TLD match)") && EndsWith(hostname, ".ai"))
    ensures r.None? <==>
      !EndsWith(hostname, ".ai") && forall i :: 0 <= i < |rules| ==> !HostMatches(hostname, rules[i].domain)
  {
    var explicit := Find(rules, (d: DomainRule) => HostMatches(hostname, d.domain));
    if explicit.Some? then explicit
    else
      var tld := Find(AiTldPatterns, (p: TldPattern) => EndsWith(hostname, p.tld));
      if tld.Some? then Some(DomainRule(hostname, tld.value.name, tld.value.category))
      else None
  }

  /** `matchAiDomain(url)`: the explicit table only, then the wildcard table; `null` on a bad URL. */
  function MatchAiDomain(host: Option<string>): (r: Option<DomainRule>)
    ensures r.Some? ==> host.Some? && (r.value in AiDomains || r.value.domain == host.value)
  {
    if host.None? then None else Classify(AiDomains, host.value)
  }

  /** The `CHECK_AI_DOMAIN` (and `CHECK_AI_DOMAIN_ASYNC`) response. */
  datatype CheckResult = CheckResult(isAi: bool, matched: Option<DomainRule>, approved: bool)

  /** `APPROVED_DOMAINS.some(d => hostname === d || hostname.endsWith("." + d))`. */
  predicate HardcodedApproved(hostname: string) {
    AnyMatch(ApprovedDomains, (d: string) => HostMatches(hostname, d))
  }

  /** `isApprovedDomain(url)`: the hardcoded list only; `false` on a bad URL. */
  predicate IsApprovedDomain(host: Option<string>) {
    host.Some? && HardcodedApproved(host.value)
  }

  /**
   * `isApprovedDomainAsync(url)`: the hardcoded list, and only when it does not approve,
   * the remotely synced `allowedDomains` list (given by its entries' `domain` fields).
   */
  predicate IsApprovedDomainAsync(host: Option<string>, allowedDomains: seq<string>) {
    if host.None? then false
    else if HardcodedApproved(host.value) then true
    else AnyMatch(allowedDomains, (d: string) => HostMatches(host.value, d))
  }

  /** `[...AI_DOMAINS, ...customDomains]`, the table `GET_AI_DOMAINS` returns. */
  function AllDomains(customDomains: seq<DomainRule>): seq<DomainRule> {
    AiDomains + customDomains
  }

  /** The `CHECK_AI_DOMAIN` handler: built-ins then custom domains, then the wildcard table. */
  function CheckAiDomain(host: Option<string>, customDomains: seq<DomainRule>, allowedDomains: seq<string>): (r: CheckResult)
    ensures r.isAi <==> r.matched.Some?
    ensures r.approved <==> r.isAi && IsApprovedDomainAsync(host, allowedDomains)
    ensures host.None? || host == Some("") ==> !r.isAi
  {
    var m := if host.Some? && host.value != "" then Classify(AllDomains(customDomains), host.value) else None;
    var approved := if m.Some? then IsApprovedDomainAsync(host, allowedDomains) else false;
    CheckResult(m.Some?, m, approved)
  }

  // ---- Properties ----

  /** An explicit rule wins: the result is the first rule in table order that the hostname matches. */
  lemma ExplicitRuleWins(hostname: string, i: nat)
    requires IsFirst(AiDomains, (d: DomainRule) => HostMatches(hostname, d.domain), i)
    ensures MatchAiDomain(Some(hostname)) == Some(AiDomains[i])
  {
    FindFirst(AiDomains, (d: DomainRule) => HostMatches(hostname, d.domain), i);
  }

  /**
   * Without an explicit match, a hostname ending with a wildcard TLD yields a rule
   * synthesised from the hostname and the TLD entry; any other hostname yields nothing.
   */
  lemma TldFallback(hostname: string)
    requires forall i :: 0 <= i < |AiDomains| ==> !HostMatches(hostname, AiDomains[i].domain)
    ensures EndsWith(hostname, ".ai") ==>
      MatchAiDomain(Some(hostname)) == Some(DomainRule(hostname, "Unknown .ai Site", "AI (TLD match)"))
    ensures !EndsWith(hostname, ".ai") ==> MatchAiDomain(Some(hostname)) == None
  {
    var q := (p: TldPattern) => EndsWith(hostname, p.tld);
    assert AiTldPatterns[0].tld == ".ai";
    if EndsWith(hostname, ".ai") {
      assert q(AiTldPatterns[0]);
    }
  }

  /** A URL that does not parse is never classified, and `CHECK_AI_DOMAIN` reports it unapproved. */
  lemma BadUrlFailsClosed(customDomains: seq<DomainRule>, allowedDomains: seq<string>)
    ensures MatchAiDomain(None) == None
    ensures CheckAiDomain(None, customDomains, allowedDomains) == CheckResult(false, None, false)
    ensures !IsApprovedDomain(None) && !IsApprovedDomainAsync(None, allowedDomains)
  {
  }

  /** The empty hostname matches no built-in rule and no wildcard. */
  lemma EmptyHostMatchesNothing()
    ensures Classify(AiDomains, "") == None
  {
    AiDomainsWellFormed();
    var p := (d: DomainRule) => HostMatches("", d.domain);
    forall i | 0 <= i < |AiDomains| ensures !p(AiDomains[i]) {
    }
    assert !EndsWith("", AiTldPatterns[0].tld);
  }

  /**
   * In `CHECK_AI_DOMAIN` the custom domains come after the built-ins: when a built-in rule
   * matches, the custom table cannot change the answer.
   */
  lemma {:induction false} BuiltinBeatsCustom(hostname: string, customDomains: seq<DomainRule>, allowedDomains: seq<string>)
    requires hostname != ""
    requires exists i :: 0 <= i < |AiDomains| && HostMatches(hostname, AiDomains[i].domain)
    ensures CheckAiDomain(Some(hostname), customDomains, allowedDomains).matched == MatchAiDomain(Some(hostname))
  {
    var p := (d: DomainRule) => HostMatches(hostname, d.domain);
    var i :| 0 <= i < |AiDomains| && HostMatches(hostname, AiDomains[i].domain);
    assert p(AiDomains[i]);
    FindAppend(AiDomains, customDomains, p);
    assert Find(AllDomains(customDomains), p) == Find(AiDomains, p);
  }

  /**
   * A hostname that no built-in rule covers is classified by the first custom domain it
   * matches, exactly or as a subdomain.
   */
  lemma {:induction false} CustomRuleApplies(hostname: string, customDomains: seq<DomainRule>, allowedDomains: seq<string>, i: nat)
    requires hostname != ""
    requires forall j :: 0 <= j < |AiDomains| ==> !HostMatches(hostname, AiDomains[j].domain)
    requires IsFirst(customDomains, (d: DomainRule) => HostMatches(hostname, d.domain), i)
    ensures CheckAiDomain(Some(hostname), customDomains, allowedDomains).matched == Some(customDomains[i])
  {
    var p := (d: DomainRule) => HostMatches(hostname, d.domain);
    IsFirstAfter(AiDomains, customDomains, p, i);
    ClassifyFirst(AllDomains(customDomains), hostname, |AiDomains| + i);
  }

  /** With no custom domains, `CHECK_AI_DOMAIN` classifies exactly as `matchAiDomain`. */
  lemma {:induction false} CheckAgreesWithMatch(host: Option<string>, allowedDomains: seq<string>)
    ensures CheckAiDomain(host, [], allowedDomains).matched == MatchAiDomain(host)
    ensures CheckAiDomain(host, [], allowedDomains).approved
            == (MatchAiDomain(host).Some? && IsApprovedDomainAsync(host, allowedDomains))
  {
    assert AllDomains([]) == AiDomains;
    if host == Some("") {
      EmptyHostMatchesNothing();
    }
  }

  /**
   * A hostname equal to, or a dot-subdomain of, a hardcoded approved domain is approved
   * whatever the remote list says; otherwise it is approved exactly when a remote entry matches.
   */
  lemma {:induction false} ApprovalShortCircuits(hostname: string, allowedDomains: seq<string>)
    ensures HardcodedApproved(hostname) ==> IsApprovedDomainAsync(Some(hostname), allowedDomains)
    ensures !HardcodedApproved(hostname) ==>
      (IsApprovedDomainAsync(Some(hostname), allowedDomains) <==>
         exists i :: 0 <= i < |allowedDomains| && HostMatches(hostname, allowedDomains[i]))
    ensures IsApprovedDomain(Some(hostname)) ==> IsApprovedDomainAsync(Some(hostname), allowedDomains)
  {
  }

  /** Every subdomain of a hardcoded approved domain is approved. */
  lemma SubdomainOfApprovedIsApproved(subLabel: string, allowedDomains: seq<string>)
    ensures IsApprovedDomainAsync(Some(subLabel + "." + ApprovedAiHost), allowedDomains)
  {
    var h := subLabel + "." + ApprovedAiHost;
    assert h[|h| - |"." + ApprovedAiHost|..] == "." + ApprovedAiHost;
    assert HostMatches(h, ApprovedDomains[0]);
  }

  /**
   * A cheap way to refute a match: the hostname differs from the domain (in length or
   * first character) and has no dot just before where the domain would have to start.
   */
  predicate PlainMiss(hostname: string, d: string) {
    (|hostname| != |d| || (|d| > 0 && hostname[0] != d[0]))
    && (|d| + 1 > |hostname| || hostname[|hostname| - |d| - 1] != '.')
  }

  lemma NoBuiltinMatch(hostname: string)
    requires forall i :: 0 <= i < |AiDomains| ==> PlainMiss(hostname, AiDomains[i].domain)
    ensures forall i :: 0 <= i < |AiDomains| ==> !HostMatches(hostname, AiDomains[i].domain)
  {
  }

  /** The redirect target is both approved and monitored, through the `.ai` wildcard. */
  lemma RedirectTargetApprovedAndMonitored(allowedDomains: seq<string>)
    ensures IsApprovedDomainAsync(Some(ApprovedAiHost), allowedDomains)
    ensures MatchAiDomain(Some(ApprovedAiHost)) == Some(DomainRule("openrouter.ai", "Unknown .ai Site", "AI (TLD match)"))
  {
    RedirectTargetApproved(allowedDomains);
    RedirectTargetMonitored();
  }

  lemma RedirectTargetApproved(allowedDomains: seq<string>)
    ensures IsApprovedDomainAsync(Some(ApprovedAiHost), allowedDomains)
  {
    assert HostMatches(ApprovedAiHost, ApprovedDomains[0]);
  }

  lemma RedirectTargetMonitored()
    ensures MatchAiDomain(Some(ApprovedAiHost)) == Some(DomainRule("openrouter.ai", "Unknown .ai Site", "AI (TLD match)"))
  {
    var h := ApprovedAiHost;
    RedirectTargetMissesBuiltins();
    assert h[|h| - 3..] == ".ai";
    TldFallback(h);
  }

  /** No built-in rule covers the redirect target. */
  lemma RedirectTargetMissesBuiltins()
    ensures forall i :: 0 <= i < |AiDomains| ==> !HostMatches(ApprovedAiHost, AiDomains[i].domain)
  {
    assert forall i :: 0 <= i < |AiDomains| ==> PlainMiss(ApprovedAiHost, AiDomains[i].domain);
    NoBuiltinMatch(ApprovedAiHost);
  }

  /** Every dot-subdomain of a rule's domain matches that rule. */
  lemma SubdomainMatches(sub: string, domain: string)
    ensures HostMatches(sub + "." + domain, domain)
  {
    var h := sub + "." + domain;
    assert h[|h| - |"." + domain|..] == "." + domain;
  }

  /** A host that only ends with a rule's domain, without a dot before it, does not match that rule. */
  lemma LookalikeNeverMatches(prefix: string, domain: string)
    requires prefix != "" && prefix[|prefix| - 1] != '.'
    ensures !HostMatches(prefix + domain, domain)
  {
    var h := prefix + domain;
    assert |h| != |domain|;
    assert h[|h| - |domain| - 1] == prefix[|prefix| - 1];
  }

  /** A subdomain of a listed tool's domain is that tool. */
  lemma SubdomainIsTheTool()
    ensures MatchAiDomain(Some("api.claude.ai")) == Some(AiDomains[2])
  {
    var h := "api.claude.ai";
    assert EndsWith(h, "." + AiDomains[2].domain);
    assert PlainMiss(h, AiDomains[0].domain) && PlainMiss(h, AiDomains[1].domain);
    ExplicitRuleWins(h, 2);
  }

  /** A dot is required before the rule's domain: a look-alike host falls to the wildcard. */
  lemma LookalikeIsNotTheTool()
    ensures MatchAiDomain(Some("notclaude.ai")) == Some(DomainRule("notclaude.ai", "Unknown .ai Site", "AI (TLD match)"))
  {
    var h := "notclaude.ai";
    assert forall i :: 0 <= i < |AiDomains| ==> PlainMiss(h, AiDomains[i].domain);
    NoBuiltinMatch(h);
    assert h[|h| - 3..] == ".ai";
    TldFallback(h);
  }
}
