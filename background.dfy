/**
 * The service worker (background.js): its stored state (the audit log, the settings, the
 * monitoring configuration, the custom and remotely allowed domains), the navigation
 * listener, and the message handlers that log events and edit the stored state.
 *
 * `chrome.storage.local` becomes the fields of `ServiceWorker`; each handler is a method
 * that reads and writes them. Outcomes of calls into the browser (whether a tab received
 * a message, whether injecting the page script succeeded), the generated UUID and the
 * timestamp are parameters.
 */
module Background {
  import opened Wrappers
  import opened Js
  import opened Config
  import opened Domains
  import opened Policy
  import opened Audit
  import opened Messages

  // ---- Navigation ----

  /** What `webNavigation.onCompleted` reports, with the URL already parsed. */
  datatype NavigationDetails = NavigationDetails(
    frameId: int,
    tabId: int,
    host: Option<string>,   // `new URL(url).hostname`; `None` when the URL does not parse
    originAndPath: string)  // `origin + pathname`: the URL without query or fragment

  /** Which browser calls succeed: the first `SHOW_WARNING` send, and injecting the page script and its CSS. */
  datatype Delivery = Delivery(warningReceived: bool, injected: bool)

  /** The entry passed to `addLog` (if any) and the tab messages attempted, in the order they are sent. */
  datatype NavigationOutcome = NavigationOutcome(visit: Option<Object>, attempts: seq<TabMessage>)

  /** The `ai_domain_visit` entry. */
  function VisitEntry(m: DomainRule, originAndPath: string, approved: bool, tabId: int): Object {
    map[
      "type" := Str("ai_domain_visit"),
      "domain" := Str(m.domain),
      "aiToolName" := Str(m.name),
      "aiCategory" := Str(m.category),
      "url" := Str(originAndPath),
      "approved" := Bool(approved),
      "tabId" := Num(tabId),
      "popupTriggered" := Bool(!approved),
      "action" := Str(if approved then "allowed" else "pending")
    ]
  }

  /**
   * The navigation listener's decision for a main-frame visit to an AI domain matched by
   * `rule`. An unapproved visit gets a `SHOW_WARNING`; when that send fails and the page
   * script is injected, the same warning is sent once more after a delay, that is, after
   * the `SET_MONITORING_LEVEL` message every logged visit gets.
   */
  function VisitOutcome(settings: Object, cfg: Object, rule: DomainRule, approved: bool,
                        details: NavigationDetails, delivery: Delivery): NavigationOutcome
  {
    var level := GetMonitoringLevelForDomain(cfg, rule.domain);
    var warning := ShowWarning(WarningPayload(rule.name, rule.category, rule.domain,
                                              Or(Get(settings, "approvedAiUrl"), Str(ApprovedAiUrl)), level));
    var levelMsg := SetMonitoringLevel(level, rule.domain);
    var attempts :=
      if approved then [levelMsg]
      else if delivery.warningReceived || !delivery.injected then [warning, levelMsg]
      else [warning, levelMsg, warning];
    NavigationOutcome(Some(VisitEntry(rule, details.originAndPath, approved, details.tabId)), attempts)
  }

  /** The navigation listener: only the main frame of an enabled extension on an AI domain is logged. */
  function NavigationDecision(settings: Object, cfg: Object, allowedDomains: seq<string>,
                              details: NavigationDetails, delivery: Delivery): NavigationOutcome
  {
    if details.frameId != 0 || !Truthy(Get(settings, "enabled")) then NavigationOutcome(None, [])
    else
      var m := MatchAiDomain(details.host);
      if m.None? then NavigationOutcome(None, [])
      else VisitOutcome(settings, cfg, m.value, IsApprovedDomainAsync(details.host, allowedDomains), details, delivery)
  }

  /** The number of `SHOW_WARNING` messages in a list of attempts. */
  function WarningCount(ms: seq<TabMessage>): nat {
    if ms == [] then 0 else (if ms[0].ShowWarning? then 1 else 0) + WarningCount(ms[1..])
  }

  /**
   * Nothing is logged or sent for a sub-frame, a disabled extension, or a URL that is not an
   * AI domain; any other visit is decided by the rule `matchAiDomain` returns and the
   * approval check.
   */
  lemma NavigationIgnored(settings: Object, cfg: Object, allowedDomains: seq<string>,
                          details: NavigationDetails, delivery: Delivery)
    ensures var r := NavigationDecision(settings, cfg, allowedDomains, details, delivery);
            (r.visit.None? <==>
              details.frameId != 0 || !Truthy(Get(settings, "enabled")) || MatchAiDomain(details.host).None?)
            && (r.visit.None? ==> r.attempts == [])
            && (r.visit.Some? ==> r == VisitOutcome(settings, cfg, MatchAiDomain(details.host).value,
                                                    IsApprovedDomainAsync(details.host, allowedDomains), details, delivery))
  {
  }

  /**
   * The visit entry records the approval decision: `popupTriggered` is `!approved` and the
   * action is "allowed" or "pending". It is fixed before any message is sent, so it is the
   * same whether or not the warning reaches the page.
   */
  lemma VisitRecordsDecision(settings: Object, cfg: Object, rule: DomainRule, approved: bool,
                             details: NavigationDetails, d1: Delivery, d2: Delivery)
    ensures var v := VisitOutcome(settings, cfg, rule, approved, details, d1).visit;
            && v.Some?
            && v.value["type"] == Str("ai_domain_visit")
            && v.value["domain"] == Str(rule.domain)
            && v.value["approved"] == Bool(approved)
            && v.value["popupTriggered"] == Bool(!approved)
            && v.value["action"] == Str(if approved then "allowed" else "pending")
    ensures VisitOutcome(settings, cfg, rule, approved, details, d2).visit
         == VisitOutcome(settings, cfg, rule, approved, details, d1).visit
  {
  }

  /**
   * An approved visit gets no warning; an unapproved one gets one, plus exactly one retry
   * when the first send failed and injection succeeded. Every logged visit gets exactly
   * one `SET_MONITORING_LEVEL`, carrying the domain's effective level, which the warning
   * also carries.
   */
  lemma {:induction false} WarningAttempts(settings: Object, cfg: Object, rule: DomainRule, approved: bool,
                                           details: NavigationDetails, delivery: Delivery)
    ensures var a := VisitOutcome(settings, cfg, rule, approved, details, delivery).attempts;
            var level := GetMonitoringLevelForDomain(cfg, rule.domain);
            && (approved ==> WarningCount(a) == 0)
            && (!approved ==> WarningCount(a) == (if !delivery.warningReceived && delivery.injected then 2 else 1))
            && |a| == WarningCount(a) + 1
            && SetMonitoringLevel(level, rule.domain) in a
            && forall i :: 0 <= i < |a| && a[i].ShowWarning? ==>
                 a[i].payload.monitoringLevel == level && a[i].payload.domain == rule.domain
  {
    var a := VisitOutcome(settings, cfg, rule, approved, details, delivery).attempts;
    if |a| == 1 {
      assert WarningCount(a) == WarningCount(a[1..]);
    } else if |a| == 2 {
      assert a[1..][1..] == [];
      assert WarningCount(a[1..]) == 0;
    } else {
      assert a[1..][1..][1..] == [];
      assert WarningCount(a[1..][1..]) == 1;
      assert WarningCount(a[1..]) == 1;
    }
  }

  // ---- Event logging ----

  /**
   * The entry a typed page event adds to the log: the message's fields
   * under the handler's type name, and the sender's tab id. A paste entry has a length and a
   * field classification and no content. `CHECK_AI_DOMAIN` logs nothing.
   */
  function EventEntry(msg: RuntimeMessage, tabId: Value): Option<Object> {
    match msg
    case CheckAiDomainRequest(_) => None
    case UserContinued(domain, tool, confirmed) =>
      Some(map["type" := Str("user_continued_unapproved"), "domain" := domain, "aiToolName" := tool,
               "confirmed" := confirmed, "tabId" := tabId])
    case UserRedirected(domain, tool, to) =>
      Some(map["type" := Str("user_redirected"), "domain" := domain, "aiToolName" := tool,
               "redirectedTo" := to, "tabId" := tabId])
    case PasteDetected(domain, tool, fieldType, len) =>
      Some(map["type" := Str("paste_detected"), "domain" := domain, "aiToolName" := tool,
               "fieldType" := fieldType, "contentLength" := len, "tabId" := tabId])
    case AttachmentBlocked(domain, interaction) =>
      Some(map["type" := Str("attachment_blocked"), "domain" := domain,
               "interactionType" := interaction, "tabId" := tabId])
    case AiInputDetected(domain, tool, interaction) =>
      Some(map["type" := Str("ai_input_interaction"), "domain" := domain, "aiToolName" := tool,
               "interactionType" := interaction, "tabId" := tabId])
    case SensitiveDataDetected(domain, tool, types, severity) =>
      Some(map["type" := Str("sensitive_data_detected"), "domain" := domain, "aiToolName" := tool,
               "detectedTypes" := types, "severity" := severity, "tabId" := tabId])
  }

  /** `x > 0` for the `contentLength || 0` of a paste message, when it is a number or a boolean. */
  predicate PositiveCount(v: Value) {
    (v.Num? && v.n > 0) || v == Bool(true)
  }

  /** The desktop notification an event raises: large-paste into an AI prompt, and every blocked attachment. */
  function EventNotification(msg: RuntimeMessage): Option<Notification> {
    match msg
    case PasteDetected(_, _, fieldType, len) =>
      if fieldType == Str("ai_prompt") && PositiveCount(Or(len, Num(0))) then
        Some(Notification("AI Shield \U{2014} Paste Detected",
                          "Paste detected into AI prompt (" + ToJsString(len) + " characters)."))
      else None
    case AttachmentBlocked(_, interaction) =>
      Some(Notification("AI Shield \U{2014} Attachment Blocked",
                        "File attachment blocked (" + ToJsString(Or(interaction, Str("attachment")))
                        + "). Uploads disabled on unapproved AI tools."))
    case _ => None
  }

  /** Every logged event records its type and the sender's tab; a paste records no more than its five fields. */
  lemma EventEntryShape(msg: RuntimeMessage, tabId: Value)
    ensures EventEntry(msg, tabId).None? <==> msg.CheckAiDomainRequest?
    ensures EventEntry(msg, tabId).Some? ==>
      "type" in EventEntry(msg, tabId).value && EventEntry(msg, tabId).value["tabId"] == tabId
    ensures msg.PasteDetected? ==>
      EventEntry(msg, tabId).value.Keys == {"type", "domain", "aiToolName", "fieldType", "contentLength", "tabId"}
  {
  }

  /** A paste notifies exactly when it went into an AI prompt with a positive length; an attachment always notifies. */
  lemma NotificationRule(msg: RuntimeMessage)
    ensures msg.PasteDetected? ==>
      (EventNotification(msg).Some? <==> msg.fieldType == Str("ai_prompt") && PositiveCount(msg.contentLength))
    ensures msg.AttachmentBlocked? ==> EventNotification(msg).Some?
    ensures !msg.PasteDetected? && !msg.AttachmentBlocked? ==> EventNotification(msg).None?
  {
  }

  // ---- Sensitive-pattern registry ----

  /** The serialisable form `GET_SENSITIVE_PATTERNS` returns (the expression source is not modelled). */
  datatype PatternInfo = PatternInfo(name: string, flags: string, severity: string)

  function SerializePatterns(ps: seq<Detector>): (r: seq<PatternInfo>)
    ensures |r| == |ps|
    ensures forall i :: 0 <= i < |ps| ==>
      r[i] == PatternInfo(ps[i].name, ps[i].flags, ps[i].severity.Label())
  {
    seq(|ps|, i requires 0 <= i < |ps| => PatternInfo(ps[i].name, ps[i].flags, ps[i].severity.Label()))
  }

  /** The serialised registry keeps the registry's names distinct and severities within critical/high/medium. */
  lemma SerializedPatternsWellFormed()
    ensures var r := SerializePatterns(SensitiveDataPatterns);
            && |r| == 20
            && (forall i, j :: 0 <= i < j < |r| ==> r[i].name != r[j].name)
            && (forall i :: 0 <= i < |r| ==> r[i].severity in {"critical", "high", "medium"})
  {
    DetectorNamesDistinct();
  }

  // ---- Stored state ----

  const InitialSettings: Object := map[
    "enabled" := Bool(true),
    "userName" := Str("Unknown User"),
    "userRole" := Str(DefaultUserRole),
    "approvedAiUrl" := Str(ApprovedAiUrl)
  ]

  const InitialMonitoringConfig: Object := map[
    "defaultLevel" := Str(DefaultMonitoringLevel),
    "siteOverrides" := Obj(map[])
  ]

  /** A fresh installation: logging is on, the user is not a manager, every domain resolves to "lowest". */
  lemma FreshInstallDefaults(domain: string)
    ensures Truthy(Get(InitialSettings, "enabled"))
    ensures !IsManager(InitialSettings)
    ensures GetMonitoringLevelForDomain(InitialMonitoringConfig, domain) == "lowest"
    ensures Pruned(InitialMonitoringConfig)
  {
    NormalizeFixedPoints();
  }

  class ServiceWorker {
    var logs: seq<Object>
    var settings: Object
    var monitoringConfig: Object
    var customDomains: seq<DomainRule>
    var allowedDomains: seq<string>   // the `domain` fields of the remotely synced list
    var badge: string

    /** The log never exceeds its retention bound. */
    predicate Valid()
      reads this
    {
      |logs| <= MaxLogEntries
    }

    /** `onInstalled` with empty storage. */
    constructor Install()
      ensures Valid()
      ensures logs == [] && settings == InitialSettings && monitoringConfig == InitialMonitoringConfig
      ensures customDomains == [] && allowedDomains == [] && badge == "ON"
    {
      logs := [];
      settings := InitialSettings;
      monitoringConfig := InitialMonitoringConfig;
      customDomains := [];
      allowedDomains := [];
      badge := "ON";
    }

    /** `addLog(entry)`, also the whole `LOG_EVENT` handler: builds the entry, appends it, drops the oldest beyond `MAX_LOG_ENTRIES`. */
    method AddLog(entry: Object, id: string, timestamp: string) returns (logEntry: Object)
      modifies this
      ensures logEntry == NewEntry(old(settings), id, timestamp, entry)
      ensures logs == KeepNewest(old(logs) + [logEntry], MaxLogEntries)
      ensures Valid()
      ensures settings == old(settings) && monitoringConfig == old(monitoringConfig) && badge == old(badge)
      ensures customDomains == old(customDomains) && allowedDomains == old(allowedDomains)
    {
      logEntry := NewEntry(settings, id, timestamp, entry);
      logs := TrimToMax(logs + [logEntry], MaxLogEntries);
    }

    /** The `webNavigation.onCompleted` listener. */
    method OnCompleted(details: NavigationDetails, delivery: Delivery, id: string, timestamp: string)
      returns (attempts: seq<TabMessage>)
      modifies this
      ensures var d := NavigationDecision(old(settings), old(monitoringConfig), old(allowedDomains), details, delivery);
              && attempts == d.attempts
              && logs == if d.visit.Some? then KeepNewest(old(logs) + [NewEntry(old(settings), id, timestamp, d.visit.value)], MaxLogEntries)
                         else old(logs)
      ensures old(Valid()) ==> Valid()
      ensures settings == old(settings) && monitoringConfig == old(monitoringConfig) && badge == old(badge)
      ensures customDomains == old(customDomains) && allowedDomains == old(allowedDomains)
    {
      var d := NavigationDecision(settings, monitoringConfig, allowedDomains, details, delivery);
      if d.visit.Some? {
        var _ := AddLog(d.visit.value, id, timestamp);
      }
      attempts := d.attempts;
    }

    /**
     * The typed event handlers (`USER_CONTINUED` to `SENSITIVE_DATA_DETECTED`): log the event,
     * then raise its notification. `LOG_EVENT` is `addLog(message.data)`, which is `AddLog`.
     */
    method HandleEvent(msg: RuntimeMessage, tabId: Value, id: string, timestamp: string)
      returns (entry: Option<Object>, note: Option<Notification>)
      modifies this
      ensures EventEntry(msg, tabId).Some? ==>
        entry == Some(NewEntry(old(settings), id, timestamp, EventEntry(msg, tabId).value))
        && logs == KeepNewest(old(logs) + [entry.value], MaxLogEntries)
      ensures EventEntry(msg, tabId).None? ==> entry.None? && logs == old(logs)
      ensures note == EventNotification(msg)
      ensures old(Valid()) ==> Valid()
      ensures settings == old(settings) && monitoringConfig == old(monitoringConfig) && badge == old(badge)
      ensures customDomains == old(customDomains) && allowedDomains == old(allowedDomains)
    {
      entry := None;
      var e := EventEntry(msg, tabId);
      if e.Some? {
        var added := AddLog(e.value, id, timestamp);
        entry := Some(added);
      }
      note := EventNotification(msg);
    }

    /** `CLEAR_LOGS`. */
    method ClearLogs()
      modifies this
      ensures logs == [] && Valid()
      ensures settings == old(settings) && monitoringConfig == old(monitoringConfig) && badge == old(badge)
      ensures customDomains == old(customDomains) && allowedDomains == old(allowedDomains)
    {
      logs := [];
    }

    /** `UPDATE_SETTINGS`: merge the patch into the settings and show "ON"/"OFF" on the badge. */
    method UpdateSettings(data: Object) returns (updated: Object)
      modifies this
      ensures updated == Spread(old(settings), data) && settings == updated
      ensures badge == if Truthy(Get(updated, "enabled")) then "ON" else "OFF"
      ensures logs == old(logs) && monitoringConfig == old(monitoringConfig)
      ensures customDomains == old(customDomains) && allowedDomains == old(allowedDomains)
    {
      updated := Spread(settings, data);
      settings := updated;
      badge := if Truthy(Get(updated, "enabled")) then "ON" else "OFF";
    }

    /** `UPDATE_MONITORING_CONFIG`. */
    method UpdateMonitoringConfig(data: Object) returns (response: ConfigResponse)
      modifies this
      ensures (response, monitoringConfig) == Policy.UpdateMonitoringConfig(old(settings), old(monitoringConfig), data)
      ensures logs == old(logs) && settings == old(settings) && badge == old(badge)
      ensures customDomains == old(customDomains) && allowedDomains == old(allowedDomains)
    {
      var r := Policy.UpdateMonitoringConfig(settings, monitoringConfig, data);
      response := r.0;
      monitoringConfig := r.1;
    }

    /** `SET_SITE_MONITORING_LEVEL`. */
    method SetSiteMonitoringLevel(domain: string, level: Value) returns (response: ConfigResponse)
      modifies this
      ensures (response, monitoringConfig) == Policy.SetSiteMonitoringLevel(old(settings), old(monitoringConfig), domain, level)
      ensures old(Pruned(monitoringConfig)) ==> Pruned(monitoringConfig)
      ensures logs == old(logs) && settings == old(settings) && badge == old(badge)
      ensures customDomains == old(customDomains) && allowedDomains == old(allowedDomains)
    {
      var r := Policy.SetSiteMonitoringLevel(settings, monitoringConfig, domain, level);
      if IsManager(settings) && Pruned(monitoringConfig) {
        SetSiteKeepsPruned(monitoringConfig, domain, level);
      }
      response := r.0;
      monitoringConfig := r.1;
    }
  }
}
