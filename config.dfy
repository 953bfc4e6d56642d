/**
 * The extension's constant tables (config.js): the explicit AI domain table, the
 * wildcard top-level-domain table, the approved AI route, log retention, monitoring
 * levels, the sensitive-data detector registry and the manager roles.
 */
module Config {
  import opened Text

  /** A rule of the domain tables: a hostname (matched exactly or as a dot-suffix) with the tool it belongs to. */
  datatype DomainRule = DomainRule(domain: string, name: string, category: string)

  /** A wildcard rule: any hostname ending with `tld` is treated as an AI site. */
  datatype TldPattern = TldPattern(tld: string, name: string, category: string)

  const AiDomains: seq<DomainRule> := [
    // Major chatbots
    DomainRule("chat.openai.com", "ChatGPT", "Chatbot"),
    DomainRule("chatgpt.com", "ChatGPT", "Chatbot"),
    DomainRule("claude.ai", "Claude", "Chatbot"),
    DomainRule("gemini.google.com", "Gemini", "Chatbot"),
    DomainRule("bard.google.com", "Bard", "Chatbot"),
    DomainRule("copilot.microsoft.com", "Copilot", "Chatbot"),
    DomainRule("chat.mistral.ai", "Mistral Chat", "Chatbot"),
    DomainRule("poe.com", "Poe", "Aggregator"),
    DomainRule("perplexity.ai", "Perplexity", "Search AI"),
    DomainRule("www.perplexity.ai", "Perplexity", "Search AI"),
    DomainRule("you.com", "You.com", "Search AI"),
    DomainRule("pi.ai", "Pi", "Chatbot"),
    DomainRule("deepseek.com", "DeepSeek", "Chatbot"),
    DomainRule("chat.deepseek.com", "DeepSeek", "Chatbot"),
    DomainRule("grok.x.ai", "Grok", "Chatbot"),
    // Writing and content AI
    DomainRule("writesonic.com", "Writesonic", "Writing AI"),
    DomainRule("jasper.ai", "Jasper", "Writing AI"),
    DomainRule("app.jasper.ai", "Jasper", "Writing AI"),
    DomainRule("rytr.me", "Rytr", "Writing AI"),
    // AI platforms
    DomainRule("huggingface.co", "Hugging Face", "AI Platform"),
    DomainRule("labs.google", "Google AI Labs", "AI Platform"),
    DomainRule("aistudio.google.com", "Google AI Studio", "AI Platform"),
    // Social and character AI
    DomainRule("character.ai", "Character.AI", "Social AI"),
    DomainRule("beta.character.ai", "Character.AI", "Social AI"),
    DomainRule("replika.com", "Replika", "Social AI"),
    DomainRule("inflection.ai", "Inflection", "Social AI"),
    // Productivity tools with AI features
    DomainRule("notion.so", "Notion AI", "Productivity AI"),
    DomainRule("www.notion.so", "Notion AI", "Productivity AI")
  ]

  const AiTldPatterns: seq<TldPattern> := [
    TldPattern(".ai", "Unknown .ai Site", "AI (TLD match)")
  ]

  /** The approved AI route users are redirected to, and the hostname it names. */
  const ApprovedAiUrl: string := "https://openrouter.ai/"
  const ApprovedAiHost: string := "openrouter.ai"

  /** Hostnames that are approved: visits are logged but never blocked. */
  const ApprovedDomains: seq<string> := ["openrouter.ai"]

  /** Log retention: the audit log never holds more entries than this. */
  const MaxLogEntries: nat := 10000

  /** How long the warning overlay keeps the continue button locked. */
  const WarningDelayMs: nat := 5000

  datatype LevelInfo = LevelInfo(displayLabel: string, description: string, scanInput: bool)

  const MonitoringLevels: map<string, LevelInfo> := map[
    "low" := LevelInfo("Low", "Logs visits and paste events. No input content scanning.", false),
    "high" := LevelInfo("High", "All basic monitoring plus real-time scanning of input fields for sensitive data.", true)
  ]

  const DefaultMonitoringLevel: string := "low"

  /** Detector severities, in increasing order of gravity. */
  datatype Severity = Medium | High | Critical {
    /** The lower-case label stored in logs and sent to the page. */
    function Label(): string {
      match this
      case Medium => "medium"
      case High => "high"
      case Critical => "critical"
    }
  }

  /**
   * A sensitive-data detector as the registry lists it: its name, the flags of its
   * regular expression and its severity. The expression's source text is not modelled.
   */
  datatype Detector = Detector(name: string, flags: string, severity: Severity)

  const SensitiveDataPatterns: seq<Detector> := [
    // Identity
    Detector("Social Security Number (SSN)", "", Critical),
    Detector("UK National Insurance Number", "i", Critical),
    Detector("Passport Number", "", High),
    Detector("Date of Birth", "i", High),
    // Financial
    Detector("Credit Card Number", "", Critical),
    Detector("IBAN", "", Critical),
    // Contact
    Detector("Email Address", "", High),
    Detector("Phone Number", "", Medium),
    // Credentials and secrets
    Detector("Password in Text", "i", Critical),
    Detector("Private Key Block", "", Critical),
    Detector("AWS Access Key ID", "", Critical),
    Detector("AWS Secret Access Key", "i", Critical),
    Detector("GitHub Personal Access Token", "", Critical),
    Detector("Slack Token", "", Critical),
    Detector("JWT Token", "", Critical),
    Detector("Generic API Key / Secret", "i", Critical),
    Detector("Connection String", "i", Critical),
    // Network
    Detector("IPv4 Address", "", Medium),
    Detector("IPv6 Address", "", Medium),
    // Healthcare
    Detector("UK NHS Number", "", Critical)
  ]

  /** Roles allowed to change monitoring settings. */
  const ManagerRoles: seq<string> := ["Manager"]

  /** The role a fresh installation gives its user. */
  const DefaultUserRole: string := "Employee"

  // ---- Properties of the tables ----

  /** Every explicit rule names a domain, a tool and a category. */
  lemma AiDomainsWellFormed()
    ensures forall i :: 0 <= i < |AiDomains| ==>
      AiDomains[i].domain != "" && AiDomains[i].name != "" && AiDomains[i].category != ""
  {
  }

  /** The wildcard table has exactly one rule: `.ai`. */
  lemma TldTableIsDotAi()
    ensures AiTldPatterns == [TldPattern(".ai", "Unknown .ai Site", "AI (TLD match)")]
  {
  }

  /** The redirect target's hostname is approved, and it also ends with the wildcard `.ai`. */
  lemma ApprovedRouteIsApprovedAndDotAi()
    ensures ApprovedAiUrl == "https://" + ApprovedAiHost + "/"
    ensures ApprovedAiHost in ApprovedDomains
    ensures EndsWith(ApprovedAiHost, AiTldPatterns[0].tld)
  {
  }

  /** The default level is a configured level, and only "high" scans input. */
  lemma MonitoringLevelsShape()
    ensures DefaultMonitoringLevel in MonitoringLevels
    ensures forall k :: k in MonitoringLevels ==> (MonitoringLevels[k].scanInput <==> k == "high")
    ensures MaxLogEntries > 0
  {
  }

  /** Detector names are pairwise distinct. */
  lemma DetectorNamesDistinct()
    ensures forall i, j :: 0 <= i < j < |SensitiveDataPatterns| ==>
      SensitiveDataPatterns[i].name != SensitiveDataPatterns[j].name
  {
  }

  /** Only "Manager" is a manager role, so the default "Employee" role is not one. */
  lemma DefaultRoleIsNotManager()
    ensures ManagerRoles == ["Manager"]
    ensures DefaultUserRole !in ManagerRoles
  {
  }
}
