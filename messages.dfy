/**
 * The messages exchanged between the page script (content.js) and the service worker
 * (background.js). Fields a page could send with any type are JavaScript values; the
 * page script itself always sends strings, numbers and booleans.
 */
module Messages {
  import opened Js

  /** Messages the page sends to the service worker (`chrome.runtime.sendMessage`). */
  datatype RuntimeMessage =
    | CheckAiDomainRequest(url: string)
    | UserContinued(domain: Value, aiToolName: Value, confirmed: Value)
    | UserRedirected(domain: Value, aiToolName: Value, redirectedTo: Value)
    | PasteDetected(domain: Value, aiToolName: Value, fieldType: Value, contentLength: Value)
    | AttachmentBlocked(domain: Value, interactionType: Value)
    | AiInputDetected(domain: Value, aiToolName: Value, interactionType: Value)
    | SensitiveDataDetected(domain: Value, aiToolName: Value, detectedTypes: Value, severity: Value)

  /** The `SHOW_WARNING` payload. */
  datatype WarningPayload = WarningPayload(
    aiToolName: string,
    aiCategory: string,
    domain: string,
    approvedAiUrl: Value,
    monitoringLevel: string)

  /** Messages the service worker sends to a tab (`chrome.tabs.sendMessage`). */
  datatype TabMessage =
    | ShowWarning(payload: WarningPayload)
    | SetMonitoringLevel(level: string, domain: string)

  /** A desktop notification (`chrome.notifications.create`). */
  datatype Notification = Notification(title: string, message: string)
}
