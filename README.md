# AI Shield, modelled in Dafny

AI Shield is a browser extension that watches the AI tools an employee uses. This project models its core and proves properties of that model:

- **Service worker** (`background.js`): it classifies every visited host against the built-in list of AI domains and the `.ai` TLD rule. It decides whether the host is approved, writes visit entries to an audit log capped at 10 000 entries and sends the warning to the page, retrying once. It also handles the runtime messages from pages and the dashboard: events to log, desktop notifications, settings, the monitoring configuration and its per-site overrides (managers only).
- **Content script** (`content.js`): the warning overlay with its five-second countdown, the acknowledgement checkbox and its buttons; paste detection and the large-paste toast; focus tracking on AI prompt fields; the scan for embedded AI widgets.
- **Auth helpers** (`auth.js`): reading the implicit-grant redirect fragment into a session, the refresh result, and the decision whether a stored session must be refreshed.
- **Dashboard** (`dashboard.js`): the overview counters and compliance rate, the top-tools ranking, the log table, the CSV export, the custom-domain list and the monitoring-level views.
- **Configuration** (`config.js`): the domain, TLD, approval, level and detector tables.
- **Icon generator** (`generate-icons.js`): the PNG file it writes, with its chunk layout, CRC-32 and shield picture.

Modules and files:

- `js.dfy`: JavaScript values. JavaScript objects are `map<string, Value>`; truthiness, `||` and object spread are written out.
- `text.dfy`: the string built-ins the extension relies on: `split`, `join`, `trim`, ASCII `toLowerCase` and `String(n)`.
- `wrappers.dfy`, `seqs.dfy`: `Option` and occurrence counting.
- `config.dfy`, `domains.dfy`, `policy.dfy`, `audit.dfy`, `messages.dfy`, `background.dfy`: the service worker, whose stored state is the class `ServiceWorker`.
- `content.dfy`: one page's content script as the class `PageMonitor`.
- `auth.dfy`: the auth helpers; the two stored keys are the class `AuthStore`.
- `dashboard.dfy`, `csv.dfy`: the dashboard views and the CSV export, with a reader that proves the export reads back.
- `png.dfy`, `crc.dfy`: the icon generator and its CRC-32.

Inputs the code obtains from the outside are parameters:

- the clock (`now`, timestamps) and random UUIDs;
- the parsed host of a URL (`None` when `new URL` throws);
- whether the warning message reached the tab, and whether the retry injection succeeded;
- the outcome of each CSS selector match, and the elements a query returns;
- the clipboard text;
- the token endpoint's response;
- the deflate compressor.

Behaviour worth noting:

- Pruning a site override compares the raw level string with the stored `defaultLevel` using `===`, not the resolved level.
- Navigation classification uses the built-in domains only. `CHECK_AI_DOMAIN` also consults the custom domains.
- A visit entry's `popupTriggered` is `!approved`, decided before the warning is delivered.
- The levels are the strings `lowest`, `low`, `medium`, `high` and `highest`. Normalisation maps `low` to `lowest`, and the configured default is `low`, which is not itself canonical.

## Model

| member | source | states |
|---|---|---|
| Config.AiDomainsWellFormed | config.js:6-48 | every built-in AI domain rule has a non-empty domain, tool name and category |
| Config.TldTableIsDotAi | config.js:53-55 | the TLD fallback table is the single `.ai` rule with its display name and category |
| Config.ApprovedRouteIsApprovedAndDotAi | config.js:58-61 | the redirect URL points at the one approved host, and that host ends in `.ai` |
| Config.MonitoringLevelsShape | config.js:64-87 | the default level is a defined level; only `high` scans input; the log cap is positive |
| Config.DetectorNamesDistinct | config.js:95-229 | the sensitive-data detectors have pairwise distinct names |
| Config.DefaultRoleIsNotManager | config.js:232 | the manager roles are exactly `Manager`, and the default role `Employee` is not one of them |
| Domains.Find | background.js:166-177 | `Array.prototype.find`: none exactly when no element satisfies the predicate, otherwise the first one that does |
| Domains.FindAppend | background.js:166-177 | searching a concatenation finds in the first part before looking in the second |
| Domains.ExplicitRuleWins | background.js:163-177 | a host matching a built-in rule, exactly or as a subdomain, is classified by the first such rule |
| Domains.TldFallback | background.js:178-187 | a host matching no built-in rule is an unknown `.ai` tool exactly when it ends in `.ai`, and unmatched otherwise |
| Domains.BadUrlFailsClosed | background.js:163-233 | an unparsable URL is not an AI domain and is not approved, by either approval check |
| Domains.EmptyHostMatchesNothing | background.js:163-177 | an empty host matches no built-in rule |
| Domains.LookalikeIsNotTheTool | background.js:166-187 | `notclaude.ai` is not classified as Claude but only by the `.ai` fallback (suffix match needs a dot) |
| Domains.LookalikeNeverMatches | background.js:166-177 | for every rule domain, a host that only ends in that domain without a dot before it does not match the rule |
| Domains.SubdomainIsTheTool | background.js:166-177 | `api.claude.ai` is classified as Claude |
| Domains.SubdomainMatches | background.js:166-177 | every subdomain of a rule domain matches that rule |
| Domains.FindFirst | background.js:166-177 | `find` returns the element at the first index where the predicate holds |
| Domains.Classify | background.js:163-187 | a classification is a matching rule from the table or the `.ai` fallback for that host; there is none exactly when the host does not end in `.ai` and matches no rule |
| Domains.MatchAiDomain | background.js:163-188 | a host that cannot be read is never classified; a result is a built-in rule or the fallback for that very host |
| Domains.CustomRuleApplies | background.js:411-433 | a host matching no built-in rule is classified by the first custom domain it matches |
| Domains.IsApprovedDomainAsync | background.js:214-233 | computes async approval: built-in approved host or subdomain, then the allowed domains; its properties are stated by `Domains.ApprovalShortCircuits` |
| Domains.ApprovalShortCircuits | background.js:202-233 | a host is approved when it equals or is a subdomain of a built-in approved domain, or else exactly when it matches an allowed domain; sync approval implies async approval |
| Domains.SubdomainOfApprovedIsApproved | background.js:214-222 | every subdomain of the approved host is approved whatever the allowed domains are |
| Domains.RedirectTargetApprovedAndMonitored | config.js:58-61 | the redirect target is approved and is still classified as an AI site, by the `.ai` fallback |
| Domains.RedirectTargetMissesBuiltins | config.js:6-48 | the redirect target matches none of the built-in rules |
| Domains.CheckAiDomain | background.js:411-445 | the `CHECK_AI_DOMAIN` reply: AI exactly when a rule matched; approved exactly when AI and approved by the async check; a missing or empty host is not AI |
| Domains.BuiltinBeatsCustom | background.js:411-430 | custom domains never override a built-in match: the reply's rule is the built-in classification |
| Domains.CheckAgreesWithMatch | background.js:411-445 | with no custom domains the reply's rule is `matchAiDomain` and approval is that of an AI host |
| Policy.NormalizeMonitoringLevel | background.js:191-200 | falsy input gives the default; otherwise, case-insensitively, `low`/`lowest` give `lowest`, `high`/`highest` give `highest`, `medium` gives `medium`, and anything else the default |
| Policy.NormalizeIgnoresCase | background.js:192 | normalisation does not depend on letter case |
| Policy.NormalizeFixedPoints | background.js:191-200 | canonical levels are fixed points; the default `low` renormalises to `lowest`; `HIGH` becomes `highest` |
| Policy.NormalizeStabilises | background.js:191-200 | normalising twice reaches a canonical level that further normalisation keeps |
| Policy.EffectiveLevelResolution | background.js:236-245 | a truthy site override wins, then a truthy default level, else `lowest`; each is normalised |
| Policy.EmptyOverrideFallsThrough | background.js:236-245 | an empty config resolves to `lowest`; an empty-string override behaves as if absent |
| Policy.GetMonitoringLevelForDomain | background.js:236-245 | computes the level applied to a domain: the normalised site override, else the normalised default; stated by `Policy.EffectiveLevelResolution` and `Policy.EmptyOverrideFallsThrough` |
| Policy.IsManagerIff | background.js:248-251 | a user is a manager exactly when the stored role is `Manager`; no settings or the default role are not |
| Policy.SetSiteLevel | background.js:575-590 | the site override is removed when the level is the string `"default"` or strictly equals the stored default, set otherwise (an empty or `false` level is stored); other config keys are kept |
| Policy.UpdateMonitoringConfig | background.js:551-568 | non-managers get the permission error and no change; managers get the merged config, where every key sent takes the sent value and every other key keeps its old value |
| Policy.SetSiteMonitoringLevel | background.js:570-595 | non-managers get the permission error and no change; managers get the config with the site set or pruned |
| Policy.SetSiteKeepsPruned | background.js:575-590 | setting a site level keeps the config free of overrides that are `"default"` or equal the default |
| Policy.SetSiteThenResolve | background.js:236-245 | after setting a site level, that site resolves to the level given (or to the default when pruned), and other sites resolve as before |
| Policy.PruningIsInvisible | background.js:575-590 | pruning an override equal to the default does not change the site's resolved level |
| Policy.NonManagerChangesNothing | background.js:551-595 | neither config update changes anything for a non-manager |
| Policy.UpdateCanLeaveRedundantOverride | background.js:551-568 | a whole-config update can leave an override equal to the new default (only per-site updates prune) |
| Policy.UpdateKeepsRedundantOverride | background.js:551-568 | for every config: an update that sets a new default equal to an existing override, without sending overrides, leaves the config unpruned |
| Audit.NewEntry | background.js:255-265 | a log entry holds the event's own fields over the generated id, timestamp, user name (default `Unknown`) and role (default `Employee`) |
| Audit.TrimToMax | background.js:267-272 | trimming keeps the newest entries up to the cap |
| Audit.AppendThenKeepNewest | background.js:255-280 | after adding, the log ends with the new entry, preceded by the newest old entries, and its length is capped |
| Audit.KeepNewestIdempotent | background.js:267-272 | the trimmed log is within the cap or unchanged, and trimming again changes nothing |
| Background.NavigationIgnored | background.js:284-296 | a navigation is logged exactly when it is the top frame, the extension is enabled and the host is an AI domain; otherwise nothing is sent |
| Background.NavigationDecision | background.js:284-359 | computes what a completed navigation logs and sends; stated by `Background.NavigationIgnored` and `Background.VisitRecordsDecision` |
| Background.VisitRecordsDecision | background.js:297-307 | the visit entry records the tool, approval, `popupTriggered` as not approved and action `allowed`/`pending`, whatever the delivery outcome |
| Background.WarningAttempts | background.js:310-358 | approved sites get no warning; unapproved ones get one warning, plus a retry when the first was not received and injection worked; every warning carries the site's level; the level message is always sent |
| Background.EventEntryShape | background.js:364-539 | every logged message yields an entry carrying its type and tab id; a paste entry has exactly its six fields |
| Background.EventEntry | background.js:447-539 | computes the log entry of each typed page event; stated by `Background.EventEntryShape` |
| Background.EventNotification | background.js:469-515 | computes the notification a page event raises, a paste only when it targets an AI prompt with a positive length |
| Background.NotificationRule | background.js:469-515 | a paste notifies exactly when it targets an AI prompt with a positive length; a blocked attachment always notifies; nothing else does |
| Background.SerializePatterns | background.js:604-614 | the detector list is sent as name, flags and severity label, one per detector in order |
| Background.SerializedPatternsWellFormed | background.js:604-614 | the 20 detectors serialise with distinct names and severities among critical, high and medium |
| Background.FreshInstallDefaults | background.js:34-51 | a fresh install is enabled, not a manager, resolves every site to `lowest` and has no redundant override |
| Background.ServiceWorker.Install | background.js:24-59 | install writes the default settings and monitoring config, empty lists and the `ON` badge |
| Background.ServiceWorker.AddLog | background.js:255-280 | the new entry is appended, the log trimmed to the cap, nothing else stored changes |
| Background.ServiceWorker.OnCompleted | background.js:284-359 | the messages sent and the log follow the navigation decision; settings and config are unchanged |
| Background.ServiceWorker.HandleEvent | background.js:364-539 | a loggable message is logged and notifies as the notification rule says; a check request logs nothing |
| Background.ServiceWorker.ClearLogs | background.js:378-383 | the log becomes empty and nothing else changes |
| Background.ServiceWorker.UpdateSettings | background.js:399-409 | the settings become the spread of old and new, and the badge shows `ON` exactly when enabled |
| Background.ServiceWorker.UpdateMonitoringConfig | background.js:551-568 | the stored config and the reply are those of the manager-only merge |
| Background.ServiceWorker.SetSiteMonitoringLevel | background.js:570-595 | the stored config and the reply are those of the manager-only site update, which keeps the config pruned |
| Content.IsLikelyAiInput | content.js:220-229 | the loop answers true exactly when some selector matches without throwing |
| Content.GenericFieldsAreAiInputs | content.js:21-48 | any textarea or content-editable div counts as an AI input |
| Content.PastedLength | content.js:196-201 | the pasted length is the clipboard text's length, 0 without clipboard data |
| Content.RescanReportsNothing | content.js:316-351 | rescanning iframes that were all checked reports nothing |
| Content.ReportsBoundedByIframes | content.js:316-351 | each iframe is reported at most once, so reports are bounded by the unchecked iframes |
| Content.UpdateContinueButton | content.js:128-138 | after the countdown the continue button is enabled exactly when the box is ticked; before it nothing changes |
| Content.PageMonitor.Inject | content.js:13-17 | injection starts with no overlay, no paste warning, nothing tracked, and asks the worker whether the page is an AI domain |
| Content.PageMonitor.OnCheckAiDomainResponse | content.js:378-389 | the tool name is taken from the reply only for an unapproved AI domain with a named rule |
| Content.PageMonitor.ShowWarning | content.js:52-126 | a second warning changes nothing; the first shows the overlay with the countdown at 5, the box unticked, continue disabled, the scroll locked and the approved URL defaulted |
| Content.PageMonitor.Tick | content.js:112-126 | each tick lowers the countdown; at zero the timer stops and the continue button is updated |
| Content.PageMonitor.ToggleCheckbox | content.js:140 | ticking flips the box and updates the continue button |
| Content.PageMonitor.ClickContinue | content.js:156-167 | an enabled continue button reports `USER_CONTINUED` and starts the fade-out; a disabled one does nothing |
| Content.PageMonitor.TransitionEnd | content.js:170-175 | the end of the fade-out unlocks the scroll |
| Content.PageMonitor.FadeOutDone | content.js:156-167 | the faded overlay is removed |
| Content.PageMonitor.ClickRedirect | content.js:143-153 | redirect reports `USER_REDIRECTED` and navigates to the approved URL |
| Content.PageMonitor.Paste | content.js:185-218 | every paste is reported with its field type and length; a paste of more than 50 characters into an AI input shows a new toast |
| Content.PageMonitor.PasteWarningGone | content.js:231-265 | a toast's timeout removes it only when no newer toast replaced it |
| Content.PageMonitor.TrackAll | content.js:269-312 | every element found is tracked once, and listeners are only ever added |
| Content.PageMonitor.ScanInputs | content.js:269-312 | the tracked set grows by the elements of the first ten selectors |
| Content.PageMonitor.Focus | content.js:269-312 | focusing a tracked field reports `AI_INPUT_DETECTED`; other focus events report nothing |
| Content.PageMonitor.CheckIframes | content.js:316-351 | every iframe becomes checked, and one embedded-widget report is sent per newly seen AI iframe |
| Auth.NonEmpty | auth.js:14 | `filter(Boolean)` keeps exactly the non-empty parts, in order |
| Auth.ParseEncoded | auth.js:12-23 | parsing a fragment encoded from plain key-value pairs gives the map of those pairs |
| Auth.ParseUrlHash | auth.js:12-23 | computes the fragment's parameter map; stated by `Auth.ParseEncoded`, `Auth.LastWins`, `Auth.DoubleAmpersand` and `Auth.PairQuirks` |
| Auth.LastWins | auth.js:12-23 | the map holds exactly the keys that occur, each bound to its last value |
| Auth.DoubleAmpersand | auth.js:14 | empty parameters between ampersands are ignored |
| Auth.PairQuirks | auth.js:16 | a part without `=` has an empty value; text after a second `=` is dropped |
| Auth.NumberOf | auth.js:64 | a non-empty string of decimal digits reads as its value |
| Auth.RedirectSessionShape | auth.js:58-82 | the redirect yields a session exactly when both tokens are non-empty; the token type defaults to `bearer`; expiry is now plus `expires_in` when that is a non-zero number |
| Auth.ImplicitGrantRedirect | auth.js:58-82 | an implicit-grant redirect carrying two tokens and a lifetime gives the session with expiry `now + seconds` |
| Auth.SessionFromFields | auth.js:58-82 | computes the session of a redirect from its parameters; stated by `Auth.RedirectSessionShape` and `Auth.ImplicitGrantRedirect` |
| Auth.RefreshKeepsRotationAndExpiry | auth.js:118-130 | a refresh adopts a returned refresh token and otherwise keeps the old one, sets expiry from `expires_in` unless it is zero, defaults the token type to `bearer`, and takes the returned user |
| Auth.RefreshedSession | auth.js:118-131 | computes the session a successful refresh stores; stated by `Auth.RefreshKeepsRotationAndExpiry` |
| Auth.Decide | auth.js:205-213 | the decision is `NoSession` exactly when no session is stored |
| Auth.RefreshIsDueMonotonically | auth.js:205-213 | a refresh is due exactly when the expiry is set and within the leeway; once due it stays due later and with a wider leeway |
| Auth.AuthStore.EnsureValidStoredSession | auth.js:205-227 | a fresh session is kept; a due one is replaced by the refreshed session and user; a failed refresh clears storage |
| Auth.AuthStore.Clear | auth.js:54-56 | clearing removes the session and the user |
| Dashboard.OfTypeMembers | dashboard.js:84-90 | the type filter keeps exactly the logs of that type |
| Dashboard.ComplianceRateIsRoundedPercentage | dashboard.js:105-111 | the rate is redirects over decisions as a rounded percentage, 100 without decisions |
| Dashboard.ComplianceRate | dashboard.js:105-111 | computes the compliance percentage; stated by `Dashboard.ComplianceRateIsRoundedPercentage` |
| Dashboard.DistinctIsOrderOfKeys | dashboard.js:149-153 | the tools counted are the visited ones, each once |
| Dashboard.CountByName | dashboard.js:149-153 | the counting loop builds the per-tool counts |
| Dashboard.EntriesCountEveryName | dashboard.js:149-153 | the counts add up to the number of visits, and each tool counted was visited at least once |
| Dashboard.SortIsOrderedPermutation | dashboard.js:155-156 | sorting by count gives a non-increasing permutation of the counts |
| Dashboard.RankingFacts | dashboard.js:149-156 | the ranking lists every visited tool once, with its exact visit count, most visited first |
| Dashboard.TopToolsAreRanked | dashboard.js:145-157 | the chart shows at most 8 distinct visited tools with their exact counts, most visited first |
| Dashboard.TopToolsAreTheMostVisited | dashboard.js:145-157 | a tool left off the chart has no more visits than any tool on it, and with 8 or fewer tools none is left off |
| Dashboard.TopTools | dashboard.js:145-157 | computes the top-tools chart data; stated by `Dashboard.TopToolsAreRanked` and `Dashboard.TopToolsAreTheMostVisited` |
| Dashboard.LogTableIsFilteredNewestFirst | dashboard.js:264-274 | the table shows the filtered logs in reverse order, all of them for `all` and exactly those of the type otherwise |
| Dashboard.LogTable | dashboard.js:264-274 | computes the rows of the log table; stated by `Dashboard.LogTableIsFilteredNewestFirst` |
| Dashboard.CustomDomainList.Add | dashboard.js:457-470 | a domain is added, trimmed, exactly when all three fields are non-blank |
| Dashboard.CustomDomainList.Remove | dashboard.js:494-497 | removal is `splice(idx, 1)` |
| Dashboard.RemoveDeletesExactlyIndex | dashboard.js:494-497 | splicing removes exactly the element at an index in range, counts a negative index from the end, and ignores one past the end |
| Dashboard.ShownLevelMatchesWorker | dashboard.js:532-533 | the summary shows a site's override or else the default; a shown `highest` or `lowest` is what the worker applies |
| Dashboard.ShownLevelCanDisagree | dashboard.js:645-648 | the summary shows the raw override, which can differ in spelling from the level the worker applies |
| Dashboard.DropdownExcludesOverridden | dashboard.js:611-628 | the override dropdown lists exactly the domains without a truthy override |
| Dashboard.DropdownDomains | dashboard.js:611-628 | the dropdown never lists more domains than there are; its contents are stated by `Dashboard.DropdownExcludesOverridden` |
| Csv.FalsyExportsEmpty | dashboard.js:725-733 | a missing or falsy field exports as an empty quoted cell |
| Csv.CellRoundTrip | dashboard.js:725-733 | a quoted and escaped cell reads back as the field's text |
| Csv.HeaderLineReadsBack | dashboard.js:713-724 | the header line reads back as the ten column names |
| Csv.RowReadsBack | dashboard.js:725-733 | each log row reads back as its fields' texts |
| Csv.DocumentRoundTrip | dashboard.js:710-743 | no logs gives no file; otherwise the file reads back as the header followed by one record per log, in order |
| Csv.Document | dashboard.js:710-743 | computes the exported CSV file; stated by `Csv.DocumentRoundTrip` |
| Png.ReadBe32OfBe32 | generate-icons.js:16-17 | the big-endian 32-bit encoding reads back as the number |
| Png.Be32OfReadBe32 | generate-icons.js:16-17 | every four bytes are the encoding of the number they read as |
| Png.WriteUInt32BE | generate-icons.js:16-17 | writing a big-endian word replaces exactly four bytes at the offset |
| Png.CreateIhdrData | generate-icons.js:15-22 | the header buffer is filled with width, height, depth 8, colour type 2 and zero methods |
| Png.IhdrFields | generate-icons.js:15-22 | the header is 13 bytes with the icon size twice, then 8, 2, 0, 0, 0 |
| Png.CreateChunk | generate-icons.js:78-89 | a chunk is the length, the type, the data and the CRC of type and data |
| Png.ChunkRoundTrip | generate-icons.js:78-89 | a chunk is 12 bytes longer than its data and reads back as its type and data |
| Png.Chunk | generate-icons.js:78-89 | computes a PNG chunk: length, type, data, CRC; stated by `Png.ChunkRoundTrip` |
| Png.IendChunkBytes | generate-icons.js:73 | the IEND chunk is exactly its well-known twelve bytes |
| Png.RegionIsMirrored | generate-icons.js:38-49 | the picture is symmetric about the vertical centre line |
| Png.RegionAt | generate-icons.js:38-49 | computes the drawn region of a pixel; stated by `Png.RegionIsMirrored` |
| Png.CentreIsShield | generate-icons.js:38-51 | the centre pixel of an even-sized icon is in the shield |
| Png.CornerIsBackground | generate-icons.js:38-62 | the top-left corner is light background |
| Png.RawScanlines | generate-icons.js:28-65 | the scanline loop fills every byte as the picture says |
| Png.ScanlineLayout | generate-icons.js:28-65 | each row starts with filter byte 0 and pixel x of row y holds its region's colour |
| Png.CreatePng | generate-icons.js:10-76 | the file is the signature and the IHDR, IDAT and IEND chunks of the deflated scanlines |
| Png.ThreeChunksReadBack | generate-icons.js:75 | three chunks written in a row read back as those chunks |
| Png.PngReadsBack | generate-icons.js:10-76 | the file starts with the signature and reads back as IHDR, IDAT and IEND, in that order |
| PngCrc.ComputeCrc32 | generate-icons.js:91-100 | the bitwise loop computes the reflected CRC-32 |
| PngCrc.Crc32 | generate-icons.js:91-100 | computes the reflected CRC-32; stated by `PngCrc.ComputeCrc32`, `PngCrc.CrcCheckValue` and `PngCrc.CrcOfIend` |
| PngCrc.CrcFromConcat | generate-icons.js:91-100 | the CRC of a concatenation continues from the CRC register of the first part |
| PngCrc.CrcCheckValue | generate-icons.js:91-100 | the CRC of `123456789` is the standard check value `CBF43926` |
| PngCrc.CrcOfIend | generate-icons.js:91-100 | the CRC of an empty input is 0 and that of `IEND` is `AE426082` |

## Left out

- URL parsing (`new URL`, `hostname`, `hash`) and `decodeURIComponent`: the parsed host or fragment is an input, and fragment text is taken as already decoded.
- Auth.NumberOf: only reads plain decimal digit strings; other forms `Number()` accepts (whitespace, signs, hexadecimal, exponents, fractions) give no number.
- Regular expressions: the detectors' patterns and matching are not modelled; only their names, flags and severities are.
- zlib: the compressor is a parameter of `CreatePng`.
- Floating point: the icon geometry and the compliance-rate rounding are computed on exact numbers. The icon compares squared distances instead of `Math.sqrt`.
- Timers and animations are events of `PageMonitor`, not a clock. The countdown text, button labels and scroll-lock styling are left out.
- `chrome.*` APIs, storage reads and writes, and `fetch`: storage is the classes' fields. The network is left out.
- Races between concurrent handlers and the interleaving of awaited calls are left out. Each handler runs to completion.
- `initializeFromSupabase` and `sendLogToSupabase`: network synchronisation, not modelled.
- `signIn`, `signUp`, `signOut`, `fetchSupabaseUser` and `buildSupabaseOAuthUrl`: network calls, not modelled.
- The refresh request itself is an input `response`, `None` when the call throws. Both `nowSeconds()` calls in a refresh see the same `now`.
- Auth.SessionFromFields: `sessionFromRedirectUrl` calls `nowSeconds()` twice (auth.js:65 and 77); the model reads one `now` for both.
- The `window.__aiShieldInjected` guard against a second injection (content.js:10-11) is not modelled: each `PageMonitor` is one injection.
- UUIDs and timestamps are inputs of the logging members.
- Background.ServiceWorker.Install: models the first install on empty storage only. The source keeps existing keys on update.
- Policy.Overrides: a `siteOverrides` value that is not an object is read as having no properties.
- Background.PositiveCount: a non-numeric `contentLength` is never treated as positive.
- Content.PastedLength: counts characters, not UTF-16 code units.
- `CHECK_AI_DOMAIN_ASYNC` behaves as `CHECK_AI_DOMAIN` and is covered by `Domains.CheckAiDomain`.
- The allowed domains are their `domain` strings. The remaining fields of the stored objects play no part.
- The read-only handlers `GET_LOGS`, `EXPORT_LOGS`, `GET_SETTINGS`, `GET_MONITORING_CONFIG` and `GET_AI_DOMAINS` return stored values or tables and are not modelled. `GET_MONITORING_LEVEL_FOR_DOMAIN` returns `Policy.GetMonitoringLevelForDomain`.
- `REINITIALIZE_FROM_SUPABASE` reruns the network synchronisation and is not modelled.
- JavaScript property order for integer-like keys and inherited prototype properties are not modelled. `Dashboard.Distinct` keeps first-occurrence order.
- Dashboard rendering (`filterByTime`, `formatTime`, `escapeHtml`, HTML) is left out.
- The category chart, recent activity, policy modal, tabs, user info, settings form and JSON export are left out.
- popup.js is not part of this model.
- Node file writing and the icon sizes 16, 32, 48 and 128 with the blue shield colour are left out. `CreatePng` takes any size and colour.
- Png.WriteUInt32BE: requires the value to fit in 32 bits and the offset to fit the buffer. The source throws a range error there instead.
- Png.CreatePng: colours are bytes. The source's `Buffer` would truncate larger values.
