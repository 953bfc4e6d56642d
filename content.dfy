/**
 * The page script (content.js): the warning overlay with its countdown and confirmation
 * checkbox, paste reporting, the large-paste reminder, and the once-only tracking of
 * prompt fields and embedded AI iframes.
 *
 * The script's module-level variables and the DOM flags it sets become the fields of
 * `PageMonitor`. Timers become events the caller delivers (`Tick` for each second of the
 * countdown, `FadeOutDone` for the 300 ms fade, `PasteWarningGone` for a reminder that has
 * been dismissed or has expired). DOM queries and selector matching are parameters.
 */
module Content {
  import opened Wrappers
  import opened Text
  import opened Js
  import opened Domains
  import opened Messages
  import opened Seqs

  /** The page script's own copy of the delay before "Continue" can unlock. */
  const WarningDelayMs: nat := 5000
  const CountdownStart: nat := WarningDelayMs / 1000

  const DefaultToolName: string := "Unknown AI Tool"
  const DefaultApprovedUrl: string := "https://openrouter.ai/"

  /** Pastes longer than this into an AI prompt show the reminder. */
  const LargePaste: nat := 50

  const AiInputSelectors: seq<string> := [
    "textarea[data-id=\"root\"]",
    "textarea#prompt-textarea",
    "div#prompt-textarea",
    "div[contenteditable=\"true\"][data-placeholder]",
    "div[contenteditable=\"true\"].ProseMirror",
    "div.ProseMirror[contenteditable=\"true\"]",
    "div[contenteditable=\"true\"][aria-label]",
    "textarea[aria-label*=\"prompt\"]",
    "rich-textarea textarea",
    "textarea[placeholder*=\"message\"]",
    "textarea[placeholder*=\"Message\"]",
    "textarea[placeholder*=\"Ask\"]",
    "textarea[placeholder*=\"ask\"]",
    "textarea[placeholder*=\"Type\"]",
    "textarea[placeholder*=\"type\"]",
    "textarea[placeholder*=\"chat\"]",
    "textarea[placeholder*=\"Chat\"]",
    "textarea[placeholder*=\"prompt\"]",
    "textarea[placeholder*=\"Prompt\"]",
    "div[contenteditable=\"true\"][role=\"textbox\"]",
    "div[contenteditable=\"true\"]",
    "textarea"
  ]

  /** Only the first ten selectors are used to find prompt fields to track. */
  const TrackedSelectorCount: nat := 10

  const AiIframePatterns: seq<string> := [
    "openai.com", "claude.ai", "gemini.google", "copilot",
    "huggingface", "mistral", "perplexity", "deepseek"
  ]

  /** What `element.matches(selector)` does for one selector. */
  datatype SelectorOutcome = Matches | NoMatch | Throws

  /** A DOM element, by identity. */
  type ElementId = nat

  // ---- Field classification ----

  /** Some AI input selector matches; a selector that throws counts as not matching. */
  predicate LikelyAiInput(matches: string -> SelectorOutcome) {
    exists i :: 0 <= i < |AiInputSelectors| && matches(AiInputSelectors[i]) == Matches
  }

  /** `isLikelyAiInput(element)`: the selectors in order, stopping at the first match. */
  method IsLikelyAiInput(matches: string -> SelectorOutcome) returns (r: bool)
    ensures r <==> LikelyAiInput(matches)
  {
    for i := 0 to |AiInputSelectors|
      invariant forall j :: 0 <= j < i ==> matches(AiInputSelectors[j]) != Matches
    {
      if matches(AiInputSelectors[i]) == Matches {
        return true;
      }
    }
    return false;
  }

  /** The generic selectors come last: every textarea and every editable div counts as an AI input. */
  lemma GenericFieldsAreAiInputs(matches: string -> SelectorOutcome)
    requires matches("textarea") == Matches || matches("div[contenteditable=\"true\"]") == Matches
    ensures LikelyAiInput(matches)
  {
    assert AiInputSelectors[21] == "textarea";
    assert AiInputSelectors[20] == "div[contenteditable=\"true\"]";
  }

  /** `contentLength`: the plain-text length, or 0 without clipboard data. */
  function PastedLength(clipboardText: Option<string>): (n: nat)
    ensures clipboardText.None? ==> n == 0
    ensures clipboardText.Some? ==> n == |clipboardText.value|
  {
    if clipboardText.Some? then |clipboardText.value| else 0
  }

  /** Whether an iframe's `src` points at an AI service. */
  predicate FlaggedIframe(src: string) {
    AnyMatch(AiIframePatterns, (p: string) => Contains(src, p))
  }

  // ---- Iframe reports ----

  /**
   * How many embedded-widget reports a scan over `iframes` sends when the iframes in
   * `checked` are already marked: each not-yet-marked iframe is marked, and reported if flagged.
   */
  function WidgetReports(iframes: seq<(ElementId, string)>, checked: set<ElementId>): nat
    decreases |iframes|
  {
    if iframes == [] then 0
    else if iframes[0].0 in checked then WidgetReports(iframes[1..], checked)
    else (if FlaggedIframe(iframes[0].1) then 1 else 0) + WidgetReports(iframes[1..], checked + {iframes[0].0})
  }

  /** The identities in a list of iframes. */
  function Ids(iframes: seq<(ElementId, string)>): set<ElementId> {
    set i | 0 <= i < |iframes| :: iframes[i].0
  }

  /** Scanning again reports nothing: every iframe is reported at most once. */
  lemma {:induction false} RescanReportsNothing(iframes: seq<(ElementId, string)>, checked: set<ElementId>)
    requires Ids(iframes) <= checked
    ensures WidgetReports(iframes, checked) == 0
    decreases |iframes|
  {
    if iframes != [] {
      IdsCons(iframes);
      RescanReportsNothing(iframes[1..], checked);
    }
  }

  /** The identities of a non-empty list: the first one and those of the rest. */
  lemma IdsCons(iframes: seq<(ElementId, string)>)
    requires iframes != []
    ensures Ids(iframes) == {iframes[0].0} + Ids(iframes[1..])
  {
    var rest := iframes[1..];
    forall y | y in Ids(iframes) ensures y in {iframes[0].0} + Ids(rest) {
      var i :| 0 <= i < |iframes| && iframes[i].0 == y;
      if i > 0 { assert rest[i - 1].0 == y; }
    }
    forall y | y in Ids(rest) ensures y in Ids(iframes) {
      var i :| 0 <= i < |rest| && rest[i].0 == y;
      assert iframes[i + 1].0 == y;
    }
  }

  /** The identities of a prefix one longer: those of the shorter prefix and the new one. */
  lemma IdsSnoc(iframes: seq<(ElementId, string)>, i: nat)
    requires i < |iframes|
    ensures Ids(iframes[..i + 1]) == Ids(iframes[..i]) + {iframes[i].0}
  {
    forall y | y in Ids(iframes[..i + 1]) ensures y in Ids(iframes[..i]) + {iframes[i].0} {
      var k :| 0 <= k < i + 1 && iframes[..i + 1][k].0 == y;
      if k < i { assert iframes[..i][k].0 == y; }
    }
    forall y | y in Ids(iframes[..i]) ensures y in Ids(iframes[..i + 1]) {
      var k :| 0 <= k < i && iframes[..i][k].0 == y;
      assert iframes[..i + 1][k].0 == y;
    }
  }

  /** At most one report per distinct iframe. */
  lemma {:induction false} ReportsBoundedByIframes(iframes: seq<(ElementId, string)>, checked: set<ElementId>)
    ensures WidgetReports(iframes, checked) <= |Ids(iframes) - checked|
    decreases |iframes|
  {
    if iframes != [] {
      var x := iframes[0].0;
      var rest := iframes[1..];
      IdsCons(iframes);
      if x in checked {
        ReportsBoundedByIframes(rest, checked);
        assert Ids(rest) - checked == Ids(iframes) - checked;
      } else {
        ReportsBoundedByIframes(rest, checked + {x});
        assert Ids(rest) - (checked + {x}) == (Ids(iframes) - checked) - {x};
      }
    }
  }

  // ---- Tracked prompt fields ----

  /** The elements of a query result. */
  function Elements(s: seq<ElementId>): set<ElementId> {
    set i | 0 <= i < |s| :: s[i]
  }

  /** The elements the first `n` tracked selectors find. */
  function Queried(query: string -> seq<ElementId>, n: nat): set<ElementId>
    requires n <= TrackedSelectorCount
  {
    if n == 0 then {} else Queried(query, n - 1) + Elements(query(AiInputSelectors[n - 1]))
  }

  // ---- The overlay ----

  /**
   * The warning overlay's state. Before `SHOW_WARNING` arrives nothing is shown, the
   * countdown holds its start value and the continue button is locked.
   */
  datatype Overlay = Overlay(
    shown: bool,           // `warningShown`: set once, never cleared
    dismissed: bool,       // `warningDismissed`
    attached: bool,        // the overlay element is in the page
    fadingOut: bool,       // the fade-out class has been added
    scrollLocked: bool,    // `document.body.style.overflow === "hidden"`
    approvedUrl: Value,    // `data.approvedAiUrl || "https://openrouter.ai/"`
    countdown: int,
    timerRunning: bool,
    checked: bool,         // the confirmation checkbox
    continueDisabled: bool)
  {
    /** The invariant the overlay's event handlers keep. */
    predicate Consistent() {
      && 0 <= countdown <= CountdownStart
      && (timerRunning <==> shown && countdown > 0)
      && (continueDisabled <==> !(countdown <= 0 && checked))
      && (attached ==> shown)
      && (dismissed ==> shown)
      && (fadingOut <==> dismissed)
      && (!shown ==> countdown == CountdownStart && !checked && !scrollLocked)
    }
  }

  const HiddenOverlay: Overlay :=
    Overlay(false, false, false, false, false, Str(DefaultApprovedUrl), CountdownStart, false, false, true)

  /** `updateContinueButton()`: only once the countdown has run out does the checkbox decide. */
  function UpdateContinueButton(o: Overlay): (r: Overlay)
    ensures r == o.(continueDisabled := r.continueDisabled)
    ensures o.countdown <= 0 ==> (r.continueDisabled <==> !o.checked)
    ensures o.countdown > 0 ==> r.continueDisabled == o.continueDisabled
  {
    if o.countdown <= 0 && o.checked then o.(continueDisabled := false)
    else if o.countdown <= 0 then o.(continueDisabled := true)
    else o
  }

  /** Appending an element not yet in a repetition-free list keeps it repetition-free and adds it to its set. */
  lemma AppendFresh(s: seq<ElementId>, x: ElementId, elems: set<ElementId>)
    requires Elements(s) == elems && x !in elems
    requires forall i, j :: 0 <= i < j < |s| ==> s[i] != s[j]
    ensures Elements(s + [x]) == elems + {x}
    ensures forall i, j :: 0 <= i < j < |s + [x]| ==> (s + [x])[i] != (s + [x])[j]
  {
    var t := s + [x];
    forall y | y in elems + {x} ensures y in Elements(t) {
      if y == x {
        assert t[|s|] == x;
      } else {
        var i :| 0 <= i < |s| && s[i] == y;
        assert t[i] == y;
      }
    }
    forall i | 0 <= i < |s| ensures s[i] != x {
      assert s[i] in elems;
    }
  }

  class PageMonitor {
    const domain: string
    var aiToolName: string
    var overlay: Overlay
    var location: Option<string>              // where the page was sent by the redirect button
    var pasteWarning: Option<nat>             // the reminder shown, by the length it reports
    var pasteWarningId: nat                   // which reminder element is the current one
    var tracked: set<ElementId>               // elements with `dataset.aiShieldTracked`
    var focusListeners: seq<ElementId>        // elements given a focus listener, in order
    var checkedIframes: set<ElementId>        // iframes with `dataset.aiShieldChecked`
    var outbox: seq<RuntimeMessage>           // messages sent to the service worker, in order

    predicate Valid()
      reads this
    {
      && overlay.Consistent()
      && Elements(focusListeners) == tracked
      && (forall i, j :: 0 <= i < j < |focusListeners| ==> focusListeners[i] != focusListeners[j])
    }

    /** The script's start on a page with hostname `host`: nothing shown, and a `CHECK_AI_DOMAIN` request. */
    constructor Inject(host: string, url: string)
      ensures Valid()
      ensures domain == host && aiToolName == DefaultToolName && overlay == HiddenOverlay
      ensures location.None? && pasteWarning.None? && pasteWarningId == 0
      ensures tracked == {} && focusListeners == [] && checkedIframes == {}
      ensures outbox == [CheckAiDomainRequest(url)]
    {
      domain := host;
      aiToolName := DefaultToolName;
      overlay := HiddenOverlay;
      location := None;
      pasteWarning := None;
      pasteWarningId := 0;
      tracked := {};
      focusListeners := [];
      checkedIframes := {};
      outbox := [CheckAiDomainRequest(url)];
    }

    /** The `CHECK_AI_DOMAIN` response: an unapproved AI page takes the rule's tool name. */
    method OnCheckAiDomainResponse(response: Option<CheckResult>)
      modifies this
      ensures var takes := response.Some? && response.value.isAi && !response.value.approved
                           && response.value.matched.Some? && response.value.matched.value.name != "";
              aiToolName == if takes then response.value.matched.value.name else old(aiToolName)
      ensures overlay == old(overlay) && location == old(location) && outbox == old(outbox)
      ensures pasteWarning == old(pasteWarning) && pasteWarningId == old(pasteWarningId)
      ensures tracked == old(tracked) && focusListeners == old(focusListeners) && checkedIframes == old(checkedIframes)
    {
      if response.Some? && response.value.isAi && !response.value.approved {
        if response.value.matched.Some? && response.value.matched.value.name != "" {
          aiToolName := response.value.matched.value.name;
        }
      }
    }

    /** `createWarningOverlay(data)`: shows the overlay once per page; later calls change nothing. */
    method ShowWarning(data: WarningPayload)
      requires Valid()
      modifies this
      ensures Valid()
      ensures old(overlay.shown) ==> overlay == old(overlay) && aiToolName == old(aiToolName)
      ensures !old(overlay.shown) ==>
        && overlay == Overlay(true, false, true, false, true, Or(data.approvedAiUrl, Str(DefaultApprovedUrl)),
                              CountdownStart, true, false, true)
        && aiToolName == (if data.aiToolName != "" then data.aiToolName else old(aiToolName))
      ensures location == old(location) && outbox == old(outbox)
      ensures pasteWarning == old(pasteWarning) && pasteWarningId == old(pasteWarningId)
      ensures tracked == old(tracked) && focusListeners == old(focusListeners) && checkedIframes == old(checkedIframes)
    {
      if overlay.shown {
        return;
      }
      if data.aiToolName != "" {
        aiToolName := data.aiToolName;
      }
      overlay := Overlay(true, false, true, false, true, Or(data.approvedAiUrl, Str(DefaultApprovedUrl)),
                         CountdownStart, true, false, true);
    }

    /** One second of the countdown: it drops by one, and on reaching zero the timer stops and the checkbox decides. */
    method Tick()
      requires Valid()
      modifies this
      ensures Valid()
      ensures !old(overlay.timerRunning) ==> overlay == old(overlay)
      ensures old(overlay.timerRunning) ==>
        var o := old(overlay).(countdown := old(overlay.countdown) - 1);
        overlay == (if o.countdown <= 0 then UpdateContinueButton(o.(timerRunning := false)) else o)
      ensures aiToolName == old(aiToolName) && location == old(location) && outbox == old(outbox)
      ensures pasteWarning == old(pasteWarning) && pasteWarningId == old(pasteWarningId)
      ensures tracked == old(tracked) && focusListeners == old(focusListeners) && checkedIframes == old(checkedIframes)
    {
      if !overlay.timerRunning {
        return;
      }
      overlay := overlay.(countdown := overlay.countdown - 1);
      if overlay.countdown <= 0 {
        overlay := UpdateContinueButton(overlay.(timerRunning := false));
      }
    }

    /** A click on the confirmation checkbox (present only while the overlay is). */
    method ToggleCheckbox()
      requires Valid()
      modifies this
      ensures Valid()
      ensures !old(overlay.attached) ==> overlay == old(overlay)
      ensures old(overlay.attached) ==> overlay == UpdateContinueButton(old(overlay).(checked := !old(overlay.checked)))
      ensures aiToolName == old(aiToolName) && location == old(location) && outbox == old(outbox)
      ensures pasteWarning == old(pasteWarning) && pasteWarningId == old(pasteWarningId)
      ensures tracked == old(tracked) && focusListeners == old(focusListeners) && checkedIframes == old(checkedIframes)
    {
      if !overlay.attached {
        return;
      }
      overlay := UpdateContinueButton(overlay.(checked := !overlay.checked));
    }

    /** A click on "Continue Anyway": ignored while locked; otherwise dismiss, report, fade out. */
    method ClickContinue()
      requires Valid()
      modifies this
      ensures Valid()
      ensures !old(overlay.attached) || old(overlay.continueDisabled) ==> overlay == old(overlay) && outbox == old(outbox)
      ensures old(overlay.attached) && !old(overlay.continueDisabled) ==>
        && overlay == old(overlay).(dismissed := true, fadingOut := true)
        && outbox == old(outbox) + [UserContinued(Str(domain), Str(aiToolName), Bool(true))]
      ensures aiToolName == old(aiToolName) && location == old(location)
      ensures pasteWarning == old(pasteWarning) && pasteWarningId == old(pasteWarningId)
      ensures tracked == old(tracked) && focusListeners == old(focusListeners) && checkedIframes == old(checkedIframes)
    {
      if !overlay.attached || overlay.continueDisabled {
        return;
      }
      overlay := overlay.(dismissed := true, fadingOut := true);
      outbox := outbox + [UserContinued(Str(domain), Str(aiToolName), Bool(true))];
    }

    /** The end of the fade-out transition releases scrolling. */
    method TransitionEnd()
      requires Valid()
      modifies this
      ensures Valid()
      ensures overlay == if old(overlay.attached) && old(overlay.fadingOut) then old(overlay).(scrollLocked := false) else old(overlay)
      ensures aiToolName == old(aiToolName) && location == old(location) && outbox == old(outbox)
      ensures pasteWarning == old(pasteWarning) && pasteWarningId == old(pasteWarningId)
      ensures tracked == old(tracked) && focusListeners == old(focusListeners) && checkedIframes == old(checkedIframes)
    {
      if overlay.attached && overlay.fadingOut {
        overlay := overlay.(scrollLocked := false);
      }
    }

    /** 300 ms after "Continue", the overlay is removed. */
    method FadeOutDone()
      requires Valid()
      modifies this
      ensures Valid()
      ensures overlay == if old(overlay.fadingOut) then old(overlay).(attached := false) else old(overlay)
      ensures aiToolName == old(aiToolName) && location == old(location) && outbox == old(outbox)
      ensures pasteWarning == old(pasteWarning) && pasteWarningId == old(pasteWarningId)
      ensures tracked == old(tracked) && focusListeners == old(focusListeners) && checkedIframes == old(checkedIframes)
    {
      if overlay.fadingOut {
        overlay := overlay.(attached := false);
      }
    }

    /** "Use Approved AI Instead": always available while the overlay is; report, then navigate. */
    method ClickRedirect()
      requires Valid()
      modifies this
      ensures Valid()
      ensures !old(overlay.attached) ==> location == old(location) && outbox == old(outbox)
      ensures old(overlay.attached) ==>
        && outbox == old(outbox) + [UserRedirected(Str(domain), Str(aiToolName), old(overlay.approvedUrl))]
        && location == Some(ToJsString(old(overlay.approvedUrl)))
      ensures overlay == old(overlay) && aiToolName == old(aiToolName)
      ensures pasteWarning == old(pasteWarning) && pasteWarningId == old(pasteWarningId)
      ensures tracked == old(tracked) && focusListeners == old(focusListeners) && checkedIframes == old(checkedIframes)
    {
      if !overlay.attached {
        return;
      }
      outbox := outbox + [UserRedirected(Str(domain), Str(aiToolName), overlay.approvedUrl)];
      location := Some(ToJsString(overlay.approvedUrl));
    }

    /**
     * The paste listener. Only the length of the pasted text is read; the report carries that
     * length and whether the target is an AI prompt. A paste of more than 50 characters into
     * an AI prompt replaces any reminder on screen with a new one.
     */
    method Paste(isInput: bool, matches: string -> SelectorOutcome, clipboardText: Option<string>)
      requires Valid()
      modifies this
      ensures Valid()
      ensures var ai := isInput && LikelyAiInput(matches);
              var n := PastedLength(clipboardText);
              && outbox == old(outbox) + [PasteDetected(Str(domain), Str(aiToolName),
                                                        Str(if ai then "ai_prompt" else "other_input"), Num(n))]
              && (ai && n > LargePaste ==> pasteWarning == Some(n) && pasteWarningId == old(pasteWarningId) + 1)
              && (!(ai && n > LargePaste) ==> pasteWarning == old(pasteWarning) && pasteWarningId == old(pasteWarningId))
      ensures overlay == old(overlay) && aiToolName == old(aiToolName) && location == old(location)
      ensures tracked == old(tracked) && focusListeners == old(focusListeners) && checkedIframes == old(checkedIframes)
    {
      var ai := false;
      if isInput {
        ai := IsLikelyAiInput(matches);
      }
      var n := PastedLength(clipboardText);
      if ai && n > LargePaste {
        pasteWarningId := pasteWarningId + 1;
        pasteWarning := Some(n);
      }
      outbox := outbox + [PasteDetected(Str(domain), Str(aiToolName), Str(if ai then "ai_prompt" else "other_input"), Num(n))];
    }

    /** A reminder's dismiss click or 8-second expiry, after its fade: only that reminder is removed. */
    method PasteWarningGone(id: nat)
      requires Valid()
      modifies this
      ensures Valid()
      ensures pasteWarning == if id == old(pasteWarningId) then None else old(pasteWarning)
      ensures pasteWarningId == old(pasteWarningId)
      ensures overlay == old(overlay) && aiToolName == old(aiToolName) && location == old(location) && outbox == old(outbox)
      ensures tracked == old(tracked) && focusListeners == old(focusListeners) && checkedIframes == old(checkedIframes)
    {
      if id == pasteWarningId {
        pasteWarning := None;
      }
    }

    /** Marks and listens to every element of one query result that is not yet marked. */
    method TrackAll(elements: seq<ElementId>)
      requires Valid()
      modifies this
      ensures Valid()
      ensures tracked == old(tracked) + Elements(elements)
      ensures |focusListeners| >= |old(focusListeners)| && focusListeners[..|old(focusListeners)|] == old(focusListeners)
      ensures overlay == old(overlay) && aiToolName == old(aiToolName) && location == old(location) && outbox == old(outbox)
      ensures pasteWarning == old(pasteWarning) && pasteWarningId == old(pasteWarningId) && checkedIframes == old(checkedIframes)
    {
      for j := 0 to |elements|
        invariant Valid()
        invariant tracked == old(tracked) + Elements(elements[..j])
        invariant |focusListeners| >= |old(focusListeners)| && focusListeners[..|old(focusListeners)|] == old(focusListeners)
        invariant overlay == old(overlay) && aiToolName == old(aiToolName) && location == old(location) && outbox == old(outbox)
        invariant pasteWarning == old(pasteWarning) && pasteWarningId == old(pasteWarningId) && checkedIframes == old(checkedIframes)
      {
        var el := elements[j];
        assert Elements(elements[..j + 1]) == Elements(elements[..j]) + {el} by {
          assert elements[..j + 1] == elements[..j] + [el];
          forall y | y in Elements(elements[..j + 1]) ensures y in Elements(elements[..j]) + {el} {
            var k :| 0 <= k < j + 1 && elements[..j + 1][k] == y;
            if k < j { assert elements[..j][k] == y; }
          }
          forall y | y in Elements(elements[..j]) ensures y in Elements(elements[..j + 1]) {
            var k :| 0 <= k < j && elements[..j][k] == y;
            assert elements[..j + 1][k] == y;
          }
        }
        if el !in tracked {
          AppendFresh(focusListeners, el, tracked);
          tracked := tracked + {el};
          focusListeners := focusListeners + [el];
        }
      }
      assert elements[..|elements|] == elements;
    }

    /**
     * A scan for prompt fields (the initial one, or one the mutation observer triggers):
     * every element the first ten selectors find is marked and given a focus listener,
     * unless it was marked before.
     */
    method ScanInputs(query: string -> seq<ElementId>)
      requires Valid()
      modifies this
      ensures Valid()
      ensures tracked == old(tracked) + Queried(query, TrackedSelectorCount)
      ensures |focusListeners| >= |old(focusListeners)| && focusListeners[..|old(focusListeners)|] == old(focusListeners)
      ensures overlay == old(overlay) && aiToolName == old(aiToolName) && location == old(location) && outbox == old(outbox)
      ensures pasteWarning == old(pasteWarning) && pasteWarningId == old(pasteWarningId) && checkedIframes == old(checkedIframes)
    {
      for k := 0 to TrackedSelectorCount
        invariant Valid()
        invariant tracked == old(tracked) + Queried(query, k)
        invariant |focusListeners| >= |old(focusListeners)| && focusListeners[..|old(focusListeners)|] == old(focusListeners)
        invariant overlay == old(overlay) && aiToolName == old(aiToolName) && location == old(location) && outbox == old(outbox)
        invariant pasteWarning == old(pasteWarning) && pasteWarningId == old(pasteWarningId) && checkedIframes == old(checkedIframes)
      {
        ghost var before := focusListeners;
        TrackAll(query(AiInputSelectors[k]));
        assert focusListeners[..|old(focusListeners)|] == before[..|old(focusListeners)|];
      }
    }

    /** Focus on an element: its listener, if it has one, reports a prompt-field interaction, once. */
    method Focus(el: ElementId)
      requires Valid()
      modifies this
      ensures Valid()
      ensures outbox == old(outbox) +
        (if el in tracked then [AiInputDetected(Str(domain), Str(aiToolName), Str("focus_prompt_field"))] else [])
      ensures overlay == old(overlay) && aiToolName == old(aiToolName) && location == old(location)
      ensures pasteWarning == old(pasteWarning) && pasteWarningId == old(pasteWarningId)
      ensures tracked == old(tracked) && focusListeners == old(focusListeners) && checkedIframes == old(checkedIframes)
    {
      var report := AiInputDetected(Str(domain), Str(aiToolName), Str("focus_prompt_field"));
      for i := 0 to |focusListeners|
        invariant tracked == old(tracked) && focusListeners == old(focusListeners) && checkedIframes == old(checkedIframes)
        invariant overlay == old(overlay) && aiToolName == old(aiToolName) && location == old(location)
        invariant pasteWarning == old(pasteWarning) && pasteWarningId == old(pasteWarningId)
        invariant outbox == old(outbox) + Repeat(report, Occurrences(focusListeners[..i], el))
      {
        if focusListeners[i] == el {
          outbox := outbox + [report];
        }
        assert focusListeners[..i + 1] == focusListeners[..i] + [focusListeners[i]];
        OccurrencesAppend(focusListeners[..i], [focusListeners[i]], el);
        assert Occurrences([focusListeners[i]], el) == if focusListeners[i] == el then 1 else 0;
      }
      assert focusListeners[..|focusListeners|] == focusListeners;
      OccurrencesDistinct(focusListeners, el);
    }

    /** A scan for embedded AI iframes: each iframe is marked once and reported if its `src` is flagged. */
    method CheckIframes(iframes: seq<(ElementId, string)>)
      requires Valid()
      modifies this
      ensures Valid()
      ensures checkedIframes == old(checkedIframes) + Ids(iframes)
      ensures outbox == old(outbox) + Repeat(AiInputDetected(Str(domain), Str("Embedded AI Widget"), Str("embedded_ai_iframe")),
                                            WidgetReports(iframes, old(checkedIframes)))
      ensures overlay == old(overlay) && aiToolName == old(aiToolName) && location == old(location)
      ensures pasteWarning == old(pasteWarning) && pasteWarningId == old(pasteWarningId)
      ensures tracked == old(tracked) && focusListeners == old(focusListeners)
    {
      var report := AiInputDetected(Str(domain), Str("Embedded AI Widget"), Str("embedded_ai_iframe"));
      ghost var sent := 0;
      for i := 0 to |iframes|
        invariant checkedIframes == old(checkedIframes) + Ids(iframes[..i])
        invariant outbox == old(outbox) + Repeat(report, sent)
        invariant sent + WidgetReports(iframes[i..], checkedIframes) == WidgetReports(iframes, old(checkedIframes))
        invariant Valid()
        invariant overlay == old(overlay) && aiToolName == old(aiToolName) && location == old(location)
        invariant pasteWarning == old(pasteWarning) && pasteWarningId == old(pasteWarningId)
        invariant tracked == old(tracked) && focusListeners == old(focusListeners)
      {
        assert iframes[i..][1..] == iframes[i + 1..];
        IdsSnoc(iframes, i);
        var (id, src) := iframes[i];
        if id in checkedIframes {
          continue;
        }
        checkedIframes := checkedIframes + {id};
        if FlaggedIframe(src) {
          outbox := outbox + [report];
          sent := sent + 1;
        }
      }
      assert iframes[..|iframes|] == iframes;
    }
  }
}
