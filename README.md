# AI dashboard core, modelled in Dafny

This project models the core of an Angular dashboard in which a user types commands that an AI
provider turns into a new HTML/CSS pair for a live canvas. The parts modelled are:

- the canvas editor service: API key, provider, the current HTML/CSS, a newest-first edit history
  capped at 50, and the code-fence stripping applied to provider replies;
- the shared-canvas service: one row of a Supabase table, a connect/disconnect state machine over
  stored credentials, and the read-modify-write commit of the row;
- the activity tracker service: a newest-first event log capped at 50, a five-state status machine
  with delayed returns to idle, counters, and ids that embed a counter;
- the toast list, the registry of floating panels, and the theme table with the current theme;
- the floating-panel component (drag, clamping to the viewport, minimize and restore, resize);
- the command box (submit guard and status messages), the keyboard-shortcut help, the tracker
  panel (uptime clock, status label, last command), the shared-canvas dialog ("last sync" text,
  connect guard, copy notice);
- the GitHub helper (issue title and body, the constant results of `createIssue` and
  `triggerWorkflow`).

Each source file is one Dafny module. A service or component whose fields change is a `class` with
those fields and `modifies` clauses. Pure string and record computations are functions with lemmas.
Shared helpers live in `Wrappers` (`Option`), `Seqs` (the JavaScript `slice` and `filter` forms
used), `Strings` (JavaScript `trim`, `||` on strings, truncation, decimal digits) and `Storage`
(`localStorage` as a class over a string map).

Things outside the program become parameters or oracles:

- the provider round trip is an `HttpOutcome` value and `JSON.parse` is a function parameter;
- the Supabase backend is a `CanvasTable` object holding at most one row, and its failures are
  parameters (`clientError`, `selectError`, `insertFails`, `readFails`, `writeFails`, `queryFails`);
- clocks (`Date.now()`, `new Date().toISOString()`), `crypto.randomUUID()` and the random toast ids
  are parameters;
- each `setTimeout`/`setInterval` is a pending entry or counter, and the timer going off is an
  explicit method (`DismissTimerFired`, `ResetTimerFired`, `StatusTimerFired`, `CopiedTimerFired`,
  `UptimeTick`);
- asynchronous methods are modelled as running to completion, except `submitCommand` in the command
  box. It is split at its `await` into `SubmitCommand` and `OnIssueResult`, so that the
  `isProcessing` guard can be seen to work.

## Model

| member | source | states |
|---|---|---|
| Strings.Trim | src/app/components/command-input/command-input.component.ts:276 | `trim()` is the infix of the command left once its leading and trailing ECMAScript whitespace are cut: everything before and after it is whitespace, and neither of its ends is |
| Strings.TrimStart | src/app/components/command-input/command-input.component.ts:276 | the leading-whitespace cut is a suffix of the text, everything cut is whitespace, and it does not start with whitespace |
| Strings.TrimEnd | src/app/components/command-input/command-input.component.ts:276 | the trailing-whitespace cut is a prefix of the text, everything cut is whitespace, and it does not end with whitespace |
| Strings.TrimIdempotent | src/app/components/command-input/command-input.component.ts:276-278 | trimming a trimmed command changes nothing |
| Strings.OrElse | src/app/services/shared-canvas.service.ts:113 | `s \|\| fallback` on strings: `s` unless it is empty, and never empty when the fallback is not |
| Strings.Truncate | src/app/components/deployment-tracker/deployment-tracker.component.ts:69 | the first `n` characters, followed by '...' exactly when characters were cut; at most `n + 3` long |
| Strings.NatToStringValue | src/app/services/deployment-tracker.service.ts:34 | the decimal text of a counter reads back as that counter |
| Strings.PadStart | src/app/components/deployment-tracker/deployment-tracker.component.ts:490-491 | `padStart` gives length `max(width, \|s\|)`, ends with `s`, and is filled in front |
| Seqs.PrependCapped | src/app/services/deployment-tracker.service.ts:46-50 | `[x, ...s].slice(0, cap)`: `x` first, then the first `min(\|s\|, cap-1)` old entries, length `min(\|s\|+1, cap)` |
| Seqs.KeepLast | src/app/services/shared-canvas.service.ts:224-225 | `slice(-n)` keeps the newest `min(\|s\|, n)` entries, a suffix of `s` |
| Seqs.SliceTo | src/app/services/deployment-tracker.service.ts:101-103 | `slice(0, end)` is a prefix of length `min(end, \|s\|)`, or `max(0, \|s\|+end)` for a negative `end` |
| Seqs.FilterMembership | src/app/services/toast.service.ts:55 | an element survives `filter` exactly when it was there and passes the test |
| Seqs.FilterAppend | src/app/components/keyboard-shortcuts/keyboard-shortcuts.component.ts:306 | `filter` keeps the order: filtering a concatenation is concatenating the filtered parts |
| Storage.LocalStorage.GetItem | src/app/services/theme.service.ts:327 | `getItem` is the stored value, or `null` exactly when the key is absent |
| Toasts.ToastService.Show | src/app/services/toast.service.ts:25-36 | appends the toast at the end with kind 'info' and 4000 ms by default, returns its id, and schedules its dismissal only for a positive duration |
| Toasts.ToastService.ShowSuccess | src/app/services/toast.service.ts:38-40 | a 'success' toast, 4000 ms by default |
| Toasts.ToastService.ShowError | src/app/services/toast.service.ts:42-44 | an 'error' toast, 6000 ms by default |
| Toasts.ToastService.ShowInfo | src/app/services/toast.service.ts:46-48 | an 'info' toast, 4000 ms by default |
| Toasts.ToastService.ShowWarning | src/app/services/toast.service.ts:50-52 | a 'warning' toast, 5000 ms by default |
| Toasts.ToastService.Dismiss | src/app/services/toast.service.ts:54-56 | the list becomes the toasts whose id differs, pending timers untouched |
| Toasts.ToastService.DismissAll | src/app/services/toast.service.ts:58-60 | the list becomes empty |
| Toasts.ToastService.DismissTimerFired | src/app/services/toast.service.ts:31-33 | a pending auto-dismiss goes off and dismisses its id, whether or not that toast is still shown |
| Toasts.DismissRemovesExactly | src/app/services/toast.service.ts:54-56 | after `dismiss(id)` a toast is present exactly when it was present with another id |
| Toasts.DismissKeepsOrder | src/app/services/toast.service.ts:54-56 | the surviving toasts keep their order |
| Toasts.DismissUnknownId | src/app/services/toast.service.ts:54-56 | dismissing an id no toast carries changes nothing |
| Toasts.DismissIdempotent | src/app/services/toast.service.ts:54-56 | dismissing twice is dismissing once |
| DeploymentTracker.DeploymentTrackerService.constructor | src/app/services/deployment-tracker.service.ts:28-31 | one 'deployed' welcome event, status 'deployed', deploy count 1, command count 0, and its reset timer pending |
| DeploymentTracker.DeploymentTrackerService.AddEvent | src/app/services/deployment-tracker.service.ts:37-78 | the new event goes in front of at most 49 old ones under the next counter; status, last command and both counters change by type; a reset timer is scheduled for 'deployed' and 'error'; the invariant that ids embed decreasing counters is kept |
| DeploymentTracker.DeploymentTrackerService.ResetTimerFired | src/app/services/deployment-tracker.service.ts:65-76 | the oldest pending reset returns the status to 'idle' only if it is still the one that timer checks for; nothing else changes |
| DeploymentTracker.DeploymentTrackerService.ClearHistory | src/app/services/deployment-tracker.service.ts:97-99 | the log becomes empty; counters, status and last command stay |
| DeploymentTracker.DeploymentTrackerService.GetRecentEvents | src/app/services/deployment-tracker.service.ts:101-103 | the newest `min(count, \|events\|)` events, 10 by default, with JavaScript's reading of a negative count |
| DeploymentTracker.StatusAfterNames | src/app/services/deployment-tracker.service.ts:52-77 | 'command' gives 'building'; every other type gives the status of the same name; none gives 'idle' |
| DeploymentTracker.CommandLabel | src/app/services/deployment-tracker.service.ts:53-55 | the command when it is non-empty, the message otherwise |
| DeploymentTracker.EventIdInjective | src/app/services/deployment-tracker.service.ts:33-35 | the counter can be read back from an id whatever the clock said |
| DeploymentTracker.EventId | src/app/services/deployment-tracker.service.ts:33-35 | every id starts with "evt-" |
| DeploymentTracker.IdsDistinct | src/app/services/deployment-tracker.service.ts:26 | the events in a log whose ids embed strictly decreasing counters have pairwise distinct ids |
| DeploymentTracker.NumberedPrepend | src/app/services/deployment-tracker.service.ts:33-50 | logging under the next counter value, capped at 50, keeps the log numbered |
| AIEditor.AIEditorService.constructor | src/app/services/ai-editor.service.ts:34-43 | a saved key and provider are restored only when they are non-empty strings; the canvas starts at the defaults with an empty history |
| AIEditor.AIEditorService.HasApiKey | src/app/services/ai-editor.service.ts:53-55 | true exactly when a key is set and is not empty |
| AIEditor.AIEditorService.SetApiKey | src/app/services/ai-editor.service.ts:45-51 | key and provider are set and persisted, one success toast; the canvas is untouched |
| AIEditor.AIEditorService.ProcessCommand | src/app/services/ai-editor.service.ts:60-101 | without a key: false, one error toast with its dismiss timer, nothing else changes; past it: never left processing, true exactly for a reply, the command event and then the outcome's event are logged (counter up by one or two), the deploy count rises exactly for a reply, the outcome's reset timer is scheduled, only a reply is committed, and each toast shown gets its dismiss timer |
| AIEditor.AIEditorService.Run | src/app/services/ai-editor.service.ts:66-100 | the part of `processCommand` past the key check, with the same promises for a given provider answer |
| AIEditor.AIEditorService.LogAndConclude | src/app/services/ai-editor.service.ts:67-94 | the `try` block with the command event in front: the same log, counters, timers, canvas and toasts as `Run`, with the processing flag untouched |
| AIEditor.AIEditorService.Conclude | src/app/services/ai-editor.service.ts:72-98 | a reply is committed, logged (deploy count and counter up by one, reset timer scheduled) and announced; a failure is logged (counter up by one, reset timer scheduled) and reported; no reply changes nothing; each toast gets its dismiss timer |
| AIEditor.AIEditorService.ClearCanvas | src/app/services/ai-editor.service.ts:225-229 | the canvas becomes `Cleared` of the old one; key, provider and history stay; one info toast |
| AIEditor.AIEditorService.ResetToDefault | src/app/services/ai-editor.service.ts:231-235 | the canvas becomes `Reset` of the old one; two info toasts |
| AIEditor.ClearProperties | src/app/services/ai-editor.service.ts:225-229 | clearing shows the defaults, keeps the history, and clearing twice is clearing once |
| AIEditor.ResetForgets | src/app/services/ai-editor.service.ts:231-235 | a reset yields the same canvas from every state, with an empty history |
| AIEditor.CommitProperties | src/app/services/ai-editor.service.ts:73-86 | a commit shows exactly the reply, puts its item first and keeps at most 50 items, the rest being the old history's first 49 |
| AIEditor.CanvasAfterCallProperties | src/app/services/ai-editor.service.ts:73-100 | only a reply changes the canvas, and it then shows exactly the reply's HTML and CSS |
| AIEditor.LoggedEventsOrder | src/app/services/ai-editor.service.ts:68-98 | the command event is always logged; a reply or failure adds a 'deployed' or 'error' event on top under the next counter; no reply adds nothing; the old log survives as a tail |
| AIEditor.CleanUnfenced | src/app/services/ai-editor.service.ts:168-171 | content whose trimmed form does not open with three backticks is only trimmed |
| AIEditor.CleanJsonFence | src/app/services/ai-editor.service.ts:168-171 | a reply fenced as a ```` ```json ```` block reduces to its trimmed body |
| AIEditor.CleanBareFence | src/app/services/ai-editor.service.ts:168-171 | a bare ```` ``` ```` opener is not removed, so the cleaned text still opens with three backticks |
| AIEditor.CleanFenced | src/app/services/ai-editor.service.ts:168-171 | fenced content goes through both replacements and a final trim |
| AIEditor.CleanUnmatched | src/app/services/ai-editor.service.ts:168-171 | fenced content in which no opener pattern matches loses only its closing fence and trailing whitespace |
| AIEditor.StripJsonBlock | src/app/services/ai-editor.service.ts:169 | the opener pattern removes the ```` ```json ```` line and leaves the closing fence |
| AIEditor.StripBareBlock | src/app/services/ai-editor.service.ts:169 | the opener pattern matches nothing in a bare block |
| AIEditor.StripClosingFenceOff | src/app/services/ai-editor.service.ts:169 | the end-anchored pattern removes a closing fence on its own line and keeps the line feed |
| AIEditor.TrimEndKeepsFence | src/app/services/ai-editor.service.ts:168-170 | trailing whitespace removal never reaches a leading fence |
| AIEditor.BackendsAgree | src/app/services/ai-editor.service.ts:139-223 | both backends treat the same reply content identically; both fail on a rejected call, with the provider's message when it has one |
| AIEditor.StripOpeners | src/app/services/ai-editor.service.ts:170 | removing the opener pattern never lengthens the text (its matches are pinned by `StripOpenersPassesText`, `StripOpenersJsonOpener`, `StripOpenersBareOpener`) |
| AIEditor.StripClosingFence | src/app/services/ai-editor.service.ts:170 | text ending in three backticks is the result followed by them; other text is kept |
| AIEditor.CleanContent | src/app/services/ai-editor.service.ts:168-170 | the text handed to `JSON.parse` neither starts nor ends with whitespace (the fence cases are pinned by the `Clean…` lemmas) |
| AIEditor.ReadContent | src/app/services/ai-editor.service.ts:163-179 | missing or empty content is no reply; the only failure is "Invalid AI response format"; a reply is what the parser made of the cleaned content |
| AIEditor.CallProvider | src/app/services/ai-editor.service.ts:139-223 | the reading both backends share: a rejected call fails, with the fallback message when the provider gave none; an answered one is read by `ReadContent` |
| AIEditor.CallOpenAI | src/app/services/ai-editor.service.ts:139-180 | a rejected call fails with a non-empty message, "OpenAI API error" when the provider gave none; an answered one is read by `ReadContent` |
| AIEditor.CallAnthropic | src/app/services/ai-editor.service.ts:182-223 | a rejected call fails with a non-empty message, "Anthropic API error" when the provider gave none; an answered one is read by `ReadContent` |
| AIEditor.CallAI | src/app/services/ai-editor.service.ts:103-137 | whichever provider is set, a rejected call fails with a non-empty message and an answered one is read the same way |
| AIEditor.EmptyContentIsNoReply | src/app/services/ai-editor.service.ts:162-179 | missing or empty content is no reply, whatever the parser would say |
| SharedCanvas.SharedCanvasService.HasCredentials | src/app/services/shared-canvas.service.ts:55-58 | true exactly when both stored credentials are non-empty |
| SharedCanvas.SharedCanvasService.constructor | src/app/services/shared-canvas.service.ts:41-53 | starts disconnected; without stored credentials nothing else happens; with them it connects silently, connected exactly when client and read succeed (the row created if missing), storage as it was, and otherwise the error recorded and the row untouched; no toast |
| SharedCanvas.SharedCanvasService.TryAutoConnect | src/app/services/shared-canvas.service.ts:46-53 | without stored credentials nothing happens; with them, connected exactly when client and read succeed, storage ends as it was, the row is created if missing on success and untouched with the error recorded on failure; no toast either way |
| SharedCanvas.SharedCanvasService.SetStateObserver | src/app/services/shared-canvas.service.ts:39 | assigning `onStateUpdate` installs or removes the observer and changes no other field |
| SharedCanvas.SharedCanvasService.Connect | src/app/services/shared-canvas.service.ts:60-124 | not loading on exit; success exactly when client and read succeed, then credentials stored, connected, no error, a missing row created; on failure not connected, an error set, credentials not stored |
| SharedCanvas.SharedCanvasService.Establish | src/app/services/shared-canvas.service.ts:81-110 | a missing row is created unless the insert fails; the first state goes to the observer; credentials are stored; connected |
| SharedCanvas.SharedCanvasService.ReportConnectFailure | src/app/services/shared-canvas.service.ts:111-120 | not connected, the error text or 'Failed to connect', an error toast unless silent |
| SharedCanvas.SharedCanvasService.OnRealtimeUpdate | src/app/services/shared-canvas.service.ts:168-178 | an update on the open channel sets the sync time and, with a payload and an observer, hands the row over |
| SharedCanvas.SharedCanvasService.FetchLatestState | src/app/services/shared-canvas.service.ts:183-204 | the row when connected and the query succeeds, else null; the sync time and contributor count follow a fetched row |
| SharedCanvas.SharedCanvasService.SaveState | src/app/services/shared-canvas.service.ts:206-245 | not connected: false, no read, no write; connected: the row written is `UpdatedRow` of what was read, true exactly when the write succeeds; on success the contributor count and sync time follow the written row, on failure they stay as the read set them and an error toast is shown |
| SharedCanvas.SharedCanvasService.Disconnect | src/app/services/shared-canvas.service.ts:247-259 | channel closed, client gone, not connected, both credentials removed, one info toast |
| SharedCanvas.CanvasTable.Insert | src/app/services/shared-canvas.service.ts:129-147 | an insert of the single row succeeds only when there is none |
| SharedCanvas.CanvasTable.Update | src/app/services/shared-canvas.service.ts:230-233 | an update of the single row matches nothing when there is none |
| SharedCanvas.UpdatedRowProperties | src/app/services/shared-canvas.service.ts:214-228 | caller's HTML and CSS, the caller's script or '' without one, version and contributor count one above the fetched ones, history at most 100 and ending with the command |
| SharedCanvas.UpdatedRow | src/app/services/shared-canvas.service.ts:214-228 | the row records the command and the time; with nothing fetched it is version 1 with one contributor and a one-command history |
| SharedCanvas.InitialRow | src/app/services/shared-canvas.service.ts:126-140 | the row created for an empty table: version 0, no history, no contributors, no script, no last command |
| SharedCanvas.UpdatedHistory | src/app/services/shared-canvas.service.ts:224-225 | the new history is the old one plus the command, less only its oldest entries once it would exceed 100 |
| SharedCanvas.UpdatedFromNothing | src/app/services/shared-canvas.service.ts:214-227 | nothing fetched counts as version 0: version 1, one contributor, history `[command]` |
| SharedCanvas.LostUpdate | src/app/services/shared-canvas.service.ts:214-233 | two commits from the same fetched row leave the counts one above it and lose the first command; one after the other they rise by two and keep both commands |
| Draggable.DraggableService.Register | src/app/services/draggable.service.ts:23-29 | the element is filed under its id, replacing any earlier one; every other entry stays |
| Draggable.DraggableService.UpdatePosition | src/app/services/draggable.service.ts:31-44 | the on-screen pair of that element moves; other entries and keys stay |
| Draggable.DraggableService.ToggleMinimize | src/app/services/draggable.service.ts:46-55 | that element's minimized flag flips; other entries and keys stay |
| Draggable.DraggableService.SetMinimized | src/app/services/draggable.service.ts:57-66 | that element's minimized flag is set; other entries and keys stay |
| Draggable.DraggableService.GetElement | src/app/services/draggable.service.ts:68-70 | the element filed under the id, or none exactly when it is not there |
| Draggable.DraggableService.ResetPosition | src/app/services/draggable.service.ts:72-81 | that element's expanded position returns to its default; other entries and keys stay |
| Draggable.UpdateAt | src/app/services/draggable.service.ts:21-81 | a targeted update keeps the key set and every other entry |
| Draggable.MovedProperties | src/app/services/draggable.service.ts:31-44 | a move changes only the pair on screen, to exactly the given coordinates |
| Draggable.ToggleTwice | src/app/services/draggable.service.ts:46-55 | toggling twice restores the map |
| Draggable.SetMinimizedProperties | src/app/services/draggable.service.ts:57-66 | `setMinimized(id, b)` sets exactly `b` and is idempotent |
| Draggable.PositionResetProperties | src/app/services/draggable.service.ts:72-81 | a reset restores the default position and keeps the minimized position and flag |
| Draggable.UnknownIdNoOp | src/app/services/draggable.service.ts:35 | an unregistered id leaves the map unchanged under every update |
| Themes.FindTheme | src/app/services/theme.service.ts:343 | the found theme is in the table with that id; nothing is found exactly when no entry has the id |
| Themes.FindThemeSucceeds | src/app/services/theme.service.ts:343 | a lookup succeeds exactly for the ids in the table |
| Themes.BuiltInIdsDistinct | src/app/services/theme.service.ts:49-320 | the eight built-in ids are pairwise distinct |
| Themes.FindBuiltIn | src/app/services/theme.service.ts:49-320 | a lookup in the built-in table succeeds exactly for the eight known ids |
| Themes.ThemeService.constructor | src/app/services/theme.service.ts:322-340 | a saved id naming a theme is restored; anything else leaves 'light'; the current theme's id is the current id |
| Themes.ThemeService.SetTheme | src/app/services/theme.service.ts:342-349 | a known id becomes current and is persisted; an unknown one changes nothing and persists nothing |
| DragContainer.Clamp | src/app/components/draggable-container/draggable-container.component.ts:503-521 | at least 8, at most viewport − size − 8 when the viewport fits, and the input itself when it is in range |
| DragContainer.ClampIdempotent | src/app/components/draggable-container/draggable-container.component.ts:503-521 | a clamped coordinate stays where it is |
| DragContainer.DragWidth | src/app/components/draggable-container/draggable-container.component.ts:513 | a missing or zero width counts as 200 |
| DragContainer.DragHeight | src/app/components/draggable-container/draggable-container.component.ts:514 | a missing or zero height counts as 100 |
| DragContainer.CapAt | src/app/components/draggable-container/draggable-container.component.ts:561-567 | the minimized coordinate never increases and ends at most at the limit |
| DragContainer.PullBack | src/app/components/draggable-container/draggable-container.component.ts:569-579 | an expanded coordinate past the limit moves to `max(8, limit)`; one within it stays |
| DragContainer.DraggableContainer.constructor | src/app/components/draggable-container/draggable-container.component.ts:379-394 | inputs bound, expanded, not dragging, icon at (20, 100) |
| DragContainer.DraggableContainer.NgOnInit | src/app/components/draggable-container/draggable-container.component.ts:411-416 | both position pairs take their initial inputs |
| DragContainer.DraggableContainer.NgAfterViewInit | src/app/components/draggable-container/draggable-container.component.ts:418-430 | the panel is registered under its id, expanded, at its initial positions |
| DragContainer.DraggableContainer.StartDrag | src/app/components/draggable-container/draggable-container.component.ts:436-452 | dragging, with the start taken from the pair matching the minimized state |
| DragContainer.DraggableContainer.StartDragTouch | src/app/components/draggable-container/draggable-container.component.ts:454-473 | as `StartDrag` for exactly one touch; otherwise nothing changes |
| DragContainer.DraggableContainer.OnMouseMove | src/app/components/draggable-container/draggable-container.component.ts:475-482 | ignored unless dragging; then the pair on screen moves by the pointer's offset, clamped |
| DragContainer.DraggableContainer.OnTouchMove | src/app/components/draggable-container/draggable-container.component.ts:484-493 | ignored unless dragging with exactly one touch |
| DragContainer.DraggableContainer.UpdatePosition | src/app/components/draggable-container/draggable-container.component.ts:495-522 | minimized: only the icon pair moves, clamped with size 56; expanded: only the panel pair moves, clamped with the container size |
| DragContainer.DraggableContainer.StopDrag | src/app/components/draggable-container/draggable-container.component.ts:524-527 | no longer dragging, positions untouched |
| DragContainer.DraggableContainer.Minimize | src/app/components/draggable-container/draggable-container.component.ts:536-540 | minimized here and in the registry, `true` emitted |
| DragContainer.DraggableContainer.Restore | src/app/components/draggable-container/draggable-container.component.ts:542-546 | expanded here and in the registry, `false` emitted |
| DragContainer.DraggableContainer.ResetPosition | src/app/components/draggable-container/draggable-container.component.ts:548-552 | the panel pair returns to the initial inputs, here and in the registry; the icon pair stays |
| DragContainer.DraggableContainer.OnWindowResize | src/app/components/draggable-container/draggable-container.component.ts:554-581 | the icon is capped at viewport − 64; an expanded coordinate past viewport − size − 8 is pulled back, never below 8 |
| CommandInput.CommandInputComponent.OnEnterPress | src/app/components/command-input/command-input.component.ts:267-273 | Enter submits and suppresses the newline; Shift+Enter changes nothing |
| CommandInput.CommandInputComponent.SubmitCommand | src/app/components/command-input/command-input.component.ts:275-284 | a blank command or one during processing changes nothing; otherwise the box is cleared, the trimmed command is in flight and the sending notice shows |
| CommandInput.CommandInputComponent.OnIssueResult | src/app/components/command-input/command-input.component.ts:285-303 | processing ends whatever happened; success shows the sent notice, anything else an error with its text; a clearing timer starts |
| CommandInput.CommandInputComponent.SubmitToGitHub | src/app/components/command-input/command-input.component.ts:275-304 | with the real `createIssue` a submitted command always ends in the success notice |
| CommandInput.CommandInputComponent.StatusTimerFired | src/app/components/command-input/command-input.component.ts:300-302 | the status message is cleared when a pending timer goes off |
| CommandInput.ErrorMessage | src/app/components/command-input/command-input.component.ts:293-294 | the error text after '❌ Error: ', or 'Failed to send command' when it is empty |
| CommandInput.UnsuccessfulResultMessage | src/app/components/command-input/command-input.component.ts:287-294 | an unsuccessful result shows its own error, or 'Failed to create issue' when it has none |
| KeyboardShortcuts.KeyboardShortcutsComponent.HandleKeydown | src/app/components/keyboard-shortcuts/keyboard-shortcuts.component.ts:276-284 | the modal follows `AfterKey`; the default action is prevented exactly for '?' outside an input |
| KeyboardShortcuts.AfterKeyProperties | src/app/components/keyboard-shortcuts/keyboard-shortcuts.component.ts:276-284 | '?' outside an input toggles and twice restores; inside an input it does nothing; Escape closes and matters only when open; other keys do nothing |
| KeyboardShortcuts.AfterKey | src/app/components/keyboard-shortcuts/keyboard-shortcuts.component.ts:277-284 | after Escape the modal is closed; keys other than '?' and Escape leave it as it was |
| KeyboardShortcuts.IsInputFocused | src/app/components/keyboard-shortcuts/keyboard-shortcuts.component.ts:286-291 | no focused element is no input; an editable element always counts; otherwise exactly an INPUT or a TEXTAREA counts |
| KeyboardShortcuts.KeyboardShortcutsComponent.Toggle | src/app/components/keyboard-shortcuts/keyboard-shortcuts.component.ts:293-295 | the open state flips |
| KeyboardShortcuts.KeyboardShortcutsComponent.Open | src/app/components/keyboard-shortcuts/keyboard-shortcuts.component.ts:297-299 | the modal is open |
| KeyboardShortcuts.KeyboardShortcutsComponent.Close | src/app/components/keyboard-shortcuts/keyboard-shortcuts.component.ts:301-303 | the modal is closed |
| KeyboardShortcuts.ShortcutsByCategory | src/app/components/keyboard-shortcuts/keyboard-shortcuts.component.ts:305-307 | every listed shortcut is in the table with that category, and every such shortcut is listed |
| KeyboardShortcuts.ShortcutsByCategoryExact | src/app/components/keyboard-shortcuts/keyboard-shortcuts.component.ts:305-307 | a shortcut is listed exactly when it is in the table with the category, and in table order |
| KeyboardShortcuts.CategoriesCoverShortcuts | src/app/components/keyboard-shortcuts/keyboard-shortcuts.component.ts:262-274 | every shortcut's category is one of the three listed categories |
| TrackerView.JsRem | src/app/components/deployment-tracker/deployment-tracker.component.ts:491 | JavaScript's `%`: the ordinary remainder for a non-negative dividend, otherwise non-positive and above `-b` |
| TrackerView.JsRemValue | src/app/components/deployment-tracker/deployment-tracker.component.ts:491 | the remainder is the dividend less the divisor times the quotient rounded toward zero, and is odd in the dividend: the ECMAScript value |
| TrackerView.UptimeText | src/app/components/deployment-tracker/deployment-tracker.component.ts:488-493 | the uptime text is at least five characters (its fields are pinned by `UptimeTextFields`) |
| TrackerView.UptimeTextFields | src/app/components/deployment-tracker/deployment-tracker.component.ts:488-493 | the uptime text is the whole minutes in at least two digits, ':', and the seconds 00 to 59; it is five characters exactly below 100 minutes |
| TrackerView.StatusTextProperties | src/app/components/deployment-tracker/deployment-tracker.component.ts:495-504 | each status has its own label, none 'Unknown'; every other string reads 'Unknown' |
| TrackerView.StatusText | src/app/components/deployment-tracker/deployment-tracker.component.ts:495-504 | the label is one of the six the switch names |
| TrackerView.DeploymentTrackerComponent.constructor | src/app/components/deployment-tracker/deployment-tracker.component.ts:472-474 | uptime shows '00:00' and the start time is the creation time |
| TrackerView.DeploymentTrackerComponent.NgOnInit | src/app/components/deployment-tracker/deployment-tracker.component.ts:477-480 | the uptime is shown at once and the interval starts |
| TrackerView.DeploymentTrackerComponent.NgOnDestroy | src/app/components/deployment-tracker/deployment-tracker.component.ts:482-486 | the interval stops |
| TrackerView.DeploymentTrackerComponent.UptimeTick | src/app/components/deployment-tracker/deployment-tracker.component.ts:477-480 | each tick of a running interval refreshes the uptime text |
| TrackerView.DeploymentTrackerComponent.UpdateUptime | src/app/components/deployment-tracker/deployment-tracker.component.ts:488-493 | the uptime text is that of the time since start |
| TrackerView.DeploymentTrackerComponent.GetStatusText | src/app/components/deployment-tracker/deployment-tracker.component.ts:495-504 | always one of the five labels, never 'Unknown' |
| TrackerView.DeploymentTrackerComponent.ShownCommand | src/app/components/deployment-tracker/deployment-tracker.component.ts:67-70 | shown only when there is a last command: quoted, its first 30 characters, '...' exactly when some were cut |
| TrackerView.DeploymentTrackerComponent.ClearHistory | src/app/components/deployment-tracker/deployment-tracker.component.ts:515-517 | only the service's log is emptied |
| CloudConfig.LastSyncTextCases | src/app/components/cloud-config-modal/cloud-config-modal.component.ts:501-509 | 'Never' exactly without a sync; 'Just now' exactly below a minute, a future sync included; minutes 1 to 59 below an hour; whole hours after |
| CloudConfig.LastSyncText | src/app/components/cloud-config-modal/cloud-config-modal.component.ts:501-509 | 'Never' exactly when there was no sync |
| CloudConfig.LastSyncTextReadsBack | src/app/components/cloud-config-modal/cloud-config-modal.component.ts:507-508 | the unit tells whether an hour has passed and the number is the elapsed time in that unit |
| CloudConfig.CloudConfigModal.Connect | src/app/components/cloud-config-modal/cloud-config-modal.component.ts:482-489 | the service is asked only when both fields are filled in; then connected exactly when client and read succeed, credentials stored only then |
| CloudConfig.CloudConfigModal.Disconnect | src/app/components/cloud-config-modal/cloud-config-modal.component.ts:491-493 | disconnected, both credentials removed |
| CloudConfig.CloudConfigModal.CopySql | src/app/components/cloud-config-modal/cloud-config-modal.component.ts:495-499 | the copy notice shows and a timer to hide it starts |
| CloudConfig.CloudConfigModal.CopiedTimerFired | src/app/components/cloud-config-modal/cloud-config-modal.component.ts:497-498 | a pending timer going off hides the notice |
| CloudConfig.CloudConfigModal.GetLastSyncText | src/app/components/cloud-config-modal/cloud-config-modal.component.ts:501-509 | 'Never' exactly without a sync, 'Just now' exactly below a minute |
| GitHub.IssueTitle | src/app/services/github.service.ts:33 | '[AI Command] ' and the command's first 50 characters, '...' exactly when it is longer; at most 66 long |
| GitHub.BodyContainsCommand | src/app/services/github.service.ts:107-134 | the body carries the command verbatim after the "**Command:** " label and again quoted |
| GitHub.FormatIssueBody | src/app/services/github.service.ts:107-134 | the body opens with the request heading followed by the command |
| GitHub.CreateIssue | src/app/services/github.service.ts:29-59 | always a success pointing at the repository's issue list, with no error |
| GitHub.TriggerWorkflow | src/app/services/github.service.ts:64-77 | always a success with no error |

## Left out

- Provider HTTP calls and `JSON.parse`: modelled as an outcome value and a parser parameter; the
  prompt text sent to the provider is not modelled.
- Overlapping `processCommand` calls: each call runs to completion; interleaving at its `await` is
  not modelled, and the source has no re-entry guard anyway.
- Overlapping `saveState` calls are not interleaved inside `SaveState`; `LostUpdate` shows the race on
  the row computation instead.
- The Supabase client, queries and realtime channel: an abstract single-row table with failure
  parameters; the `PGRST116` error code is not modelled, a missing row is the table's empty state.
- `saveState` with a state whose `html` or `css` is undefined is not modelled; both are strings.
- `trackCommand` in the tracker service is left out: it is a timed simulation of build steps whose
  only immediate effect is an `addEvent` call, which is modelled.
- `getWorkflowRuns` and `getCommits` in the GitHub service are left out: they only wrap HTTP calls.
- Timer delays and their relative order: each pending timer is an entry or counter that goes off
  when its method is called.
- `localStorage` quota errors and exceptions are not modelled.
- `applyTheme` DOM writes and the theme colour values are not modelled; only theme ids matter.
- `formatTime` locale formatting in the tracker panel is not modelled.
- The clipboard write in `copySQL` is not modelled.
- Pointer and element coordinates are integers; floating-point positions are not modelled.
- Document event listeners are reduced to the `isDragging` flag they depend on.
- The draggable registry's records are values, so aliasing between the map and a caller's record
  is not modelled.
- ISO date text, `crypto.randomUUID()` and `Math.random()` toast ids are parameters.
- Strings.Truncate, GitHub.IssueTitle, TrackerView.DeploymentTrackerComponent.ShownCommand, AIEditor.CommandMessage and SharedCanvas.EvolvedMessage: lengths and cut points count Unicode characters, while JavaScript's `length` and `substring` count UTF-16 code units; the two agree on text inside the Basic Multilingual Plane and differ on text with characters beyond it, such as emoji.
- AIEditor.AIEditorService.ProcessCommand: one `now` stands for every clock read of the call, so the command event, the outcome event and the history item share one timestamp; in the source the last two are read after the provider's answer arrives.
- TrackerView.UptimeTextFields: proved for a non-negative elapsed time only; a clock set back
  follows JavaScript's `%` and `Math.floor` in `UptimeText`, but no property is stated for it.
- TrackerView.DeploymentTrackerComponent.GetStatusText: the 'Unknown' branch cannot be reached from a
  typed status; it is covered by `StatusTextProperties` over the status string.
- AIEditor.AIEditorService.GetProvider and KeyboardShortcuts.KeyboardShortcutsComponent.GetShortcutsByCategory
  only return a field or delegate, so they carry no contract of their own.
