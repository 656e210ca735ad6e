/** The canvas editor (src/app/services/ai-editor.service.ts): it holds the API key, the current
    HTML/CSS pair and a newest-first edit history, and sends commands to an AI provider.

    The provider round trip is an oracle: an `HttpOutcome` says what `fetch` produced and a `parse`
    function stands for `JSON.parse`. `crypto.randomUUID()`, `new Date()` and the toast ids are
    parameters. */
module AIEditor {
  import opened Wrappers
  import opened Seqs
  import opened Strings
  import opened Storage
  import opened Toasts
  import opened DeploymentTracker

  /** The JSON object the provider is asked to return. */
  datatype AIResponse = AIResponse(html: string, css: string, description: string)

  datatype EditHistoryItem = EditHistoryItem(
    id: string,
    command: string,
    timestamp: int,
    html: string,
    css: string)

  /** What `JSON.parse` makes of the cleaned content: it throws, it yields a falsy value (`null`,
      `0`, `false`, `""`), or it yields the response object. */
  datatype ParseOutcome = ParseError | FalsyValue | Parsed(response: AIResponse)

  /** What the HTTP round trip to the provider produced: a thrown error or a non-OK status (with the
      provider's `error.message`, if any), or an OK body whose text content may be missing. */
  datatype HttpOutcome = Rejected(errorMessage: Option<string>) | Answered(content: Option<string>)

  /** What `callAI` resolves to (`Reply` or `NoReply`, i.e. a falsy value) or rejects with. */
  datatype CallResult = Reply(response: AIResponse) | NoReply | Failure(message: string)

  const ApiKeyStorageKey := "ai-editor-api-key"
  const ProviderStorageKey := "ai-editor-provider"

  /** The most edits the history keeps. */
  const MaxHistory: nat := 50

  // ---------------------------------------------------------------------------------------------
  // Code-fence stripping, identical in both backends

  /** `s.replace(/```json?\n?/g, '')`. The pattern is three backticks, the letters "jso", an optional
      "n" and an optional line feed; matches are removed left to right without overlapping. Its
      values are pinned by `StripOpenersPassesText` (text without backticks passes through),
      `StripOpenersJsonOpener` (a "```json" line goes with its line feed), `StripOpenersBareOpener`
      (a bare "```" line stays) and `StripOpenersClosingLine` (a closing fence stays). */
  function StripOpeners(s: string): (r: string)
    ensures |r| <= |s|
    decreases |s|
  {
    if StartsWith(s, "```jso") then
      var rest := s[6..];
      var afterN := if rest != [] && rest[0] == 'n' then rest[1..] else rest;
      var afterLf := if afterN != [] && afterN[0] == '\n' then afterN[1..] else afterN;
      StripOpeners(afterLf)
    else if s == [] then []
    else [s[0]] + StripOpeners(s[1..])
  }

  /** `s.replace(/```$/g, '')`: three backticks at the very end are removed. */
  function StripClosingFence(s: string): (r: string)
    ensures EndsWith(s, "```") ==> s == r + "```"
    ensures !EndsWith(s, "```") ==> r == s
  {
    if EndsWith(s, "```") then s[..|s| - 3] else s
  }

  /** The string handed to `JSON.parse`: the trimmed content, and when that starts with three
      backticks, with the fence patterns removed and trimmed again. */
  function CleanContent(content: string): (r: string)
    ensures r == [] || (!IsJsWhitespace(r[0]) && !IsJsWhitespace(r[|r| - 1]))
  {
    var trimmed := Trim(content);
    if StartsWith(trimmed, "```") then Trim(StripClosingFence(StripOpeners(trimmed))) else trimmed
  }

  predicate NoBackticks(s: string) {
    forall i :: 0 <= i < |s| ==> s[i] != '`'
  }

  /** A string whose `k`-th character differs from the pattern's does not start with a match. */
  lemma NotOpener(x: string, k: nat)
    requires k < 6 && k < |x| && x[k] != "```jso"[k]
    ensures !StartsWith(x, "```jso")
  {
    assert |x| >= 6 ==> x[..6][k] == x[k];
  }

  /** A character where no match starts is kept. */
  lemma StripOpenersSkip(c: char, t: string)
    requires !StartsWith([c] + t, "```jso")
    ensures StripOpeners([c] + t) == [c] + StripOpeners(t)
  {
    assert ([c] + t)[1..] == t;
  }

  /** Text without backticks contains no match of the opener pattern and passes through it,
      whatever follows. */
  lemma {:induction false} StripOpenersPassesText(a: string, b: string)
    requires NoBackticks(a)
    ensures StripOpeners(a + b) == a + StripOpeners(b)
  {
    if a != [] {
      var t := a[1..] + b;
      assert a + b == [a[0]] + t;
      NotOpener([a[0]] + t, 0);
      StripOpenersSkip(a[0], t);
      StripOpenersPassesText(a[1..], b);
      assert StripOpeners(a + b) == [a[0]] + (a[1..] + StripOpeners(b));
      assert a + StripOpeners(b) == [a[0]] + (a[1..] + StripOpeners(b));
    } else {
      assert a + b == b;
    }
  }

  /** A closing fence on its own line is not an opener. */
  lemma StripOpenersClosingLine()
    ensures StripOpeners("\n```") == "\n```"
  {
    NotOpener("\n```", 0);
    assert "\n```"[1..] == "```";
    assert "```"[1..] == "``";
    assert "``"[1..] == "`";
    assert "`"[1..] == "";
  }

  /** A "```json" line is removed together with its line feed. */
  lemma StripOpenersJsonOpener(rest: string)
    ensures StripOpeners("```json\n" + rest) == StripOpeners(rest)
  {
    var s := "```json\n" + rest;
    assert s[..6] == "```jso";
    assert s[6..] == "n\n" + rest;
    assert s[6..][1..] == "\n" + rest;
    assert s[6..][1..][1..] == rest;
  }

  /** A bare "```" line is no match: the pattern needs "jso" after the backticks. */
  lemma StripOpenersBareOpener(rest: string)
    ensures StripOpeners("```\n" + rest) == "```\n" + StripOpeners(rest)
  {
    var s3 := ['\n'] + rest;
    NotOpener(s3, 0);
    StripOpenersSkip('\n', rest);
    var s2 := ['`'] + s3;
    NotOpener(s2, 1);
    StripOpenersSkip('`', s3);
    var s1 := ['`'] + s2;
    NotOpener(s1, 2);
    StripOpenersSkip('`', s2);
    var s0 := ['`'] + s1;
    NotOpener(s0, 3);
    StripOpenersSkip('`', s1);
    assert "```\n" + rest == s0;
  }

  /** Content whose trimmed form does not open with a fence is only trimmed. */
  lemma CleanUnfenced(content: string)
    requires !StartsWith(Trim(content), "```")
    ensures CleanContent(content) == Trim(content)
  {
  }

  /** The fence patterns of a JSON block: the opener line goes, the closing fence stays. */
  lemma StripJsonBlock(body: string)
    requires NoBackticks(body)
    ensures StripOpeners("```json\n" + body + "\n```") == body + "\n```"
  {
    assert "```json\n" + body + "\n```" == "```json\n" + (body + "\n```");
    StripOpenersJsonOpener(body + "\n```");
    StripOpenersPassesText(body, "\n```");
    StripOpenersClosingLine();
  }

  /** The fence patterns of a bare block: nothing matches. */
  lemma StripBareBlock(body: string)
    requires NoBackticks(body)
    ensures StripOpeners("```\n" + body + "\n```") == "```\n" + body + "\n```"
  {
    assert "```\n" + body + "\n```" == "```\n" + (body + "\n```");
    StripOpenersBareOpener(body + "\n```");
    StripOpenersPassesText(body, "\n```");
    StripOpenersClosingLine();
  }

  /** Content that starts and ends with a backtick goes through the fence branch untrimmed. */
  lemma CleanFenced(content: string)
    requires StartsWith(content, "```") && content[|content| - 1] == '`'
    ensures CleanContent(content) == Trim(StripClosingFence(StripOpeners(content)))
  {
    assert content[0] == content[..3][0];
    TrimUntouched(content);
  }

  /** A reply fenced as a JSON block reduces to its trimmed body. */
  lemma CleanJsonFence(body: string)
    requires NoBackticks(body)
    ensures CleanContent("```json\n" + body + "\n```") == Trim(body)
  {
    var content := "```json\n" + body + "\n```";
    assert content[..3] == "```";
    CleanFenced(content);
    StripJsonBlock(body);
    StripClosingFenceOff(body);
    TrimNewlineSuffix(body);
  }

  /** Trailing whitespace never reaches back into a leading fence. */
  lemma TrimEndKeepsFence(s: string)
    requires StartsWith(s, "```")
    ensures StartsWith(TrimEnd(s), "```")
  {
    var r := TrimEnd(s);
    assert s[2] == s[..3][2];
    assert !IsJsWhitespace(s[2]);
    assert |r| >= 3;
    assert r[..3] == s[..|r|][..3] == s[..3];
  }

  /** A closing fence on its own line goes, its line feed stays. */
  lemma StripClosingFenceOff(s: string)
    ensures StripClosingFence(s + "\n```") == s + "\n"
  {
    var t := s + "\n```";
    assert t[|t| - 3..] == "```";
    assert t[..|t| - 3] == s + "\n";
  }

  /** Trimming a fenced line followed by a line feed: only trailing whitespace goes. */
  lemma TrimFencedLine(s: string)
    requires StartsWith(s, "```")
    ensures Trim(s + "\n") == TrimEnd(s)
    ensures StartsWith(TrimEnd(s), "```")
  {
    assert (s + "\n")[0] == s[..3][0];
    assert TrimStart(s + "\n") == s + "\n";
    TrimEndAppendWhitespace(s, '\n');
    TrimEndKeepsFence(s);
  }

  /** Fenced content in which no opener pattern matches loses only its closing fence and the
      whitespace before it. */
  lemma CleanUnmatched(w: string)
    requires StartsWith(w, "```")
    requires StripOpeners(w + "\n```") == w + "\n```"
    ensures CleanContent(w + "\n```") == TrimEnd(w)
    ensures StartsWith(CleanContent(w + "\n```"), "```")
  {
    var content := w + "\n```";
    assert content[..3] == w[..3];
    assert content[|content| - 1] == '`';
    CleanFenced(content);
    StripClosingFenceOff(w);
    var cut := w + "\n";
    assert StripClosingFence(StripOpeners(content)) == cut;
    TrimFencedLine(w);
    assert CleanContent(content) == Trim(cut);
  }

  /** A bare fence (no "json" tag) is NOT removed, so the cleaned string still opens with the three
      backticks, and only the closing fence and the whitespace around it are gone. */
  lemma CleanBareFence(body: string)
    requires NoBackticks(body)
    ensures CleanContent("```\n" + body + "\n```") == TrimEnd("```\n" + body)
    ensures StartsWith(CleanContent("```\n" + body + "\n```"), "```")
  {
    StripBareBlock(body);
    var w := "```\n" + body;
    assert w[..3] == "```";
    CleanUnmatched(w);
  }

  // ---------------------------------------------------------------------------------------------
  // The two provider backends

  /** The text content of an OK reply: missing or empty content resolves to `null`; otherwise the
      cleaned content is parsed, and a parse failure becomes "Invalid AI response format". */
  function ReadContent(content: Option<string>, parse: string -> ParseOutcome): (r: CallResult)
    ensures content.None? || content.value == "" ==> r == NoReply
    ensures r.Failure? ==> r.message == "Invalid AI response format"
    ensures r.Reply? ==> parse(CleanContent(content.value)) == Parsed(r.response)
  {
    if content.None? || content.value == "" then NoReply
    else
      match parse(CleanContent(content.value))
      case ParseError => Failure("Invalid AI response format")
      case FalsyValue => NoReply
      case Parsed(r) => Reply(r)
  }

  /** `error.error?.message || fallback`. */
  function ErrorText(message: Option<string>, fallback: string): string {
    if message.Some? && message.value != "" then message.value else fallback
  }

  /** What both backends make of the round trip; they differ only in the message `fallback` of a
      rejected call that carries none. */
  function CallProvider(outcome: HttpOutcome, fallback: string, parse: string -> ParseOutcome): (r: CallResult)
    ensures outcome.Rejected? ==> r.Failure?
    ensures outcome.Rejected? && fallback != "" ==> r.message != ""
    ensures outcome.Rejected? && !Truthy(outcome.errorMessage) ==> r.message == fallback
    ensures outcome.Answered? ==> r == ReadContent(outcome.content, parse)
  {
    match outcome
    case Rejected(m) => Failure(ErrorText(m, fallback))
    case Answered(c) => ReadContent(c, parse)
  }

  /** `callOpenAI`. */
  function CallOpenAI(outcome: HttpOutcome, parse: string -> ParseOutcome): (r: CallResult)
    ensures outcome.Rejected? ==> r.Failure? && r.message != ""
    ensures outcome.Rejected? && !Truthy(outcome.errorMessage) ==> r.message == "OpenAI API error"
    ensures outcome.Answered? ==> r == ReadContent(outcome.content, parse)
  {
    CallProvider(outcome, "OpenAI API error", parse)
  }

  /** `callAnthropic`. */
  function CallAnthropic(outcome: HttpOutcome, parse: string -> ParseOutcome): (r: CallResult)
    ensures outcome.Rejected? ==> r.Failure? && r.message != ""
    ensures outcome.Rejected? && !Truthy(outcome.errorMessage) ==> r.message == "Anthropic API error"
    ensures outcome.Answered? ==> r == ReadContent(outcome.content, parse)
  {
    CallProvider(outcome, "Anthropic API error", parse)
  }

  /** `callAI`: any provider setting other than 'openai' goes to the Anthropic backend. */
  function CallAI(provider: string, outcome: HttpOutcome, parse: string -> ParseOutcome): (r: CallResult)
    ensures outcome.Rejected? ==> r.Failure? && r.message != ""
    ensures outcome.Answered? ==> r == ReadContent(outcome.content, parse)
  {
    if provider == "openai" then CallOpenAI(outcome, parse) else CallAnthropic(outcome, parse)
  }

  /** Both backends treat the same reply content identically, and both fail (with their own default
      message) exactly on a rejected request. */
  lemma BackendsAgree(outcome: HttpOutcome, parse: string -> ParseOutcome)
    ensures outcome.Answered? ==> CallOpenAI(outcome, parse) == CallAnthropic(outcome, parse)
    ensures outcome.Rejected? ==> CallOpenAI(outcome, parse).Failure? && CallAnthropic(outcome, parse).Failure?
    ensures outcome.Rejected? && outcome.errorMessage.Some? && outcome.errorMessage.value != "" ==>
              CallOpenAI(outcome, parse) == CallAnthropic(outcome, parse)
  {
  }

  /** Missing or empty content is no reply, whatever the parser would say. */
  lemma EmptyContentIsNoReply(provider: string, content: Option<string>, parse: string -> ParseOutcome)
    requires content.None? || content.value == ""
    ensures CallAI(provider, Answered(content), parse) == NoReply
  {
  }

  // ---------------------------------------------------------------------------------------------
  // The canvas state

  /** The part of the editor's state that the canvas operations change. */
  datatype Canvas = Canvas(html: string, css: string, history: seq<EditHistoryItem>)

  /** The canvas after `clearCanvas()`: default HTML and CSS, history kept. */
  function Cleared(c: Canvas): Canvas {
    c.(html := DefaultHtml, css := DefaultCss)
  }

  /** The canvas after `resetToDefault()`: cleared, and the history emptied. */
  function Reset(c: Canvas): Canvas {
    Cleared(c).(history := [])
  }

  /** The canvas after a committed reply. */
  function Committed(c: Canvas, item: EditHistoryItem): Canvas {
    Canvas(item.html, item.css, PrependCapped(item, c.history, MaxHistory))
  }

  /** Clearing keeps the history, and clearing twice is clearing once. */
  lemma ClearProperties(c: Canvas)
    ensures Cleared(c).history == c.history
    ensures Cleared(Cleared(c)) == Cleared(c)
    ensures Cleared(c).html == DefaultHtml && Cleared(c).css == DefaultCss
  {
  }

  /** A reset forgets everything: it yields the same canvas from every state. */
  lemma ResetForgets(c: Canvas, d: Canvas)
    ensures Reset(c) == Reset(d) == Canvas(DefaultHtml, DefaultCss, [])
    ensures Reset(Cleared(c)) == Reset(c)
  {
  }

  /** A commit shows exactly the reply, puts its item first and keeps at most 50 items: the new
      item followed by the newest 49 old ones. */
  lemma CommitProperties(c: Canvas, item: EditHistoryItem)
    requires |c.history| <= MaxHistory
    ensures var d := Committed(c, item);
      && d.html == item.html && d.css == item.css
      && |d.history| <= MaxHistory
      && d.history == [item] + c.history[..Min(|c.history|, MaxHistory - 1)]
  {
    var d := Committed(c, item);
    assert d.history == [d.history[0]] + d.history[1..];
  }

  // ---------------------------------------------------------------------------------------------
  // What one processed command does to the log, the canvas and the toasts

  /** `` `AI Command: "${command.substring(0, 40)}${command.length > 40 ? '...' : ''}"` ``. */
  function CommandMessage(command: string): string {
    "AI Command: \"" + Truncate(command, 40) + "\""
  }

  /** `response.description || 'Changes applied!'`. */
  function SuccessMessage(response: AIResponse): string {
    if response.description != "" then response.description else "Changes applied!"
  }

  /** The event logged for a command under tracker counter value `serial`. */
  function CommandEvent(serial: nat, command: string, now: int): DeploymentEvent {
    DeploymentEvent(EventId(serial, now), EventType.Command, CommandMessage(command), now, Some(command))
  }

  /** The event the outcome adds to the log, if any, under counter value `serial`. */
  function OutcomeEvent(serial: nat, result: CallResult, now: int): Option<DeploymentEvent> {
    match result
    case Reply(_) => Some(DeploymentEvent(EventId(serial, now), EventType.Deployed, "Canvas updated successfully!", now, None))
    case NoReply => None
    case Failure(_) => Some(DeploymentEvent(EventId(serial, now), EventType.Error, "Failed to process AI command", now, None))
  }

  /** The log after the outcome, given the log and the tracker counter before it. */
  function OutcomeEvents(events: seq<DeploymentEvent>, counter: nat, result: CallResult, now: int): seq<DeploymentEvent> {
    match OutcomeEvent(counter + 1, result, now)
    case Some(e) => PrependCapped(e, events, MaxEvents)
    case None => events
  }

  /** The log after a command that got past the key check. */
  function LoggedEvents(events: seq<DeploymentEvent>, counter: nat, command: string, result: CallResult, now: int): seq<DeploymentEvent> {
    OutcomeEvents(PrependCapped(CommandEvent(counter + 1, command, now), events, MaxEvents), counter + 1, result, now)
  }

  /** The tracker status after a command that got past the key check. */
  function StatusAfterCall(result: CallResult): Status {
    match result
    case Reply(_) => Status.Deployed
    case NoReply => Status.Building
    case Failure(_) => Status.Error
  }

  /** The canvas after a command that got past the key check: only a reply is committed. */
  function CanvasAfterCall(c: Canvas, command: string, result: CallResult, now: int, historyId: string): Canvas {
    if result.Reply? then Committed(c, EditHistoryItem(historyId, command, now, result.response.html, result.response.css))
    else c
  }

  /** The toasts a command that got past the key check shows. */
  function CallToasts(result: CallResult, toastId: string): seq<Toast> {
    match result
    case Reply(r) => [Toast(toastId, SuccessMessage(r), ToastType.Success, 4000)]
    case NoReply => []
    case Failure(_) => [Toast(toastId, "Failed to process command", ToastType.Error, 4000)]
  }

  /** The status-reset timers the outcome's event schedules: one back to idle after a deployment
      or an error, none for no reply. */
  function OutcomeResetTimers(result: CallResult): seq<Status> {
    match result
    case Reply(_) => ResetTimerFor(EventType.Deployed)
    case NoReply => []
    case Failure(_) => ResetTimerFor(EventType.Error)
  }

  /** The command event is always logged; a reply or a failure then logs its own event on top of
      it, under the next counter value, while no reply leaves the command event newest. */
  lemma LoggedEventsOrder(events: seq<DeploymentEvent>, counter: nat, command: string, result: CallResult, now: int)
    ensures var l := LoggedEvents(events, counter, command, result, now);
      && 1 <= |l| <= MaxEvents
      && (result.NoReply? ==> l[0] == CommandEvent(counter + 1, command, now))
      && (!result.NoReply? ==>
            && 2 <= |l|
            && l[1] == CommandEvent(counter + 1, command, now)
            && l[0].kind == (if result.Reply? then EventType.Deployed else EventType.Error)
            && l[0].id == EventId(counter + 2, now))
      && l[|l| - Min(|events|, MaxEvents - 1 - (if result.NoReply? then 0 else 1))..]
         == events[..Min(|events|, MaxEvents - 1 - (if result.NoReply? then 0 else 1))]
  {
    var c := CommandEvent(counter + 1, command, now);
    var first := PrependCapped(c, events, MaxEvents);
    var l := LoggedEvents(events, counter, command, result, now);
    if result.NoReply? {
      assert l == [c] + events[..Min(|events|, MaxEvents - 1)];
    } else {
      var e := OutcomeEvent(counter + 2, result, now).value;
      PrependTwice(c, e, events, MaxEvents);
      assert l == [e, c] + events[..Min(|events|, MaxEvents - 2)];
    }
  }

  /** Only a reply changes the canvas, and then it shows exactly the reply. */
  lemma CanvasAfterCallProperties(c: Canvas, command: string, result: CallResult, now: int, historyId: string)
    requires |c.history| <= MaxHistory
    ensures var d := CanvasAfterCall(c, command, result, now, historyId);
      && |d.history| <= MaxHistory
      && (!result.Reply? ==> d == c)
      && (result.Reply? ==>
            && d.html == result.response.html && d.css == result.response.css
            && d.history[0] == EditHistoryItem(historyId, command, now, result.response.html, result.response.css)
            && d.history[1..] == c.history[..Min(|c.history|, MaxHistory - 1)])
  {
  }

  class AIEditorService {
    var apiKey: Option<string>
    var apiProvider: string
    var isProcessing: bool
    var currentHTML: string
    var currentCSS: string
    var editHistory: seq<EditHistoryItem>
    const storage: LocalStorage
    const toasts: ToastService
    const tracker: DeploymentTrackerService

    ghost predicate Valid()
      reads this, tracker
    {
      |editHistory| <= MaxHistory && tracker.Valid()
    }

    /** The canvas part of the state. */
    function CanvasState(): Canvas
      reads this
    {
      Canvas(currentHTML, currentCSS, editHistory)
    }

    /** The constructor restores a saved key and provider when they are non-empty strings. */
    constructor (storage: LocalStorage, toasts: ToastService, tracker: DeploymentTrackerService)
      requires tracker.Valid()
      ensures Valid()
      ensures this.storage == storage && this.toasts == toasts && this.tracker == tracker
      ensures apiKey == if Truthy(storage.GetItem(ApiKeyStorageKey)) then storage.GetItem(ApiKeyStorageKey) else None
      ensures apiProvider == if Truthy(storage.GetItem(ProviderStorageKey)) then storage.GetItem(ProviderStorageKey).value else "openai"
      ensures !isProcessing && CanvasState() == Canvas(DefaultHtml, DefaultCss, [])
    {
      this.storage, this.toasts, this.tracker := storage, toasts, tracker;
      isProcessing := false;
      currentHTML, currentCSS, editHistory := DefaultHtml, DefaultCss, [];
      var savedKey := storage.GetItem(ApiKeyStorageKey);
      var savedProvider := storage.GetItem(ProviderStorageKey);
      apiKey := if Truthy(savedKey) then savedKey else None;
      apiProvider := if Truthy(savedProvider) then savedProvider.value else "openai";
    }

    /** `hasApiKey()`: a key is set and it is not the empty string. */
    function HasApiKey(): (r: bool)
      reads this
      ensures r <==> apiKey.Some? && apiKey.value != ""
      ensures r ==> Truthy(apiKey)
    {
      Truthy(apiKey)
    }

    function GetProvider(): string
      reads this
    {
      apiProvider
    }

    /** `setApiKey(key, provider = 'openai')`: stores the key (even an empty one) and the provider,
        persists both and announces it. */
    method SetApiKey(key: string, toastId: string, provider: string := "openai")
      requires Valid()
      modifies this, storage, toasts
      ensures Valid()
      ensures apiKey == Some(key) && apiProvider == provider
      ensures HasApiKey() <==> key != ""
      ensures storage.items == old(storage.items)[ApiKeyStorageKey := key][ProviderStorageKey := provider]
      ensures toasts.toasts == old(toasts.toasts) + [Toast(toastId, "API key saved!", ToastType.Success, 4000)]
      ensures CanvasState() == old(CanvasState()) && isProcessing == old(isProcessing)
    {
      apiKey := Some(key);
      apiProvider := provider;
      storage.SetItem(ApiKeyStorageKey, key);
      storage.SetItem(ProviderStorageKey, provider);
      var _ := toasts.Show(toastId, "API key saved!", ToastType.Success);
    }

    /** `processCommand(command)`. Without a key it only complains. Otherwise it marks itself busy,
        logs a command event, asks the provider, commits a reply, logs the outcome, and is no longer
        busy on return. */
    method ProcessCommand(command: string, outcome: HttpOutcome, parse: string -> ParseOutcome,
                          now: int, historyId: string, toastId: string)
      returns (ok: bool)
      requires Valid()
      modifies this, toasts, tracker
      ensures Valid()
      ensures apiKey == old(apiKey) && apiProvider == old(apiProvider)
      // No key: false, and nothing changes but one error toast.
      ensures !old(HasApiKey()) ==>
                && !ok
                && isProcessing == old(isProcessing)
                && CanvasState() == old(CanvasState())
                && unchanged(tracker)
                && toasts.toasts == old(toasts.toasts) + [Toast(toastId, "Please set your API key first", ToastType.Error, 4000)]
                && toasts.timers == old(toasts.timers) + [DismissTimer(toastId, 4000)]
      // Past the key check: never left busy, true exactly for a reply, the log gets the command
      // event and then the outcome's event, and the canvas commits exactly a reply.
      ensures var result := CallAI(old(apiProvider), outcome, parse);
              old(HasApiKey()) ==>
                && !isProcessing
                && (ok <==> result.Reply?)
                && tracker.events == LoggedEvents(old(tracker.events), old(tracker.eventIdCounter), command, result, now)
                && tracker.currentStatus == StatusAfterCall(result)
                && tracker.commandCount == old(tracker.commandCount) + 1
                && tracker.lastCommand == CommandLabel(Some(command), CommandMessage(command))
                && tracker.deployCount == old(tracker.deployCount) + (if result.Reply? then 1 else 0)
                && tracker.eventIdCounter == old(tracker.eventIdCounter) + (if result.NoReply? then 1 else 2)
                && tracker.resetTimers == old(tracker.resetTimers) + OutcomeResetTimers(result)
                && CanvasState() == CanvasAfterCall(old(CanvasState()), command, result, now, historyId)
                && toasts.toasts == old(toasts.toasts) + CallToasts(result, toastId)
                && toasts.timers == old(toasts.timers) + (if result.NoReply? then [] else [DismissTimer(toastId, 4000)])
    {
      if !HasApiKey() {
        var _ := toasts.Show(toastId, "Please set your API key first", ToastType.Error);
        return false;
      }

      ok := Run(command, CallAI(apiProvider, outcome, parse), now, historyId, toastId);
    }

    /** `processCommand` past the key check, with the provider's answer already known. */
    method Run(command: string, result: CallResult, now: int, historyId: string, toastId: string)
      returns (ok: bool)
      requires Valid()
      modifies this, toasts, tracker
      ensures Valid()
      ensures apiKey == old(apiKey) && apiProvider == old(apiProvider)
      ensures !isProcessing
      ensures ok <==> result.Reply?
      ensures tracker.events == LoggedEvents(old(tracker.events), old(tracker.eventIdCounter), command, result, now)
      ensures tracker.currentStatus == StatusAfterCall(result)
      ensures tracker.commandCount == old(tracker.commandCount) + 1
      ensures tracker.lastCommand == CommandLabel(Some(command), CommandMessage(command))
      ensures tracker.deployCount == old(tracker.deployCount) + (if result.Reply? then 1 else 0)
      ensures tracker.eventIdCounter == old(tracker.eventIdCounter) + (if result.NoReply? then 1 else 2)
      ensures tracker.resetTimers == old(tracker.resetTimers) + OutcomeResetTimers(result)
      ensures CanvasState() == CanvasAfterCall(old(CanvasState()), command, result, now, historyId)
      ensures toasts.toasts == old(toasts.toasts) + CallToasts(result, toastId)
      ensures toasts.timers == old(toasts.timers) + (if result.NoReply? then [] else [DismissTimer(toastId, 4000)])
    {
      isProcessing := true;
      ok := LogAndConclude(command, result, now, historyId, toastId);
      isProcessing := false;
    }

    /** The `try` block: log the command event, then conclude with the provider's answer. */
    method LogAndConclude(command: string, result: CallResult, now: int, historyId: string, toastId: string)
      returns (ok: bool)
      requires Valid()
      modifies this, toasts, tracker
      ensures Valid()
      ensures apiKey == old(apiKey) && apiProvider == old(apiProvider) && isProcessing == old(isProcessing)
      ensures ok <==> result.Reply?
      ensures tracker.events == LoggedEvents(old(tracker.events), old(tracker.eventIdCounter), command, result, now)
      ensures tracker.currentStatus == StatusAfterCall(result)
      ensures tracker.commandCount == old(tracker.commandCount) + 1
      ensures tracker.lastCommand == CommandLabel(Some(command), CommandMessage(command))
      ensures tracker.deployCount == old(tracker.deployCount) + (if result.Reply? then 1 else 0)
      ensures tracker.eventIdCounter == old(tracker.eventIdCounter) + (if result.NoReply? then 1 else 2)
      ensures tracker.resetTimers == old(tracker.resetTimers) + OutcomeResetTimers(result)
      ensures CanvasState() == CanvasAfterCall(old(CanvasState()), command, result, now, historyId)
      ensures toasts.toasts == old(toasts.toasts) + CallToasts(result, toastId)
      ensures toasts.timers == old(toasts.timers) + (if result.NoReply? then [] else [DismissTimer(toastId, 4000)])
    {
      tracker.AddEvent(EventType.Command, CommandMessage(command), Some(command), now);
      assert tracker.resetTimers == old(tracker.resetTimers);
      ok := Conclude(result, command, now, historyId, toastId);
    }

    /** The `try` block's outcome after the command event: commit and celebrate a reply, log and
        report a failure, do nothing for no reply. */
    method Conclude(result: CallResult, command: string, now: int, historyId: string, toastId: string)
      returns (ok: bool)
      requires Valid()
      modifies this, toasts, tracker
      ensures Valid()
      ensures apiKey == old(apiKey) && apiProvider == old(apiProvider) && isProcessing == old(isProcessing)
      ensures ok <==> result.Reply?
      ensures tracker.events == OutcomeEvents(old(tracker.events), old(tracker.eventIdCounter), result, now)
      ensures tracker.currentStatus == (if result.NoReply? then old(tracker.currentStatus) else StatusAfterCall(result))
      ensures tracker.commandCount == old(tracker.commandCount) && tracker.lastCommand == old(tracker.lastCommand)
      ensures tracker.deployCount == old(tracker.deployCount) + (if result.Reply? then 1 else 0)
      ensures tracker.eventIdCounter == old(tracker.eventIdCounter) + (if result.NoReply? then 0 else 1)
      ensures tracker.resetTimers == old(tracker.resetTimers) + OutcomeResetTimers(result)
      ensures CanvasState() == CanvasAfterCall(old(CanvasState()), command, result, now, historyId)
      ensures toasts.toasts == old(toasts.toasts) + CallToasts(result, toastId)
      ensures toasts.timers == old(toasts.timers) + (if result.NoReply? then [] else [DismissTimer(toastId, 4000)])
    {
      ok := false;
      match result {
        case Reply(response) =>
          var item := EditHistoryItem(historyId, command, now, response.html, response.css);
          currentHTML, currentCSS := response.html, response.css;
          editHistory := PrependCapped(item, editHistory, MaxHistory);
          tracker.AddEvent(EventType.Deployed, "Canvas updated successfully!", None, now);
          var _ := toasts.Show(toastId, SuccessMessage(response), ToastType.Success);
          ok := true;
        case NoReply =>
        case Failure(_) =>
          tracker.AddEvent(EventType.Error, "Failed to process AI command", None, now);
          var _ := toasts.Show(toastId, "Failed to process command", ToastType.Error);
      }
    }

    /** `clearCanvas()`: default HTML and CSS; the history, key and provider stay. */
    method ClearCanvas(toastId: string)
      requires Valid()
      modifies this, toasts
      ensures Valid()
      ensures CanvasState() == Cleared(old(CanvasState()))
      ensures apiKey == old(apiKey) && apiProvider == old(apiProvider) && isProcessing == old(isProcessing)
      ensures toasts.toasts == old(toasts.toasts) + [Toast(toastId, "Canvas cleared!", ToastType.Info, 4000)]
    {
      currentHTML := DefaultHtml;
      currentCSS := DefaultCss;
      var _ := toasts.Show(toastId, "Canvas cleared!", ToastType.Info);
    }

    /** `resetToDefault()`: clears the canvas and the history. */
    method ResetToDefault(clearToastId: string, resetToastId: string)
      requires Valid()
      modifies this, toasts
      ensures Valid()
      ensures CanvasState() == Reset(old(CanvasState()))
      ensures apiKey == old(apiKey) && apiProvider == old(apiProvider) && isProcessing == old(isProcessing)
      ensures toasts.toasts == old(toasts.toasts) + [Toast(clearToastId, "Canvas cleared!", ToastType.Info, 4000),
                                                     Toast(resetToastId, "Reset to default!", ToastType.Info, 4000)]
    {
      ClearCanvas(clearToastId);
      editHistory := [];
      var _ := toasts.Show(resetToastId, "Reset to default!", ToastType.Info);
    }
  }

  /** `getDefaultHTML()`. */
  const DefaultHtml: string := @"<div class=""welcome-container"">
  <div class=""welcome-icon"">🎨</div>
  <h1 class=""welcome-title"">AI-Powered Canvas</h1>
  <p class=""welcome-subtitle"">Type a command to transform this space</p>
  <div class=""welcome-examples"">
    <div class=""example-chip"">Try: ""Create a weather widget""</div>
    <div class=""example-chip"">Try: ""Add a colorful gradient background""</div>
    <div class=""example-chip"">Try: ""Build a todo list""</div>
  </div>
</div>"

  /** `getDefaultCSS()`. */
  const DefaultCss: string := @".welcome-container {
  display: flex;
  flex-direction: column;
  align-items: center;
  justify-content: center;
  min-height: 400px;
  text-align: center;
  padding: 2rem;
}

.welcome-icon {
  font-size: 4rem;
  margin-bottom: 1rem;
  animation: float 3s ease-in-out infinite;
}

@keyframes float {
  0%, 100% { transform: translateY(0); }
  50% { transform: translateY(-10px); }
}

.welcome-title {
  font-size: 2.5rem;
  font-weight: 700;
  color: var(--text-primary);
  margin: 0 0 0.5rem 0;
  background: linear-gradient(135deg, var(--accent-cyan), var(--accent-purple));
  -webkit-background-clip: text;
  -webkit-text-fill-color: transparent;
  background-clip: text;
}

.welcome-subtitle {
  font-size: 1.1rem;
  color: var(--text-secondary);
  margin: 0 0 2rem 0;
}

.welcome-examples {
  display: flex;
  flex-wrap: wrap;
  gap: 0.75rem;
  justify-content: center;
}

.example-chip {
  padding: 0.5rem 1rem;
  background: var(--bg-tertiary);
  border: 1px solid var(--border-light);
  border-radius: 20px;
  font-size: 0.85rem;
  color: var(--text-secondary);
  transition: all 0.2s ease;
}

.example-chip:hover {
  border-color: var(--accent-purple);
  color: var(--text-primary);
  transform: translateY(-2px);
}"
}
