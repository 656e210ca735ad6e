/** The shared canvas (src/app/services/shared-canvas.service.ts): one row of a Supabase table that
    every user's commands evolve, kept in sync over a realtime channel.

    The Supabase project is a `CanvasTable` object holding the single row (id 1). What the network
    may do differently (a client that cannot be created, a query or a write that fails) comes in as
    parameters, and so do `new Date()` (as milliseconds and as its ISO text) and the toast ids. The
    `onStateUpdate` callback is an observer flag plus the log of the rows handed to it. */
module SharedCanvas {
  import opened Wrappers
  import opened Seqs
  import opened Strings
  import opened Storage
  import opened Toasts

  /** `SharedCanvasState`: the shared row. */
  datatype Row = Row(
    html: string,
    css: string,
    js: string,
    version: int,
    commandHistory: seq<string>,
    lastCommand: string,
    lastUpdated: string,
    contributorCount: int)

  /** The `Partial<SharedCanvasState>` a caller saves: the new HTML and CSS and, maybe, a script. */
  datatype CanvasContent = CanvasContent(html: string, css: string, js: Option<string>)

  const UrlStorageKey := "supabase-url"
  const AnonKeyStorageKey := "supabase-anon-key"

  /** The most commands the shared history keeps. */
  const MaxCommandHistory: nat := 100

  /** The row `initializeCanvasRow` inserts when the table has none. */
  function InitialRow(nowIso: string): (r: Row)
    ensures r.version == 0 && r.commandHistory == [] && r.contributorCount == 0
    ensures r.js == "" && r.lastCommand == "" && r.lastUpdated == nowIso
  {
    Row(SharedDefaultHtml, SharedDefaultCss, "", 0, [], "", nowIso, 0)
  }

  /** `updateData`: the row `saveState` writes, computed from the row it fetched (if any). */
  function UpdatedRow(current: Option<Row>, state: CanvasContent, command: string, nowIso: string): (r: Row)
    ensures r.lastCommand == command && r.lastUpdated == nowIso
    ensures current.None? ==> r.version == 1 && r.contributorCount == 1 && r.commandHistory == [command]
  {
    var history := if current.Some? then current.value.commandHistory else [];
    var version := if current.Some? then current.value.version else 0;
    var contributors := if current.Some? then current.value.contributorCount else 0;
    Row(state.html, state.css, if state.js.Some? then state.js.value else "",
        version + 1, KeepLast(history + [command], MaxCommandHistory), command, nowIso, contributors + 1)
  }

  /** What a commit writes: the caller's HTML and CSS, a script defaulting to '', the fetched version
      and contributor count plus one (zero when nothing was fetched), and the fetched history with the
      command appended, cut to its newest 100 entries. */
  lemma UpdatedRowProperties(current: Option<Row>, state: CanvasContent, command: string, nowIso: string)
    ensures var r := UpdatedRow(current, state, command, nowIso);
      && r.html == state.html && r.css == state.css
      && r.js == (if state.js.Some? then state.js.value else "")
      && r.lastCommand == command && r.lastUpdated == nowIso
      && r.version == (if current.Some? then current.value.version else 0) + 1
      && r.contributorCount == (if current.Some? then current.value.contributorCount else 0) + 1
      && 1 <= |r.commandHistory| <= MaxCommandHistory
      && r.commandHistory[|r.commandHistory| - 1] == command
  {
  }

  /** The new history is the old one with the command appended, less only its oldest entries, and it
      loses old entries only once it would exceed 100. */
  lemma UpdatedHistory(current: Row, state: CanvasContent, command: string, nowIso: string)
    ensures var h, before := UpdatedRow(Some(current), state, command, nowIso).commandHistory, current.commandHistory;
      && |h| == Min(|before| + 1, MaxCommandHistory)
      && h == (before + [command])[|before| + 1 - |h|..]
      && (|before| < MaxCommandHistory ==> h == before + [command])
  {
  }

  /** Nothing fetched (no row, or a failed read) counts as an empty row at version 0. */
  lemma UpdatedFromNothing(state: CanvasContent, command: string, nowIso: string)
    ensures var r := UpdatedRow(None, state, command, nowIso);
      r.version == 1 && r.contributorCount == 1 && r.commandHistory == [command]
  {
  }

  /** Two commits computed from the same fetched row leave version and contributor count one above
      it, and the later write's history lacks the earlier command: the earlier update is lost. Run
      one after the other, the second sees the first and the counts rise by two. */
  lemma LostUpdate(r: Row, s1: CanvasContent, c1: string, s2: CanvasContent, c2: string, t1: string, t2: string)
    requires |r.commandHistory| < MaxCommandHistory - 1
    requires c1 !in r.commandHistory && c1 != c2
    ensures var racing := UpdatedRow(Some(r), s2, c2, t2);
      && racing.version == r.version + 1
      && racing.contributorCount == r.contributorCount + 1
      && c1 !in racing.commandHistory
    ensures var sequential := UpdatedRow(Some(UpdatedRow(Some(r), s1, c1, t1)), s2, c2, t2);
      && sequential.version == r.version + 2
      && sequential.contributorCount == r.contributorCount + 2
      && sequential.commandHistory == r.commandHistory + [c1, c2]
  {
    var racing := UpdatedRow(Some(r), s2, c2, t2);
    UpdatedHistory(r, s2, c2, t2);
    assert racing.commandHistory == r.commandHistory + [c2];
    var first := UpdatedRow(Some(r), s1, c1, t1);
    UpdatedHistory(r, s1, c1, t1);
    assert first.commandHistory == r.commandHistory + [c1];
    assert first.version == r.version + 1 && first.contributorCount == r.contributorCount + 1;
    var sequential := UpdatedRow(Some(first), s2, c2, t2);
    UpdatedHistory(first, s2, c2, t2);
    assert sequential.commandHistory == first.commandHistory + [c2];
    AppendTwo(r.commandHistory, c1, c2);
  }

  /** The Supabase table `canvas_state` with its single row. */
  class CanvasTable {
    var row: Option<Row>

    constructor (row: Option<Row>)
      ensures this.row == row
    {
      this.row := row;
    }

    /** An insert of row 1 succeeds only when there is none. */
    method Insert(r: Row)
      modifies this
      ensures row == if old(row).None? then Some(r) else old(row)
    {
      if row.None? {
        row := Some(r);
      }
    }

    /** An update of row 1 matches nothing when there is none. */
    method Update(r: Row)
      modifies this
      ensures row == if old(row).Some? then Some(r) else old(row)
    {
      if row.Some? {
        row := Some(r);
      }
    }
  }

  class SharedCanvasService {
    var supabase: CanvasTable?
    /** Whether the realtime channel is subscribed. */
    var channelOpen: bool
    var isConnected: bool
    var isLoading: bool
    var connectionError: Option<string>
    var lastSyncTime: Option<int>
    var contributorCount: int
    /** Whether an `onStateUpdate` callback is installed, and the rows handed to it so far. */
    var onStateUpdate: bool
    var delivered: seq<Row>
    const storage: LocalStorage
    const toasts: ToastService

    /** Connected means a client and a subscribed channel, and no call is ever left loading. */
    ghost predicate Valid()
      reads this
    {
      && (isConnected ==> supabase != null && channelOpen)
      && !isLoading
    }

    /** `hasCredentials()`: both credentials are stored and non-empty. */
    function HasCredentials(): (r: bool)
      reads this, storage
      ensures r <==> Truthy(storage.GetItem(UrlStorageKey)) && Truthy(storage.GetItem(AnonKeyStorageKey))
    {
      Truthy(storage.GetItem(UrlStorageKey)) && Truthy(storage.GetItem(AnonKeyStorageKey))
    }

    /** The constructor starts disconnected and tries the stored credentials at once. */
    constructor (storage: LocalStorage, toasts: ToastService, backend: CanvasTable,
                 clientError: Option<string>, selectError: Option<string>, insertFails: bool,
                 now: int, nowIso: string)
      modifies storage, toasts, backend
      ensures Valid()
      ensures this.storage == storage && this.toasts == toasts
      ensures !(Truthy(old(storage.GetItem(UrlStorageKey))) && Truthy(old(storage.GetItem(AnonKeyStorageKey)))) ==>
                !isConnected && supabase == null && unchanged(backend) && unchanged(storage)
      // With stored credentials it connects silently, or records why it could not.
      ensures Truthy(old(storage.GetItem(UrlStorageKey))) && Truthy(old(storage.GetItem(AnonKeyStorageKey))) ==>
                && (isConnected <==> clientError.None? && selectError.None?)
                && storage.items == old(storage.items)
                && (isConnected ==> supabase == backend && lastSyncTime == Some(now) && connectionError.None?)
                && (isConnected ==> backend.row == (if old(backend.row).None? && !insertFails then Some(InitialRow(nowIso)) else old(backend.row)))
                && (!isConnected ==> backend.row == old(backend.row))
                && (!isConnected ==> connectionError == Some(OrElse(FailureText(clientError, selectError), "Failed to connect")))
      ensures toasts.toasts == old(toasts.toasts)
    {
      this.storage, this.toasts := storage, toasts;
      supabase, channelOpen, isConnected, isLoading := null, false, false, false;
      connectionError, lastSyncTime, contributorCount := None, None, 0;
      onStateUpdate, delivered := false, [];
      new;
      TryAutoConnect(backend, clientError, selectError, insertFails, now, nowIso);
    }

    /** `tryAutoConnect()`: a silent `connect` with the stored credentials, when both are there. */
    method TryAutoConnect(backend: CanvasTable, clientError: Option<string>, selectError: Option<string>,
                          insertFails: bool, now: int, nowIso: string)
      requires Valid()
      modifies this, storage, toasts, backend
      ensures Valid()
      ensures toasts.toasts == old(toasts.toasts)
      ensures !old(HasCredentials()) ==>
                && unchanged(this) && unchanged(storage) && unchanged(backend)
      ensures old(HasCredentials()) ==> (isConnected <==> clientError.None? && selectError.None?)
      // The stored credentials are stored again, so storage ends as it was.
      ensures old(HasCredentials()) ==> storage.items == old(storage.items)
      ensures old(HasCredentials()) && isConnected ==>
                && supabase == backend && lastSyncTime == Some(now) && connectionError.None?
                && backend.row == (if old(backend.row).None? && !insertFails then Some(InitialRow(nowIso)) else old(backend.row))
      ensures old(HasCredentials()) && !isConnected ==>
                && backend.row == old(backend.row)
                && connectionError == Some(OrElse(FailureText(clientError, selectError), "Failed to connect"))
    {
      var url, key := storage.GetItem(UrlStorageKey), storage.GetItem(AnonKeyStorageKey);
      if Truthy(url) && Truthy(key) {
        var _ := Connect(url.value, key.value, backend, clientError, selectError, insertFails, now, nowIso, "", true);
      }
    }

    /** Assigning the public `onStateUpdate` field: installing (a callback) or removing (`null`) the
        observer the rows from the cloud go to. */
    method SetStateObserver(installed: bool)
      modifies this
      ensures onStateUpdate == installed
      ensures supabase == old(supabase) && channelOpen == old(channelOpen) && isConnected == old(isConnected)
      ensures isLoading == old(isLoading) && connectionError == old(connectionError)
      ensures lastSyncTime == old(lastSyncTime) && contributorCount == old(contributorCount)
      ensures delivered == old(delivered)
    {
      onStateUpdate := installed;
    }

    /** `connect(url, anonKey, silent)`: create a client for `backend`, read the row (creating it when
        missing), store the credentials, subscribe and report; any failure is caught and reported. */
    method Connect(url: string, anonKey: string, backend: CanvasTable,
                   clientError: Option<string>, selectError: Option<string>, insertFails: bool,
                   now: int, nowIso: string, toastId: string, silent: bool := false)
      returns (ok: bool)
      requires Valid()
      modifies this, storage, toasts, backend
      ensures Valid()
      ensures !isLoading && onStateUpdate == old(onStateUpdate)
      ensures ok <==> clientError.None? && selectError.None?
      // Success: connected through `backend`, credentials stored, no error.
      ensures ok ==>
                && isConnected && supabase == backend && channelOpen && connectionError.None?
                && lastSyncTime == Some(now)
                && storage.items == old(storage.items)[UrlStorageKey := url][AnonKeyStorageKey := anonKey]
                && backend.row == (if old(backend.row).None? && !insertFails then Some(InitialRow(nowIso)) else old(backend.row))
                && toasts.toasts == old(toasts.toasts) + (if silent then [] else [Toast(toastId, "Connected to shared canvas! 🌐", ToastType.Success, 4000)])
                && delivered == old(delivered) + (if onStateUpdate then OptionToSeq(old(backend.row)) else [])
                && contributorCount == (if onStateUpdate && old(backend.row).Some? then old(backend.row).value.contributorCount else old(contributorCount))
      // Failure: disconnected with the error recorded; credentials, channel and row are not touched.
      ensures !ok ==>
                && !isConnected
                && connectionError == Some(OrElse(FailureText(clientError, selectError), "Failed to connect"))
                && storage.items == old(storage.items)
                && channelOpen == old(channelOpen)
                && backend.row == old(backend.row)
                && supabase == (if clientError.Some? then old(supabase) else backend)
                && delivered == old(delivered) && contributorCount == old(contributorCount)
                && lastSyncTime == old(lastSyncTime)
                && toasts.toasts == old(toasts.toasts) + ConnectFailureToasts(FailureText(clientError, selectError), toastId, silent)
    {
      isLoading := true;
      connectionError := None;
      if clientError.Some? {
        ReportConnectFailure(clientError.value, toastId, silent);
        return false;
      }
      supabase := backend;
      if selectError.Some? {
        ReportConnectFailure(selectError.value, toastId, silent);
        return false;
      }
      Establish(url, anonKey, insertFails, now, nowIso, toastId, silent);
      return true;
    }

    /** The `catch` block of `connect`. */
    method ReportConnectFailure(message: string, toastId: string, silent: bool)
      modifies this, toasts
      ensures Valid()
      ensures !isConnected && connectionError == Some(OrElse(message, "Failed to connect"))
      ensures supabase == old(supabase) && channelOpen == old(channelOpen) && onStateUpdate == old(onStateUpdate)
      ensures delivered == old(delivered) && contributorCount == old(contributorCount)
      ensures lastSyncTime == old(lastSyncTime)
      ensures toasts.toasts == old(toasts.toasts) + ConnectFailureToasts(message, toastId, silent)
    {
      connectionError := Some(OrElse(message, "Failed to connect"));
      isConnected := false;
      if !silent {
        var _ := toasts.Show(toastId, "Failed to connect: " + OrElse(message, "Unknown error"), ToastType.Error);
      }
      isLoading := false;
    }

    /** The successful rest of `connect` once the row could be read. */
    method Establish(url: string, anonKey: string, insertFails: bool, now: int, nowIso: string,
                     toastId: string, silent: bool)
      requires supabase != null && connectionError.None?
      modifies this, storage, toasts, supabase
      ensures Valid()
      ensures isConnected && supabase == old(supabase) && channelOpen && connectionError.None?
      ensures lastSyncTime == Some(now) && onStateUpdate == old(onStateUpdate)
      ensures storage.items == old(storage.items)[UrlStorageKey := url][AnonKeyStorageKey := anonKey]
      ensures supabase.row == (if old(supabase.row).None? && !insertFails then Some(InitialRow(nowIso)) else old(supabase.row))
      ensures toasts.toasts == old(toasts.toasts) + (if silent then [] else [Toast(toastId, "Connected to shared canvas! 🌐", ToastType.Success, 4000)])
      ensures delivered == old(delivered) + (if onStateUpdate then OptionToSeq(old(supabase.row)) else [])
      ensures contributorCount == (if onStateUpdate && old(supabase.row).Some? then old(supabase.row).value.contributorCount else old(contributorCount))
    {
      var data := supabase.row;
      if data.None? && !insertFails {
        supabase.Insert(InitialRow(nowIso));
      }
      storage.SetItem(UrlStorageKey, url);
      storage.SetItem(AnonKeyStorageKey, anonKey);
      channelOpen := true;
      isConnected := true;
      lastSyncTime := Some(now);
      if !silent {
        var _ := toasts.Show(toastId, "Connected to shared canvas! 🌐", ToastType.Success);
      }
      if data.Some? && onStateUpdate {
        delivered := delivered + [data.value];
        contributorCount := data.value.contributorCount;
      }
      isLoading := false;
    }

    /** A realtime UPDATE of the row arrives on the channel (there is no callback while it is closed):
        the sync time moves, and an installed observer gets the new row with an announcement. */
    method OnRealtimeUpdate(payload: Option<Row>, now: int, toastId: string)
      requires Valid()
      modifies this, toasts
      ensures Valid()
      ensures supabase == old(supabase) && channelOpen == old(channelOpen) && isConnected == old(isConnected)
      ensures connectionError == old(connectionError) && onStateUpdate == old(onStateUpdate)
      ensures lastSyncTime == if channelOpen then Some(now) else old(lastSyncTime)
      ensures channelOpen && payload.Some? && onStateUpdate ==>
                && delivered == old(delivered) + [payload.value]
                && contributorCount == payload.value.contributorCount
                && toasts.toasts == old(toasts.toasts) + [Toast(toastId, EvolvedMessage(payload.value), ToastType.Info, 4000)]
      ensures !(channelOpen && payload.Some? && onStateUpdate) ==>
                delivered == old(delivered) && contributorCount == old(contributorCount) && toasts.toasts == old(toasts.toasts)
    {
      if !channelOpen {
        return;
      }
      lastSyncTime := Some(now);
      if payload.Some? && onStateUpdate {
        delivered := delivered + [payload.value];
        contributorCount := payload.value.contributorCount;
        var _ := toasts.Show(toastId, EvolvedMessage(payload.value), ToastType.Info);
      }
    }

    /** `fetchLatestState()`: the row, when connected and the query succeeds (a missing row is a
        query error too); `null` otherwise. */
    method FetchLatestState(now: int, queryFails: bool) returns (r: Option<Row>)
      requires Valid()
      modifies this
      ensures Valid()
      ensures r == if supabase != null && isConnected && !queryFails then supabase.row else None
      ensures supabase == old(supabase) && channelOpen == old(channelOpen) && isConnected == old(isConnected)
      ensures connectionError == old(connectionError) && onStateUpdate == old(onStateUpdate)
      ensures delivered == old(delivered)
      ensures lastSyncTime == if r.Some? then Some(now) else old(lastSyncTime)
      ensures contributorCount == if r.Some? then r.value.contributorCount else old(contributorCount)
    {
      if supabase == null || !isConnected || queryFails || supabase.row.None? {
        return None;
      }
      r := supabase.row;
      lastSyncTime := Some(now);
      contributorCount := r.value.contributorCount;
    }

    /** `saveState(state, command)`: fetch the row, compute the new one from it and write it back
        without checking that the row is still the one that was read. */
    method SaveState(state: CanvasContent, command: string, now: int, nowIso: string,
                     readFails: bool, writeFails: bool, toastId: string)
      returns (ok: bool)
      requires Valid()
      modifies this, toasts, supabase
      ensures Valid()
      ensures supabase == old(supabase) && channelOpen == old(channelOpen) && isConnected == old(isConnected)
      ensures connectionError == old(connectionError) && onStateUpdate == old(onStateUpdate)
      ensures delivered == old(delivered)
      // Not connected: false, no read and no write.
      ensures !old(isConnected) ==> !ok && unchanged(this) && unchanged(toasts) && (old(supabase) != null ==> unchanged(old(supabase)))
      // Connected: the row written is computed from what was read (nothing, if the read failed).
      ensures old(isConnected) ==>
                var fetched := if readFails then None else old(supabase.row);
                var written := UpdatedRow(fetched, state, command, nowIso);
                && (ok <==> !writeFails)
                && supabase.row == (if ok && old(supabase.row).Some? then Some(written) else old(supabase.row))
                && (ok ==> contributorCount == written.contributorCount && lastSyncTime == Some(now))
                // A failed write keeps what the successful read already recorded.
                && (!ok ==> lastSyncTime == (if fetched.Some? then Some(now) else old(lastSyncTime)))
                && (!ok ==> contributorCount == (if fetched.Some? then fetched.value.contributorCount else old(contributorCount)))
                && (ok ==> toasts.toasts == old(toasts.toasts))
                && (!ok ==> toasts.toasts == old(toasts.toasts) + [Toast(toastId, "Failed to sync to cloud", ToastType.Error, 4000)])
    {
      if supabase == null || !isConnected {
        return false;
      }
      var current := FetchLatestState(now, readFails);
      var written := UpdatedRow(current, state, command, nowIso);
      if writeFails {
        var _ := toasts.Show(toastId, "Failed to sync to cloud", ToastType.Error);
        return false;
      }
      supabase.Update(written);
      lastSyncTime := Some(now);
      contributorCount := written.contributorCount;
      return true;
    }

    /** `disconnect()`: unsubscribe, forget the credentials and the client, and say so. */
    method Disconnect(toastId: string)
      requires Valid()
      modifies this, storage, toasts
      ensures Valid()
      ensures !channelOpen && supabase == null && !isConnected
      ensures !HasCredentials()
      ensures storage.items == old(storage.items) - {UrlStorageKey, AnonKeyStorageKey}
      ensures toasts.toasts == old(toasts.toasts) + [Toast(toastId, "Disconnected from shared canvas", ToastType.Info, 4000)]
      ensures connectionError == old(connectionError) && lastSyncTime == old(lastSyncTime)
      ensures contributorCount == old(contributorCount) && onStateUpdate == old(onStateUpdate)
      ensures delivered == old(delivered)
    {
      channelOpen := false;
      storage.RemoveItem(UrlStorageKey);
      storage.RemoveItem(AnonKeyStorageKey);
      supabase := null;
      isConnected := false;
      var _ := toasts.Show(toastId, "Disconnected from shared canvas", ToastType.Info);
    }
  }

  /** The error text a failed `connect` reports: the client's, else the query's. */
  function FailureText(clientError: Option<string>, selectError: Option<string>): string {
    if clientError.Some? then clientError.value else if selectError.Some? then selectError.value else ""
  }

  /** The toast a failed `connect` shows, unless silent. */
  function ConnectFailureToasts(message: string, toastId: string, silent: bool): seq<Toast> {
    if silent then [] else [Toast(toastId, "Failed to connect: " + OrElse(message, "Unknown error"), ToastType.Error, 4000)]
  }

  function OptionToSeq<T>(o: Option<T>): seq<T> {
    if o.Some? then [o.value] else []
  }

  /** `` `Canvas evolved: "${newState.last_command?.substring(0, 30)}..."` ``: the ellipsis is
      always there. */
  function EvolvedMessage(r: Row): string {
    "Canvas evolved: \"" + r.lastCommand[..Min(30, |r.lastCommand|)] + "...\""
  }

  /** `getDefaultHTML()` of the shared canvas. */
  const SharedDefaultHtml: string := @"<div class=""shared-landing"">
  <section class=""hero"">
    <div class=""hero-badge"">🌐 Shared Evolution</div>
    <h1>The Collective Canvas</h1>
    <p>This website is shared by everyone. Each command from any user evolves it.</p>
    <div class=""stats"">
      <div class=""stat""><span class=""value"">0</span><span class=""label"">Contributors</span></div>
      <div class=""stat""><span class=""value"">v0</span><span class=""label"">Version</span></div>
    </div>
  </section>
</div>"

  /** `getDefaultCSS()` of the shared canvas. */
  const SharedDefaultCss: string := @".shared-landing {
  min-height: 100%;
  display: flex;
  align-items: center;
  justify-content: center;
  padding: 2rem;
}

.hero {
  text-align: center;
  max-width: 600px;
}

.hero-badge {
  display: inline-block;
  padding: 0.5rem 1rem;
  background: linear-gradient(135deg, var(--accent-cyan), var(--accent-purple));
  color: white;
  border-radius: 50px;
  font-size: 0.85rem;
  font-weight: 600;
  margin-bottom: 1.5rem;
}

.hero h1 {
  font-size: 3rem;
  color: var(--text-primary);
  margin: 0 0 1rem 0;
  background: linear-gradient(135deg, var(--accent-purple), var(--accent-pink));
  -webkit-background-clip: text;
  -webkit-text-fill-color: transparent;
}

.hero p {
  font-size: 1.2rem;
  color: var(--text-secondary);
  margin: 0 0 2rem 0;
}

.stats {
  display: flex;
  justify-content: center;
  gap: 3rem;
}

.stat {
  display: flex;
  flex-direction: column;
}

.stat .value {
  font-size: 2rem;
  font-weight: 700;
  color: var(--accent-cyan);
}

.stat .label {
  font-size: 0.85rem;
  color: var(--text-muted);
}"
}
