/** The shared-canvas settings dialog (src/app/components/cloud-config-modal/cloud-config-modal.component.ts):
    connecting with the typed credentials, disconnecting, the copy-the-SQL notice and the "last sync"
    text. Times are milliseconds; the clipboard write is not modelled and the 2-second timer that
    hides the notice goes off through `CopiedTimerFired`. */
module CloudConfig {
  import opened Wrappers
  import opened Strings
  import opened Storage
  import opened Toasts
  import opened SharedCanvas

  /** `getLastSyncText()`: how long ago the last sync was, in whole seconds rounded down
      (`Math.floor`, which is Dafny's `/` for a positive divisor). */
  function LastSyncText(now: int, lastSync: Option<int>): (r: string)
    ensures r == "Never" <==> lastSync.None?
  {
    if lastSync.None? then "Never"
    else
      var seconds := (now - lastSync.value) / 1000;
      if seconds < 60 then "Just now"
      else if seconds < 3600 then NatToString(seconds / 60) + "m ago"
      else NatToString(seconds / 3600) + "h ago"
  }

  /** Rounding down twice is rounding down once: whole minutes of whole seconds. */
  lemma WholeUnits(d: nat)
    ensures (d / 1000) / 60 == d / 60000
    ensures (d / 1000) / 3600 == d / 3600000
    ensures d / 1000 < 60 <==> d < 60000
    ensures d / 1000 < 3600 <==> d < 3600000
  {
  }

  /** 'Never' exactly when there was no sync; 'Just now' for less than a minute, also for a sync time
      in the future; whole minutes, 1 to 59, for less than an hour; whole hours after that. */
  lemma {:induction false} LastSyncTextCases(now: int, lastSync: Option<int>)
    ensures LastSyncText(now, lastSync) == "Never" <==> lastSync.None?
    ensures lastSync.Some? ==>
              (LastSyncText(now, lastSync) == "Just now" <==> now - lastSync.value < 60000)
    ensures lastSync.Some? && 60000 <= now - lastSync.value < 3600000 ==>
              var minutes := (now - lastSync.value) / 60000;
              1 <= minutes <= 59 && LastSyncText(now, lastSync) == NatToString(minutes) + "m ago"
    ensures lastSync.Some? && now - lastSync.value >= 3600000 ==>
              var hours := (now - lastSync.value) / 3600000;
              hours >= 1 && LastSyncText(now, lastSync) == NatToString(hours) + "h ago"
  {
    if lastSync.Some? {
      var d := now - lastSync.value;
      if d < 0 {
        assert d / 1000 < 60;
      } else {
        WholeUnits(d);
        if d >= 60000 {
          assert !StartsWith(LastSyncText(now, lastSync), "J") by {
            var t := LastSyncText(now, lastSync);
            assert IsDigit(t[0]);
          }
        }
      }
    }
  }

  /** The text can be read back: its unit tells whether an hour has passed, and the number shown is
      the elapsed time in that unit. */
  lemma LastSyncTextReadsBack(now: int, last: int, n: nat)
    requires 60000 <= now - last
    ensures LastSyncText(now, Some(last)) == NatToString(n) + "m ago" ==>
              now - last < 3600000 && n == (now - last) / 60000
    ensures LastSyncText(now, Some(last)) == NatToString(n) + "h ago" ==>
              now - last >= 3600000 && n == (now - last) / 3600000
  {
    var d := now - last;
    WholeUnits(d);
    var q: nat := if d < 3600000 then d / 60000 else d / 3600000;
    var u := if d < 3600000 then "m ago" else "h ago";
    var t := LastSyncText(now, Some(last));
    assert t == NatToString(q) + u;
    if t == NatToString(n) + "m ago" {
      NumberAndUnit(n, q, "m ago", u);
    }
    if t == NatToString(n) + "h ago" {
      NumberAndUnit(n, q, "h ago", u);
    }
  }

  /** A number followed by a unit of fixed width determines both. */
  lemma NumberAndUnit(a: nat, b: nat, u: string, v: string)
    requires |u| == |v| && NatToString(a) + u == NatToString(b) + v
    ensures a == b && u == v
  {
    var x, y := NatToString(a), NatToString(b);
    assert |x| == |y|;
    assert x == (x + u)[..|x|] == (y + v)[..|y|] == y;
    assert u == (x + u)[|x|..] == (y + v)[|y|..] == v;
    NatToStringInjective(a, b);
  }

  class CloudConfigModal {
    var projectUrl: string
    var anonKey: string
    var copied: bool
    /** The number of 2-second timers that will reset `copied`, not yet gone off. */
    var copyTimers: nat
    const sharedCanvas: SharedCanvasService

    constructor (sharedCanvas: SharedCanvasService)
      ensures this.sharedCanvas == sharedCanvas
      ensures projectUrl == "" && anonKey == "" && !copied && copyTimers == 0
    {
      this.sharedCanvas := sharedCanvas;
      projectUrl, anonKey, copied, copyTimers := "", "", false, 0;
    }

    /** `connect()`: the service is asked to connect only when both fields are filled in; the dialog
        stays open either way. */
    method Connect(backend: CanvasTable, clientError: Option<string>, selectError: Option<string>,
                   insertFails: bool, now: int, nowIso: string, toastId: string)
      requires sharedCanvas.Valid()
      modifies sharedCanvas, sharedCanvas.storage, sharedCanvas.toasts, backend
      ensures sharedCanvas.Valid()
      ensures projectUrl == old(projectUrl) && anonKey == old(anonKey) && copied == old(copied)
      ensures !(projectUrl != "" && anonKey != "") ==>
                && unchanged(sharedCanvas) && unchanged(sharedCanvas.storage)
                && unchanged(sharedCanvas.toasts) && unchanged(backend)
      ensures projectUrl != "" && anonKey != "" ==>
                && (sharedCanvas.isConnected <==> clientError.None? && selectError.None?)
                && (sharedCanvas.isConnected ==>
                      sharedCanvas.storage.items ==
                        old(sharedCanvas.storage.items)[UrlStorageKey := projectUrl][AnonKeyStorageKey := anonKey])
                && (!sharedCanvas.isConnected ==>
                      sharedCanvas.storage.items == old(sharedCanvas.storage.items)
                      && sharedCanvas.connectionError.Some?)
    {
      if projectUrl != "" && anonKey != "" {
        var _ := sharedCanvas.Connect(projectUrl, anonKey, backend, clientError, selectError,
                                      insertFails, now, nowIso, toastId);
      }
    }

    /** `disconnect()` hands over to the service. */
    method Disconnect(toastId: string)
      requires sharedCanvas.Valid()
      modifies sharedCanvas, sharedCanvas.storage, sharedCanvas.toasts
      ensures sharedCanvas.Valid()
      ensures !sharedCanvas.isConnected && !sharedCanvas.HasCredentials()
      ensures sharedCanvas.storage.items == old(sharedCanvas.storage.items) - {UrlStorageKey, AnonKeyStorageKey}
    {
      sharedCanvas.Disconnect(toastId);
    }

    /** `copySQL()`: the notice shows and a timer to hide it starts. */
    method CopySql()
      modifies this
      ensures copied && copyTimers == old(copyTimers) + 1
      ensures projectUrl == old(projectUrl) && anonKey == old(anonKey)
    {
      copied := true;
      copyTimers := copyTimers + 1;
    }

    /** A 2-second timer goes off and hides the notice, even if a later copy started another. */
    method CopiedTimerFired()
      modifies this
      ensures old(copyTimers) > 0 ==> !copied && copyTimers == old(copyTimers) - 1
      ensures old(copyTimers) == 0 ==> copied == old(copied) && copyTimers == 0
      ensures projectUrl == old(projectUrl) && anonKey == old(anonKey)
    {
      if copyTimers > 0 {
        copied := false;
        copyTimers := copyTimers - 1;
      }
    }

    /** `getLastSyncText()` at time `now`. */
    function GetLastSyncText(now: int): (r: string)
      reads this, sharedCanvas
      ensures r == "Never" <==> sharedCanvas.lastSyncTime.None?
      ensures sharedCanvas.lastSyncTime.Some? ==>
                (r == "Just now" <==> now - sharedCanvas.lastSyncTime.value < 60000)
    {
      LastSyncTextCases(now, sharedCanvas.lastSyncTime);
      LastSyncText(now, sharedCanvas.lastSyncTime)
    }
  }
}
