/** The tracker panel (src/app/components/deployment-tracker/deployment-tracker.component.ts): the
    uptime clock, the status label and the last command as the template shows them. `Date.now()` is
    the `now` parameter (milliseconds); the one-second interval is `UptimeTick`. */
module TrackerView {
  import opened Wrappers
  import opened Seqs
  import opened Strings
  import opened DeploymentTracker

  /** JavaScript's `%` for a positive divisor: the remainder takes the sign of the dividend. */
  function JsRem(a: int, b: int): (r: int)
    requires b > 0
    ensures a >= 0 ==> 0 <= r < b && r == a % b
    ensures a < 0 ==> -b < r <= 0
  {
    if a >= 0 then a % b else -((-a) % b)
  }

  /** The quotient rounded toward zero, the quotient ECMAScript's `%` is defined from. */
  function TruncatedQuotient(a: int, b: int): int
    requires b > 0
  {
    if a >= 0 then a / b else -((-a) / b)
  }

  /** The value of JavaScript's remainder: the dividend less the divisor times the quotient rounded
      toward zero, and odd in the dividend. With the bounds of `JsRem` this leaves one value. */
  lemma {:induction false} JsRemValue(a: int, b: int)
    requires b > 0
    ensures a == b * TruncatedQuotient(a, b) + JsRem(a, b)
    ensures JsRem(-a, b) == -JsRem(a, b)
  {
    if a < 0 {
      var q := (-a) / b;
      assert -a == b * q + (-a) % b;
      assert b * (-q) == -(b * q);
    }
  }

  /** A whole number as `toString().padStart(2, '0')` writes it. */
  function Pad2(n: int): string {
    PadStart(IntToString(n), 2, '0')
  }

  /** The `MM:SS` uptime text for `elapsed` milliseconds. `Math.floor` of a quotient by a positive
      divisor is Dafny's `/`. */
  function UptimeText(elapsed: int): (r: string)
    ensures |r| >= 5
  {
    Pad2(WholeMinutes(elapsed)) + ":" + Pad2(JsRem(elapsed, 60000) / 1000)
  }

  /** The completed minutes of `elapsed` milliseconds, rounded down. */
  function WholeMinutes(elapsed: int): int {
    elapsed / 60000
  }

  /** The decimal form of a number below 100 has at most two digits. */
  lemma TwoDigitsAtMost(n: nat)
    requires n < 100
    ensures |NatToString(n)| <= 2
  {
    if n >= 10 {
      assert NatToString(n) == NatToString(n / 10) + [DigitChar(n % 10)];
    }
  }

  /** A padded field reads back as the number, and has exactly two digits below 100, more from 100 on. */
  lemma Pad2Field(n: nat)
    ensures IsDigits(Pad2(n)) && DigitsValue(Pad2(n)) == n
    ensures |Pad2(n)| >= 2
    ensures n < 100 <==> |Pad2(n)| == 2
  {
    NatToStringValue(n);
    ZeroPadValue(NatToString(n), 2);
    if n < 100 {
      TwoDigitsAtMost(n);
    }
  }

  /** `t` is a field of at least two digits reading `minutes`, a colon, and two digits reading `seconds`. */
  ghost predicate ShowsFields(t: string, minutes: nat, seconds: nat) {
    && |t| >= 5 && t[|t| - 3] == ':'
    && IsDigits(t[..|t| - 3]) && DigitsValue(t[..|t| - 3]) == minutes
    && IsDigits(t[|t| - 2..]) && DigitsValue(t[|t| - 2..]) == seconds
  }

  /** For a non-negative elapsed time the text is the whole minutes in at least two digits, a colon,
      and the seconds of the current minute in exactly two digits, 00 to 59. Minutes are never cut:
      from 100 minutes on the field has three or more digits. */
  lemma {:induction false} UptimeTextFields(elapsed: int)
    requires elapsed >= 0
    ensures WholeMinutes(elapsed) >= 0 && (elapsed % 60000) / 1000 < 60
    ensures ShowsFields(UptimeText(elapsed), WholeMinutes(elapsed), (elapsed % 60000) / 1000)
    ensures elapsed < 6000000 <==> |UptimeText(elapsed)| == 5
  {
    var m, s := WholeMinutes(elapsed), (elapsed % 60000) / 1000;
    UptimeArithmetic(elapsed);
    assert UptimeText(elapsed) == Pad2(m) + ":" + Pad2(s);
    Pad2Field(m);
    Pad2Field(s);
    FieldsOf(Pad2(m), Pad2(s), m, s);
  }

  /** The minutes and seconds fields can be read back off the joined text. */
  lemma FieldsOf(a: string, b: string, m: nat, s: nat)
    requires IsDigits(a) && |a| >= 2 && DigitsValue(a) == m
    requires IsDigits(b) && |b| == 2 && DigitsValue(b) == s
    ensures ShowsFields(a + ":" + b, m, s)
    ensures |a + ":" + b| == |a| + 3
  {
    var t := a + ":" + b;
    assert t[..|t| - 3] == a;
    assert t[|t| - 2..] == b;
  }

  lemma UptimeArithmetic(elapsed: int)
    requires elapsed >= 0
    ensures WholeMinutes(elapsed) >= 0
    ensures JsRem(elapsed, 60000) / 1000 == (elapsed % 60000) / 1000 < 60
    ensures elapsed < 6000000 <==> WholeMinutes(elapsed) < 100
  {
  }

  /** `getStatusText()`'s switch over the status string. */
  function StatusText(name: string): (r: string)
    ensures r in {"Idle", "Building...", "Deploying...", "Deployed!", "Error", "Unknown"}
  {
    match name
    case "idle" => "Idle"
    case "building" => "Building..."
    case "deploying" => "Deploying..."
    case "deployed" => "Deployed!"
    case "error" => "Error"
    case _ => "Unknown"
  }

  /** Every status has its own label, none of them 'Unknown'; any other string reads 'Unknown'. */
  lemma StatusTextProperties(s: Status, t: Status, name: string)
    ensures StatusText(s.Name()) != "Unknown"
    ensures StatusText(s.Name()) == StatusText(t.Name()) ==> s == t
    ensures (forall u: Status :: u.Name() != name) ==> StatusText(name) == "Unknown"
  {
    if forall u: Status :: u.Name() != name {
      assert Status.Idle.Name() != name && Status.Building.Name() != name;
      assert Status.Deploying.Name() != name && Status.Deployed.Name() != name;
      assert Status.Error.Name() != name;
    }
  }

  class DeploymentTrackerComponent {
    const tracker: DeploymentTrackerService
    const startTime: int
    var uptime: string
    /** Whether the one-second uptime interval is running. */
    var ticking: bool

    constructor (tracker: DeploymentTrackerService, now: int)
      ensures this.tracker == tracker && startTime == now
      ensures uptime == "00:00" && !ticking
    {
      this.tracker, startTime := tracker, now;
      uptime, ticking := "00:00", false;
    }

    /** `ngOnInit()`: show the uptime at once and start the interval. */
    method NgOnInit(now: int)
      modifies this
      ensures ticking && uptime == UptimeText(now - startTime)
    {
      UpdateUptime(now);
      ticking := true;
    }

    /** `ngOnDestroy()`: stop the interval. */
    method NgOnDestroy()
      modifies this
      ensures !ticking && uptime == old(uptime)
    {
      ticking := false;
    }

    /** The interval goes off: the uptime text is refreshed while it runs. */
    method UptimeTick(now: int)
      modifies this
      ensures ticking == old(ticking)
      ensures old(ticking) ==> uptime == UptimeText(now - startTime)
      ensures !old(ticking) ==> uptime == old(uptime)
    {
      if ticking {
        UpdateUptime(now);
      }
    }

    /** `updateUptime()`. */
    method UpdateUptime(now: int)
      modifies this
      ensures uptime == UptimeText(now - startTime) && ticking == old(ticking)
    {
      uptime := UptimeText(now - startTime);
    }

    /** `getStatusText()`: always one of the five labels. */
    function GetStatusText(): (r: string)
      reads this, tracker
      ensures r != "Unknown"
      ensures r in ["Idle", "Building...", "Deploying...", "Deployed!", "Error"]
    {
      StatusText(tracker.currentStatus.Name())
    }

    /** The activity line's command, present only when there is a last command: in quotes, its first
        30 characters, with '...' exactly when some were cut. */
    function ShownCommand(): (r: Option<string>)
      reads this, tracker
      ensures r.None? <==> tracker.lastCommand == ""
      ensures r.Some? && |tracker.lastCommand| <= 30 ==> r.value == "\"" + tracker.lastCommand + "\""
      ensures r.Some? && |tracker.lastCommand| > 30 ==>
                r.value == "\"" + tracker.lastCommand[..30] + "...\"" && |r.value| == 35
    {
      if tracker.lastCommand == "" then None else Some("\"" + Truncate(tracker.lastCommand, 30) + "\"")
    }

    /** `clearHistory()` hands over to the service and does nothing else. */
    method ClearHistory()
      requires tracker.Valid()
      modifies tracker
      ensures tracker.Valid()
      ensures tracker.events == []
      ensures tracker.currentStatus == old(tracker.currentStatus) && tracker.lastCommand == old(tracker.lastCommand)
      ensures tracker.commandCount == old(tracker.commandCount) && tracker.deployCount == old(tracker.deployCount)
      ensures tracker.eventIdCounter == old(tracker.eventIdCounter) && tracker.resetTimers == old(tracker.resetTimers)
    {
      tracker.ClearHistory();
    }
  }
}
