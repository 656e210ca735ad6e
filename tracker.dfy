/** The activity log behind the dashboard's tracker panel (src/app/services/deployment-tracker.service.ts).
    `Date.now()` / `new Date()` become the `now` parameter (milliseconds), and each 5-second reset
    `setTimeout` becomes an entry of `resetTimers` that `ResetTimerFired` lets go off. */
module DeploymentTracker {
  import opened Wrappers
  import opened Seqs
  import opened Strings

  datatype EventType = Command | Building | Deploying | Deployed | Error {
    /** The string literal the source uses for this event type. */
    function Name(): string {
      match this
      case Command => "command"
      case Building => "building"
      case Deploying => "deploying"
      case Deployed => "deployed"
      case Error => "error"
    }
  }

  datatype Status = Idle | Building | Deploying | Deployed | Error {
    /** The string literal the source uses for this status. */
    function Name(): string {
      match this
      case Idle => "idle"
      case Building => "building"
      case Deploying => "deploying"
      case Deployed => "deployed"
      case Error => "error"
    }
  }

  datatype DeploymentEvent = DeploymentEvent(
    id: string,
    kind: EventType,
    message: string,
    timestamp: int,
    command: Option<string>)

  /** The most events the log keeps. */
  const MaxEvents: nat := 50

  /** `` `evt-${counter}-${Date.now()}` ``. */
  function EventId(counter: nat, now: int): (r: string)
    ensures StartsWith(r, "evt-")
  {
    "evt-" + NatToString(counter) + "-" + IntToString(now)
  }

  /** In `prefix + digits + "-" + rest`, counting from the end of the prefix, the first '-' marks
      the end of the digit run. */
  lemma SeparatorAfterDigits(prefix: string, digits: string, rest: string, k: nat)
    requires IsDigits(digits) && k <= |digits|
    ensures (prefix + digits + "-" + rest)[|prefix| + k] == '-' <==> k == |digits|
  {
    var s := prefix + digits + "-" + rest;
    if k < |digits| {
      assert s[|prefix| + k] == digits[k];
    }
  }

  /** The digit run of `prefix + digits + "-" + rest` can be read back whatever follows it. */
  lemma DigitRunDetermined(prefix: string, da: string, db: string, ra: string, rb: string)
    requires IsDigits(da) && IsDigits(db)
    ensures prefix + da + "-" + ra == prefix + db + "-" + rb ==> da == db
  {
    var s1, s2 := prefix + da + "-" + ra, prefix + db + "-" + rb;
    var m := Min(|da|, |db|);
    SeparatorAfterDigits(prefix, da, ra, m);
    SeparatorAfterDigits(prefix, db, rb, m);
    if s1 == s2 {
      assert |da| == |db|;
      assert s1[|prefix|..|prefix| + |da|] == da;
      assert s2[|prefix|..|prefix| + |db|] == db;
    }
  }

  /** The counter embedded in an event id can be read back from it, whatever the clock said. */
  lemma EventIdInjective(a: nat, b: nat, t1: int, t2: int)
    ensures EventId(a, t1) == EventId(b, t2) ==> a == b
  {
    DigitRunDetermined("evt-", NatToString(a), NatToString(b), IntToString(t1), IntToString(t2));
    if NatToString(a) == NatToString(b) {
      NatToStringInjective(a, b);
    }
  }

  /** `serials[i]` is the counter value embedded in `events[i].id`; newer events (further front)
      carry strictly larger counters, all at most `counter`. */
  ghost predicate Numbered(events: seq<DeploymentEvent>, serials: seq<nat>, counter: nat) {
    && |serials| == |events|
    && (forall i :: 0 <= i < |events| ==>
          1 <= serials[i] <= counter && events[i].id == EventId(serials[i], events[i].timestamp))
    && (forall i, j :: 0 <= i < j < |events| ==> serials[j] < serials[i])
  }

  /** Because every id embeds a strictly increasing counter, no two logged events share an id. */
  lemma IdsDistinct(events: seq<DeploymentEvent>, serials: seq<nat>, counter: nat)
    requires Numbered(events, serials, counter)
    ensures forall i, j :: 0 <= i < j < |events| ==> events[i].id != events[j].id
  {
    forall i, j | 0 <= i < j < |events|
      ensures events[i].id != events[j].id
    {
      EventIdInjective(serials[i], serials[j], events[i].timestamp, events[j].timestamp);
    }
  }

  /** Logging a new event under the next counter value keeps the log numbered. */
  lemma NumberedPrepend(events: seq<DeploymentEvent>, serials: seq<nat>, counter: nat, e: DeploymentEvent)
    requires Numbered(events, serials, counter)
    requires e.id == EventId(counter + 1, e.timestamp)
    ensures Numbered(PrependCapped(e, events, MaxEvents), PrependCapped(counter + 1, serials, MaxEvents), counter + 1)
  {
    var es, ss := PrependCapped(e, events, MaxEvents), PrependCapped(counter + 1, serials, MaxEvents);
    assert es == ([e] + events)[..|es|];
    assert ss == ([counter + 1] + serials)[..|es|];
    forall i | 0 <= i < |es|
      ensures 1 <= ss[i] <= counter + 1 && es[i].id == EventId(ss[i], es[i].timestamp)
    {
      if i > 0 {
        assert es[i] == events[i - 1] && ss[i] == serials[i - 1];
      }
    }
    forall i, j | 0 <= i < j < |es|
      ensures ss[j] < ss[i]
    {
      assert ss[j] == serials[j - 1];
    }
  }

  /** The status `addEvent(type, …)` sets. */
  function StatusAfter(kind: EventType): Status {
    match kind
    case Command => Status.Building
    case Building => Status.Building
    case Deploying => Status.Deploying
    case Deployed => Status.Deployed
    case Error => Status.Error
  }

  /** A command event puts the tracker in 'building'; every other event type sets the status of the
      same name. */
  lemma StatusAfterNames(kind: EventType)
    ensures kind == EventType.Command ==> StatusAfter(kind) == Status.Building
    ensures kind != EventType.Command ==> StatusAfter(kind).Name() == kind.Name()
    ensures StatusAfter(kind) != Status.Idle
  {
  }

  /** `command || message`: the text recorded as the last command. */
  function CommandLabel(command: Option<string>, message: string): (r: string)
    ensures command.Some? && command.value != "" ==> r == command.value
    ensures !(command.Some? && command.value != "") ==> r == message
  {
    if command.Some? && command.value != "" then command.value else message
  }

  /** The reset timer `addEvent` schedules: one that checks for 'deployed' or for 'error'. */
  function ResetTimerFor(kind: EventType): seq<Status> {
    match kind
    case Deployed => [Status.Deployed]
    case Error => [Status.Error]
    case _ => []
  }

  class DeploymentTrackerService {
    var events: seq<DeploymentEvent>
    var currentStatus: Status
    var lastCommand: string
    var commandCount: int
    var deployCount: int
    var eventIdCounter: nat
    /** The pending 5-second reset timers, oldest first, each with the status it checks for. All have
        the same delay, so they go off in the order they were scheduled. */
    var resetTimers: seq<Status>
    ghost var serials: seq<nat>

    ghost predicate Valid()
      reads this
    {
      && |events| <= MaxEvents
      && Numbered(events, serials, eventIdCounter)
      && (forall k :: 0 <= k < |resetTimers| ==>
            resetTimers[k] == Status.Deployed || resetTimers[k] == Status.Error)
    }

    /** The constructor logs the welcome event. */
    constructor (now: int)
      ensures Valid()
      ensures |events| == 1 && events[0].kind == EventType.Deployed
      ensures events[0].message == "Dashboard loaded successfully"
      ensures currentStatus == Status.Deployed && deployCount == 1 && commandCount == 0
      ensures lastCommand == "" && eventIdCounter == 1 && resetTimers == [Status.Deployed]
    {
      events, currentStatus, lastCommand := [], Status.Idle, "";
      commandCount, deployCount, eventIdCounter := 0, 0, 0;
      resetTimers, serials := [], [];
      new;
      AddEvent(EventType.Deployed, "Dashboard loaded successfully", None, now);
    }

    /** `addEvent(type, message, command?)`. */
    method AddEvent(kind: EventType, message: string, command: Option<string>, now: int)
      requires Valid()
      modifies this
      ensures Valid()
      ensures eventIdCounter == old(eventIdCounter) + 1
      ensures events == PrependCapped(
                DeploymentEvent(EventId(eventIdCounter, now), kind, message, now, command),
                old(events), MaxEvents)
      ensures currentStatus == StatusAfter(kind)
      ensures lastCommand == if kind == EventType.Command then CommandLabel(command, message)
                             else old(lastCommand)
      ensures commandCount == old(commandCount) + (if kind == EventType.Command then 1 else 0)
      ensures deployCount == old(deployCount) + (if kind == EventType.Deployed then 1 else 0)
      ensures resetTimers == old(resetTimers) + ResetTimerFor(kind)
    {
      Log(DeploymentEvent(EventId(eventIdCounter + 1, now), kind, message, now, command));

      match kind {
        case Command =>
          currentStatus := Status.Building;
          lastCommand := CommandLabel(command, message);
          commandCount := commandCount + 1;
        case Building =>
          currentStatus := Status.Building;
        case Deploying =>
          currentStatus := Status.Deploying;
        case Deployed =>
          currentStatus := Status.Deployed;
          deployCount := deployCount + 1;
          ScheduleReset(Status.Deployed);
        case Error =>
          currentStatus := Status.Error;
          ScheduleReset(Status.Error);
      }
    }

    /** The 5-second `setTimeout` that returns to 'idle' if the status is still `expected` by then. */
    method ScheduleReset(expected: Status)
      requires Valid() && (expected == Status.Deployed || expected == Status.Error)
      modifies this
      ensures Valid()
      ensures resetTimers == old(resetTimers) + [expected]
      ensures events == old(events) && eventIdCounter == old(eventIdCounter)
      ensures currentStatus == old(currentStatus) && lastCommand == old(lastCommand)
      ensures commandCount == old(commandCount) && deployCount == old(deployCount)
    {
      resetTimers := resetTimers + [expected];
    }

    /** Puts `e`, numbered with the next counter value, in front of the log. */
    method Log(e: DeploymentEvent)
      requires Valid() && e.id == EventId(eventIdCounter + 1, e.timestamp)
      modifies this
      ensures Valid()
      ensures eventIdCounter == old(eventIdCounter) + 1
      ensures events == PrependCapped(e, old(events), MaxEvents)
      ensures currentStatus == old(currentStatus) && lastCommand == old(lastCommand)
      ensures commandCount == old(commandCount) && deployCount == old(deployCount)
      ensures resetTimers == old(resetTimers)
    {
      NumberedPrepend(events, serials, eventIdCounter, e);
      eventIdCounter := eventIdCounter + 1;
      events := PrependCapped(e, events, MaxEvents);
      serials := PrependCapped(eventIdCounter, serials, MaxEvents);
    }

    /** The oldest pending reset timer goes off: the status returns to 'idle' only if it still is the
        status the timer was scheduled for. */
    method ResetTimerFired()
      requires Valid()
      modifies this
      ensures Valid()
      ensures |old(resetTimers)| > 0 ==> resetTimers == old(resetTimers)[1..]
      ensures |old(resetTimers)| > 0 && old(currentStatus) == old(resetTimers)[0] ==>
                currentStatus == Status.Idle
      ensures |old(resetTimers)| > 0 && old(currentStatus) != old(resetTimers)[0] ==>
                currentStatus == old(currentStatus)
      ensures |old(resetTimers)| == 0 ==> resetTimers == old(resetTimers) && currentStatus == old(currentStatus)
      ensures currentStatus == Status.Idle ==>
                old(currentStatus) in {Status.Idle, Status.Deployed, Status.Error}
      ensures events == old(events) && lastCommand == old(lastCommand)
      ensures commandCount == old(commandCount) && deployCount == old(deployCount)
      ensures eventIdCounter == old(eventIdCounter)
    {
      if |resetTimers| > 0 {
        if currentStatus == resetTimers[0] {
          currentStatus := Status.Idle;
        }
        resetTimers := resetTimers[1..];
      }
    }

    /** `clearHistory()` empties the log and nothing else. */
    method ClearHistory()
      requires Valid()
      modifies this
      ensures Valid()
      ensures events == []
      ensures currentStatus == old(currentStatus) && lastCommand == old(lastCommand)
      ensures commandCount == old(commandCount) && deployCount == old(deployCount)
      ensures eventIdCounter == old(eventIdCounter) && resetTimers == old(resetTimers)
    {
      events, serials := [], [];
    }

    /** `getRecentEvents(count = 10)`: the newest `count` events. */
    function GetRecentEvents(count: int := 10): (r: seq<DeploymentEvent>)
      reads this
      ensures count >= 0 ==> r == events[..Min(count, |events|)]
      ensures count < 0 ==> r == events[..Max(0, |events| + count)]
    {
      SliceTo(events, count)
    }
  }
}
