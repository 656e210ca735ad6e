/** The command box (src/app/components/command-input/command-input.component.ts). Submitting is
    asynchronous, so it is modelled in two steps: `SubmitCommand` does everything up to the awaited
    `createIssue` call and records the command in flight; `OnIssueResult` is the `await` resuming with
    the call's outcome. The 10-second timers that clear the status message are counted and go off
    through `StatusTimerFired`. */
module CommandInput {
  import opened Wrappers
  import opened Strings
  import opened GitHub

  datatype StatusType = Success | Error | Info

  /** How the awaited `createIssue` call ended: with a result, or by throwing an error. */
  datatype IssueOutcome = Resolved(result: IssueResult) | Thrown(message: string)

  const SendingMessage := "🚀 Sending command to AI agent..."

  const SentMessage := "✅ Command sent! AI agent is processing your request. Check the deployment status for updates."

  /** The text of the error the `catch` block sees. An unsuccessful result is turned into an error
      carrying `result.error || 'Failed to create issue'`; a thrown error carries its own message. */
  function FailureText(outcome: IssueOutcome): string {
    match outcome
    case Resolved(r) => OrElse(r.error.GetOr(""), "Failed to create issue")
    case Thrown(m) => m
  }

  /** `` `❌ Error: ${error.message || 'Failed to send command'}` ``. */
  function ErrorMessage(text: string): (m: string)
    ensures text != "" ==> m == "❌ Error: " + text
    ensures text == "" ==> m == "❌ Error: Failed to send command"
  {
    "❌ Error: " + OrElse(text, "Failed to send command")
  }

  /** An unsuccessful result shows its own error, or 'Failed to create issue' when it has none. */
  lemma UnsuccessfulResultMessage(r: IssueResult)
    requires !r.success
    ensures r.error.Some? && r.error.value != "" ==> ErrorMessage(FailureText(Resolved(r))) == "❌ Error: " + r.error.value
    ensures !(r.error.Some? && r.error.value != "") ==> ErrorMessage(FailureText(Resolved(r))) == "❌ Error: Failed to create issue"
  {
  }

  /** A command is submitted only when it has non-whitespace text and nothing is in flight. */
  predicate CanSubmit(command: string, isProcessing: bool) {
    Trim(command) != "" && !isProcessing
  }

  class CommandInputComponent {
    var command: string
    var isFocused: bool
    var isProcessing: bool
    var statusMessage: string
    var statusType: StatusType
    /** The command handed to `createIssue` whose outcome has not come back yet. */
    var inFlight: Option<string>
    /** The number of status-clearing timers not yet gone off. */
    var clearTimers: nat

    /** A command is in flight exactly while processing. */
    ghost predicate Valid()
      reads this
    {
      isProcessing <==> inFlight.Some?
    }

    constructor ()
      ensures Valid()
      ensures command == "" && !isFocused && !isProcessing && statusMessage == "" && statusType == StatusType.Info
      ensures inFlight.None? && clearTimers == 0
    {
      command, isFocused, isProcessing := "", false, false;
      statusMessage, statusType := "", StatusType.Info;
      inFlight, clearTimers := None, 0;
    }

    /** Whether a submit now would go ahead. */
    predicate WouldSubmit()
      reads this
    {
      CanSubmit(command, isProcessing)
    }

    /** `onEnterPress(event)`: Enter submits (and suppresses the newline); Shift+Enter is left alone. */
    method OnEnterPress(shiftKey: bool) returns (preventDefault: bool)
      requires Valid()
      modifies this
      ensures Valid()
      ensures preventDefault <==> !shiftKey
      ensures shiftKey ==> unchanged(this)
      ensures !shiftKey ==> Submitted(old(command), old(isProcessing), old(statusMessage), old(statusType))
    {
      preventDefault := !shiftKey;
      if !shiftKey {
        SubmitCommand();
      }
    }

    /** The state after `submitCommand` up to its `await`, from the given state: nothing changes when
        the guard fails; otherwise the box is cleared, the trimmed command is in flight and the
        sending notice is shown. */
    ghost predicate Submitted(oldCommand: string, oldProcessing: bool, oldMessage: string, oldType: StatusType)
      reads this
    {
      if CanSubmit(oldCommand, oldProcessing) then
        && command == "" && isProcessing && inFlight == Some(Trim(oldCommand))
        && statusMessage == SendingMessage && statusType == StatusType.Info
      else
        && command == oldCommand && isProcessing == oldProcessing
        && statusMessage == oldMessage && statusType == oldType
    }

    /** `submitCommand()` up to the awaited `createIssue(userCommand)`. */
    method SubmitCommand()
      requires Valid()
      modifies this
      ensures Valid()
      ensures Submitted(old(command), old(isProcessing), old(statusMessage), old(statusType))
      ensures !old(WouldSubmit()) ==> unchanged(this)
      ensures isFocused == old(isFocused) && clearTimers == old(clearTimers)
    {
      if Trim(command) == "" || isProcessing {
        return;
      }
      var userCommand := Trim(command);
      command := "";
      isProcessing := true;
      statusMessage := SendingMessage;
      statusType := StatusType.Info;
      inFlight := Some(userCommand);
    }

    /** The `await` resumes with the outcome: success or error is reported, processing ends whatever
        happened, and a clearing timer is started. What was typed meanwhile stays in the box. */
    method OnIssueResult(outcome: IssueOutcome)
      requires Valid() && inFlight.Some?
      modifies this
      ensures Valid()
      ensures !isProcessing && inFlight.None?
      ensures clearTimers == old(clearTimers) + 1
      ensures outcome.Resolved? && outcome.result.success ==>
                statusType == StatusType.Success && statusMessage == SentMessage
      ensures !(outcome.Resolved? && outcome.result.success) ==>
                statusType == StatusType.Error && statusMessage == ErrorMessage(FailureText(outcome))
      ensures command == old(command) && isFocused == old(isFocused)
    {
      if outcome.Resolved? && outcome.result.success {
        statusMessage := SentMessage;
        statusType := StatusType.Success;
      } else {
        statusMessage := ErrorMessage(FailureText(outcome));
        statusType := StatusType.Error;
      }
      isProcessing := false;
      inFlight := None;
      clearTimers := clearTimers + 1;
    }

    /** With the actual `GitHubService`, whose `createIssue` never fails, a submitted command always
        ends in the success notice. */
    method SubmitToGitHub()
      requires Valid()
      modifies this
      ensures Valid()
      ensures old(WouldSubmit()) ==>
                && command == "" && !isProcessing
                && statusType == StatusType.Success && statusMessage == SentMessage
                && clearTimers == old(clearTimers) + 1
      ensures !old(WouldSubmit()) ==> unchanged(this)
    {
      var submitting := WouldSubmit();
      SubmitCommand();
      if submitting {
        OnIssueResult(Resolved(CreateIssue(inFlight.value)));
      }
    }

    /** A 10-second timer goes off and clears the status message. */
    method StatusTimerFired()
      requires Valid()
      modifies this
      ensures Valid()
      ensures old(clearTimers) > 0 ==> statusMessage == "" && clearTimers == old(clearTimers) - 1
      ensures old(clearTimers) == 0 ==> unchanged(this)
      ensures command == old(command) && isProcessing == old(isProcessing) && statusType == old(statusType)
      ensures inFlight == old(inFlight)
    {
      if clearTimers > 0 {
        statusMessage := "";
        clearTimers := clearTimers - 1;
      }
    }
  }
}
