/** The GitHub integration (src/app/services/github.service.ts). Creating an issue builds its title
    and body but sends nothing: the result is a fixed success. `new Date().toISOString()` is the
    `requestedAt` parameter. */
module GitHub {
  import opened Wrappers
  import opened Strings

  const RepoOwner := "NoahHabanero"
  const RepoName := "CursorTest"

  /** The repository's issue list, the URL `createIssue` reports. */
  const IssuesUrl := "https://github.com/" + RepoOwner + "/" + RepoName + "/issues"

  const TitlePrefix := "[AI Command] "

  datatype IssueResult = IssueResult(success: bool, issueUrl: Option<string>, error: Option<string>)

  datatype WorkflowResult = WorkflowResult(success: bool, error: Option<string>)

  /** The issue title: the prefix and the command's first 50 characters, plus '...' exactly when the
      command is longer. */
  function IssueTitle(command: string): (title: string)
    ensures |title| <= |TitlePrefix| + 50 + 3 == 66
    ensures StartsWith(title, TitlePrefix)
    ensures |command| <= 50 ==> title == TitlePrefix + command
    ensures |command| > 50 ==>
              |title| == 66 && title[|TitlePrefix|..|TitlePrefix| + 50] == command[..50] && title[63..] == "..."
  {
    TitlePrefix + Truncate(command, 50)
  }

  /** The body text before the first copy of the command. */
  const BodyHead: string := @"
## AI Dashboard Edit Request

**Command:** "

  /** The text between the command and the request time. */
  const BodyAfterCommand: string := @"

**Requested at:** "

  /** The instructions between the request time and the quoted command. */
  const BodyInstructions: string := @"

---

### Instructions for AI Agent

Please modify the `src/app/components/dashboard-content/dashboard-content.component.ts` file to implement the following changes:

> "

  /** The constraints and labels after the quoted command. */
  const BodyTail: string := @"

### Constraints
- Only modify the `DashboardContentComponent`
- Do NOT modify protected components (BurgerMenu, CommandInput)
- Ensure the changes are valid Angular/TypeScript code
- Maintain the existing component structure
- Test that the application compiles successfully

### Labels
- `ai-command`
- `auto-edit`
"

  /** `formatIssueBody(command)`: the request with the command, the time, the instructions for the
      agent quoting the command once more, and the constraints. */
  function FormatIssueBody(command: string, requestedAt: string): (r: string)
    ensures StartsWith(r, BodyHead + command)
  {
    BodyHead + command + BodyAfterCommand + requestedAt + BodyInstructions + command + BodyTail
  }

  /** Where the parts of `a + c + m + t + n + c + z` sit: both copies of `c` can be read back. */
  lemma TemplateSlots(a: string, c: string, m: string, t: string, n: string, z: string)
    ensures var s, q := a + c + m + t + n + c + z, |a| + |c| + |m| + |t| + |n|;
      && s[|a|..|a| + |c|] == c
      && s[q..q + |c|] == c
      && s[..|a|] == a
      && s[q - |n|..q] == n
  {
    var s := a + c + m + t + n + c + z;
    var lead := a + c + m + t + n;
    assert s == lead + c + z;
    assert s[..|lead|] == lead;
    assert lead[..|a| + |c|] == a + c;
  }

  /** The first copy follows the "**Command:** " label and the second is quoted with "> ". */
  lemma BodyMarkers()
    ensures EndsWith(BodyHead, "**Command:** ")
    ensures EndsWith(BodyInstructions, "> ")
  {
  }

  /** The body carries the command verbatim twice: right after the "**Command:** " label, and as the
      quoted request after the instructions. */
  lemma BodyContainsCommand(command: string, requestedAt: string)
    ensures var body, q := FormatIssueBody(command, requestedAt),
                           |BodyHead| + |command| + |BodyAfterCommand| + |requestedAt| + |BodyInstructions|;
      && body[|BodyHead|..|BodyHead| + |command|] == command
      && body[q..q + |command|] == command
      && body[..|BodyHead|] == BodyHead
      && body[q - |BodyInstructions|..q] == BodyInstructions
  {
    TemplateSlots(BodyHead, command, BodyAfterCommand, requestedAt, BodyInstructions, BodyTail);
  }

  /** `createIssue(command)`: always a success pointing at the issue list, with no error. */
  function CreateIssue(command: string): (r: IssueResult)
    ensures r.success && r.issueUrl == Some(IssuesUrl) && r.error.None?
  {
    IssueResult(true, Some(IssuesUrl), None)
  }

  /** `triggerWorkflow(command)`: always a success. */
  function TriggerWorkflow(command: string): (r: WorkflowResult)
    ensures r.success && r.error.None?
  {
    WorkflowResult(true, None)
  }
}
