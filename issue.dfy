/**
  Package github of the performance alerter: one GitHub issue per regressing
  test, found again by its title.

  AddIssue derives the title from the test name, looks for an issue labelled
  auto:perf with exactly that title, and then takes one of four branches: no
  issue (create it and label it; the comment that should follow is never
  made, see NoIssueAsWrittenPanics), a closed issue (reopen it, comment),
  an open issue quiet for more than ten days (comment), or an open issue
  updated within ten days (nothing). Every backend call goes through
  Alerter.Run with the handler's dry-run flag.

  The functions AddIssueCalls and AddIssueOutcome state, per branch, which
  calls reach the backend and how AddIssue ends; the method AddIssue, written
  as the Go code is, is proved to make exactly those calls and end that way.

  As written, the no-issue branch reads the number of the lookup result, which
  is nil there (issue.go:95), so it never comments: after a successful create
  and label, and on every dry run, it ends in a nil-pointer panic (Outcome
  Panic). AddIssueFixed is the corrected handler, which comments on the issue
  it created.
*/
module Github {
  import opened Wrappers
  import opened Ghutil
  import opened Alerter

  const PerfLabel := "auto:perf"
  const DaysConsiderOld := 10
  /** time.Hour, in nanoseconds. */
  const Hour := 3_600_000_000_000
  /** How long an open issue may go without an update before it gets a new comment. */
  const StaleAfter := DaysConsiderOld * 24 * Hour

  const TitlePrefix := "[performance] "

  /** issueTitleTemplate: the test name can be read back from the title. */
  function Title(testName: string): (r: string)
    ensures TitlePrefix <= r && r[|TitlePrefix|..] == testName
  {
    TitlePrefix + testName
  }

  const BodyPrefix := "\n### Auto-generated issue tracking performance regression\n* **Test name**: "
  const ReopenPrefix := "\nNew regression has been detected, reopening this issue:\n"
  const NewRegressionPrefix := "\nA new regression for this test has been detected:\n"

  /** issueBodyTemplate: the test name can be read back from the body. */
  function Body(testName: string): (r: string)
    ensures BodyPrefix <= r && r[|BodyPrefix|..] == testName
  {
    BodyPrefix + testName
  }

  /** reopenIssueCommentTemplate: the description can be read back from the comment. */
  function ReopenComment(desc: string): (r: string)
    ensures ReopenPrefix <= r && r[|ReopenPrefix|..] == desc
  {
    ReopenPrefix + desc
  }

  /** newIssueCommentTemplate: the description can be read back from the comment. */
  function NewRegressionComment(desc: string): (r: string)
    ensures NewRegressionPrefix <= r && r[|NewRegressionPrefix|..] == desc
  {
    NewRegressionPrefix + desc
  }

  /** The title is the only key: different test names never share one. */
  lemma TitleIsInjective(a: string, b: string)
    ensures Title(a) == Title(b) ==> a == b
  {
    if Title(a) == Title(b) {
      assert a == Title(a)[|TitlePrefix|..];
    }
  }

  datatype Config = Config(org: string, repo: string, dryrun: bool)

  datatype Error =
    | CreateFailed(title: string, repo: string)   // "failed creating issue '%s' in repo '%s'"
    | LabelFailed(title: string, repo: string)    // "failed adding perf label for issue '%s' in repo '%s'"
    | Backend(cause: BackendError)                 // the error of a reopen or comment call, passed on

  /** How AddIssue ends: nil, an error, or a runtime panic (a nil-pointer dereference). */
  datatype Outcome = Ok | Err(error: Error) | Panic

  // ---------------------------------------------------------------------------
  // Lookup and decision
  // ---------------------------------------------------------------------------

  function ListCall(org: string, repo: string): Call {
    ListIssuesByRepo(org, repo, [PerfLabel])
  }

  /** The issues findIssue searches: the list reply, or nothing when the call was skipped or failed. */
  function ListedIssues(g: Repository, org: string, repo: string, dryrun: bool): (r: seq<Issue>)
    ensures r == if dryrun || Listing in g.failing then [] else Filter(g.issues, [PerfLabel])
  {
    if dryrun then []
    else match Step(g, ListCall(org, repo)).reply
      case Listed(issues) => issues
      case _ => []
  }

  /** The search loop of findIssue: the first issue whose title is exactly the one given. */
  function FindByTitle(issues: seq<Issue>, title: string): (r: Option<Issue>)
    ensures r.None? <==> forall k :: 0 <= k < |issues| ==> issues[k].title != title
    ensures r.Some? ==> r.value in issues && r.value.title == title
  {
    if issues == [] then None
    else if issues[0].title == title then Some(issues[0])
    else FindByTitle(issues[1..], title)
  }

  /** Every held issue labelled auto:perf is in the listing. */
  lemma AllLabelledListed(g: Repository)
    ensures forall k :: 0 <= k < |g.issues| && PerfLabel in g.issues[k].labels ==> g.issues[k] in Filter(g.issues, [PerfLabel])
  {
    forall k | 0 <= k < |g.issues| && PerfLabel in g.issues[k].labels
      ensures g.issues[k] in Filter(g.issues, [PerfLabel])
    {
      assert HasLabels(g.issues[k], [PerfLabel]);
    }
  }

  /** Of several issues with the title, FindByTitle returns the first in list order. */
  lemma {:induction false} FindByTitleIsFirst(issues: seq<Issue>, title: string, k: nat)
    requires k < |issues| && issues[k].title == title
    requires forall j :: 0 <= j < k ==> issues[j].title != title
    ensures FindByTitle(issues, title) == Some(issues[k])
  {
    if k > 0 {
      assert issues[0].title != title;
      FindByTitleIsFirst(issues[1..], title, k - 1);
    }
  }

  /**
    findIssue, as AddIssue calls it: an auto:perf issue the backend holds,
    titled for the test; nothing in dry-run mode or when the listing fails.
  */
  function Lookup(g: Repository, cfg: Config, testName: string): (r: Option<Issue>)
    ensures cfg.dryrun || Listing in g.failing ==> r == None
    ensures r.Some? ==> r.value in g.issues && r.value.title == Title(testName) && PerfLabel in r.value.labels
    ensures r.None? && !cfg.dryrun && Listing !in g.failing ==>
              forall k :: 0 <= k < |g.issues| && PerfLabel in g.issues[k].labels ==> g.issues[k].title != Title(testName)
  {
    AllLabelledListed(g);
    FindByTitle(ListedIssues(g, cfg.org, cfg.repo, cfg.dryrun), Title(testName))
  }

  /** Strictly more than ten days: the first stale gap is ten days and one nanosecond. */
  predicate IsStale(now: int, updatedAt: int)
    ensures IsStale(now, updatedAt) <==> now - updatedAt >= 864_000_000_000_001
  {
    now - updatedAt > StaleAfter
  }

  /** The four branches of AddIssue. */
  datatype Branch = NoIssue | ReopenClosed(number: int) | CommentStale(number: int) | LeaveFresh(number: int)

  /**
    The branch AddIssue takes: no issue, or the found issue's number with
    reopen when it is closed, leave alone when it is open and updated within
    ten days (exactly ten included), and a comment otherwise.
  */
  function Decide(found: Option<Issue>, now: int): (r: Branch)
    ensures r.NoIssue? <==> found.None?
    ensures found.Some? ==> r.number == found.value.number
    ensures r.ReopenClosed? <==> found.Some? && found.value.state == Closed
    ensures r.LeaveFresh? <==> found.Some? && found.value.state != Closed && !IsStale(now, found.value.updatedAt)
  {
    match found
    case None => NoIssue
    case Some(issue) =>
      if issue.state == Closed then ReopenClosed(issue.number)
      else if IsStale(now, issue.updatedAt) then CommentStale(issue.number)
      else LeaveFresh(issue.number)
  }

  /** The staleness boundary: exactly ten days is still fresh, one nanosecond more is stale. */
  lemma StaleBoundary(issue: Issue, now: int)
    requires issue.state == Open
    ensures now - issue.updatedAt == 864_000_000_000_000 ==> Decide(Some(issue), now) == LeaveFresh(issue.number)
    ensures now - issue.updatedAt == 864_000_000_000_001 ==> Decide(Some(issue), now) == CommentStale(issue.number)
  {
  }

  // ---------------------------------------------------------------------------
  // What each branch does: the calls that reach the backend and the result
  // ---------------------------------------------------------------------------

  /** A call of this kind is made and fails: never in dry-run mode, where nothing is made. */
  predicate Fails(g: Repository, kind: CallKind, dryrun: bool) {
    !dryrun && kind in g.failing
  }

  /** createNewIssue: create, then, unless that failed, label the new issue (its number is g.nextNumber). */
  function CreateNewIssueCalls(g: Repository, org: string, repo: string, title: string, body: string, dryrun: bool): seq<Call> {
    Reach(dryrun, [CreateIssue(org, repo, title, body)])
    + (if Fails(g, Creating, dryrun) then []
       else Reach(dryrun, [AddLabelsToIssue(org, repo, g.nextNumber, [PerfLabel])]))
  }

  function CreateNewIssueError(g: Repository, title: string, repo: string, dryrun: bool): Option<Error> {
    if Fails(g, Creating, dryrun) then Some(CreateFailed(title, repo))
    else if Fails(g, Labelling, dryrun) then Some(LabelFailed(title, repo))
    else None
  }

  /** reopenIssue, then, unless that failed, the reopen comment. */
  function ReopenCalls(g: Repository, org: string, repo: string, n: int, desc: string, dryrun: bool): seq<Call> {
    Reach(dryrun, [ReopenIssue(org, repo, n)])
    + (if Fails(g, Reopening, dryrun) then [] else Reach(dryrun, [CreateComment(org, repo, n, ReopenComment(desc))]))
  }

  function ReopenOutcome(g: Repository, dryrun: bool): Outcome {
    if Fails(g, Reopening, dryrun) then Err(Backend(Injected(Reopening)))
    else if Fails(g, Commenting, dryrun) then Err(Backend(Injected(Commenting)))
    else Ok
  }

  /** The branches on an issue that was found: reopen then comment, comment, or nothing. */
  function ExistingIssueCalls(g: Repository, org: string, repo: string, branch: Branch, desc: string, dryrun: bool): seq<Call>
    requires !branch.NoIssue?
  {
    match branch
    case ReopenClosed(n) => ReopenCalls(g, org, repo, n, desc, dryrun)
    case CommentStale(n) => Reach(dryrun, [CreateComment(org, repo, n, NewRegressionComment(desc))])
    case LeaveFresh(_) => []
  }

  function ExistingIssueOutcome(g: Repository, branch: Branch, dryrun: bool): Outcome
    requires !branch.NoIssue?
  {
    match branch
    case ReopenClosed(_) => ReopenOutcome(g, dryrun)
    case CommentStale(_) => if Fails(g, Commenting, dryrun) then Err(Backend(Injected(Commenting))) else Ok
    case LeaveFresh(_) => Ok
  }

  /** The calls AddIssue, as written, makes against backend g once it has taken the given branch. */
  function BranchCalls(g: Repository, cfg: Config, testName: string, desc: string, branch: Branch): seq<Call> {
    Reach(cfg.dryrun, [ListCall(cfg.org, cfg.repo)])
    + if branch.NoIssue? then CreateNewIssueCalls(g, cfg.org, cfg.repo, Title(testName), Body(testName), cfg.dryrun)
      else ExistingIssueCalls(g, cfg.org, cfg.repo, branch, desc, cfg.dryrun)
  }

  /** How AddIssue, as written, ends on a branch: the no-issue branch panics once create and label are through. */
  function BranchOutcome(g: Repository, cfg: Config, testName: string, branch: Branch): Outcome {
    if branch.NoIssue? then
      match CreateNewIssueError(g, Title(testName), cfg.repo, cfg.dryrun)
      case Some(e) => Err(e)
      case None => Panic
    else ExistingIssueOutcome(g, branch, cfg.dryrun)
  }

  /** The calls AddIssue, as written, makes against backend g, in order. */
  function AddIssueCalls(g: Repository, cfg: Config, testName: string, desc: string, now: int): seq<Call> {
    BranchCalls(g, cfg, testName, desc, Decide(Lookup(g, cfg, testName), now))
  }

  function AddIssueOutcome(g: Repository, cfg: Config, testName: string, desc: string, now: int): Outcome {
    BranchOutcome(g, cfg, testName, Decide(Lookup(g, cfg, testName), now))
  }

  /** The corrected no-issue branch: create and label, then comment on the new issue (number g.nextNumber). */
  function NewIssueFixedCalls(g: Repository, org: string, repo: string, testName: string, desc: string, dryrun: bool): seq<Call> {
    CreateNewIssueCalls(g, org, repo, Title(testName), Body(testName), dryrun)
    + (if CreateNewIssueError(g, Title(testName), repo, dryrun).Some? then []
       else Reach(dryrun, [CreateComment(org, repo, g.nextNumber, NewRegressionComment(desc))]))
  }

  function NewIssueFixedOutcome(g: Repository, repo: string, testName: string, dryrun: bool): Outcome {
    match CreateNewIssueError(g, Title(testName), repo, dryrun)
    case Some(e) => Err(e)
    case None => if Fails(g, Commenting, dryrun) then Err(Backend(Injected(Commenting))) else Ok
  }

  /** The calls of the corrected AddIssue on a branch. */
  function FixedBranchCalls(g: Repository, cfg: Config, testName: string, desc: string, branch: Branch): seq<Call> {
    Reach(cfg.dryrun, [ListCall(cfg.org, cfg.repo)])
    + if branch.NoIssue? then NewIssueFixedCalls(g, cfg.org, cfg.repo, testName, desc, cfg.dryrun)
      else ExistingIssueCalls(g, cfg.org, cfg.repo, branch, desc, cfg.dryrun)
  }

  function FixedBranchOutcome(g: Repository, cfg: Config, testName: string, branch: Branch): Outcome {
    if branch.NoIssue? then NewIssueFixedOutcome(g, cfg.repo, testName, cfg.dryrun)
    else ExistingIssueOutcome(g, branch, cfg.dryrun)
  }

  /** The calls of the corrected AddIssue. */
  function AddIssueFixedCalls(g: Repository, cfg: Config, testName: string, desc: string, now: int): seq<Call> {
    FixedBranchCalls(g, cfg, testName, desc, Decide(Lookup(g, cfg, testName), now))
  }

  function AddIssueFixedOutcome(g: Repository, cfg: Config, testName: string, desc: string, now: int): Outcome {
    FixedBranchOutcome(g, cfg, testName, Decide(Lookup(g, cfg, testName), now))
  }

  // ---------------------------------------------------------------------------
  // The handler
  // ---------------------------------------------------------------------------

  /** issueHandler: the client it talks to and its configuration, both fixed at construction. */
  class IssueHandler {
    const client: FakeClient
    const config: Config

    constructor (client: FakeClient, config: Config)
      ensures this.client == client && this.config == config
    {
      this.client := client;
      this.config := config;
    }

    /** findIssue: list the auto:perf issues (a failure is ignored) and take the first with the title. */
    method FindIssue(org: string, repo: string, title: string, dryrun: bool) returns (issue: Option<Issue>)
      modifies client
      ensures client.trace == old(client.trace) + Reach(dryrun, [ListCall(org, repo)])
      ensures client.State() == old(client.State())
      ensures issue == FindByTitle(ListedIssues(old(client.State()), org, repo, dryrun), title)
    {
      var reply := Run(client, ListCall(org, repo), dryrun);
      var issues: seq<Issue> := [];
      if reply.Some? && reply.value.Listed? {
        issues := reply.value.issues;
      }
      issue := FindByTitle(issues, title);
    }

    /**
      createNewIssue. The Go function keeps the created issue in a local; it is
      returned here as well so that AddIssueFixed can comment on it.
    */
    method CreateNewIssue(org: string, repo: string, title: string, body: string, dryrun: bool)
      returns (err: Option<Error>, created: Option<Issue>)
      modifies client
      ensures client.trace == old(client.trace) + CreateNewIssueCalls(old(client.State()), org, repo, title, body, dryrun)
      ensures client.State() == Replay(old(client.State()), CreateNewIssueCalls(old(client.State()), org, repo, title, body, dryrun))
      ensures err == CreateNewIssueError(old(client.State()), title, repo, dryrun)
      ensures err.None? && !dryrun ==> created.Some? && created.value.number == old(client.State()).nextNumber
      ensures err.None? && !dryrun ==> IndexOf(client.issues, created.value.number).Some?
    {
      ghost var g := client.State();
      var reply := Run(client, CreateIssue(org, repo, title, body), dryrun);
      if ErrorOf(reply).Some? {
        return Some(CreateFailed(title, repo)), None;
      }
      created := if reply.Some? && reply.value.Created? then Some(reply.value.issue) else None;
      ghost var g1 := client.State();
      ghost var first := Reach(dryrun, [CreateIssue(org, repo, title, body)]);
      // The label closure reads the new issue's number only when it runs, which it does only after a create.
      var number := if created.Some? then created.value.number else 0;
      if !dryrun {
        assert g1.issues[|g.issues|].number == number;
      }
      reply := Run(client, AddLabelsToIssue(org, repo, number, [PerfLabel]), dryrun);
      ReplayAppend(g, first, Reach(dryrun, [AddLabelsToIssue(org, repo, number, [PerfLabel])]));
      if ErrorOf(reply).Some? {
        return Some(LabelFailed(title, repo)), created;
      }
      if !dryrun {
        assert client.issues[|g.issues|].number == number;
      }
      err := None;
    }

    /** reopenIssue */
    method ReopenIssue(org: string, repo: string, issueNumber: int, dryrun: bool) returns (err: Option<BackendError>)
      modifies client
      ensures client.trace == old(client.trace) + Reach(dryrun, [Call.ReopenIssue(org, repo, issueNumber)])
      ensures client.State() == Replay(old(client.State()), Reach(dryrun, [Call.ReopenIssue(org, repo, issueNumber)]))
      ensures err == ErrorOf(if dryrun then None else Some(Step(old(client.State()), Call.ReopenIssue(org, repo, issueNumber)).reply))
      ensures IndexOf(old(client.issues), issueNumber).Some? ==>
                IndexOf(client.issues, issueNumber).Some?
                && err == (if Fails(old(client.State()), Reopening, dryrun) then Some(Injected(Reopening)) else None)
    {
      ghost var g := client.State();
      var reply := Run(client, Call.ReopenIssue(org, repo, issueNumber), dryrun);
      err := ErrorOf(reply);
      HeldStaysHeld(g, Call.ReopenIssue(org, repo, issueNumber), dryrun);
    }

    /** addComment */
    method AddComment(org: string, repo: string, issueNumber: int, commentBody: string, dryrun: bool)
      returns (err: Option<BackendError>)
      modifies client
      ensures client.trace == old(client.trace) + Reach(dryrun, [CreateComment(org, repo, issueNumber, commentBody)])
      ensures client.State() == Replay(old(client.State()), Reach(dryrun, [CreateComment(org, repo, issueNumber, commentBody)]))
      ensures err == ErrorOf(if dryrun then None else Some(Step(old(client.State()), CreateComment(org, repo, issueNumber, commentBody)).reply))
      ensures IndexOf(old(client.issues), issueNumber).Some? ==>
                IndexOf(client.issues, issueNumber).Some?
                && err == (if Fails(old(client.State()), Commenting, dryrun) then Some(Injected(Commenting)) else None)
    {
      ghost var g := client.State();
      var reply := Run(client, CreateComment(org, repo, issueNumber, commentBody), dryrun);
      err := ErrorOf(reply);
      HeldStaysHeld(g, CreateComment(org, repo, issueNumber, commentBody), dryrun);
    }

    /** CloseIssue: one close call for the number, with no lookup or check before it. */
    method CloseIssue(issueNumber: int) returns (err: Option<BackendError>)
      modifies client
      ensures client.trace == old(client.trace) + Reach(config.dryrun, [Call.CloseIssue(config.org, config.repo, issueNumber)])
      ensures client.State() == Replay(old(client.State()), Reach(config.dryrun, [Call.CloseIssue(config.org, config.repo, issueNumber)]))
      ensures err.Some? <==> !config.dryrun && (Closing in client.failing || IndexOf(old(client.issues), issueNumber).None?)
      ensures err == ErrorOf(if config.dryrun then None else Some(Step(old(client.State()), Call.CloseIssue(config.org, config.repo, issueNumber)).reply))
    {
      var org := config.org;
      var repo := config.repo;
      var reply := Run(client, Call.CloseIssue(org, repo, issueNumber), config.dryrun);
      err := ErrorOf(reply);
    }

    /** The closed-issue branch of AddIssue: reopen, then comment; a failed reopen returns at once. */
    method ReopenAndComment(org: string, repo: string, issue: Issue, desc: string, dryrun: bool)
      returns (outcome: Outcome)
      requires issue in client.issues
      modifies client
      ensures client.trace == old(client.trace) + ReopenCalls(old(client.State()), org, repo, issue.number, desc, dryrun)
      ensures client.State() == Replay(old(client.State()), ReopenCalls(old(client.State()), org, repo, issue.number, desc, dryrun))
      ensures outcome == ReopenOutcome(old(client.State()), dryrun)
    {
      ghost var g := client.State();
      ghost var t0 := client.trace;
      var n := issue.number;
      ghost var reopen := Reach(dryrun, [Call.ReopenIssue(org, repo, n)]);
      ExistingIssueReachable(g, issue, Call.ReopenIssue(org, repo, n));
      ghost var g1 := Replay(g, reopen);
      var err := ReopenIssue(org, repo, n, dryrun);
      if err.Some? {
        assert reopen + [] == reopen;
        return Err(Backend(err.value));
      }
      var comment := ReopenComment(desc);
      ghost var commenting := Reach(dryrun, [CreateComment(org, repo, n, comment)]);
      assert g1.failing == g.failing;
      err := AddComment(org, repo, n, comment, dryrun);
      ReplayAppend(g, reopen, commenting);
      AppendAssociative(t0, reopen, commenting);
      if err.Some? {
        return Err(Backend(err.value));
      }
      return Ok;
    }

    /**
      The branches of AddIssue on an issue the lookup found: a closed issue is
      reopened and then commented on, an open one quiet for more than ten days
      is commented on, and an open one updated within ten days is left alone.
    */
    method UpdateExistingIssue(org: string, repo: string, issue: Issue, desc: string, now: int, dryrun: bool)
      returns (outcome: Outcome)
      requires issue in client.issues
      modifies client
      ensures client.trace == old(client.trace) + ExistingIssueCalls(old(client.State()), org, repo, Decide(Some(issue), now), desc, dryrun)
      ensures client.State() == Replay(old(client.State()), ExistingIssueCalls(old(client.State()), org, repo, Decide(Some(issue), now), desc, dryrun))
      ensures outcome == ExistingIssueOutcome(old(client.State()), Decide(Some(issue), now), dryrun)
    {
      ghost var g := client.State();
      var n := issue.number;
      if issue.state == Closed {
        assert Decide(Some(issue), now) == ReopenClosed(n);
        outcome := ReopenAndComment(org, repo, issue, desc, dryrun);
      } else if IsStale(now, issue.updatedAt) {
        assert Decide(Some(issue), now) == CommentStale(n);
        var comment := NewRegressionComment(desc);
        ExistingIssueReachable(g, issue, CreateComment(org, repo, n, comment));
        var err := AddComment(org, repo, n, comment, dryrun);
        outcome := if err.Some? then Err(Backend(err.value)) else Ok;
      } else {
        assert Decide(Some(issue), now) == LeaveFresh(n);
        assert Replay(g, []) == g;
        outcome := Ok;
      }
    }

    /** AddIssue, as written. */
    method AddIssue(testName: string, desc: string, now: int) returns (outcome: Outcome)
      modifies client
      ensures client.trace == old(client.trace) + AddIssueCalls(old(client.State()), config, testName, desc, now)
      ensures client.State() == Replay(old(client.State()), AddIssueCalls(old(client.State()), config, testName, desc, now))
      ensures outcome == AddIssueOutcome(old(client.State()), config, testName, desc, now)
    {
      ghost var g := client.State();
      ghost var t0 := client.trace;
      var org := config.org;
      var repo := config.repo;
      var dryrun := config.dryrun;
      var title := Title(testName);
      var issue := FindIssue(org, repo, title, dryrun);
      ghost var listing := Reach(dryrun, [ListCall(org, repo)]);
      ListingChangesNothing(g, org, repo, dryrun);
      assert issue == Lookup(g, config, testName);
      ghost var rest: seq<Call>;
      if issue == None {
        var body := Body(testName);
        rest := CreateNewIssueCalls(g, org, repo, title, body, dryrun);
        var err, _ := CreateNewIssue(org, repo, title, body, dryrun);
        if err.Some? {
          outcome := Err(err.value);
        } else {
          // The comment step passes the number of the lookup result, which is nil in this branch.
          outcome := Panic;
        }
      } else {
        rest := ExistingIssueCalls(g, org, repo, Decide(issue, now), desc, dryrun);
        outcome := UpdateExistingIssue(org, repo, issue.value, desc, now, dryrun);
      }
      ReplayAppend(g, listing, rest);
      assert AddIssueCalls(g, config, testName, desc, now) == listing + rest;
      assert client.trace == t0 + listing + rest;
      AppendAssociative(t0, listing, rest);
    }

    /** The no-issue branch as evidently intended: create, label, then comment on the issue just created. */
    method ReportNewIssue(org: string, repo: string, testName: string, desc: string, dryrun: bool)
      returns (outcome: Outcome)
      modifies client
      ensures client.trace == old(client.trace) + NewIssueFixedCalls(old(client.State()), org, repo, testName, desc, dryrun)
      ensures client.State() == Replay(old(client.State()), NewIssueFixedCalls(old(client.State()), org, repo, testName, desc, dryrun))
      ensures outcome == NewIssueFixedOutcome(old(client.State()), repo, testName, dryrun)
    {
      ghost var g := client.State();
      ghost var t0 := client.trace;
      var title := Title(testName);
      var body := Body(testName);
      ghost var creation := CreateNewIssueCalls(g, org, repo, title, body, dryrun);
      var err, created := CreateNewIssue(org, repo, title, body, dryrun);
      if err.Some? {
        assert creation + [] == creation;
        return Err(err.value);
      }
      var comment := NewRegressionComment(desc);
      var number := if created.Some? then created.value.number else 0;
      ghost var commenting := Reach(dryrun, [CreateComment(org, repo, number, comment)]);
      var cerr := AddComment(org, repo, number, comment, dryrun);
      ReplayAppend(g, creation, commenting);
      AppendAssociative(t0, creation, commenting);
      if cerr.Some? {
        return Err(Backend(cerr.value));
      }
      return Ok;
    }

    /** AddIssue as evidently intended: the no-issue branch comments on the issue it has just created. */
    method AddIssueFixed(testName: string, desc: string, now: int) returns (outcome: Outcome)
      modifies client
      ensures client.trace == old(client.trace) + AddIssueFixedCalls(old(client.State()), config, testName, desc, now)
      ensures client.State() == Replay(old(client.State()), AddIssueFixedCalls(old(client.State()), config, testName, desc, now))
      ensures outcome == AddIssueFixedOutcome(old(client.State()), config, testName, desc, now)
    {
      ghost var g := client.State();
      ghost var t0 := client.trace;
      var org := config.org;
      var repo := config.repo;
      var dryrun := config.dryrun;
      var title := Title(testName);
      var issue := FindIssue(org, repo, title, dryrun);
      ghost var listing := Reach(dryrun, [ListCall(org, repo)]);
      ListingChangesNothing(g, org, repo, dryrun);
      assert issue == Lookup(g, config, testName);
      ghost var rest: seq<Call>;
      if issue == None {
        rest := NewIssueFixedCalls(g, org, repo, testName, desc, dryrun);
        outcome := ReportNewIssue(org, repo, testName, desc, dryrun);
      } else {
        rest := ExistingIssueCalls(g, org, repo, Decide(issue, now), desc, dryrun);
        outcome := UpdateExistingIssue(org, repo, issue.value, desc, now, dryrun);
      }
      ReplayAppend(g, listing, rest);
      assert AddIssueFixedCalls(g, config, testName, desc, now) == listing + rest;
      assert client.trace == t0 + listing + rest;
      AppendAssociative(t0, listing, rest);
    }
  }

  // ---------------------------------------------------------------------------
  // Facts about the backend that the handler relies on
  // ---------------------------------------------------------------------------

  /** The listing call changes nothing. */
  lemma ListingChangesNothing(g: Repository, org: string, repo: string, dryrun: bool)
    ensures Replay(g, Reach(dryrun, [ListCall(org, repo)])) == g
  {
    if !dryrun {
      assert Replay(g, [ListCall(org, repo)]) == Replay(Step(g, ListCall(org, repo)).next, []);
    }
  }

  /** A targeted call that is not a create keeps a held number held, and fails only by injection. */
  lemma HeldStaysHeld(g: Repository, call: Call, dryrun: bool)
    requires !call.ListIssuesByRepo? && !call.CreateIssue?
    ensures IndexOf(g.issues, call.number).Some? ==>
              IndexOf(Replay(g, Reach(dryrun, [call])).issues, call.number).Some?
              && ErrorOf(if dryrun then None else Some(Step(g, call).reply))
                 == (if Fails(g, call.Kind(), dryrun) then Some(Injected(call.Kind())) else None)
  {
    if IndexOf(g.issues, call.number).Some? && !dryrun {
      ReplayCons(g, call, []);
      var k := IndexOf(g.issues, call.number).value;
      assert Step(g, call).next.issues[k].number == call.number;
    }
  }

  /** An issue the backend holds can be reached by its number, before and after a call that is not a create. */
  lemma ExistingIssueReachable(g: Repository, issue: Issue, call: Call)
    requires issue in g.issues
    requires !call.CreateIssue?
    ensures IndexOf(g.issues, issue.number).Some?
    ensures IndexOf(Step(g, call).next.issues, issue.number).Some?
  {
    var k :| 0 <= k < |g.issues| && g.issues[k] == issue;
    assert Step(g, call).next.issues[k].number == issue.number;
  }

  /** With create and label both through, createNewIssue leaves one new issue, open and labelled auto:perf. */
  lemma NewIssueCreated(g: Repository, org: string, repo: string, title: string, body: string)
    requires Wf(g) && Creating !in g.failing && Labelling !in g.failing
    ensures Replay(g, CreateNewIssueCalls(g, org, repo, title, body, false)).issues
            == g.issues + [Issue(g.nextNumber, title, body, Open, g.clock, {PerfLabel}, [])]
    ensures Replay(g, CreateNewIssueCalls(g, org, repo, title, body, false)).nextNumber == g.nextNumber + 1
  {
    var create := CreateIssue(org, repo, title, body);
    var labelling := AddLabelsToIssue(org, repo, g.nextNumber, [PerfLabel]);
    assert CreateNewIssueCalls(g, org, repo, title, body, false) == [create] + [labelling];
    ReplayTwo(g, create, labelling);
    var created := Issue(g.nextNumber, title, body, Open, g.clock, {}, []);
    var g1 := Step(g, create).next;
    assert g1 == g.(issues := g.issues + [created], nextNumber := g.nextNumber + 1);
    StepPreservesWf(g, create);
    var n := |g.issues|;
    StepOnHeld(g1, n, labelling);
    var labelled := Issue(g.nextNumber, title, body, Open, g.clock, {PerfLabel}, []);
    assert (set l | l in [PerfLabel]) == {PerfLabel};
    assert Touch(created, labelling, g.clock) == labelled;
    assert g1.issues[n := labelled] == g.issues + [labelled];
  }

  lemma ReplayTwo(g: Repository, first: Call, second: Call)
    ensures Replay(g, [first] + [second]) == Step(Step(g, first).next, second).next
  {
    ReplayCons(g, first, [second]);
    ReplayCons(Step(g, first).next, second, []);
  }

  /** With distinct numbers, an issue's number leads back to its own position. */
  lemma IndexOfHeld(g: Repository, k: nat)
    requires Wf(g) && k < |g.issues|
    ensures IndexOf(g.issues, g.issues[k].number) == Some(k)
  {
  }

  /** A successful call on a held issue rewrites that issue alone, and keeps the numbering well formed. */
  lemma StepOnHeld(g: Repository, k: nat, call: Call)
    requires Wf(g) && k < |g.issues| && call.Kind() !in g.failing
    requires !call.ListIssuesByRepo? && !call.CreateIssue? && call.number == g.issues[k].number
    ensures Step(g, call).next == g.(issues := g.issues[k := Touch(g.issues[k], call, g.clock)])
    ensures Wf(Step(g, call).next)
  {
    IndexOfHeld(g, k);
    StepPreservesWf(g, call);
  }

  lemma ReplayCons(g: Repository, call: Call, rest: seq<Call>)
    ensures Replay(g, [call] + rest) == Replay(Step(g, call).next, rest)
  {
    assert ([call] + rest)[1..] == rest;
  }

  /** A listing followed by two calls moves the backend as the two calls do. */
  lemma ReplayListThenTwo(g: Repository, list: Call, first: Call, second: Call)
    requires list.ListIssuesByRepo?
    ensures Replay(g, [list, first, second]) == Step(Step(g, first).next, second).next
  {
    assert [list, first, second] == [list] + ([first] + [second]);
    ReplayCons(g, list, [first] + [second]);
    ReplayCons(g, first, [second]);
    ReplayCons(Step(g, first).next, second, []);
  }

  lemma ReplayThenOne(g: Repository, calls: seq<Call>, last: Call)
    ensures Replay(g, calls + [last]) == Step(Replay(g, calls), last).next
  {
    ReplayAppend(g, calls, [last]);
    ReplayCons(Replay(g, calls), last, []);
  }

  // ---------------------------------------------------------------------------
  // Each branch on its own
  // ---------------------------------------------------------------------------

  /** AddIssue, in both versions, follows the branch its lookup and the clock decide. */
  lemma Takes(g: Repository, cfg: Config, testName: string, desc: string, now: int, branch: Branch)
    requires Decide(Lookup(g, cfg, testName), now) == branch
    ensures AddIssueCalls(g, cfg, testName, desc, now) == BranchCalls(g, cfg, testName, desc, branch)
    ensures AddIssueOutcome(g, cfg, testName, desc, now) == BranchOutcome(g, cfg, testName, branch)
    ensures AddIssueFixedCalls(g, cfg, testName, desc, now) == FixedBranchCalls(g, cfg, testName, desc, branch)
    ensures AddIssueFixedOutcome(g, cfg, testName, desc, now) == FixedBranchOutcome(g, cfg, testName, branch)
  {
  }

  lemma ReopenBranch(g: Repository, cfg: Config, testName: string, desc: string, k: nat)
    requires Wf(g) && !cfg.dryrun && g.failing == {} && k < |g.issues|
    ensures var issue := g.issues[k];
            var calls := BranchCalls(g, cfg, testName, desc, ReopenClosed(issue.number));
            calls == [ListCall(cfg.org, cfg.repo), Call.ReopenIssue(cfg.org, cfg.repo, issue.number),
                      CreateComment(cfg.org, cfg.repo, issue.number, ReopenComment(desc))]
            && Replay(g, calls).nextNumber == g.nextNumber
            && Replay(g, calls).issues
               == g.issues[k := issue.(state := Open, comments := issue.comments + [ReopenComment(desc)], updatedAt := g.clock)]
    ensures BranchOutcome(g, cfg, testName, ReopenClosed(g.issues[k].number)) == Ok
  {
    var n := g.issues[k].number;
    var list := ListCall(cfg.org, cfg.repo);
    var reopen := Call.ReopenIssue(cfg.org, cfg.repo, n);
    var comment := CreateComment(cfg.org, cfg.repo, n, ReopenComment(desc));
    ReopenBranchCalls(g, cfg, testName, desc, n);
    ReplayListThenTwo(g, list, reopen, comment);
    TwoTouches(g, k, reopen, comment);
    ReopenTouch(g.issues[k], reopen, comment, g.clock);
  }

  lemma ReopenTouch(issue: Issue, reopen: Call, comment: Call, clock: int)
    requires reopen.ReopenIssue? && comment.CreateComment?
    ensures Touch(Touch(issue, reopen, clock), comment, clock)
            == issue.(state := Open, comments := issue.comments + [comment.body], updatedAt := clock)
  {
  }

  lemma ReopenBranchCalls(g: Repository, cfg: Config, testName: string, desc: string, n: int)
    requires !cfg.dryrun && g.failing == {}
    ensures BranchCalls(g, cfg, testName, desc, ReopenClosed(n))
            == [ListCall(cfg.org, cfg.repo), Call.ReopenIssue(cfg.org, cfg.repo, n), CreateComment(cfg.org, cfg.repo, n, ReopenComment(desc))]
  {
  }

  /** Two successful calls on the same held issue rewrite it twice, in order, and nothing else. */
  lemma TwoTouches(g: Repository, k: nat, first: Call, second: Call)
    requires Wf(g) && k < |g.issues| && first.Kind() !in g.failing && second.Kind() !in g.failing
    requires !first.ListIssuesByRepo? && !first.CreateIssue? && first.number == g.issues[k].number
    requires !second.ListIssuesByRepo? && !second.CreateIssue? && second.number == g.issues[k].number
    ensures Step(Step(g, first).next, second).next
            == g.(issues := g.issues[k := Touch(Touch(g.issues[k], first, g.clock), second, g.clock)])
  {
    StepOnHeld(g, k, first);
    StepOnHeld(Step(g, first).next, k, second);
  }

  lemma ReopenFailureBranch(g: Repository, cfg: Config, testName: string, desc: string, n: int)
    requires !cfg.dryrun && Reopening in g.failing
    ensures BranchCalls(g, cfg, testName, desc, ReopenClosed(n)) == [ListCall(cfg.org, cfg.repo), Call.ReopenIssue(cfg.org, cfg.repo, n)]
    ensures Replay(g, BranchCalls(g, cfg, testName, desc, ReopenClosed(n))) == g
    ensures BranchOutcome(g, cfg, testName, ReopenClosed(n)) == Err(Backend(Injected(Reopening)))
  {
    var list := ListCall(cfg.org, cfg.repo);
    var reopen := Call.ReopenIssue(cfg.org, cfg.repo, n);
    assert BranchCalls(g, cfg, testName, desc, ReopenClosed(n)) == [list] + [reopen];
    ReplayCons(g, list, [reopen]);
    ReplayCons(g, reopen, []);
  }

  lemma StaleBranch(g: Repository, cfg: Config, testName: string, desc: string, k: nat)
    requires Wf(g) && !cfg.dryrun && g.failing == {} && k < |g.issues|
    ensures var issue := g.issues[k];
            var calls := BranchCalls(g, cfg, testName, desc, CommentStale(issue.number));
            calls == [ListCall(cfg.org, cfg.repo), CreateComment(cfg.org, cfg.repo, issue.number, NewRegressionComment(desc))]
            && Replay(g, calls).nextNumber == g.nextNumber
            && Replay(g, calls).issues
               == g.issues[k := issue.(comments := issue.comments + [NewRegressionComment(desc)], updatedAt := g.clock)]
    ensures BranchOutcome(g, cfg, testName, CommentStale(g.issues[k].number)) == Ok
  {
    var issue := g.issues[k];
    var list := ListCall(cfg.org, cfg.repo);
    var comment := CreateComment(cfg.org, cfg.repo, issue.number, NewRegressionComment(desc));
    assert BranchCalls(g, cfg, testName, desc, CommentStale(issue.number)) == [list] + [comment];
    ReplayCons(g, list, [comment]);
    ReplayCons(g, comment, []);
    StepOnHeld(g, k, comment);
  }

  lemma FreshBranch(g: Repository, cfg: Config, testName: string, desc: string, n: int)
    requires !cfg.dryrun
    ensures BranchCalls(g, cfg, testName, desc, LeaveFresh(n)) == [ListCall(cfg.org, cfg.repo)]
    ensures Replay(g, BranchCalls(g, cfg, testName, desc, LeaveFresh(n))) == g
  {
    assert BranchCalls(g, cfg, testName, desc, LeaveFresh(n)) == [ListCall(cfg.org, cfg.repo)] + [];
    ListingChangesNothing(g, cfg.org, cfg.repo, false);
  }

  lemma CreateFailureBranch(g: Repository, cfg: Config, testName: string, desc: string)
    requires !cfg.dryrun && Creating in g.failing
    ensures BranchCalls(g, cfg, testName, desc, NoIssue)
            == [ListCall(cfg.org, cfg.repo), CreateIssue(cfg.org, cfg.repo, Title(testName), Body(testName))]
    ensures Replay(g, BranchCalls(g, cfg, testName, desc, NoIssue)) == g
  {
    var list := ListCall(cfg.org, cfg.repo);
    var create := CreateIssue(cfg.org, cfg.repo, Title(testName), Body(testName));
    assert BranchCalls(g, cfg, testName, desc, NoIssue) == [list] + [create];
    ReplayCons(g, list, [create]);
    ReplayCons(g, create, []);
  }

  /** The issue a successful create and label leave behind. */
  function NewIssue(g: Repository, testName: string, comments: seq<string>): Issue {
    Issue(g.nextNumber, Title(testName), Body(testName), Open, g.clock, {PerfLabel}, comments)
  }

  lemma NoIssueBranch(g: Repository, cfg: Config, testName: string, desc: string)
    requires Wf(g) && !cfg.dryrun && g.failing == {}
    ensures var after := Replay(g, BranchCalls(g, cfg, testName, desc, NoIssue));
            after.issues == g.issues + [NewIssue(g, testName, [])] && after.nextNumber == g.nextNumber + 1
    ensures forall c :: c in BranchCalls(g, cfg, testName, desc, NoIssue) ==> !c.CreateComment?
  {
    var list := ListCall(cfg.org, cfg.repo);
    var creation := CreateNewIssueCalls(g, cfg.org, cfg.repo, Title(testName), Body(testName), false);
    assert BranchCalls(g, cfg, testName, desc, NoIssue) == [list] + creation;
    ReplayCons(g, list, creation);
    NewIssueCreated(g, cfg.org, cfg.repo, Title(testName), Body(testName));
  }

  lemma NoIssueFixedBranch(g: Repository, cfg: Config, testName: string, desc: string)
    requires Wf(g) && !cfg.dryrun && g.failing == {}
    ensures var after := Replay(g, FixedBranchCalls(g, cfg, testName, desc, NoIssue));
            after.issues == g.issues + [NewIssue(g, testName, [NewRegressionComment(desc)])]
            && after.nextNumber == g.nextNumber + 1
  {
    var list := ListCall(cfg.org, cfg.repo);
    var creation := CreateNewIssueCalls(g, cfg.org, cfg.repo, Title(testName), Body(testName), false);
    var comment := CreateComment(cfg.org, cfg.repo, g.nextNumber, NewRegressionComment(desc));
    assert FixedBranchCalls(g, cfg, testName, desc, NoIssue) == [list] + (creation + [comment]);
    ReplayCons(g, list, creation + [comment]);
    CreateThenComment(g, cfg.org, cfg.repo, Title(testName), Body(testName), NewRegressionComment(desc));
  }

  /** Create, label, and comment on the number the backend hands out next. */
  lemma CreateThenComment(g: Repository, org: string, repo: string, title: string, body: string, text: string)
    requires Wf(g) && g.failing == {}
    ensures var after := Replay(g, CreateNewIssueCalls(g, org, repo, title, body, false) + [CreateComment(org, repo, g.nextNumber, text)]);
            after.issues == g.issues + [Issue(g.nextNumber, title, body, Open, g.clock, {PerfLabel}, [text])]
            && after.nextNumber == g.nextNumber + 1
  {
    var creation := CreateNewIssueCalls(g, org, repo, title, body, false);
    var comment := CreateComment(org, repo, g.nextNumber, text);
    var g2 := Replay(g, creation);
    ReplayThenOne(g, creation, comment);
    NewIssueCreated(g, org, repo, title, body);
    ReplayPreservesWf(g, creation);
    var n := |g.issues|;
    StepOnHeld(g2, n, comment);
    var labelled := Issue(g.nextNumber, title, body, Open, g.clock, {PerfLabel}, []);
    var commented := Issue(g.nextNumber, title, body, Open, g.clock, {PerfLabel}, [text]);
    assert g2.issues[n] == labelled;
    FirstCommentTouch(labelled, comment, g.clock);
    UpdateLast(g.issues, labelled, commented);
  }

  lemma FirstCommentTouch(issue: Issue, comment: Call, clock: int)
    requires comment.CreateComment? && issue.comments == [] && issue.updatedAt == clock
    ensures Touch(issue, comment, clock) == issue.(comments := [comment.body])
  {
    assert issue.comments + [comment.body] == [comment.body];
  }

  lemma UpdateLast<T>(xs: seq<T>, a: T, b: T)
    ensures (xs + [a])[|xs| := b] == xs + [b]
  {
  }

  /** No branch on a found issue creates one. */
  lemma ExistingBranchCreatesNothing(g: Repository, cfg: Config, testName: string, desc: string, branch: Branch)
    requires !branch.NoIssue?
    ensures forall c :: c in BranchCalls(g, cfg, testName, desc, branch) ==> !c.CreateIssue?
    ensures forall c :: c in FixedBranchCalls(g, cfg, testName, desc, branch) ==> !c.CreateIssue?
  {
    var listing := Reach(cfg.dryrun, [ListCall(cfg.org, cfg.repo)]);
    var rest := ExistingIssueCalls(g, cfg.org, cfg.repo, branch, desc, cfg.dryrun);
    assert forall c :: c in rest ==> !c.CreateIssue?;
    assert BranchCalls(g, cfg, testName, desc, branch) == listing + rest;
    assert FixedBranchCalls(g, cfg, testName, desc, branch) == listing + rest;
  }

  // ---------------------------------------------------------------------------
  // What AddIssue does
  // ---------------------------------------------------------------------------

  /**
    Dry run: no call reaches the backend, the lookup finds nothing, and so the
    as-written handler always reaches the nil dereference, while the corrected
    one succeeds.
  */
  lemma DryRunMakesNoCalls(g: Repository, org: string, repo: string, testName: string, desc: string, now: int)
    ensures AddIssueCalls(g, Config(org, repo, true), testName, desc, now) == []
    ensures AddIssueOutcome(g, Config(org, repo, true), testName, desc, now) == Panic
    ensures AddIssueFixedCalls(g, Config(org, repo, true), testName, desc, now) == []
    ensures AddIssueFixedOutcome(g, Config(org, repo, true), testName, desc, now) == Ok
  {
    var cfg := Config(org, repo, true);
    assert Lookup(g, cfg, testName) == None;
    Takes(g, cfg, testName, desc, now, NoIssue);
    assert CreateNewIssueCalls(g, org, repo, Title(testName), Body(testName), true) == [];
  }

  /** A failed listing is taken for "no issue": the handler goes on to create one. */
  lemma FailedListingCreates(g: Repository, cfg: Config, testName: string, desc: string, now: int)
    requires !cfg.dryrun && Listing in g.failing
    ensures Lookup(g, cfg, testName) == None
    ensures CreateIssue(cfg.org, cfg.repo, Title(testName), Body(testName)) in AddIssueCalls(g, cfg, testName, desc, now)
  {
    assert ListedIssues(g, cfg.org, cfg.repo, cfg.dryrun) == [];
    Takes(g, cfg, testName, desc, now, NoIssue);
    assert BranchCalls(g, cfg, testName, desc, NoIssue)[1] == CreateIssue(cfg.org, cfg.repo, Title(testName), Body(testName));
  }

  /** A closed issue is reopened and commented on; nothing is created. */
  lemma ClosedIssueReopened(g: Repository, cfg: Config, testName: string, desc: string, now: int, k: nat)
    requires Wf(g) && !cfg.dryrun && g.failing == {}
    requires k < |g.issues| && Lookup(g, cfg, testName) == Some(g.issues[k]) && g.issues[k].state == Closed
    ensures var issue := g.issues[k];
            AddIssueCalls(g, cfg, testName, desc, now)
            == [ListCall(cfg.org, cfg.repo), Call.ReopenIssue(cfg.org, cfg.repo, issue.number),
                CreateComment(cfg.org, cfg.repo, issue.number, ReopenComment(desc))]
    ensures var issue := g.issues[k];
            var after := Replay(g, AddIssueCalls(g, cfg, testName, desc, now));
            after.nextNumber == g.nextNumber
            && after.issues == g.issues[k := issue.(state := Open, comments := issue.comments + [ReopenComment(desc)], updatedAt := g.clock)]
    ensures AddIssueOutcome(g, cfg, testName, desc, now) == Ok
  {
    Takes(g, cfg, testName, desc, now, ReopenClosed(g.issues[k].number));
    ReopenBranch(g, cfg, testName, desc, k);
  }

  /** A failed reopen ends AddIssue at once: no comment, and the backend is as it was. */
  lemma ReopenFailureStops(g: Repository, cfg: Config, testName: string, desc: string, now: int, issue: Issue)
    requires !cfg.dryrun && Reopening in g.failing
    requires Lookup(g, cfg, testName) == Some(issue) && issue.state == Closed
    ensures AddIssueCalls(g, cfg, testName, desc, now)
            == [ListCall(cfg.org, cfg.repo), Call.ReopenIssue(cfg.org, cfg.repo, issue.number)]
    ensures Replay(g, AddIssueCalls(g, cfg, testName, desc, now)) == g
    ensures AddIssueOutcome(g, cfg, testName, desc, now) == Err(Backend(Injected(Reopening)))
  {
    Takes(g, cfg, testName, desc, now, ReopenClosed(issue.number));
    ReopenFailureBranch(g, cfg, testName, desc, issue.number);
  }

  /** An open issue quiet for more than ten days gets one new-regression comment; nothing else changes. */
  lemma StaleIssueCommented(g: Repository, cfg: Config, testName: string, desc: string, now: int, k: nat)
    requires Wf(g) && !cfg.dryrun && g.failing == {}
    requires k < |g.issues| && Lookup(g, cfg, testName) == Some(g.issues[k])
    requires g.issues[k].state == Open && now - g.issues[k].updatedAt > StaleAfter
    ensures var issue := g.issues[k];
            AddIssueCalls(g, cfg, testName, desc, now)
            == [ListCall(cfg.org, cfg.repo), CreateComment(cfg.org, cfg.repo, issue.number, NewRegressionComment(desc))]
    ensures var issue := g.issues[k];
            var after := Replay(g, AddIssueCalls(g, cfg, testName, desc, now));
            after.nextNumber == g.nextNumber
            && after.issues == g.issues[k := issue.(comments := issue.comments + [NewRegressionComment(desc)], updatedAt := g.clock)]
    ensures AddIssueOutcome(g, cfg, testName, desc, now) == Ok
  {
    Takes(g, cfg, testName, desc, now, CommentStale(g.issues[k].number));
    StaleBranch(g, cfg, testName, desc, k);
  }

  /** An open issue updated within ten days (exactly ten included) is left alone: only the listing is made. */
  lemma FreshIssueLeftAlone(g: Repository, cfg: Config, testName: string, desc: string, now: int, issue: Issue)
    requires !cfg.dryrun
    requires Lookup(g, cfg, testName) == Some(issue) && issue.state == Open && now - issue.updatedAt <= StaleAfter
    ensures AddIssueCalls(g, cfg, testName, desc, now) == [ListCall(cfg.org, cfg.repo)]
    ensures Replay(g, AddIssueCalls(g, cfg, testName, desc, now)) == g
    ensures AddIssueOutcome(g, cfg, testName, desc, now) == Ok
  {
    Takes(g, cfg, testName, desc, now, LeaveFresh(issue.number));
    FreshBranch(g, cfg, testName, desc, issue.number);
  }

  /** A failed create ends AddIssue with an error naming title and repo, before any label call. */
  lemma CreateFailureSkipsLabel(g: Repository, cfg: Config, testName: string, desc: string, now: int)
    requires !cfg.dryrun && Creating in g.failing && Lookup(g, cfg, testName) == None
    ensures AddIssueCalls(g, cfg, testName, desc, now)
            == [ListCall(cfg.org, cfg.repo), CreateIssue(cfg.org, cfg.repo, Title(testName), Body(testName))]
    ensures Replay(g, AddIssueCalls(g, cfg, testName, desc, now)) == g
    ensures AddIssueOutcome(g, cfg, testName, desc, now) == Err(CreateFailed(Title(testName), cfg.repo))
  {
    Takes(g, cfg, testName, desc, now, NoIssue);
    CreateFailureBranch(g, cfg, testName, desc);
  }

  /**
    No issue, as written: the new issue is created and labelled but never
    commented on, and AddIssue ends in the nil-pointer panic.
  */
  lemma NoIssueAsWrittenPanics(g: Repository, cfg: Config, testName: string, desc: string, now: int)
    requires Wf(g) && !cfg.dryrun && g.failing == {} && Lookup(g, cfg, testName) == None
    ensures var after := Replay(g, AddIssueCalls(g, cfg, testName, desc, now));
            after.issues == g.issues + [NewIssue(g, testName, [])] && after.nextNumber == g.nextNumber + 1
    ensures forall c :: c in AddIssueCalls(g, cfg, testName, desc, now) ==> !c.CreateComment?
    ensures AddIssueOutcome(g, cfg, testName, desc, now) == Panic
  {
    Takes(g, cfg, testName, desc, now, NoIssue);
    NoIssueBranch(g, cfg, testName, desc);
  }

  /** No issue, corrected: the new issue is created, labelled, and carries the new-regression comment. */
  lemma NoIssueFixedComments(g: Repository, cfg: Config, testName: string, desc: string, now: int)
    requires Wf(g) && !cfg.dryrun && g.failing == {} && Lookup(g, cfg, testName) == None
    ensures var after := Replay(g, AddIssueFixedCalls(g, cfg, testName, desc, now));
            after.issues == g.issues + [NewIssue(g, testName, [NewRegressionComment(desc)])]
            && after.nextNumber == g.nextNumber + 1
    ensures AddIssueFixedOutcome(g, cfg, testName, desc, now) == Ok
  {
    Takes(g, cfg, testName, desc, now, NoIssue);
    NoIssueFixedBranch(g, cfg, testName, desc);
  }

  /** An issue added after a lookup that found nothing is the one the next lookup finds. */
  lemma AddedIssueFoundNextTime(g: Repository, cfg: Config, testName: string, added: Issue, after: Repository)
    requires !cfg.dryrun && Listing !in g.failing && Lookup(g, cfg, testName) == None
    requires added.title == Title(testName) && PerfLabel in added.labels
    requires after.issues == g.issues + [added] && after.failing == g.failing
    ensures Lookup(after, cfg, testName) == Some(added)
  {
    var before := Filter(g.issues, [PerfLabel]);
    FilterAppend(g.issues, [added], [PerfLabel]);
    assert Filter([added], [PerfLabel]) == [added];
    var listed := before + [added];
    assert ListedIssues(after, cfg.org, cfg.repo, false) == listed;
    assert forall j :: 0 <= j < |before| ==> listed[j].title != Title(testName) by {
      forall j | 0 <= j < |before|
        ensures listed[j].title != Title(testName)
      {
        assert listed[j] == before[j];
      }
    }
    FindByTitleIsFirst(listed, Title(testName), |before|);
  }

  /** Once the lookup finds an issue, neither version creates one. */
  lemma FoundIssueCreatesNothing(g: Repository, cfg: Config, testName: string, desc: string, now: int)
    requires Lookup(g, cfg, testName).Some?
    ensures forall c :: c in AddIssueCalls(g, cfg, testName, desc, now) ==> !c.CreateIssue?
    ensures forall c :: c in AddIssueFixedCalls(g, cfg, testName, desc, now) ==> !c.CreateIssue?
  {
    var branch := Decide(Lookup(g, cfg, testName), now);
    Takes(g, cfg, testName, desc, now, branch);
    ExistingBranchCreatesNothing(g, cfg, testName, desc, branch);
  }

  /**
    The title is the key that keeps one tracked issue per test: after the
    corrected AddIssue creates an issue, a second AddIssue for the same test
    finds it and creates nothing, whenever it runs.
  */
  lemma FixedRetryCreatesNothing(g: Repository, cfg: Config, testName: string, desc: string, now: int, desc2: string, later: int)
    requires Wf(g) && !cfg.dryrun && g.failing == {} && Lookup(g, cfg, testName) == None
    ensures var after := Replay(g, AddIssueFixedCalls(g, cfg, testName, desc, now));
            Lookup(after, cfg, testName) == Some(NewIssue(g, testName, [NewRegressionComment(desc)]))
            && forall c :: c in AddIssueFixedCalls(after, cfg, testName, desc2, later) ==> !c.CreateIssue?
  {
    var after := Replay(g, AddIssueFixedCalls(g, cfg, testName, desc, now));
    NoIssueFixedComments(g, cfg, testName, desc, now);
    AddedIssueFoundNextTime(g, cfg, testName, NewIssue(g, testName, [NewRegressionComment(desc)]), after);
    FoundIssueCreatesNothing(after, cfg, testName, desc2, later);
  }

  /** Even the as-written handler, which panics after labelling, leaves an issue that the next AddIssue finds. */
  lemma AsWrittenRetryFindsIssue(g: Repository, cfg: Config, testName: string, desc: string, now: int)
    requires Wf(g) && !cfg.dryrun && g.failing == {} && Lookup(g, cfg, testName) == None
    ensures Lookup(Replay(g, AddIssueCalls(g, cfg, testName, desc, now)), cfg, testName) == Some(NewIssue(g, testName, []))
  {
    var after := Replay(g, AddIssueCalls(g, cfg, testName, desc, now));
    NoIssueAsWrittenPanics(g, cfg, testName, desc, now);
    AddedIssueFoundNextTime(g, cfg, testName, NewIssue(g, testName, []), after);
  }

  /** Closing a held issue marks it closed and changes nothing else. */
  lemma CloseIssueCloses(g: Repository, org: string, repo: string, k: nat)
    requires Wf(g) && Closing !in g.failing && k < |g.issues|
    ensures Replay(g, [Call.CloseIssue(org, repo, g.issues[k].number)]).issues
            == g.issues[k := g.issues[k].(state := Closed, updatedAt := g.clock)]
    ensures Replay(g, [Call.CloseIssue(org, repo, g.issues[k].number)]).nextNumber == g.nextNumber
  {
    var close := Call.CloseIssue(org, repo, g.issues[k].number);
    ReplayCons(g, close, []);
    StepOnHeld(g, k, close);
  }

  // ---------------------------------------------------------------------------
  // One tracked issue per test
  // ---------------------------------------------------------------------------

  /** No two issues labelled auto:perf share a title: the title keys the one issue tracking a test. */
  ghost predicate OneLabelledPerTitle(issues: seq<Issue>) {
    forall j, k :: 0 <= j < k < |issues| && PerfLabel in issues[j].labels && PerfLabel in issues[k].labels
      ==> issues[j].title != issues[k].title
  }

  /** Title t is kept for the issue numbered n: that issue, if held, has title t, and no other labelled issue has it. */
  ghost predicate Reserved(issues: seq<Issue>, n: int, t: string) {
    (forall k :: 0 <= k < |issues| && issues[k].number == n ==> issues[k].title == t)
    && (forall k :: 0 <= k < |issues| && issues[k].number != n && PerfLabel in issues[k].labels ==> issues[k].title != t)
  }

  /** A call that respects the reservation: a create only with title t, a label only auto:perf and only on n. */
  predicate SafeCall(c: Call, n: int, t: string) {
    match c
    case CreateIssue(_, _, title, _) => title == t
    case AddLabelsToIssue(_, _, number, labels) => number == n && labels == [PerfLabel]
    case _ => true
  }

  lemma SafeStep(g: Repository, c: Call, n: int, t: string)
    requires Wf(g) && OneLabelledPerTitle(g.issues) && Reserved(g.issues, n, t) && SafeCall(c, n, t)
    ensures OneLabelledPerTitle(Step(g, c).next.issues) && Reserved(Step(g, c).next.issues, n, t)
  {
    var s := Step(g, c);
    if s.reply.Failed? || c.ListIssuesByRepo? {
    } else if c.CreateIssue? {
      var m := |g.issues|;
      assert s.next.issues == g.issues + [s.next.issues[m]];
      assert s.next.issues[m].labels == {} && s.next.issues[m].title == t;
    } else {
      var i := IndexOf(g.issues, c.number).value;
      var x := Touch(g.issues[i], c, g.clock);
      assert s.next.issues == g.issues[i := x];
      assert x.title == g.issues[i].title && x.number == g.issues[i].number;
      if c.AddLabelsToIssue? {
        assert x.number == n && x.title == t;
        assert forall k :: 0 <= k < |g.issues| && k != i ==> g.issues[k].number != n;
      } else {
        assert x.labels == g.issues[i].labels;
      }
    }
  }

  lemma {:induction false} SafeReplay(g: Repository, calls: seq<Call>, n: int, t: string)
    requires Wf(g) && OneLabelledPerTitle(g.issues) && Reserved(g.issues, n, t)
    requires forall c :: c in calls ==> SafeCall(c, n, t)
    ensures OneLabelledPerTitle(Replay(g, calls).issues)
    decreases |calls|
  {
    if calls != [] {
      SafeStep(g, calls[0], n, t);
      StepPreservesWf(g, calls[0]);
      assert forall c :: c in calls[1..] ==> c in calls;
      SafeReplay(Step(g, calls[0]).next, calls[1..], n, t);
    }
  }

  /** The calls of the no-issue branch, in both versions, respect the title's reservation for the next number. */
  lemma NoIssueCallsSafe(g: Repository, cfg: Config, testName: string, desc: string)
    ensures forall c :: c in BranchCalls(g, cfg, testName, desc, NoIssue) ==> SafeCall(c, g.nextNumber, Title(testName))
    ensures forall c :: c in FixedBranchCalls(g, cfg, testName, desc, NoIssue) ==> SafeCall(c, g.nextNumber, Title(testName))
  {
    var listing := Reach(cfg.dryrun, [ListCall(cfg.org, cfg.repo)]);
    var creation := CreateNewIssueCalls(g, cfg.org, cfg.repo, Title(testName), Body(testName), cfg.dryrun);
    var fixed := NewIssueFixedCalls(g, cfg.org, cfg.repo, testName, desc, cfg.dryrun);
    assert forall c :: c in creation ==> SafeCall(c, g.nextNumber, Title(testName));
    assert forall c :: c in fixed ==> c in creation || c.CreateComment?;
    assert BranchCalls(g, cfg, testName, desc, NoIssue) == listing + creation;
    assert FixedBranchCalls(g, cfg, testName, desc, NoIssue) == listing + fixed;
  }

  /** The calls on a found issue create nothing and label nothing. */
  lemma ExistingCallsSafe(g: Repository, cfg: Config, testName: string, desc: string, branch: Branch, n: int, t: string)
    requires !branch.NoIssue?
    ensures forall c :: c in BranchCalls(g, cfg, testName, desc, branch) ==> SafeCall(c, n, t)
    ensures forall c :: c in FixedBranchCalls(g, cfg, testName, desc, branch) ==> SafeCall(c, n, t)
  {
    var listing := Reach(cfg.dryrun, [ListCall(cfg.org, cfg.repo)]);
    var rest := ExistingIssueCalls(g, cfg.org, cfg.repo, branch, desc, cfg.dryrun);
    assert forall c :: c in rest ==> c.ReopenIssue? || c.CreateComment?;
    assert BranchCalls(g, cfg, testName, desc, branch) == listing + rest;
    assert FixedBranchCalls(g, cfg, testName, desc, branch) == listing + rest;
  }

  /** A found issue reserves its title for its own number. */
  lemma FoundReserves(g: Repository, cfg: Config, testName: string, issue: Issue)
    requires Wf(g) && OneLabelledPerTitle(g.issues) && Lookup(g, cfg, testName) == Some(issue)
    ensures Reserved(g.issues, issue.number, Title(testName))
  {
    var idx :| 0 <= idx < |g.issues| && g.issues[idx] == issue;
    assert forall k :: 0 <= k < |g.issues| && g.issues[k].number == issue.number ==> k == idx;
  }

  /**
    With the listing through (or skipped in dry-run mode), AddIssue, as
    written and corrected, keeps at most one auto:perf issue per title: it
    creates only when no labelled issue has the title, and labels only the
    issue it has just created.
  */
  lemma AddIssueKeepsOnePerTitle(g: Repository, cfg: Config, testName: string, desc: string, now: int)
    requires Wf(g) && OneLabelledPerTitle(g.issues) && (cfg.dryrun || Listing !in g.failing)
    ensures OneLabelledPerTitle(Replay(g, AddIssueCalls(g, cfg, testName, desc, now)).issues)
    ensures OneLabelledPerTitle(Replay(g, AddIssueFixedCalls(g, cfg, testName, desc, now)).issues)
  {
    var branch := Decide(Lookup(g, cfg, testName), now);
    Takes(g, cfg, testName, desc, now, branch);
    if cfg.dryrun {
      DryRunMakesNoCalls(g, cfg.org, cfg.repo, testName, desc, now);
      assert cfg == Config(cfg.org, cfg.repo, true);
    } else if Lookup(g, cfg, testName) == None {
      NoIssueCallsSafe(g, cfg, testName, desc);
      SafeReplay(g, BranchCalls(g, cfg, testName, desc, NoIssue), g.nextNumber, Title(testName));
      SafeReplay(g, FixedBranchCalls(g, cfg, testName, desc, NoIssue), g.nextNumber, Title(testName));
    } else {
      var issue := Lookup(g, cfg, testName).value;
      FoundReserves(g, cfg, testName, issue);
      ExistingCallsSafe(g, cfg, testName, desc, branch, issue.number, Title(testName));
      SafeReplay(g, BranchCalls(g, cfg, testName, desc, branch), issue.number, Title(testName));
      SafeReplay(g, FixedBranchCalls(g, cfg, testName, desc, branch), issue.number, Title(testName));
    }
  }

  /** A call that neither creates nor labels keeps every issue's title and labels. */
  lemma StepKeepsKeys(g: Repository, c: Call)
    requires !c.CreateIssue? && !c.AddLabelsToIssue?
    ensures |Step(g, c).next.issues| == |g.issues|
    ensures forall i :: 0 <= i < |g.issues| ==>
              Step(g, c).next.issues[i].title == g.issues[i].title && Step(g, c).next.issues[i].labels == g.issues[i].labels
  {
    var s := Step(g, c);
    if !s.reply.Failed? && !c.ListIssuesByRepo? {
      var i := IndexOf(g.issues, c.number).value;
      assert s.next.issues == g.issues[i := Touch(g.issues[i], c, g.clock)];
    }
  }

  /**
    A failed listing breaks the invariant: findIssue drops the listing error,
    so while a labelled issue already carries the title, AddIssue, as written
    and corrected, creates and labels a second one.
  */
  lemma FailedListingDuplicates(g: Repository, cfg: Config, testName: string, desc: string, now: int, k: nat)
    requires Wf(g) && OneLabelledPerTitle(g.issues) && !cfg.dryrun
    requires Listing in g.failing && Creating !in g.failing && Labelling !in g.failing
    requires k < |g.issues| && g.issues[k].title == Title(testName) && PerfLabel in g.issues[k].labels
    ensures !OneLabelledPerTitle(Replay(g, AddIssueCalls(g, cfg, testName, desc, now)).issues)
    ensures !OneLabelledPerTitle(Replay(g, AddIssueFixedCalls(g, cfg, testName, desc, now)).issues)
  {
    var listing := [ListCall(cfg.org, cfg.repo)];
    var creation := CreateNewIssueCalls(g, cfg.org, cfg.repo, Title(testName), Body(testName), false);
    var comment := NewIssueFixedCalls(g, cfg.org, cfg.repo, testName, desc, false)[|creation|..];
    FailedListingCreates(g, cfg, testName, desc, now);
    Takes(g, cfg, testName, desc, now, NoIssue);
    assert AddIssueCalls(g, cfg, testName, desc, now) == listing + creation;
    assert AddIssueFixedCalls(g, cfg, testName, desc, now) == (listing + creation) + comment;
    ListingChangesNothing(g, cfg.org, cfg.repo, false);
    ReplayAppend(g, listing, creation);
    NewIssueCreated(g, cfg.org, cfg.repo, Title(testName), Body(testName));
    var after := Replay(g, listing + creation);
    var m := |g.issues|;
    assert after.issues[m].title == Title(testName) && PerfLabel in after.issues[m].labels;
    assert after.issues[k] == g.issues[k];
    ReplayAppend(g, listing + creation, comment);
    if comment != [] {
      assert comment == [CreateComment(cfg.org, cfg.repo, g.nextNumber, NewRegressionComment(desc))];
      ReplayCons(after, comment[0], []);
      StepKeepsKeys(after, comment[0]);
    }
  }
}
