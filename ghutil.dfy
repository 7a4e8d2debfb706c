/**
  An in-memory stand-in for the GitHub client the issue handler is given
  (the six operations it uses of ghutil.GithubOperations).

  The backend serves one repository: a list of issues in creation order, the
  number the next created issue gets, a clock that stamps every update, and
  the set of operations that are made to fail (so that every error path of
  the handler can be reached). A call that names an issue number the backend
  does not hold fails as well. The pure function Step says what one call does;
  the class FakeClient holds that state, applies Step and keeps the trace of
  every call that reached it.
*/
module Ghutil {
  import opened Wrappers

  datatype IssueState = Open | Closed

  datatype Issue = Issue(number: int, title: string, body: string, state: IssueState,
                         updatedAt: int, labels: set<string>, comments: seq<string>)

  datatype CallKind = Listing | Creating | Labelling | Commenting | Reopening | Closing

  /** One backend call with its arguments, as the handler's closures make it. */
  datatype Call =
    | ListIssuesByRepo(org: string, repo: string, labels: seq<string>)
    | CreateIssue(org: string, repo: string, title: string, body: string)
    | AddLabelsToIssue(org: string, repo: string, number: int, labels: seq<string>)
    | CreateComment(org: string, repo: string, number: int, body: string)
    | ReopenIssue(org: string, repo: string, number: int)
    | CloseIssue(org: string, repo: string, number: int)
  {
    function Kind(): CallKind {
      match this
      case ListIssuesByRepo(_, _, _) => Listing
      case CreateIssue(_, _, _, _) => Creating
      case AddLabelsToIssue(_, _, _, _) => Labelling
      case CreateComment(_, _, _, _) => Commenting
      case ReopenIssue(_, _, _) => Reopening
      case CloseIssue(_, _, _) => Closing
    }
  }

  datatype BackendError = Injected(kind: CallKind) | NoSuchIssue(number: int)

  datatype Reply = Listed(issues: seq<Issue>) | Created(issue: Issue) | Done | Failed(error: BackendError)

  datatype Repository = Repository(issues: seq<Issue>, nextNumber: int, clock: int, failing: set<CallKind>)

  datatype Stepped = Stepped(next: Repository, reply: Reply)

  /** Issue numbers are positive, below the next number to hand out, and distinct. */
  ghost predicate Wf(g: Repository) {
    0 < g.nextNumber
    && (forall k :: 0 <= k < |g.issues| ==> 0 < g.issues[k].number < g.nextNumber)
    && (forall j, k :: 0 <= j < k < |g.issues| ==> g.issues[j].number != g.issues[k].number)
  }

  /** The same issues, by position and number (only what they hold may differ). */
  predicate SameNumbers(a: seq<Issue>, b: seq<Issue>) {
    |a| == |b| && forall k :: 0 <= k < |a| ==> a[k].number == b[k].number
  }

  predicate HasLabels(issue: Issue, labels: seq<string>) {
    forall l :: l in labels ==> l in issue.labels
  }

  /** The issues carrying every one of the labels, in their stored order. */
  function Filter(issues: seq<Issue>, labels: seq<string>): (r: seq<Issue>)
    ensures forall x :: x in r <==> x in issues && HasLabels(x, labels)
    ensures |r| <= |issues|
  {
    if issues == [] then []
    else (if HasLabels(issues[0], labels) then [issues[0]] else []) + Filter(issues[1..], labels)
  }

  lemma {:induction false} FilterAppend(issues: seq<Issue>, extra: seq<Issue>, labels: seq<string>)
    ensures Filter(issues + extra, labels) == Filter(issues, labels) + Filter(extra, labels)
  {
    if issues == [] {
      assert issues + extra == extra;
    } else {
      assert (issues + extra)[1..] == issues[1..] + extra;
      FilterAppend(issues[1..], extra, labels);
    }
  }

  /** The position of the first issue with the given number. */
  function IndexOf(issues: seq<Issue>, number: int): (r: Option<nat>)
    ensures r.Some? ==> r.value < |issues| && issues[r.value].number == number
    ensures r.None? <==> forall k :: 0 <= k < |issues| ==> issues[k].number != number
  {
    if issues == [] then None
    else if issues[0].number == number then Some(0)
    else match IndexOf(issues[1..], number)
      case None => None
      case Some(k) => Some(k + 1)
  }

  /** What a successful call does to the issue it targets; it always stamps the update time. */
  function Touch(issue: Issue, call: Call, clock: int): Issue {
    match call
    case AddLabelsToIssue(_, _, _, labels) => issue.(labels := issue.labels + (set l | l in labels), updatedAt := clock)
    case CreateComment(_, _, _, body) => issue.(comments := issue.comments + [body], updatedAt := clock)
    case ReopenIssue(_, _, _) => issue.(state := Open, updatedAt := clock)
    case CloseIssue(_, _, _) => issue.(state := Closed, updatedAt := clock)
    case _ => issue
  }

  /** One call against the backend. */
  function Step(g: Repository, call: Call): (s: Stepped)
    ensures s.next.clock == g.clock && s.next.failing == g.failing
    ensures s.reply.Failed? <==>
              call.Kind() in g.failing
              || (!call.ListIssuesByRepo? && !call.CreateIssue? && IndexOf(g.issues, call.number).None?)
    ensures s.reply.Failed? ==> s.next == g
    ensures call.ListIssuesByRepo? ==> s.next == g
    ensures !call.CreateIssue? ==> SameNumbers(g.issues, s.next.issues)
  {
    if call.Kind() in g.failing then Stepped(g, Failed(Injected(call.Kind())))
    else match call
      case ListIssuesByRepo(_, _, labels) => Stepped(g, Listed(Filter(g.issues, labels)))
      case CreateIssue(_, _, title, body) =>
        var issue := Issue(g.nextNumber, title, body, Open, g.clock, {}, []);
        Stepped(g.(issues := g.issues + [issue], nextNumber := g.nextNumber + 1), Created(issue))
      case _ =>
        match IndexOf(g.issues, call.number)
        case None => Stepped(g, Failed(NoSuchIssue(call.number)))
        case Some(k) => Stepped(g.(issues := g.issues[k := Touch(g.issues[k], call, g.clock)]), Done)
  }

  /** The backend after a sequence of calls, in order. */
  function Replay(g: Repository, calls: seq<Call>): (r: Repository)
    ensures r.clock == g.clock && r.failing == g.failing
    decreases |calls|
  {
    if calls == [] then g else Replay(Step(g, calls[0]).next, calls[1..])
  }

  lemma {:induction false} ReplayAppend(g: Repository, first: seq<Call>, second: seq<Call>)
    ensures Replay(g, first + second) == Replay(Replay(g, first), second)
    decreases |first|
  {
    if first == [] {
      assert first + second == second;
    } else {
      assert (first + second)[1..] == first[1..] + second;
      ReplayAppend(Step(g, first[0]).next, first[1..], second);
    }
  }

  /** Concatenation is associative (stated once, so that callers with large contexts need not rediscover it). */
  lemma AppendAssociative<T>(a: seq<T>, b: seq<T>, c: seq<T>)
    ensures a + b + c == a + (b + c)
  {
  }

  /** Every call keeps the numbering well formed. */
  lemma StepPreservesWf(g: Repository, call: Call)
    requires Wf(g)
    ensures Wf(Step(g, call).next)
  {
    var s := Step(g, call);
    if !s.reply.Failed? && call.CreateIssue? {
      var n := |g.issues|;
      assert s.next.issues == g.issues + [s.next.issues[n]];
      assert s.next.issues[n].number == g.nextNumber;
    } else if !s.reply.Failed? && !call.ListIssuesByRepo? {
      var k := IndexOf(g.issues, call.number).value;
      assert s.next.issues == g.issues[k := Touch(g.issues[k], call, g.clock)];
      assert Touch(g.issues[k], call, g.clock).number == g.issues[k].number;
      assert forall j :: 0 <= j < |g.issues| ==> s.next.issues[j].number == g.issues[j].number;
    }
  }

  lemma {:induction false} ReplayPreservesWf(g: Repository, calls: seq<Call>)
    requires Wf(g)
    ensures Wf(Replay(g, calls))
    decreases |calls|
  {
    if calls != [] {
      StepPreservesWf(g, calls[0]);
      ReplayPreservesWf(Step(g, calls[0]).next, calls[1..]);
    }
  }

  /** The fake client: the backend state plus the trace of every call that reached it. */
  class FakeClient {
    var issues: seq<Issue>
    var nextNumber: int
    var clock: int
    const failing: set<CallKind>
    var trace: seq<Call>

    function State(): Repository
      reads this
    {
      Repository(issues, nextNumber, clock, failing)
    }

    constructor (issues: seq<Issue>, nextNumber: int, clock: int, failing: set<CallKind>)
      ensures State() == Repository(issues, nextNumber, clock, failing) && trace == []
    {
      this.issues := issues;
      this.nextNumber := nextNumber;
      this.clock := clock;
      this.failing := failing;
      this.trace := [];
    }

    /** Make one call: the backend moves as Step says, and the call is recorded. */
    method Perform(call: Call) returns (reply: Reply)
      modifies this
      ensures Stepped(State(), reply) == Step(old(State()), call)
      ensures trace == old(trace) + [call]
    {
      var s := Step(State(), call);
      issues, nextNumber := s.next.issues, s.next.nextNumber;
      reply := s.reply;
      trace := trace + [call];
    }
  }
}
