# Performance-regression issues and commit IDs, in Dafny

This project models two small components of the Knative `pkg` repository and
proves what they do.

**The regression-issue lifecycle manager** is `test/mako/alerter/github/issue.go`.
It keeps one GitHub issue per regressing performance test.

- `AddIssue` derives the title `"[performance] " + testName`. It lists the
  issues labelled `auto:perf` and takes the first one whose title matches
  exactly. It then follows one of four branches:
  - no issue: create it and label it; the comment that should follow is
    never made (see "## Findings");
  - closed issue: reopen it, then comment;
  - open issue quiet for more than ten days: comment;
  - open issue updated within ten days: nothing.
- `CloseIssue` closes one issue by number.
- Every backend call goes through `alerter.Run` with the handler's dry-run
  flag. In dry-run mode the call is skipped and counts as a success.

The model has four modules:

- `Github` (`issue.dfy`) holds the handler as the class `IssueHandler`. Each
  method is proved against pure specification functions.
  - `AddIssueCalls` gives the exact sequence of backend calls `AddIssue`
    makes.
  - `AddIssueOutcome` gives how `AddIssue` ends: `Ok`, an error, or `Panic`.
  - The lemmas after the class state what each branch does to the backend.
- `Ghutil` (`ghutil.dfy`) is an in-memory stand-in for the GitHub client.
  - `Step` gives what one call does, and `Replay` what a sequence does.
  - The class `FakeClient` holds that state plus a trace of every call that
    reached it.
- `Alerter` (`alerter.dfy`) models `alerter.Run`: skip the call in dry-run
  mode, otherwise make it and return its error.
- `Changeset` (`changeset.dfy`) holds `changeset/commit.go` as pure
  functions. The environment variable `KO_DATA_PATH` and the directory under
  it are parameters: an optional string and a map from file name to content.
  - `HEAD` is read and trimmed of Unicode white space.
  - One `ref: <name>` indirection is followed, and that file is trimmed too.
  - The result must be 40 lower-case hexadecimal characters, and its first 7
    are returned.

As written, `AddIssue` never comments on an issue it has just created. At
issue.go:95 it reads the number of the lookup result, which is nil in that
branch. The model ends that path in `Panic`. `AddIssueFixed` and
`ReportNewIssue` are the corrected handler (see Findings).

## Model

| member | source | states |
|---|---|---|
| Github.Title | test/mako/alerter/github/issue.go:35 | the title is `"[performance] "` followed by the test name, which can be read back from it |
| Github.Body | test/mako/alerter/github/issue.go:38-40 | the body is the fixed auto-generated header followed by the test name, which can be read back from it (filled at issue.go:90) |
| Github.ReopenComment | test/mako/alerter/github/issue.go:43-45 | the reopen comment is the fixed "reopening this issue" line followed by the description, which can be read back from it (filled at issue.go:103) |
| Github.NewRegressionComment | test/mako/alerter/github/issue.go:48-50 | the new-regression comment is the fixed "new regression" line followed by the description, which can be read back from it (filled at issue.go:94 and 110) |
| Github.TitleIsInjective | test/mako/alerter/github/issue.go:86 | the title `"[performance] " + testName` is the only key, and two test names never share a title |
| Github.ListedIssues | test/mako/alerter/github/issue.go:173-182 | the issues searched are those labelled `auto:perf`, or none when the listing is skipped (dry run) or fails; a failed listing is ignored |
| Github.FindByTitle | test/mako/alerter/github/issue.go:183-188 | returns nil exactly when no listed issue has the exact title; otherwise an issue from the list with that title |
| Github.FindByTitleIsFirst | test/mako/alerter/github/issue.go:183-188 | of several issues with the title, the first in list order is returned |
| Github.Lookup | test/mako/alerter/github/issue.go:87 | a found issue is held by the backend, carries `auto:perf` and has the test's title; none is found in dry-run mode or after a failed listing; when a listing succeeds and finds none, no held `auto:perf` issue has the title |
| Github.IsStale | test/mako/alerter/github/issue.go:109 | stale means strictly more than ten days: the smallest stale gap is 864,000,000,000,001 ns |
| Github.Decide | test/mako/alerter/github/issue.go:89-116 | no issue found gives the create branch; a found issue's number is kept; reopen exactly when it is closed; leave alone exactly when it is open and not stale; comment otherwise |
| Github.StaleBoundary | test/mako/alerter/github/issue.go:109 | the staleness test is strict: exactly 10×24 hours since the last update is still fresh, one nanosecond more is stale |
| Alerter.Run | test/mako/alerter/github/issue.go:151-157 | in dry-run mode no call reaches the backend and the result is success; otherwise the call is made once and its error returned |
| Github.IssueHandler.FindIssue | test/mako/alerter/github/issue.go:172-189 | makes one list call, or none in dry-run mode; changes no issue; returns the first listed issue with the title |
| Github.IssueHandler.CreateNewIssue | test/mako/alerter/github/issue.go:122-145 | create, then label `auto:perf` on the new issue; a failed create returns an error naming title and repo and makes no label call; a failed label call discards the backend's error and returns a new one naming title and repo |
| Github.IssueHandler.ReopenIssue | test/mako/alerter/github/issue.go:161-169 | one reopen call for the number, or none in dry-run mode; its error is that call's; for a held issue it fails exactly when reopening fails outside dry-run mode |
| Github.IssueHandler.AddComment | test/mako/alerter/github/issue.go:192-201 | one comment call for the number, or none in dry-run mode; its error is that call's; for a held issue it fails exactly when commenting fails outside dry-run mode |
| Github.IssueHandler.CloseIssue | test/mako/alerter/github/issue.go:148-158 | one close call for the given number, or none in dry-run mode, with no lookup first; outside dry-run mode it fails exactly when closing fails or the number is unknown, and in dry-run mode it never fails |
| Github.IssueHandler.ReopenAndComment | test/mako/alerter/github/issue.go:99-106 | reopen, then the reopen comment; a failed reopen returns its error with no comment |
| Github.IssueHandler.UpdateExistingIssue | test/mako/alerter/github/issue.go:98-116 | for a found issue: reopen and comment if closed, comment if open and stale, nothing if open and fresh |
| Github.IssueHandler.AddIssue | test/mako/alerter/github/issue.go:82-119 | the trace gains exactly `AddIssueCalls`, the backend ends in `Replay` of those calls, and the outcome is `AddIssueOutcome` (Panic after a successful create and label) |
| Github.IssueHandler.ReportNewIssue | test/mako/alerter/github/issue.go:89-97 | corrected no-issue branch: create, label, then comment on the number just handed out |
| Github.IssueHandler.AddIssueFixed | test/mako/alerter/github/issue.go:82-119 | the corrected handler makes exactly `AddIssueFixedCalls` and ends as `AddIssueFixedOutcome` |
| Github.DryRunMakesNoCalls | test/mako/alerter/github/issue.go:85-95 | in dry-run mode no call reaches the backend; as written the handler then always panics at the comment step, while the corrected one succeeds |
| Github.FailedListingCreates | test/mako/alerter/github/issue.go:174-188 | a failed listing yields no issue, so AddIssue goes on to create one |
| Github.AddIssueKeepsOnePerTitle | test/mako/alerter/github/issue.go:82-119 | when the listing goes through or is skipped, AddIssue as written and corrected keeps at most one `auto:perf` issue per title: it creates only when no labelled issue has the title, and labels only the issue it has just created |
| Github.FailedListingDuplicates | test/mako/alerter/github/issue.go:174-182 | a failed listing breaks that invariant: with a labelled issue already carrying the title, and create and label going through, both versions of AddIssue leave two labelled issues with the same title |
| Github.ClosedIssueReopened | test/mako/alerter/github/issue.go:99-106 | a closed issue gets one reopen then one reopen comment, and no create; it ends open with the comment appended and nothing else changed |
| Github.ReopenFailureStops | test/mako/alerter/github/issue.go:100-102 | a failed reopen ends AddIssue with that error, with no comment, leaving the backend as it was |
| Github.StaleIssueCommented | test/mako/alerter/github/issue.go:108-115 | an open issue quiet for more than ten days gets exactly one new-regression comment; no create or reopen |
| Github.FreshIssueLeftAlone | test/mako/alerter/github/issue.go:108-118 | an open issue updated within ten days gets no mutating call, and the result is nil |
| Github.CreateFailureSkipsLabel | test/mako/alerter/github/issue.go:124-134 | a failed create makes no label call and returns the error naming title and repo |
| Github.NewIssueCreated | test/mako/alerter/github/issue.go:122-145 | a successful create and label leave one new issue: open, titled, with the body, labelled `auto:perf`, numbered next |
| Github.NoIssueAsWrittenPanics | test/mako/alerter/github/issue.go:89-97 | as written, with no issue found, the new issue is created and labelled but never commented on, and AddIssue panics |
| Github.NoIssueFixedComments | test/mako/alerter/github/issue.go:89-97 | corrected, the new issue is created, labelled and carries the new-regression comment, and the result is nil |
| Github.AddedIssueFoundNextTime | test/mako/alerter/github/issue.go:183-188 | an `auto:perf` issue with the title, added after a lookup that found none, is what the next lookup finds |
| Github.FoundIssueCreatesNothing | test/mako/alerter/github/issue.go:89-116 | once an issue is found, neither version of AddIssue creates one |
| Github.FixedRetryCreatesNothing | test/mako/alerter/github/issue.go:86-97 | after the corrected AddIssue creates the issue for a test, a second AddIssue for that test finds it and creates nothing |
| Github.AsWrittenRetryFindsIssue | test/mako/alerter/github/issue.go:89-97 | even after the as-written panic, the labelled issue is found by the next AddIssue |
| Github.CloseIssueCloses | test/mako/alerter/github/issue.go:148-158 | closing a held issue marks it closed and leaves every other issue and the numbering unchanged |
| Changeset.ReadFileFromKoData | changeset/commit.go:76-82 | an unset or empty KO_DATA_PATH fails with that error before any file is read; otherwise a missing file fails naming the file and an existing one yields its content |
| Changeset.ReadCommitData | changeset/commit.go:54-65 | the data read, from HEAD or from the file it refers to, is trimmed at both ends (which data, on each path, is stated by DirectRead and RefFollowed) |
| Changeset.DirectRead | changeset/commit.go:54-65 | when HEAD's trimmed content does not start with `ref: `, that trimmed content is the data read, whatever it is |
| Changeset.BadHeadRejected | changeset/commit.go:58-69 | a HEAD that trims to neither a reference nor a commit ID (39 characters, upper-case hex, ...) makes Get and GetFull return "" and an error quoting the trimmed content |
| Changeset.TrimLeftSpace | changeset/commit.go:58 | the result is a suffix of the input, everything cut off is white space, and it does not start with white space |
| Changeset.TrimRightSpace | changeset/commit.go:58 | the result is a prefix of the input, everything cut off is white space, and it does not end with white space |
| Changeset.TrimSpace | changeset/commit.go:58 | the result has no white space at either end and is never longer; a string already trimmed is unchanged; the result is empty exactly when the input is all white space (also used at commit.go:64) |
| Changeset.TrimPrefix | changeset/commit.go:59 | a string starting with the prefix is the prefix followed by the result; any other string is returned unchanged |
| Changeset.TrimSpacePadded | changeset/commit.go:58 | trimming content padded with white space gives back exactly the content |
| Changeset.RefDetectedIffPrefixed | changeset/commit.go:59 | "TrimPrefix changed the string" holds exactly when the string starts with `ref: ` |
| Changeset.GetCommitId | changeset/commit.go:53-70 | success exactly when the data is 40 lower-case hex characters, and the value is then its 7-character prefix; read errors propagate; an invalid ID is quoted in the error; any error comes with "" |
| Changeset.Get | changeset/commit.go:37-43 | the same error as getCommitID, and "" whenever there is one; on success getCommitID's value, the 7-character proper prefix of the ID read |
| Changeset.UnsetDataPathFails | changeset/commit.go:77-80 | with KO_DATA_PATH unset or empty, Get, GetFull and getCommitID all fail with that error |
| Changeset.DirectHeadResolves | changeset/commit.go:53-70 | a HEAD holding a padded commit ID resolves to it, and getCommitID returns its first 7 characters |
| Changeset.SymbolicRefResolves | changeset/commit.go:58-67 | a padded `ref: <name>` HEAD is followed to `<name>`, and a padded commit ID there resolves |
| Changeset.RefFollowed | changeset/commit.go:59-64 | HEAD trimming to `ref: <name>` reads `<name>` once and trims it, or fails naming `<name>` when it is missing |
| Changeset.NestedRefRejected | changeset/commit.go:59-69 | a second `ref: ` is not followed; it is rejected as an invalid commit ID, quoted |
| Changeset.MissingFileFails | changeset/commit.go:54-63 | a missing HEAD, or a missing ref target, fails naming that file, with "" |
| Changeset.IsCommitId | changeset/commit.go:33 | a commit ID is never white-space padded and never starts with `ref: `, so it survives trimming and is never followed as a reference |
| Changeset.NonCommitIdsRejected | changeset/commit.go:33 | a wrong length, or any character outside `[a-f0-9]` (upper-case hex included), is not a commit ID |
| Changeset.GetFull | changeset/commit.go:47-49 | getCommitID's error, "" with any error, and on success a 7-character proper prefix of the ID read, not the ID |
| Changeset.GetEqualsGetFull | changeset/commit.go:37-49 | Get and GetFull return the same pair on every input, with a 7-character value on success |
| Changeset.GetFullTruncates | changeset/commit.go:45-48 | on a valid HEAD behind a ref, GetFull returns 7 characters, not the full ID its comment promises |
| Changeset.FullCommitId | changeset/commit.go:45-48 | corrected reader: on success the value is the validated 40-character ID read; errors are those of getCommitID |
| Changeset.FullCommitIdRoundTrip | changeset/commit.go:37-48 | with the corrected reader, the full ID behind a ref comes back whole, and Get is its 7-character prefix |

## Left out

- `Setup` and GitHub authentication (issue.go:73-79) are not modelled: they are a network client from a foreign library.
- The `IssueOperations` interface is not modelled: `IssueHandler` is its one implementation.
- `alerter.Run` is not part of this model. Only its skip-or-run behaviour is modelled, not the operation names it is given or its logging.
- The GitHub client is an in-memory fake that serves one repository:
  - `org` and `repo` are recorded in the trace but do not select a repository;
  - listing returns, in creation order, every issue in any state that carries all the requested labels;
  - there is no pagination;
  - a failed `ListIssuesByRepo` is taken to return no issues. The Go code keeps whatever slice the client returns together with the error, so what a failed listing finds depends on the client;
  - its failures are injected per call kind, and a call on an unknown number fails.
- The promise of one tracked issue per test holds only when the listing goes through. `findIssue` (issue.go:174-182) drops the listing error, and `FailedListingDuplicates` proves the duplicate that follows. No corrected handler is modelled for this, because the intended reaction to a failed listing (retry, give up, or report) is not evident from the code.
- The fake stamps updates with its own clock. `time.Now()` is the `now` parameter of `AddIssue`.
- `time.Time.Sub` saturates after about 292 years; the model uses unbounded integer nanoseconds.
- The Go panic is modelled as the outcome `Panic` that `AddIssue` returns. The process crash it would cause is not modelled.
- Error texts built by `fmt.Errorf` are modelled as constructors carrying the title and repo, or the quoted ID. The wording is not modelled.
- Github.IssueHandler.CreateNewIssue: also returns the created issue. The Go function keeps it in a local; the extra result lets the corrected handler comment on it.
- `os.Getenv`, `ioutil.ReadFile` and `filepath.Join` become a map from file name to content:
  - path joining and normalisation are not modelled;
  - read errors other than a missing file are not modelled.
- File bytes are modelled as strings of code points, so invalid UTF-8 is not modelled.
- The regular expression `^[a-f0-9]{40}$` is stated directly as the predicate `IsCommitId`.

## Findings

| source | as written | input that shows it | evidently intended | confidence | as-written member | corrected member |
|---|---|---|---|---|---|---|
| test/mako/alerter/github/issue.go:95 | after creating the issue, the comment step dereferences the nil lookup result; the new issue (issue.go:123-128) is never handed back | any AddIssue whose lookup finds no issue and whose create and label succeed: every dry run, or a live run on an empty repository | comment on the issue just created | high; not executed | Github.NoIssueAsWrittenPanics | Github.IssueHandler.AddIssueFixed |
| changeset/commit.go:67 | getCommitID returns `commitID[:7]`, so GetFull returns 7 characters | KO_DATA_PATH set, HEAD = `ref: refs/heads/main` plus a newline, refs/heads/main = a 40-hex ID plus a newline | GetFull returns the full 40-character ID, as its comment at commit.go:45 says | medium; not executed | Changeset.GetFullTruncates | Changeset.FullCommitId |
