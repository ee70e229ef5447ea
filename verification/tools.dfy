/** The two tools the assistant may call (backend/tools.py): the issue scout,
    which summarises up to three open issues of a repository, and the
    placeholder issue analysis. The issue-tracking service is not modelled:
    the scout receives the sequence of issues the service would yield, newest
    first, and the failure (if any) that the service raises after them. */
module Tools {
  import opened Wrappers
  import opened Text

  /** An open issue or pull request as the service lists it. */
  datatype Issue = Issue(number: int, title: string, isPullRequest: bool)

  /** What iterating the repository's open issues yields: `issues` in order,
      then either the end of the listing (`failure == None`) or an exception
      with message `failure.value`. A repository that cannot be opened at
      all is a feed with no issues and a failure. */
  datatype IssueFeed = IssueFeed(issues: seq<Issue>, failure: Option<string>)

  /** The most targets a scout lists. */
  const MaxTargets := 3

  function Header(repoName: string): string {
    "Tactical scan complete for " + repoName + ". Here are the top 3 open targets:"
  }

  /** The line for the `position`-th target (counting from 1). */
  function TargetLine(position: nat, issue: Issue): string {
    "Target " + NatToString(position) + ": Issue #" + IntToString(issue.number) + " - " + issue.title
  }

  function NoIssuesMessage(repoName: string): string {
    "No open issues found in " + repoName + "."
  }

  function ReconFailedMessage(repoName: string, error: string): string {
    "Recon failed. I could not access " + repoName + ". Error details: " + error
  }

  /** The issues that are not pull requests, in their original order. */
  function NonPullRequests(issues: seq<Issue>): (r: seq<Issue>)
    ensures |r| <= |issues|
    decreases |issues|
  {
    if |issues| == 0 then []
    else (if issues[0].isPullRequest then [] else [issues[0]]) + NonPullRequests(issues[1..])
  }

  /** The filter keeps exactly the issues that are not pull requests. */
  lemma {:induction false} NonPullRequestsExact(issues: seq<Issue>)
    ensures forall x :: x in NonPullRequests(issues) <==> x in issues && !x.isPullRequest
    decreases |issues|
  {
    if |issues| > 0 {
      NonPullRequestsExact(issues[1..]);
      assert issues == [issues[0]] + issues[1..];
    }
  }

  lemma {:induction false} NonPullRequestsAppend(a: seq<Issue>, b: seq<Issue>)
    ensures NonPullRequests(a + b) == NonPullRequests(a) + NonPullRequests(b)
    decreases |a|
  {
    if |a| == 0 {
      assert a + b == b;
    } else {
      assert (a + b)[0] == a[0];
      assert (a + b)[1..] == a[1..] + b;
      NonPullRequestsAppend(a[1..], b);
    }
  }

  /** The issues the scout lists: the first three that are not pull requests. */
  function Targets(issues: seq<Issue>): (r: seq<Issue>)
    ensures |r| <= MaxTargets
    ensures r <= NonPullRequests(issues)
  {
    var found := NonPullRequests(issues);
    if |found| <= MaxTargets then found else found[..MaxTargets]
  }

  /** The target lines, numbered 1, 2, 3, ... in the order of `targets`. */
  function TargetLines(targets: seq<Issue>): (r: seq<string>)
    ensures |r| == |targets|
  {
    seq(|targets|, k requires 0 <= k < |targets| => TargetLine(k + 1, targets[k]))
  }

  /** The scout's answer, stated over the whole feed: the failure message
      when the listing failed before a third target was found, the "no open
      issues" message when there is no target, and otherwise the header
      followed by the numbered targets, one per line. */
  function ScoutSummary(repoName: string, feed: IssueFeed): string {
    var found := NonPullRequests(feed.issues);
    if |found| < MaxTargets && feed.failure.Some? then ReconFailedMessage(repoName, feed.failure.value)
    else if |found| == 0 then NoIssuesMessage(repoName)
    else Join("\n", [Header(repoName)] + TargetLines(Targets(feed.issues)))
  }

  /** `scout_github_issues`: walks the feed one issue at a time, skipping pull
      requests and stopping as soon as the third target is found; the
      failure is only reached when the walk gets to the end of the issues. */
  method ScoutGithubIssues(repoName: string, feed: IssueFeed) returns (r: string)
    ensures r == ScoutSummary(repoName, feed)
  {
    var resultLines := [Header(repoName)];
    var count := 0;
    var i := 0;
    var stopped := false;
    ghost var found: seq<Issue> := [];
    while i < |feed.issues| && !stopped
      invariant 0 <= i <= |feed.issues|
      invariant found == NonPullRequests(feed.issues[..i])
      invariant count == |found| <= MaxTargets
      invariant stopped <==> count >= MaxTargets
      invariant resultLines == [Header(repoName)] + TargetLines(found)
    {
      var issue := feed.issues[i];
      NonPullRequestsStep(feed.issues, i);
      if !issue.isPullRequest {
        TargetLinesSnoc(found, issue);
        resultLines := resultLines + [TargetLine(count + 1, issue)];
        count := count + 1;
        found := found + [issue];
      }
      i := i + 1;
      if count >= MaxTargets {
        stopped := true;
      }
    }
    WalkSummary(repoName, feed, i, found, resultLines);
    if !stopped && feed.failure.Some? {
      return ReconFailedMessage(repoName, feed.failure.value);
    }
    if count == 0 {
      return NoIssuesMessage(repoName);
    }
    return Join("\n", resultLines);
  }

  /** What the walk's state after the loop means for the summary. */
  lemma WalkSummary(repoName: string, feed: IssueFeed, i: nat, found: seq<Issue>, resultLines: seq<string>)
    requires i <= |feed.issues| && found == NonPullRequests(feed.issues[..i]) && |found| <= MaxTargets
    requires |found| < MaxTargets ==> i == |feed.issues|
    requires resultLines == [Header(repoName)] + TargetLines(found)
    ensures |found| < MaxTargets && feed.failure.Some? ==>
              ScoutSummary(repoName, feed) == ReconFailedMessage(repoName, feed.failure.value)
    ensures (|found| == MaxTargets || feed.failure.None?) && |found| == 0 ==>
              ScoutSummary(repoName, feed) == NoIssuesMessage(repoName)
    ensures (|found| == MaxTargets || feed.failure.None?) && |found| > 0 ==>
              ScoutSummary(repoName, feed) == Join("\n", resultLines)
  {
    WalkFindsTargets(feed.issues, i);
  }

  lemma NonPullRequestsStep(issues: seq<Issue>, i: nat)
    requires i < |issues|
    ensures NonPullRequests(issues[..i + 1])
            == NonPullRequests(issues[..i]) + (if issues[i].isPullRequest then [] else [issues[i]])
  {
    assert issues[..i + 1] == issues[..i] + [issues[i]];
    NonPullRequestsAppend(issues[..i], [issues[i]]);
    assert NonPullRequests([issues[i]]) == (if issues[i].isPullRequest then [] else [issues[i]]);
  }

  lemma TargetLinesSnoc(targets: seq<Issue>, issue: Issue)
    ensures TargetLines(targets + [issue]) == TargetLines(targets) + [TargetLine(|targets| + 1, issue)]
  {
  }

  /** Where the walk stops: after the whole feed with fewer than three
      targets, or at the third target, which then are the first three. */
  lemma WalkFindsTargets(issues: seq<Issue>, i: nat)
    requires i <= |issues|
    ensures i == |issues| ==> NonPullRequests(issues[..i]) == NonPullRequests(issues)
    ensures |NonPullRequests(issues[..i])| == MaxTargets ==>
              |NonPullRequests(issues)| >= MaxTargets && Targets(issues) == NonPullRequests(issues[..i])
  {
    assert issues == issues[..i] + issues[i..];
    NonPullRequestsAppend(issues[..i], issues[i..]);
    var a := NonPullRequests(issues[..i]);
    if |a| == MaxTargets {
      assert (a + NonPullRequests(issues[i..]))[..MaxTargets] == a;
    }
  }

  /** Pull requests never reach the summary, at most three targets are
      listed, and they are the first targets of the feed in feed order. */
  lemma TargetsAreFirstNonPullRequests(issues: seq<Issue>)
    ensures var t := Targets(issues);
            && t <= NonPullRequests(issues)
            && |t| == (if |NonPullRequests(issues)| < MaxTargets then |NonPullRequests(issues)| else MaxTargets)
            && (forall x :: x in t ==> x in issues && !x.isPullRequest)
  {
    NonPullRequestsExact(issues);
    var t := Targets(issues);
    forall x | x in t
      ensures x in NonPullRequests(issues)
    {
      var j :| 0 <= j < |t| && t[j] == x;
      assert NonPullRequests(issues)[j] == x;
    }
  }

  /** Once three targets are found nothing later matters: neither further
      issues nor a failure the service would raise after them. */
  lemma StopsAtThirdTarget(repoName: string, issues: seq<Issue>, later: seq<Issue>, failure: Option<string>)
    requires |NonPullRequests(issues)| >= MaxTargets
    ensures ScoutSummary(repoName, IssueFeed(issues + later, failure)) == ScoutSummary(repoName, IssueFeed(issues, None))
  {
    TargetsIgnoreLater(issues, later);
  }

  lemma TargetsIgnoreLater(issues: seq<Issue>, later: seq<Issue>)
    requires |NonPullRequests(issues)| >= MaxTargets
    ensures |NonPullRequests(issues + later)| >= MaxTargets
    ensures Targets(issues + later) == Targets(issues)
  {
    NonPullRequestsAppend(issues, later);
    var a := NonPullRequests(issues);
    var b := NonPullRequests(later);
    assert (a + b)[..MaxTargets] == a[..MaxTargets];
  }

  /** A feed with no issue that is not a pull request, and no failure, gives
      exactly the "no open issues" message. */
  lemma NoTargetsMessage(repoName: string, feed: IssueFeed)
    requires forall x :: x in feed.issues ==> x.isPullRequest
    requires feed.failure.None?
    ensures ScoutSummary(repoName, feed) == NoIssuesMessage(repoName)
  {
    OnlyPullRequests(feed.issues);
  }

  lemma {:induction false} OnlyPullRequests(issues: seq<Issue>)
    requires forall x :: x in issues ==> x.isPullRequest
    ensures NonPullRequests(issues) == []
    decreases |issues|
  {
    if |issues| > 0 {
      assert issues[0] in issues;
      OnlyPullRequests(issues[1..]);
    }
  }

  /** A failure before the third target replaces the whole answer by the
      failure message; the scout never raises. */
  lemma FailureMessage(repoName: string, feed: IssueFeed)
    requires feed.failure.Some? && |NonPullRequests(feed.issues)| < MaxTargets
    ensures ScoutSummary(repoName, feed) == ReconFailedMessage(repoName, feed.failure.value)
  {
  }

  /** A successful summary starts with the header naming the repository and
      holds the line of every target, numbered from 1 in feed order. */
  lemma SummaryListsNumberedTargets(repoName: string, feed: IssueFeed, k: nat)
    requires feed.failure.None? || |NonPullRequests(feed.issues)| >= MaxTargets
    requires k < |Targets(feed.issues)|
    ensures Contains(ScoutSummary(repoName, feed), Header(repoName))
    ensures Contains(ScoutSummary(repoName, feed), TargetLine(k + 1, Targets(feed.issues)[k]))
  {
    var lines := [Header(repoName)] + TargetLines(Targets(feed.issues));
    JoinContainsLine("\n", lines, 0);
    JoinContainsLine("\n", lines, k + 1);
  }

  /** `analyze_issue_code`: a fixed plan that names the repository and the
      issue number (both as rendered by an f-string). */
  function AnalyzeIssueCode(repoName: string, issueNumber: string): (r: string)
    ensures Contains(r, repoName) && Contains(r, issueNumber)
  {
    var pre := "Fetched issue details for ";
    var post := ". The bug appears to be in the routing module. Here is a mocked plan of attack...";
    ContainsPieces(pre, repoName, " #", issueNumber, post);
    pre + repoName + " #" + issueNumber + post
  }
}
