/**
 * The backport command: read the `backport-<branch>` labels of a merged pull
 * request, replay its commits onto each named branch in a fresh clone, and
 * report back on the pull request (a backport pull request per branch, or a
 * comment with manual instructions when a commit does not apply).
 *
 * Git and GitHub are not called: what they would answer is given as input
 * (`GitHubView`, `WorkingCopy`), and every action the command takes on them is
 * appended to a log of `Effect`s, which is what the run is judged by.
 */
module Backport {
  import opened Wrappers
  import opened JavaStrings

  // ---------------------------------------------------------------------------
  // What the collaborators answer

  /** Result of one `git cherry-pick`: status OK with new commits, status OK with
      nothing picked (already on the branch), or any other status. */
  datatype PickStatus = Applied | AlreadyPresent | Conflict

  /** The pull request being backported, as GitHub reports it. */
  datatype PullRequest = PullRequest(
    title: string,
    merged: bool,
    labels: seq<string>,   // label names, in the order GitHub lists them
    commits: seq<string>)  // commit SHAs, in the order GitHub lists them

  datatype Repository = Repository(httpTransportUrl: string, htmlUrl: string)

  /** GitHub's side: the repository, the pull request, and the number GitHub
      gives to the k-th pull request this run creates. */
  datatype GitHubView = GitHubView(
    repository: Repository,
    pullRequest: PullRequest,
    assignedNumber: nat -> Int32)

  /** Git's side: the remote refs of the fresh clone (full names such as
      `refs/remotes/origin/main`), its one local branch, and what each
      cherry-pick of a commit onto a target branch yields. */
  datatype WorkingCopy = WorkingCopy(
    remoteRefs: seq<string>,
    defaultBranch: string,
    pick: (string, string) -> PickStatus)

  // ---------------------------------------------------------------------------
  // What the command does to them

  datatype Effect =
    | CloneRepository(url: string)
    | FetchRefSpec(refSpec: string)
    | CheckoutTracking(branch: string, startPoint: string)  // checkout -b branch startPoint
    | CheckoutNewBranch(name: string)                       // checkout -b name (from HEAD)
    | CherryPick(commit: string)
    | PushAtomic(head: string)                               // push of the current branch
    | Comment(text: string)                                  // on the original pull request
    | CreatePullRequest(title: string, head: string, base: string, body: string)

  /** A failing `checkout -b`: the exception ends the whole run. */
  datatype Fault = LocalBranchExists(name: string) | StartPointMissing(startPoint: string)

  /** A backport pull request the run opened. */
  datatype Created = Created(number: int, head: string, base: string)

  /** Process exit status and everything done on the way. */
  datatype Outcome = Outcome(exitCode: int, log: seq<Effect>)

  /** Exit statuses of the command-line library: success, an exception thrown by
      the command, a command line it could not parse. */
  const ExitOk := 0
  const ExitSoftware := 1
  const ExitUsage := 2

  const LabelPrefix := "backport-"

  // ---------------------------------------------------------------------------
  // Label resolution and naming

  /** The target branches: every label starting with `backport-`, prefix removed,
      in label order, duplicates kept. */
  function FindBackportBranches(labels: seq<string>): (branches: seq<string>)
    ensures forall b :: b in branches <==> LabelPrefix + b in labels
  {
    if labels == [] then []
    else
      var l := labels[0];
      var rest := FindBackportBranches(labels[1..]);
      assert forall b :: LabelPrefix + b in labels <==> LabelPrefix + b == l || LabelPrefix + b in labels[1..];
      if StartsWith(l, LabelPrefix) then
        assert l == LabelPrefix + l[|LabelPrefix|..];
        [l[|LabelPrefix|..]] + rest
      else
        assert forall b :: LabelPrefix + b != l by {
          forall b ensures LabelPrefix + b != l {
            assert (LabelPrefix + b)[..|LabelPrefix|] == LabelPrefix;
          }
        }
        rest
  }

  /** The branch that carries the backport of pull request `number` to `branch`. */
  function HeadName(number: int, branch: string): string {
    "backport-#" + IntToString(number) + "-to-" + branch
  }

  /** Full name of the remote-tracking ref for branch `name` of `origin`. */
  function RemoteTrackingRef(name: string): string {
    "refs/remotes/origin/" + name
  }

  /** Where the pull request's head is fetched to. */
  function PullTrackingRef(number: int): string {
    RemoteTrackingRef("pr/" + IntToString(number))
  }

  /** The ref spec fetched before each backport. */
  function PullRefSpec(number: int): string {
    "+refs/pull/" + IntToString(number) + "/head:" + PullTrackingRef(number)
  }

  /** The existence guard: some remote ref name ends with `suffix`. */
  function AnyEndsWith(names: seq<string>, suffix: string): (found: bool)
    ensures found <==> exists i :: 0 <= i < |names| && EndsWith(names[i], suffix)
  {
    if names == [] then false
    else EndsWith(names[0], suffix) || AnyEndsWith(names[1..], suffix)
  }

  function PullRequestTitle(branch: string, title: string): string {
    "[" + branch + "] Backport " + title
  }

  function PullRequestBody(number: int, branch: string): string {
    "Backport #" + IntToString(number) + " to " + branch + "."
  }

  // ---------------------------------------------------------------------------
  // Texts posted on the pull request

  function CherryPickLine(commit: string): string {
    "git cherry-pick " + commit + "\n"
  }

  function CherryPickLines(commits: seq<string>): seq<string> {
    seq(|commits|, i requires 0 <= i < |commits| => CherryPickLine(commits[i]))
  }

  // The fixed lines of the manual instructions.
  const ConflictWarning := "# One or more of the following command will fail, you will need to fix the conflict manually\n"
  const AllPickedComment := "# Once all commits have been cherry-picked:\n"
  const PushCommand := "git push --set-upstream origin "
  const StatusHint := "To fix the conflict, first check which file is impacted using: `git status`\n"
  const AddHint := "For each file with a resolved conflict, execute: `git add $FILE`\n"
  const CommitHint := "Then, commit the files using the same commit message as the original commit: `git commit -m \"...\"`\n"
  const OpenHint := "Once done and pushed, open the pull request.\n"
  const TargetHint := "* \U{26A1} **Set the target branch to "
  const MilestoneHint := "* Set the milestone and the labels if needed\n"

  /** The manual steps up to the cherry-picks, line by line. */
  function PreambleLines(url: string, number: int, head: string, branch: string): seq<string> {
    [ "Run:\n",
      "```\n",
      "git clone " + url + "\n",
      "git fetch origin pull/" + IntToString(number) + "/head:pr-" + IntToString(number) + "\n",
      "git checkout -b " + branch + " " + "origin/" + branch + "\n",
      "git checkout -b " + head + "\n",
      ConflictWarning ]
  }

  /** The manual steps after the cherry-picks, with the pull request to open. */
  function ClosingLines(number: int, head: string, branch: string, title: string): seq<string> {
    [ AllPickedComment,
      PushCommand + head + "\n",
      "```" + "\n",
      StatusHint,
      AddHint,
      CommitHint,
      "\n",
      OpenHint,
      "\n",
      "* Title: " + PullRequestTitle(branch, title) + "\n",
      "* Message: " + PullRequestBody(number, branch) + "\n",
      TargetHint + branch + "** \n",
      MilestoneHint ]
  }

  /** The lines of the manual instructions: the preamble, one cherry-pick per
      commit of the whole list, in order, and the closing steps. */
  function InstructionLines(url: string, number: int, commits: seq<string>, head: string,
                            branch: string, title: string): seq<string>
  {
    PreambleLines(url, number, head, branch) + CherryPickLines(commits) + ClosingLines(number, head, branch, title)
  }

  /** Instructions to redo a backport by hand. */
  function ManualInstructions(url: string, number: int, commits: seq<string>, head: string,
                              branch: string, title: string): string
  {
    Concat(InstructionLines(url, number, commits, head, branch, title))
  }

  const ConflictPrefix := "Cannot backport to "
  const ConflictReason := " due to merge conflicts. " + "Please backport manually:\n"

  function ConflictHeader(branch: string): string {
    ConflictPrefix + branch + ConflictReason
  }

  /** The comment posted when a commit does not apply to `branch`. */
  function ConflictComment(url: string, number: int, commits: seq<string>, head: string,
                           branch: string, title: string): string
  {
    ConflictHeader(branch) + ManualInstructions(url, number, commits, head, branch, title)
  }

  const SummaryHeader := "Created Backports: " + "\n"

  function SummaryLine(htmlUrl: string, pr: Created): string {
    "- #" + IntToString(pr.number) + " to " + "[" + pr.head + "]"
    + "(" + htmlUrl + "/tree/" + pr.base + ")" + "\n"
  }

  function SummaryLines(htmlUrl: string, created: seq<Created>): seq<string> {
    seq(|created|, i requires 0 <= i < |created| => SummaryLine(htmlUrl, created[i]))
  }

  /** The comment listing the backport pull requests, in creation order. */
  function SummaryComment(htmlUrl: string, created: seq<Created>): string {
    SummaryHeader + Concat(SummaryLines(htmlUrl, created))
  }

  // ---------------------------------------------------------------------------
  // Replay of the commits onto one branch

  /** What picking each commit onto `branch` would yield. */
  function Outcomes(wc: WorkingCopy, branch: string, commits: seq<string>): (os: seq<PickStatus>)
    ensures |os| == |commits|
    ensures forall i :: 0 <= i < |commits| ==> os[i] == wc.pick(branch, commits[i])
  {
    seq(|commits|, i requires 0 <= i < |commits| => wc.pick(branch, commits[i]))
  }

  /** How many cherry-picks are attempted: up to and including the first
      conflict, or all of them. */
  function Attempted(os: seq<PickStatus>): (k: nat)
    ensures k <= |os|
    ensures Conflict !in os ==> k == |os|
    ensures Conflict in os ==> 0 < k && os[k - 1] == Conflict && Conflict !in os[..k - 1]
  {
    if os == [] then 0
    else if os[0] == Conflict then 1
    else
      assert os == [os[0]] + os[1..];
      1 + Attempted(os[1..])
  }

  /** The pick at the first conflict is the last one attempted. */
  lemma AttemptedAtFirstConflict(os: seq<PickStatus>, i: nat)
    requires i < |os| && os[i] == Conflict && Conflict !in os[..i]
    ensures Attempted(os) == i + 1
  {
  }

  function Picks(commits: seq<string>): (effects: seq<Effect>)
    ensures |effects| == |commits|
    ensures forall i :: 0 <= i < |commits| ==> effects[i] == CherryPick(commits[i])
  {
    seq(|commits|, i requires 0 <= i < |commits| => CherryPick(commits[i]))
  }

  // ---------------------------------------------------------------------------
  // The run, as a function of its inputs

  /** State carried from one target branch to the next. */
  datatype Progress = Progress(
    remote: seq<string>,    // remote refs, as a remote branch listing reports them
    local: set<string>,     // local branches
    log: seq<Effect>,
    created: seq<Created>,
    fault: Option<Fault>)

  /** Right after the clone. */
  function Start(gh: GitHubView, wc: WorkingCopy): Progress {
    Progress(wc.remoteRefs, {wc.defaultBranch}, [CloneRepository(gh.repository.httpTransportUrl)], [], None)
  }

  /**
   * One target branch. Guard: when a remote ref already ends with the backport
   * branch name, nothing happens for this branch.
   */
  function Step(gh: GitHubView, wc: WorkingCopy, number: int, p: Progress, branch: string): Progress
    requires p.fault.None?
  {
    var head := HeadName(number, branch);
    if AnyEndsWith(p.remote, head) then p else Sync(gh, wc, number, p, branch, head)
  }

  /**
   * Sync: fetch the pull request's head, check out the target branch from
   * `origin/<branch>` and a new backport branch from it. Either checkout can
   * throw, which ends the run.
   */
  function Sync(gh: GitHubView, wc: WorkingCopy, number: int, p: Progress, branch: string, head: string): Progress
    requires p.fault.None?
  {
    var fetched := p.log + [FetchRefSpec(PullRefSpec(number))];
    var remote := if PullTrackingRef(number) in p.remote then p.remote else p.remote + [PullTrackingRef(number)];
    if branch in p.local then
      Progress(remote, p.local, fetched, p.created, Some(LocalBranchExists(branch)))
    else if RemoteTrackingRef(branch) !in remote then
      Progress(remote, p.local, fetched, p.created, Some(StartPointMissing("origin/" + branch)))
    else
      var tracked := fetched + [CheckoutTracking(branch, "origin/" + branch)];
      if head in p.local + {branch} then
        Progress(remote, p.local + {branch}, tracked, p.created, Some(LocalBranchExists(head)))
      else
        Replay(gh, wc, number, Progress(remote, p.local + {branch} + {head}, tracked + [CheckoutNewBranch(head)], p.created, None), branch, head)
  }

  /**
   * Replay and evaluate: cherry-pick up to the first conflict; then post the
   * manual instructions (conflict), do nothing (no pick changed anything), or
   * publish.
   */
  function Replay(gh: GitHubView, wc: WorkingCopy, number: int, p: Progress, branch: string, head: string): Progress
  {
    var commits := gh.pullRequest.commits;
    var os := Outcomes(wc, branch, commits);
    var replayed := p.(log := p.log + Picks(commits[..Attempted(os)]));
    if Conflict in os then
      var text := ConflictComment(gh.repository.httpTransportUrl, number, commits, head,
                                  branch, gh.pullRequest.title);
      replayed.(log := replayed.log + [Comment(text)])
    else if Applied in os then
      Publish(gh, number, replayed, branch, head)
    else
      replayed
  }

  /** Publish: push the backport branch, then open its pull request. */
  function Publish(gh: GitHubView, number: int, p: Progress, branch: string, head: string): Progress {
    var request := CreatePullRequest(PullRequestTitle(branch, gh.pullRequest.title), head, branch,
                                     PullRequestBody(number, branch));
    p.(remote := p.remote + [RemoteTrackingRef(head)],
       log := p.log + [PushAtomic(head), request],
       created := p.created + [Created(gh.assignedNumber(|p.created|), head, branch)])
  }

  /** The target branches one after the other, until one faults. */
  function ProcessAll(gh: GitHubView, wc: WorkingCopy, number: int, p: Progress, branches: seq<string>): Progress
    decreases |branches|
  {
    if branches == [] || p.fault.Some? then p
    else ProcessAll(gh, wc, number, Step(gh, wc, number, p, branches[0]), branches[1..])
  }

  /** The whole command for pull request `number`. */
  function Run(gh: GitHubView, wc: WorkingCopy, number: int): Outcome {
    var branches := FindBackportBranches(gh.pullRequest.labels);
    if branches == [] || !gh.pullRequest.merged then Outcome(ExitOk, [])
    else
      var p := ProcessAll(gh, wc, number, Start(gh, wc), branches);
      if p.fault.Some? then Outcome(ExitSoftware, p.log)
      else if p.created == [] then Outcome(ExitOk, p.log)
      else Outcome(ExitOk, p.log + [Comment(SummaryComment(gh.repository.htmlUrl, p.created))])
  }

  // ---------------------------------------------------------------------------
  // The command as the program runs it

  /** The cherry-pick loop: picks in list order, stops at the first status
      other than OK, and tracks whether some pick brought a change. */
  method CherryPickCommits(wc: WorkingCopy, branch: string, commits: seq<string>)
    returns (picked: seq<Effect>, isChanged: bool, last: Option<PickStatus>)
    ensures var os := Outcomes(wc, branch, commits);
      picked == Picks(commits[..Attempted(os)])
      && (last == Some(Conflict) <==> Conflict in os)
      && (last == None <==> commits == [])
      && (Conflict !in os ==> (isChanged <==> Applied in os))
      && (isChanged <==> Applied in os[..Attempted(os)])
  {
    ghost var os := Outcomes(wc, branch, commits);
    picked, isChanged, last := [], false, None;
    var i := 0;
    while i < |commits|
      invariant 0 <= i <= |commits|
      invariant Conflict !in os[..i]
      invariant picked == Picks(commits[..i])
      invariant isChanged <==> Applied in os[..i]
      invariant last == if i == 0 then None else Some(os[i - 1])
    {
      var status := wc.pick(branch, commits[i]);
      picked := picked + [CherryPick(commits[i])];
      last := Some(status);
      if status != Applied && status != AlreadyPresent {
        assert os[..i + 1] == os[..i] + [Conflict];
        AttemptedAtFirstConflict(os, i);
        return;
      }
      if status == Applied {
        isChanged := true;
      }
      assert os[..i + 1] == os[..i] + [status];
      i := i + 1;
    }
    assert os[..i] == os;
    assert os[..Attempted(os)] == os;
    assert commits[..|commits|] == commits;
  }

  /** Adding a pull request to the list adds its line at the end of the summary. */
  lemma SummaryCommentSnoc(htmlUrl: string, created: seq<Created>, i: nat)
    requires i < |created|
    ensures SummaryComment(htmlUrl, created[..i + 1])
         == SummaryComment(htmlUrl, created[..i]) + SummaryLine(htmlUrl, created[i])
  {
    var lines := SummaryLines(htmlUrl, created[..i + 1]);
    assert lines[..i] == SummaryLines(htmlUrl, created[..i]);
    HeaderConcatSnoc(SummaryHeader, lines, SummaryLines(htmlUrl, created[..i]), SummaryLine(htmlUrl, created[i]));
  }

  /** Text made of a header and lines, the last of which is `line`. */
  lemma HeaderConcatSnoc(header: string, lines: seq<string>, prev: seq<string>, line: string)
    requires |lines| > 0 && lines[..|lines| - 1] == prev && lines[|lines| - 1] == line
    ensures header + Concat(lines) == header + Concat(prev) + line
  {
  }

  /** The summary comment, line by line. */
  method BuildSummary(htmlUrl: string, created: seq<Created>) returns (text: string)
    ensures text == SummaryComment(htmlUrl, created)
  {
    text := "Created Backports: " + "\n";
    assert text == SummaryComment(htmlUrl, created[..0]);
    for i := 0 to |created|
      invariant text == SummaryComment(htmlUrl, created[..i])
    {
      SummaryCommentSnoc(htmlUrl, created, i);
      text := text + SummaryLine(htmlUrl, created[i]);
    }
    assert created[..|created|] == created;
  }

  /**
   * The body of the loop over target branches: guard, then sync and replay.
   * Returns the updated state, whose fault is set when a `checkout -b` throws.
   */
  method BackportTo(gh: GitHubView, wc: WorkingCopy, number: Int32, branch: string,
                    remote0: seq<string>, local0: set<string>, log0: seq<Effect>, created0: seq<Created>)
    returns (remote: seq<string>, local: set<string>, log: seq<Effect>, created: seq<Created>, fault: Option<Fault>)
    ensures Progress(remote, local, log, created, fault)
         == Step(gh, wc, number, Progress(remote0, local0, log0, created0, None), branch)
  {
    var head := HeadName(number, branch);
    if AnyEndsWith(remote0, head) {
      return remote0, local0, log0, created0, None;
    }
    remote, local, log, created, fault := SyncOnto(gh, wc, number, branch, head, remote0, local0, log0, created0);
  }

  /** Check out the target and backport branches, then replay onto them. */
  method SyncOnto(gh: GitHubView, wc: WorkingCopy, number: Int32, branch: string, head: string,
                  remote0: seq<string>, local0: set<string>, log0: seq<Effect>, created0: seq<Created>)
    returns (remote: seq<string>, local: set<string>, log: seq<Effect>, created: seq<Created>, fault: Option<Fault>)
    ensures Progress(remote, local, log, created, fault)
         == Sync(gh, wc, number, Progress(remote0, local0, log0, created0, None), branch, head)
  {
    remote, local, log, created, fault := remote0, local0, log0, created0, None;
    log := log + [FetchRefSpec(PullRefSpec(number))];
    if PullTrackingRef(number) !in remote {
      remote := remote + [PullTrackingRef(number)];
    }
    if branch in local {
      fault := Some(LocalBranchExists(branch));
      return;
    }
    if RemoteTrackingRef(branch) !in remote {
      fault := Some(StartPointMissing("origin/" + branch));
      return;
    }
    log := log + [CheckoutTracking(branch, "origin/" + branch)];
    local := local + {branch};
    if head in local {
      fault := Some(LocalBranchExists(head));
      return;
    }
    log := log + [CheckoutNewBranch(head)];
    local := local + {head};
    remote, log, created := ReplayOnto(gh, wc, number, branch, head, remote, local, log, created);
  }

  /** Replay, evaluate and publish on the checked-out backport branch. */
  method ReplayOnto(gh: GitHubView, wc: WorkingCopy, number: Int32, branch: string, head: string,
                    remote0: seq<string>, local: set<string>, log0: seq<Effect>, created0: seq<Created>)
    returns (remote: seq<string>, log: seq<Effect>, created: seq<Created>)
    ensures Progress(remote, local, log, created, None)
         == Replay(gh, wc, number, Progress(remote0, local, log0, created0, None), branch, head)
  {
    remote, log, created := remote0, log0, created0;

    // Replay
    var commits := gh.pullRequest.commits;
    var picked, isChanged, last := CherryPickCommits(wc, branch, commits);
    log := log + picked;

    // Evaluate
    if last == Some(Conflict) {
      var message := ConflictComment(gh.repository.httpTransportUrl, number, commits, head,
                                     branch, gh.pullRequest.title);
      log := log + [Comment(message)];
      return;
    }
    if !isChanged {
      return;
    }

    // Publish
    log := log + [PushAtomic(head)];
    remote := remote + [RemoteTrackingRef(head)];
    log := log + [CreatePullRequest(PullRequestTitle(branch, gh.pullRequest.title), head, branch,
                                    PullRequestBody(number, branch))];
    created := created + [Created(gh.assignedNumber(|created|), head, branch)];
  }

  /** The command: exit status and the effects, exactly as `Run` gives them. */
  method Call(gh: GitHubView, wc: WorkingCopy, number: Int32) returns (exitCode: int, log: seq<Effect>)
    ensures Outcome(exitCode, log) == Run(gh, wc, number)
  {
    var backportBranches := FindBackportBranches(gh.pullRequest.labels);
    if |backportBranches| == 0 {
      return ExitOk, [];
    }
    if !gh.pullRequest.merged {
      return ExitOk, [];
    }

    log := [CloneRepository(gh.repository.httpTransportUrl)];
    var remote := wc.remoteRefs;
    var local := {wc.defaultBranch};
    var created: seq<Created> := [];
    ghost var all := ProcessAll(gh, wc, number, Start(gh, wc), backportBranches);

    for i := 0 to |backportBranches|
      invariant all == ProcessAll(gh, wc, number, Progress(remote, local, log, created, None), backportBranches[i..])
    {
      assert backportBranches[i..][0] == backportBranches[i] && backportBranches[i..][1..] == backportBranches[i + 1..];
      var fault;
      remote, local, log, created, fault := BackportTo(gh, wc, number, backportBranches[i], remote, local, log, created);
      if fault.Some? {
        return ExitSoftware, log;
      }
    }

    if |created| > 0 {
      var summary := BuildSummary(gh.repository.htmlUrl, created);
      log := log + [Comment(summary)];
    }
    return ExitOk, log;
  }
}
