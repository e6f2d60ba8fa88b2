/**
 * What a backport run guarantees, proved about the functional model `Backport.Run`
 * (which `Backport.Call` is proved to compute).
 */
module BackportProperties {
  import opened Wrappers
  import opened JavaStrings
  import opened Backport

  // ---------------------------------------------------------------------------
  // Label resolution

  /** Resolution works label by label: the branches of a concatenation are the
      branches of each part, in order. */
  lemma {:induction false} FindBackportBranchesAppend(a: seq<string>, b: seq<string>)
    ensures FindBackportBranches(a + b) == FindBackportBranches(a) + FindBackportBranches(b)
    decreases |a|
  {
    if a == [] {
      assert a + b == b;
    } else {
      assert (a + b)[0] == a[0] && (a + b)[1..] == a[1..] + b;
      FindBackportBranchesAppend(a[1..], b);
    }
  }

  /** One label gives its branch when it carries the prefix, nothing otherwise. */
  lemma FindBackportBranchesOfLabel(name: string)
    ensures FindBackportBranches([name])
         == if StartsWith(name, LabelPrefix) then [name[|LabelPrefix|..]] else []
  {
    assert [name][1..] == [];
  }

  /** Duplicates are kept: a branch appears as often as its label does. */
  lemma {:induction false} FindBackportBranchesKeepsDuplicates(labels: seq<string>, branch: string)
    ensures multiset(FindBackportBranches(labels))[branch] == multiset(labels)[LabelPrefix + branch]
    decreases |labels|
  {
    if labels != [] {
      var l := labels[0];
      assert labels == [l] + labels[1..];
      FindBackportBranchesKeepsDuplicates(labels[1..], branch);
      if StartsWith(l, LabelPrefix) {
        assert l == LabelPrefix + l[|LabelPrefix|..];
      } else {
        assert (LabelPrefix + branch)[..|LabelPrefix|] == LabelPrefix;
      }
    }
  }

  lemma {:induction false} NoPrefixedLabelNoBranch(labels: seq<string>)
    requires forall l :: l in labels ==> !StartsWith(l, LabelPrefix)
    ensures FindBackportBranches(labels) == []
    decreases |labels|
  {
    if labels != [] {
      NoPrefixedLabelNoBranch(labels[1..]);
    }
  }

  /** Early exits: without a `backport-` label, or when the pull request is not
      merged, the command succeeds and does nothing at all. */
  lemma NothingToBackport(gh: GitHubView, wc: WorkingCopy, number: int)
    requires (forall l :: l in gh.pullRequest.labels ==> !StartsWith(l, LabelPrefix)) || !gh.pullRequest.merged
    ensures Run(gh, wc, number) == Outcome(ExitOk, [])
  {
    if gh.pullRequest.merged {
      NoPrefixedLabelNoBranch(gh.pullRequest.labels);
    }
  }

  // ---------------------------------------------------------------------------
  // Guard

  lemma TrackingRefEndsWithName(name: string)
    ensures EndsWith(RemoteTrackingRef(name), name)
  {
  }

  /** A target whose backport branch some remote ref name ends with is skipped:
      nothing is fetched, checked out, picked, pushed, commented or opened. */
  lemma ExistingBackportBranchIsSkipped(gh: GitHubView, wc: WorkingCopy, number: int, p: Progress,
                                        branch: string, ref: string)
    requires p.fault.None?
    requires ref in p.remote && EndsWith(ref, HeadName(number, branch))
    ensures Step(gh, wc, number, p, branch) == p
  {
    var i :| 0 <= i < |p.remote| && p.remote[i] == ref;
  }

  /** The guard is a suffix test, not a name comparison: a remote branch whose name
      merely ends with the backport branch name (say `old-backport-#7-to-main`) also
      makes the target be skipped. */
  lemma LongerNameAlsoSkips(gh: GitHubView, wc: WorkingCopy, number: int, p: Progress,
                            branch: string, prefix: string)
    requires p.fault.None?
    requires RemoteTrackingRef(prefix + HeadName(number, branch)) in p.remote
    ensures Step(gh, wc, number, p, branch) == p
  {
    var ref := RemoteTrackingRef(prefix + HeadName(number, branch));
    PrefixedRefEndsWithName(prefix, HeadName(number, branch));
    ExistingBackportBranchIsSkipped(gh, wc, number, p, branch, ref);
  }

  lemma PrefixedRefEndsWithName(prefix: string, name: string)
    ensures EndsWith(RemoteTrackingRef(prefix + name), name)
  {
    var ref := RemoteTrackingRef(prefix + name);
    assert ref == RemoteTrackingRef(prefix) + name;
    assert ref[|ref| - |name|..] == name;
  }

  /** Second run: when every backport branch is already on the remote, the run
      only clones and succeeds, whatever the picks would give. */
  lemma {:induction false} RerunSkipsExistingBackports(gh: GitHubView, wc: WorkingCopy, number: int)
    requires gh.pullRequest.merged
    requires forall b :: b in FindBackportBranches(gh.pullRequest.labels) ==>
               RemoteTrackingRef(HeadName(number, b)) in wc.remoteRefs
    ensures var branches := FindBackportBranches(gh.pullRequest.labels);
      Run(gh, wc, number)
      == if branches == [] then Outcome(ExitOk, [])
         else Outcome(ExitOk, [CloneRepository(gh.repository.httpTransportUrl)])
  {
    var branches := FindBackportBranches(gh.pullRequest.labels);
    if branches != [] {
      AllSkipped(gh, wc, number, Start(gh, wc), branches);
    }
  }

  lemma {:induction false} AllSkipped(gh: GitHubView, wc: WorkingCopy, number: int, p: Progress, branches: seq<string>)
    requires p.fault.None?
    requires forall b :: b in branches ==> RemoteTrackingRef(HeadName(number, b)) in p.remote
    ensures ProcessAll(gh, wc, number, p, branches) == p
    decreases |branches|
  {
    if branches != [] {
      var b := branches[0];
      TrackingRefEndsWithName(HeadName(number, b));
      ExistingBackportBranchIsSkipped(gh, wc, number, p, b, RemoteTrackingRef(HeadName(number, b)));
      AllSkipped(gh, wc, number, p, branches[1..]);
    }
  }

  // ---------------------------------------------------------------------------
  // Replay

  /** Every commit is picked up to the first conflict, in list order, and none after it. */
  lemma AttemptedStopsAtFirstConflict(os: seq<PickStatus>, i: nat)
    requires i < |os|
    ensures i < Attempted(os) <==> Conflict !in os[..i]
  {
    var k := Attempted(os);
    if i < k {
      assert os[..i] == os[..k - 1][..i];
    } else if Conflict in os {
      assert os[k - 1] == os[..i][k - 1];
    }
  }

  // ---------------------------------------------------------------------------
  // Publication

  /** The replay of `branch` brought a change and no conflict: the only case that pushes. */
  predicate Changed(wc: WorkingCopy, branch: string, commits: seq<string>) {
    var os := Outcomes(wc, branch, commits);
    Conflict !in os && Applied in os
  }

  /** The guard lets `branch` through and both `checkout -b` succeed. */
  predicate Proceeds(number: int, p: Progress, branch: string) {
    var head := HeadName(number, branch);
    p.fault.None? && !AnyEndsWith(p.remote, head)
    && branch !in p.local && RemoteTrackingRef(branch) in p.remote && head !in p.local + {branch}
  }

  /** The state once the pull request is fetched and both branches are checked out. */
  function Synced(number: int, p: Progress, branch: string): Progress {
    var head := HeadName(number, branch);
    var remote := if PullTrackingRef(number) in p.remote then p.remote else p.remote + [PullTrackingRef(number)];
    Progress(remote, p.local + {branch} + {head},
             p.log + [FetchRefSpec(PullRefSpec(number))] + [CheckoutTracking(branch, "origin/" + branch)]
             + [CheckoutNewBranch(head)],
             p.created, None)
  }

  /** A branch the guard lets through and whose checkouts succeed is fetched, checked
      out and replayed. */
  lemma ProceedingBranchIsReplayed(gh: GitHubView, wc: WorkingCopy, number: int, p: Progress, branch: string)
    requires Proceeds(number, p, branch)
    ensures Step(gh, wc, number, p, branch)
         == Replay(gh, wc, number, Synced(number, p, branch), branch, HeadName(number, branch))
  {
  }

  /** Every target the guard lets through first fetches the pull request's head with
      the ref spec `+refs/pull/N/head:refs/remotes/origin/pr/N`, whose destination is
      then among the remote refs, whether or not the checkouts that follow succeed. */
  lemma UnskippedBranchFetchesPullRequest(gh: GitHubView, wc: WorkingCopy, number: int, p: Progress,
                                          branch: string)
    requires p.fault.None? && !AnyEndsWith(p.remote, HeadName(number, branch))
    ensures var q := Step(gh, wc, number, p, branch);
      |p.log| < |q.log| && q.log[|p.log|] == FetchRefSpec(PullRefSpec(number))
      && PullTrackingRef(number) in q.remote
  {
    if Proceeds(number, p, branch) {
      var synced := Synced(number, p, branch);
      ProceedingBranchIsReplayed(gh, wc, number, p, branch);
      var seg, made := ReplayAppends(gh, wc, number, synced, branch);
      assert synced.log[|p.log|] == FetchRefSpec(PullRefSpec(number));
    }
  }

  /** A replay that meets a conflict adds the picks up to the conflict and one comment
      with the manual instructions; nothing is pushed or opened. */
  lemma ConflictGetsOneComment(gh: GitHubView, wc: WorkingCopy, number: int, s: Progress, branch: string,
                               head: string)
    requires Conflict in Outcomes(wc, branch, gh.pullRequest.commits)
    ensures var q := Replay(gh, wc, number, s, branch, head);
      var commits := gh.pullRequest.commits;
      q.fault == s.fault && q.created == s.created && q.remote == s.remote
      && q.log == s.log + Picks(commits[..Attempted(Outcomes(wc, branch, commits))])
                  + [Comment(ConflictComment(gh.repository.httpTransportUrl, number, commits,
                                             head, branch, gh.pullRequest.title))]
  {
  }

  /** So a branch whose replay meets a conflict gets the picks up to the conflict and
      one comment; the run goes on with the next branch. */
  lemma ConflictedBranchGetsOneComment(gh: GitHubView, wc: WorkingCopy, number: int, p: Progress, branch: string)
    requires Proceeds(number, p, branch)
    requires Conflict in Outcomes(wc, branch, gh.pullRequest.commits)
    ensures var q := Step(gh, wc, number, p, branch);
      var commits := gh.pullRequest.commits;
      q.fault.None? && q.created == p.created
      && q.log == Synced(number, p, branch).log + Picks(commits[..Attempted(Outcomes(wc, branch, commits))])
                  + [Comment(ConflictComment(gh.repository.httpTransportUrl, number, commits,
                                             HeadName(number, branch), branch, gh.pullRequest.title))]
  {
    ProceedingBranchIsReplayed(gh, wc, number, p, branch);
    ConflictGetsOneComment(gh, wc, number, Synced(number, p, branch), branch, HeadName(number, branch));
  }

  /** A branch whose replay changes nothing (every commit already there, or no commits
      at all) gets the picks only: nothing is pushed, opened or posted. */
  lemma UnchangedBranchPublishesNothing(gh: GitHubView, wc: WorkingCopy, number: int, p: Progress, branch: string)
    requires Proceeds(number, p, branch)
    requires forall i :: 0 <= i < |gh.pullRequest.commits| ==> wc.pick(branch, gh.pullRequest.commits[i]) == AlreadyPresent
    ensures var q := Step(gh, wc, number, p, branch);
      q.fault.None? && q.created == p.created
      && q.log == Synced(number, p, branch).log + Picks(gh.pullRequest.commits)
  {
    var commits := gh.pullRequest.commits;
    var os := Outcomes(wc, branch, commits);
    assert Conflict !in os && Applied !in os;
    assert commits[..|commits|] == commits;
  }

  /** A branch whose replay changes something without conflict is pushed once and
      gets one pull request, from its backport branch into the target branch. */
  lemma ChangedBranchIsPublished(gh: GitHubView, wc: WorkingCopy, number: int, p: Progress, branch: string)
    requires Proceeds(number, p, branch)
    requires Changed(wc, branch, gh.pullRequest.commits)
    ensures var q := Step(gh, wc, number, p, branch);
      var head := HeadName(number, branch);
      q.fault.None?
      && q.created == p.created + [Created(gh.assignedNumber(|p.created|), head, branch)]
      && q.log == Synced(number, p, branch).log + Picks(gh.pullRequest.commits)
                  + [PushAtomic(head),
                     CreatePullRequest(PullRequestTitle(branch, gh.pullRequest.title), head, branch,
                                       PullRequestBody(number, branch))]
  {
    var commits := gh.pullRequest.commits;
    assert commits[..|commits|] == commits;
  }

  /** Pushes and pull requests come in pairs: each push is followed by the pull
      request for the pushed branch, and each pull request follows its push. */
  ghost predicate PushThenOpen(log: seq<Effect>) {
    (forall i :: 0 <= i < |log| && log[i].PushAtomic? ==>
       i + 1 < |log| && log[i + 1].CreatePullRequest? && log[i + 1].head == log[i].head)
    && (forall i :: 0 <= i < |log| && log[i].CreatePullRequest? ==>
          0 < i && log[i - 1] == PushAtomic(log[i].head))
  }

  /** Heads and bases of the pull requests opened in a log, in order. */
  function Opened(log: seq<Effect>): seq<(string, string)> {
    if log == [] then []
    else
      Opened(log[..|log| - 1])
      + match log[|log| - 1] {
          case CreatePullRequest(_, head, base, _) => [(head, base)]
          case _ => []
        }
  }

  function HeadsAndBases(created: seq<Created>): seq<(string, string)> {
    seq(|created|, i requires 0 <= i < |created| => (created[i].head, created[i].base))
  }

  /** The pull requests in `made` got the numbers GitHub gives to the pull requests
      a run opens, from the `first`-th one on. */
  predicate Numbered(numbering: nat -> Int32, first: nat, made: seq<Created>) {
    forall k :: 0 <= k < |made| ==> made[k].number == numbering(first + k)
  }

  /** The created pull requests, rebuilt from the heads and bases opened in order
      and the numbers GitHub gives them. */
  function Listed(numbering: nat -> Int32, pairs: seq<(string, string)>): (created: seq<Created>)
    ensures HeadsAndBases(created) == pairs && Numbered(numbering, 0, created)
  {
    var created := seq(|pairs|, k requires 0 <= k < |pairs| => Created(numbering(k), pairs[k].0, pairs[k].1));
    assert forall k :: 0 <= k < |pairs| ==> HeadsAndBases(created)[k] == pairs[k];
    created
  }

  /** Heads, bases and numbers determine the created list. */
  lemma ListedNumbered(numbering: nat -> Int32, created: seq<Created>)
    requires Numbered(numbering, 0, created)
    ensures Listed(numbering, HeadsAndBases(created)) == created
  {
    var listed := Listed(numbering, HeadsAndBases(created));
    forall k | 0 <= k < |created|
      ensures listed[k] == created[k]
    {
      assert HeadsAndBases(created)[k] == (created[k].head, created[k].base);
    }
  }

  lemma NumberedAppend(numbering: nat -> Int32, a: seq<Created>, b: seq<Created>)
    requires Numbered(numbering, 0, a) && Numbered(numbering, |a|, b)
    ensures Numbered(numbering, 0, a + b)
  {
    forall k | 0 <= k < |a + b|
      ensures (a + b)[k].number == numbering(k)
    {
      if k >= |a| {
        assert (a + b)[k] == b[k - |a|];
      }
    }
  }

  lemma {:induction false} OpenedAppend(a: seq<Effect>, b: seq<Effect>)
    ensures Opened(a + b) == Opened(a) + Opened(b)
    decreases |b|
  {
    if b == [] {
      assert a + b == a;
    } else {
      var b' := b[..|b| - 1];
      assert (a + b)[..|a + b| - 1] == a + b';
      OpenedAppend(a, b');
    }
  }

  lemma {:induction false} NoneOpened(log: seq<Effect>)
    requires forall e :: e in log ==> !e.CreatePullRequest?
    ensures Opened(log) == []
    decreases |log|
  {
    if log != [] {
      assert log[|log| - 1] in log;
      NoneOpened(log[..|log| - 1]);
    }
  }

  /** What an effect of the run may be: a pull request only for a backport
      branch on the remote whose replay changed something, with the title and
      body the command builds; a comment only with the conflict instructions. */
  predicate Allowed(gh: GitHubView, wc: WorkingCopy, number: int, remote: seq<string>, e: Effect) {
    match e
    case CreatePullRequest(title, head, base, body) =>
      head == HeadName(number, base)
      && RemoteTrackingRef(head) in remote
      && Changed(wc, base, gh.pullRequest.commits)
      && title == PullRequestTitle(base, gh.pullRequest.title)
      && body == PullRequestBody(number, base)
    case Comment(text) => StartsWith(text, ConflictPrefix)
    case _ => true
  }

  ghost predicate AllAllowed(gh: GitHubView, wc: WorkingCopy, number: int, remote: seq<string>, log: seq<Effect>) {
    forall e :: e in log ==> Allowed(gh, wc, number, remote, e)
  }

  /** No pull request in the log has backport branch `head`. */
  predicate NewHead(log: seq<Effect>, head: string) {
    forall i :: 0 <= i < |log| && log[i].CreatePullRequest? ==> log[i].head != head
  }

  ghost predicate DistinctHeads(log: seq<Effect>) {
    forall i, j :: 0 <= i < j < |log| && log[i].CreatePullRequest? && log[j].CreatePullRequest? ==>
      log[i].head != log[j].head
  }

  /** What holds of the state after any number of target branches. */
  ghost predicate Invariant(gh: GitHubView, wc: WorkingCopy, number: int, p: Progress) {
    PushThenOpen(p.log)
    && Opened(p.log) == HeadsAndBases(p.created)
    && AllAllowed(gh, wc, number, p.remote, p.log)
    && DistinctHeads(p.log)
    && Numbered(gh.assignedNumber, 0, p.created)
  }

  lemma PushThenOpenAppend(a: seq<Effect>, b: seq<Effect>)
    requires PushThenOpen(a) && PushThenOpen(b)
    ensures PushThenOpen(a + b)
  {
    var log := a + b;
    forall i | 0 <= i < |log| && log[i].PushAtomic?
      ensures i + 1 < |log| && log[i + 1].CreatePullRequest? && log[i + 1].head == log[i].head
    {
      if i < |a| {
        assert a[i].PushAtomic?;
      } else {
        assert b[i - |a|].PushAtomic?;
      }
    }
    forall i | 0 <= i < |log| && log[i].CreatePullRequest?
      ensures 0 < i && log[i - 1] == PushAtomic(log[i].head)
    {
      if i < |a| {
        assert a[i].CreatePullRequest?;
      } else {
        assert b[i - |a|].CreatePullRequest?;
      }
    }
  }

  lemma AllAllowedAppend(gh: GitHubView, wc: WorkingCopy, number: int, remote: seq<string>, remote': seq<string>,
                         a: seq<Effect>, b: seq<Effect>)
    requires AllAllowed(gh, wc, number, remote, a) && AllAllowed(gh, wc, number, remote', b)
    requires forall r :: r in remote ==> r in remote'
    ensures AllAllowed(gh, wc, number, remote', a + b)
  {
    forall e | e in a + b
      ensures Allowed(gh, wc, number, remote', e)
    {
      if e in a {
        assert Allowed(gh, wc, number, remote, e);
      }
    }
  }

  lemma DistinctHeadsAppend(a: seq<Effect>, b: seq<Effect>)
    requires DistinctHeads(a) && DistinctHeads(b)
    requires forall j :: 0 <= j < |b| && b[j].CreatePullRequest? ==> NewHead(a, b[j].head)
    ensures DistinctHeads(a + b)
  {
    var log := a + b;
    forall i, j | 0 <= i < j < |log| && log[i].CreatePullRequest? && log[j].CreatePullRequest?
      ensures log[i].head != log[j].head
    {
      if j < |a| {
        assert a[i] == log[i] && a[j] == log[j];
      } else if i < |a| {
        assert a[i] == log[i] && b[j - |a|] == log[j];
        assert NewHead(a, b[j - |a|].head);
      } else {
        assert b[i - |a|] == log[i] && b[j - |a|] == log[j];
      }
    }
  }

  /** Effects that neither push, open a pull request nor comment. */
  predicate Quiet(e: Effect) {
    !e.PushAtomic? && !e.CreatePullRequest? && !e.Comment?
  }

  /** A stretch of effects with no push, pull request or comment has every
      property the invariant asks of a log. */
  lemma QuietSegment(gh: GitHubView, wc: WorkingCopy, number: int, remote: seq<string>, seg: seq<Effect>)
    requires forall e :: e in seg ==> Quiet(e)
    ensures PushThenOpen(seg) && Opened(seg) == [] && AllAllowed(gh, wc, number, remote, seg)
         && DistinctHeads(seg) && forall head :: NewHead(seg, head)
  {
    NoneOpened(seg);
    forall i | 0 <= i < |seg|
      ensures Quiet(seg[i])
    {
      assert seg[i] in seg;
    }
  }

  /** Everything one target branch appends to the log. */
  ghost predicate Segment(gh: GitHubView, wc: WorkingCopy, number: int, branch: string,
                          remote: seq<string>, seg: seq<Effect>, made: seq<Created>)
  {
    PushThenOpen(seg)
    && Opened(seg) == HeadsAndBases(made)
    && AllAllowed(gh, wc, number, remote, seg)
    && DistinctHeads(seg)
    && (forall e :: e in seg && e.CreatePullRequest? ==> e.head == HeadName(number, branch) && e.base == branch)
  }

  lemma SegmentAppend(gh: GitHubView, wc: WorkingCopy, number: int, branch: string,
                      remote: seq<string>, a: seq<Effect>, b: seq<Effect>, made: seq<Created>)
    requires forall e :: e in a ==> Quiet(e)
    requires Segment(gh, wc, number, branch, remote, b, made)
    ensures Segment(gh, wc, number, branch, remote, a + b, made)
  {
    QuietSegment(gh, wc, number, remote, a);
    PushThenOpenAppend(a, b);
    OpenedAppend(a, b);
    AllAllowedAppend(gh, wc, number, remote, remote, a, b);
    DistinctHeadsAppend(a, b);
  }

  /** A conflict comment on its own. */
  lemma CommentSegment(gh: GitHubView, wc: WorkingCopy, number: int, branch: string,
                       remote: seq<string>, text: string)
    requires StartsWith(text, ConflictPrefix)
    ensures Segment(gh, wc, number, branch, remote, [Comment(text)], [])
  {
    assert [Comment(text)][..0] == [];
  }

  lemma HeaderStartsWithPrefix(branch: string, rest: string)
    ensures StartsWith(ConflictHeader(branch) + rest, ConflictPrefix)
  {
  }

  /** Every conflict comment starts with the same words. */
  lemma ConflictCommentStartsWithPrefix(url: string, number: int, commits: seq<string>, head: string,
                                         branch: string, title: string)
    ensures StartsWith(ConflictComment(url, number, commits, head, branch, title), ConflictPrefix)
  {
    HeaderStartsWithPrefix(branch, ManualInstructions(url, number, commits, head, branch, title));
  }

  /** The push of a changed branch and its pull request. */
  lemma PublishSegment(gh: GitHubView, wc: WorkingCopy, number: int, branch: string,
                       remote: seq<string>, given: int)
    requires Changed(wc, branch, gh.pullRequest.commits)
    requires RemoteTrackingRef(HeadName(number, branch)) in remote
    ensures var head := HeadName(number, branch);
      Segment(gh, wc, number, branch, remote,
              [PushAtomic(head),
               CreatePullRequest(PullRequestTitle(branch, gh.pullRequest.title), head, branch,
                                 PullRequestBody(number, branch))],
              [Created(given, head, branch)])
  {
    var head := HeadName(number, branch);
    var push := PushAtomic(head);
    var request := CreatePullRequest(PullRequestTitle(branch, gh.pullRequest.title), head, branch,
                                     PullRequestBody(number, branch));
    assert Opened([push]) == [] by {
      assert [push][..0] == [];
    }
    assert [push, request][..1] == [push];
    assert Opened([push, request]) == [(head, branch)];
    assert HeadsAndBases([Created(given, head, branch)]) == [(head, branch)];
  }

  /** What the replay onto a backport branch appends, and the pull request it may open. */
  lemma ReplayAppends(gh: GitHubView, wc: WorkingCopy, number: int, p: Progress, branch: string)
    returns (seg: seq<Effect>, made: seq<Created>)
    ensures var q := Replay(gh, wc, number, p, branch, HeadName(number, branch));
      q.log == p.log + seg && q.created == p.created + made
      && (forall r :: r in p.remote ==> r in q.remote)
      && Segment(gh, wc, number, branch, q.remote, seg, made)
    ensures Numbered(gh.assignedNumber, |p.created|, made)
  {
    var head := HeadName(number, branch);
    var q := Replay(gh, wc, number, p, branch, head);
    var commits := gh.pullRequest.commits;
    var os := Outcomes(wc, branch, commits);
    var picks := Picks(commits[..Attempted(os)]);
    assert forall e :: e in picks ==> Quiet(e);
    if Conflict in os {
      var text := ConflictComment(gh.repository.httpTransportUrl, number, commits, head, branch, gh.pullRequest.title);
      seg, made := picks + [Comment(text)], [];
      ConflictCommentStartsWithPrefix(gh.repository.httpTransportUrl, number, commits, head, branch, gh.pullRequest.title);
      assert q.log == p.log + picks + [Comment(text)];
      assert q.log == p.log + (picks + [Comment(text)]);
      assert p.created + [] == p.created;
      CommentSegment(gh, wc, number, branch, q.remote, text);
      SegmentAppend(gh, wc, number, branch, q.remote, picks, [Comment(text)], made);
    } else if Applied in os {
      var request := CreatePullRequest(PullRequestTitle(branch, gh.pullRequest.title), head, branch,
                                       PullRequestBody(number, branch));
      seg, made := picks + [PushAtomic(head), request], [Created(gh.assignedNumber(|p.created|), head, branch)];
      assert q.log == p.log + picks + [PushAtomic(head), request];
      assert q.log == p.log + (picks + [PushAtomic(head), request]);
      PublishSegment(gh, wc, number, branch, q.remote, gh.assignedNumber(|p.created|));
      SegmentAppend(gh, wc, number, branch, q.remote, picks, [PushAtomic(head), request], made);
      assert made[0].number == gh.assignedNumber(|p.created| + 0);
    } else {
      seg, made := picks, [];
      assert p.created + [] == p.created;
      QuietSegment(gh, wc, number, q.remote, picks);
    }
  }

  /** What checking out the branches and replaying appends. */
  lemma SyncAppends(gh: GitHubView, wc: WorkingCopy, number: int, p: Progress, branch: string)
    returns (seg: seq<Effect>, made: seq<Created>)
    requires p.fault.None?
    ensures var q := Sync(gh, wc, number, p, branch, HeadName(number, branch));
      q.log == p.log + seg && q.created == p.created + made
      && (forall r :: r in p.remote ==> r in q.remote)
      && Segment(gh, wc, number, branch, q.remote, seg, made)
    ensures Numbered(gh.assignedNumber, |p.created|, made)
  {
    var head := HeadName(number, branch);
    var q := Sync(gh, wc, number, p, branch, head);
    var remote := if PullTrackingRef(number) in p.remote then p.remote else p.remote + [PullTrackingRef(number)];
    var fetch := FetchRefSpec(PullRefSpec(number));
    var track := CheckoutTracking(branch, "origin/" + branch);
    if branch in p.local || RemoteTrackingRef(branch) !in remote {
      seg, made := [fetch], [];
      assert p.created + [] == p.created;
      QuietSegment(gh, wc, number, q.remote, seg);
    } else if head in p.local + {branch} {
      seg, made := [fetch, track], [];
      assert p.log + [fetch] + [track] == p.log + [fetch, track];
      assert p.created + [] == p.created;
      QuietSegment(gh, wc, number, q.remote, seg);
    } else {
      var checkouts := [fetch, track, CheckoutNewBranch(head)];
      var mid := Progress(remote, p.local + {branch} + {head}, p.log + [fetch] + [track] + [CheckoutNewBranch(head)], p.created, None);
      assert mid.log == p.log + checkouts;
      seg, made := ReplayAfterCheckouts(gh, wc, number, p, mid, branch, checkouts);
    }
  }

  /** The replay that follows the checkouts, appended after them. */
  lemma ReplayAfterCheckouts(gh: GitHubView, wc: WorkingCopy, number: int, p: Progress, mid: Progress,
                             branch: string, checkouts: seq<Effect>)
    returns (seg: seq<Effect>, made: seq<Created>)
    requires mid.log == p.log + checkouts && mid.created == p.created
    requires forall r :: r in p.remote ==> r in mid.remote
    requires forall e :: e in checkouts ==> Quiet(e)
    ensures var q := Replay(gh, wc, number, mid, branch, HeadName(number, branch));
      q.log == p.log + seg && q.created == p.created + made
      && (forall r :: r in p.remote ==> r in q.remote)
      && Segment(gh, wc, number, branch, q.remote, seg, made)
    ensures Numbered(gh.assignedNumber, |p.created|, made)
  {
    var q := Replay(gh, wc, number, mid, branch, HeadName(number, branch));
    var replayed, m := ReplayAppends(gh, wc, number, mid, branch);
    seg, made := checkouts + replayed, m;
    assert q.log == p.log + (checkouts + replayed);
    SegmentAppend(gh, wc, number, branch, q.remote, checkouts, replayed, made);
  }

  /** A backport branch no remote ref ends with has no pull request yet. */
  lemma UnseenHeadIsNew(gh: GitHubView, wc: WorkingCopy, number: int, p: Progress, head: string)
    requires AllAllowed(gh, wc, number, p.remote, p.log)
    requires !AnyEndsWith(p.remote, head)
    ensures NewHead(p.log, head)
  {
    forall i | 0 <= i < |p.log| && p.log[i].CreatePullRequest?
      ensures p.log[i].head != head
    {
      assert p.log[i] in p.log;
      if p.log[i].head == head {
        TrackingRefEndsWithName(head);
      }
    }
  }

  lemma HeadsAndBasesAppend(a: seq<Created>, b: seq<Created>)
    ensures HeadsAndBases(a + b) == HeadsAndBases(a) + HeadsAndBases(b)
  {
  }

  /** Appending the segment of a branch whose backport branch is new keeps the invariant. */
  lemma AppendKeepsInvariant(gh: GitHubView, wc: WorkingCopy, number: int, branch: string,
                             p: Progress, q: Progress, seg: seq<Effect>, made: seq<Created>)
    requires Invariant(gh, wc, number, p)
    requires q.log == p.log + seg && q.created == p.created + made
    requires forall r :: r in p.remote ==> r in q.remote
    requires Segment(gh, wc, number, branch, q.remote, seg, made)
    requires NewHead(p.log, HeadName(number, branch))
    requires Numbered(gh.assignedNumber, |p.created|, made)
    ensures Invariant(gh, wc, number, q) && p.log <= q.log
    ensures forall i :: |p.log| <= i < |q.log| && q.log[i].CreatePullRequest? ==> q.log[i].base == branch
  {
    PushThenOpenAppend(p.log, seg);
    OpenedAppend(p.log, seg);
    HeadsAndBasesAppend(p.created, made);
    NumberedAppend(gh.assignedNumber, p.created, made);
    AllAllowedAppend(gh, wc, number, p.remote, q.remote, p.log, seg);
    forall j | 0 <= j < |seg| && seg[j].CreatePullRequest?
      ensures NewHead(p.log, seg[j].head)
    {
      assert seg[j] in seg;
    }
    DistinctHeadsAppend(p.log, seg);
    forall i | |p.log| <= i < |q.log| && q.log[i].CreatePullRequest?
      ensures q.log[i].base == branch
    {
      assert q.log[i] == seg[i - |p.log|];
      assert seg[i - |p.log|] in seg;
    }
  }

  /** One target branch keeps the invariant, only appends to the log and to the
      pull requests, and opens pull requests based on that branch only. */
  lemma StepKeepsInvariant(gh: GitHubView, wc: WorkingCopy, number: int, p: Progress, branch: string)
    requires p.fault.None? && Invariant(gh, wc, number, p)
    ensures var q := Step(gh, wc, number, p, branch);
      Invariant(gh, wc, number, q) && p.log <= q.log
      && (forall i :: |p.log| <= i < |q.log| && q.log[i].CreatePullRequest? ==> q.log[i].base == branch)
  {
    var head := HeadName(number, branch);
    if !AnyEndsWith(p.remote, head) {
      var seg, made := SyncAppends(gh, wc, number, p, branch);
      UnseenHeadIsNew(gh, wc, number, p, head);
      AppendKeepsInvariant(gh, wc, number, branch, p, Step(gh, wc, number, p, branch), seg, made);
    }
  }

  /** The invariant after all target branches, with each pull request opened
      for one of them. */
  lemma {:induction false} ProcessAllKeepsInvariant(gh: GitHubView, wc: WorkingCopy, number: int, p: Progress,
                                                     branches: seq<string>)
    requires Invariant(gh, wc, number, p)
    ensures var q := ProcessAll(gh, wc, number, p, branches);
      Invariant(gh, wc, number, q) && p.log <= q.log
      && (forall i :: |p.log| <= i < |q.log| && q.log[i].CreatePullRequest? ==> q.log[i].base in branches)
    decreases |branches|
  {
    if branches != [] && p.fault.None? {
      var s := Step(gh, wc, number, p, branches[0]);
      StepKeepsInvariant(gh, wc, number, p, branches[0]);
      ProcessAllKeepsInvariant(gh, wc, number, s, branches[1..]);
      var q := ProcessAll(gh, wc, number, s, branches[1..]);
      forall i | |p.log| <= i < |q.log| && q.log[i].CreatePullRequest?
        ensures q.log[i].base in branches
      {
        if i < |s.log| {
          assert q.log[i] == s.log[i];
        } else {
          assert q.log[i].base in branches[1..];
        }
      }
    }
  }

  /** The summary comment is not a conflict comment. */
  lemma SummaryIsNotConflictComment(htmlUrl: string, created: seq<Created>)
    ensures !StartsWith(SummaryComment(htmlUrl, created), ConflictPrefix)
  {
    assert SummaryComment(htmlUrl, created)[1] == 'r';
  }

  /** The run in terms of the state after all target branches. */
  lemma RunShape(gh: GitHubView, wc: WorkingCopy, number: int)
    ensures var branches := FindBackportBranches(gh.pullRequest.labels);
      var q := ProcessAll(gh, wc, number, Start(gh, wc), branches);
      var r := Run(gh, wc, number);
      if branches == [] || !gh.pullRequest.merged then r == Outcome(ExitOk, [])
      else
        (r.exitCode == ExitOk <==> q.fault.None?)
        && r.log == if q.fault.None? && q.created != [] then q.log + [Comment(SummaryComment(gh.repository.htmlUrl, q.created))]
                    else q.log
  {
  }

  /** The state after all target branches keeps the invariant, and each of its
      pull requests is based on one of them. */
  lemma FinalInvariant(gh: GitHubView, wc: WorkingCopy, number: int)
    ensures var branches := FindBackportBranches(gh.pullRequest.labels);
      var q := ProcessAll(gh, wc, number, Start(gh, wc), branches);
      Invariant(gh, wc, number, q)
      && forall i :: 0 <= i < |q.log| && q.log[i].CreatePullRequest? ==> q.log[i].base in branches
  {
    var branches := FindBackportBranches(gh.pullRequest.labels);
    var start := Start(gh, wc);
    NoneOpened(start.log);
    ProcessAllKeepsInvariant(gh, wc, number, start, branches);
    var q := ProcessAll(gh, wc, number, start, branches);
    assert q.log[0] == CloneRepository(gh.repository.httpTransportUrl);
  }

  /** The publication facts of a log that extends an invariant state with comments only. */
  lemma PublishedInLog(gh: GitHubView, wc: WorkingCopy, number: int, q: Progress, branches: seq<string>,
                       log: seq<Effect>)
    requires Invariant(gh, wc, number, q)
    requires forall i :: 0 <= i < |q.log| && q.log[i].CreatePullRequest? ==> q.log[i].base in branches
    requires q.log <= log && forall i :: |q.log| <= i < |log| ==> log[i].Comment?
    ensures PushThenOpen(log)
    ensures forall i :: 0 <= i < |log| && log[i].CreatePullRequest? ==>
              log[i].base in branches
              && log[i].head == HeadName(number, log[i].base)
              && Changed(wc, log[i].base, gh.pullRequest.commits)
              && log[i].title == PullRequestTitle(log[i].base, gh.pullRequest.title)
              && log[i].body == PullRequestBody(number, log[i].base)
    ensures DistinctHeads(log)
  {
    forall i | 0 <= i < |log| && log[i].CreatePullRequest?
      ensures log[i].base in branches
              && log[i].head == HeadName(number, log[i].base)
              && Changed(wc, log[i].base, gh.pullRequest.commits)
              && log[i].title == PullRequestTitle(log[i].base, gh.pullRequest.title)
              && log[i].body == PullRequestBody(number, log[i].base)
    {
      assert i < |q.log| && log[i] == q.log[i];
      assert q.log[i] in q.log;
      assert Allowed(gh, wc, number, q.remote, q.log[i]);
    }
    forall i | 0 <= i < |log| && log[i].PushAtomic?
      ensures i + 1 < |log| && log[i + 1].CreatePullRequest? && log[i + 1].head == log[i].head
    {
      assert q.log[i].PushAtomic?;
    }
  }

  /**
   * What the whole run publishes: pushes only of branches whose replay changed
   * something without conflict, each followed by the pull request for it (title,
   * body and base as the source builds them), at most one per backport branch,
   * for target branches only.
   */
  lemma RunPublishesOnlyChangedBranches(gh: GitHubView, wc: WorkingCopy, number: int)
    ensures var log := Run(gh, wc, number).log;
      PushThenOpen(log)
      && (forall i :: 0 <= i < |log| && log[i].CreatePullRequest? ==>
            log[i].base in FindBackportBranches(gh.pullRequest.labels)
            && log[i].head == HeadName(number, log[i].base)
            && Changed(wc, log[i].base, gh.pullRequest.commits)
            && log[i].title == PullRequestTitle(log[i].base, gh.pullRequest.title)
            && log[i].body == PullRequestBody(number, log[i].base))
      && DistinctHeads(log)
  {
    var branches := FindBackportBranches(gh.pullRequest.labels);
    RunShape(gh, wc, number);
    if branches != [] && gh.pullRequest.merged {
      FinalInvariant(gh, wc, number);
      var q := ProcessAll(gh, wc, number, Start(gh, wc), branches);
      var log := Run(gh, wc, number).log;
      assert q.log <= log && forall i :: |q.log| <= i < |log| ==> log[i].Comment?;
      PublishedInLog(gh, wc, number, q, branches, log);
    }
  }

  /** The comment heading the summary of created pull requests. */
  predicate IsSummary(e: Effect) {
    e.Comment? && StartsWith(e.text, SummaryHeader)
  }

  lemma ConflictCommentIsNotSummary(text: string)
    requires StartsWith(text, ConflictPrefix)
    ensures !StartsWith(text, SummaryHeader)
  {
    assert text[1] == 'a';
  }

  /** An invariant state holds no summary: its only comments are conflict comments. */
  lemma NoSummaryYet(gh: GitHubView, wc: WorkingCopy, number: int, q: Progress)
    requires Invariant(gh, wc, number, q)
    ensures forall i :: 0 <= i < |q.log| ==> !IsSummary(q.log[i])
  {
    forall i | 0 <= i < |q.log|
      ensures !IsSummary(q.log[i])
    {
      assert q.log[i] in q.log;
      if q.log[i].Comment? {
        ConflictCommentIsNotSummary(q.log[i].text);
      }
    }
  }

  /** The summary facts of the log the run ends with, from a state without a summary
      whose opened pull requests are the created ones, numbered by `numbering`. */
  lemma SummaryInLog(url: string, numbering: nat -> Int32, q: Progress, log: seq<Effect>)
    requires Opened(q.log) == HeadsAndBases(q.created) && Numbered(numbering, 0, q.created)
    requires forall i :: 0 <= i < |q.log| ==> !IsSummary(q.log[i])
    requires log == if q.fault.None? && q.created != [] then q.log + [Comment(SummaryComment(url, q.created))]
                    else q.log
    ensures (exists i :: 0 <= i < |log| && IsSummary(log[i])) <==> q.fault.None? && Opened(log) != []
    ensures forall i :: 0 <= i < |log| && IsSummary(log[i]) ==>
              i == |log| - 1 && log[i].text == SummaryComment(url, Listed(numbering, Opened(log)))
  {
    if q.fault.None? && q.created != [] {
      var summary := Comment(SummaryComment(url, q.created));
      OpenedAppend(q.log, [summary]);
      NoneOpened([summary]);
      assert StartsWith(summary.text, SummaryHeader);
      assert IsSummary(log[|log| - 1]);
      assert |HeadsAndBases(q.created)| == |q.created|;
      assert Opened(log) == HeadsAndBases(q.created);
      ListedNumbered(numbering, q.created);
    } else if q.fault.None? {
      assert HeadsAndBases(q.created) == [];
    }
  }

  /**
   * The summary: posted exactly when the run succeeds and opened at least one
   * pull request, as the last effect, and listing exactly the opened pull
   * requests in the order they were opened, each with its head, its base and
   * the number GitHub gave it.
   */
  lemma SummaryListsOpenedPullRequests(gh: GitHubView, wc: WorkingCopy, number: int)
    ensures var r := Run(gh, wc, number);
      ((exists i :: 0 <= i < |r.log| && IsSummary(r.log[i]))
         <==> r.exitCode == ExitOk && Opened(r.log) != [])
      && (forall i :: 0 <= i < |r.log| && IsSummary(r.log[i]) ==>
            i == |r.log| - 1
            && r.log[i].text == SummaryComment(gh.repository.htmlUrl, Listed(gh.assignedNumber, Opened(r.log))))
  {
    var branches := FindBackportBranches(gh.pullRequest.labels);
    RunShape(gh, wc, number);
    if branches != [] && gh.pullRequest.merged {
      FinalInvariant(gh, wc, number);
      var q := ProcessAll(gh, wc, number, Start(gh, wc), branches);
      NoSummaryYet(gh, wc, number, q);
      SummaryInLog(gh.repository.htmlUrl, gh.assignedNumber, q, Run(gh, wc, number).log);
    }
  }

  // ---------------------------------------------------------------------------
  // Texts

  /** Where line `k` of the manual instructions starts in the conflict comment. */
  function InstructionOffset(url: string, number: int, commits: seq<string>, head: string,
                             branch: string, title: string, k: nat): nat
    requires k <= |InstructionLines(url, number, commits, head, branch, title)|
  {
    |ConflictHeader(branch)| + |Concat(InstructionLines(url, number, commits, head, branch, title)[..k])|
  }

  /** Line `i` of the middle part of `pre + mid + post`, behind a header. */
  lemma MiddleLineAt(header: string, pre: seq<string>, mid: seq<string>, post: seq<string>, i: nat)
    requires i < |mid|
    ensures var lines := pre + mid + post;
      |pre| + i < |lines| && lines[|pre| + i] == mid[i]
      && ContainsAt(header + Concat(lines), mid[i], |header| + |Concat(lines[..|pre| + i])|)
  {
    var lines := pre + mid + post;
    var k := |pre| + i;
    assert lines[k] == mid[i];
    ConcatContains(lines, k);
    ContainsAtAfter(header, Concat(lines), lines[k], |Concat(lines[..k])|);
  }

  /** The conflict comment holds `git cherry-pick <c>` for every commit of the
      whole list, attempted or not, right after the preamble lines. */
  lemma ConflictCommentPicksEveryCommit(url: string, number: int, commits: seq<string>, head: string,
                                        branch: string, title: string, i: nat)
    requires i < |commits|
    ensures ContainsAt(ConflictComment(url, number, commits, head, branch, title),
                       CherryPickLine(commits[i]),
                       InstructionOffset(url, number, commits, head, branch, title,
                                         |PreambleLines(url, number, head, branch)| + i))
  {
    MiddleLineAt(ConflictHeader(branch), PreambleLines(url, number, head, branch), CherryPickLines(commits),
                 ClosingLines(number, head, branch, title), i);
  }

  /** Line `i` of the middle part of `pre + mid + post` ends before line `j` starts. */
  lemma MiddleLinesInOrder(pre: seq<string>, mid: seq<string>, post: seq<string>, i: nat, j: nat)
    requires i < j < |mid|
    ensures var lines := pre + mid + post;
      |Concat(lines[..|pre| + i])| + |mid[i]| <= |Concat(lines[..|pre| + j])|
  {
    var lines := pre + mid + post;
    assert lines[|pre| + i] == mid[i];
    ConcatOrder(lines, |pre| + i, |pre| + j);
  }

  /** ... and in the order of the list. */
  lemma ConflictCommentPicksInOrder(url: string, number: int, commits: seq<string>, head: string,
                                    branch: string, title: string, i: nat, j: nat)
    requires i < j < |commits|
    ensures var n := |PreambleLines(url, number, head, branch)|;
      InstructionOffset(url, number, commits, head, branch, title, n + i) + |CherryPickLine(commits[i])|
      <= InstructionOffset(url, number, commits, head, branch, title, n + j)
  {
    MiddleLinesInOrder(PreambleLines(url, number, head, branch), CherryPickLines(commits),
                       ClosingLines(number, head, branch, title), i, j);
  }

  /** The summary holds one line per created pull request ... */
  lemma SummaryLineForEachPullRequest(htmlUrl: string, created: seq<Created>, i: nat)
    requires i < |created|
    ensures ContainsAt(SummaryComment(htmlUrl, created), SummaryLine(htmlUrl, created[i]),
                       |SummaryHeader| + |Concat(SummaryLines(htmlUrl, created)[..i])|)
  {
    var lines := SummaryLines(htmlUrl, created);
    LineAfterHeader(SummaryHeader, lines, i, SummaryComment(htmlUrl, created), SummaryLine(htmlUrl, created[i]));
  }

  /** The i-th of the lines that follow a header sits right after the header and the lines before it. */
  lemma LineAfterHeader(header: string, lines: seq<string>, i: nat, text: string, line: string)
    requires i < |lines| && text == header + Concat(lines) && line == lines[i]
    ensures ContainsAt(text, line, |header| + |Concat(lines[..i])|)
  {
    ConcatContains(lines, i);
    ContainsAtAfter(header, Concat(lines), lines[i], |Concat(lines[..i])|);
  }

  /** ... in creation order. */
  lemma SummaryLinesInCreationOrder(htmlUrl: string, created: seq<Created>, i: nat, j: nat)
    requires i < j < |created|
    ensures |Concat(SummaryLines(htmlUrl, created)[..i])| + |SummaryLine(htmlUrl, created[i])|
         <= |Concat(SummaryLines(htmlUrl, created)[..j])|
  {
    ConcatOrder(SummaryLines(htmlUrl, created), i, j);
  }

  // ---------------------------------------------------------------------------
  // Naming

  /** Different target branches of one pull request get different backport branches. */
  lemma HeadNameInjective(number: int, b1: string, b2: string)
    requires HeadName(number, b1) == HeadName(number, b2)
    ensures b1 == b2
  {
    var prefix := "backport-#" + IntToString(number) + "-to-";
    assert HeadName(number, b1)[|prefix|..] == b1;
    assert HeadName(number, b2)[|prefix|..] == b2;
  }

  /** After a push, the next listing of remote refs holds one that ends with the
      pushed branch, so a later label for the same branch is skipped. */
  lemma PushedBranchIsSeenByGuard(remote: seq<string>, head: string)
    ensures AnyEndsWith(remote + [RemoteTrackingRef(head)], head)
  {
    TrackingRefEndsWithName(head);
    assert (remote + [RemoteTrackingRef(head)])[|remote|] == RemoteTrackingRef(head);
  }
}
