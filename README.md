# Backport action — a Dafny model

This project models a GitHub workflow action that backports a merged pull request to
other branches.

When a pull-request event triggers the workflow, it runs `backportAction`. The action ignores
events of other repositories. It also ignores events that do not call for a backport.
Otherwise it starts the `backport` command with the token, the repository name and the
pull request number as its command line.

The `backport` command does the following:

- It reads the pull request's `backport-<branch>` labels. It stops when there are none,
  or when the pull request is not merged.
- It clones the repository. Then, for each target branch in label order:
  - It skips the branch when some remote branch name ends with the backport branch name
    `backport-#<N>-to-<branch>`.
  - It fetches `+refs/pull/<N>/head:refs/remotes/origin/pr/<N>`.
  - It checks out `origin/<branch>`, then a new backport branch from it.
  - It cherry-picks the pull request's commits in order, and stops at the first one that
    does not apply.
  - If a commit conflicted, it comments with manual instructions.
  - If nothing changed, it does nothing.
  - Otherwise it pushes the backport branch and opens a pull request into the target
    branch.
- At the end, it posts one comment that lists the pull requests it created, if it
  created any.

Git and GitHub are not called. What they would answer is an input:

- `Backport.GitHubView` holds the repository URLs, and the pull request's title,
  merged flag, labels and commits. It also gives the number GitHub assigns to the k-th
  pull request the run opens.
- `Backport.WorkingCopy` holds the remote refs of the fresh clone and its local branch.
  It also gives the status each cherry-pick of a commit onto a target branch yields.

Each action the command takes is appended to a log of `Backport.Effect`s: clone, fetch,
checkout, cherry-pick, push, comment, or create pull request. A run is judged by its exit
status and that log (`Backport.Outcome`).

Modules:

- `JavaStrings` (`java_strings.dfy`) holds the Java string behaviour the model relies
  on: `startsWith`, `endsWith`, `Integer.toString`, decimal parsing, and `StringBuilder`
  appends as `Concat`.
- `Backport` (`backport.dfy`) models `backport.java`. It has two layers:
  - Functions describe the run as values: `FindBackportBranches`, `Step` per target
    branch (guard, `Sync`, `Replay`, `Publish`), `ProcessAll` over the branches, and
    `Run` for the whole command. They also build the texts (`ConflictComment`,
    `SummaryComment`).
  - Methods do it the way the program does it: `Call` loops over the branches,
    `CherryPickCommits` loops over the commits with `break`, and `BuildSummary` appends
    line by line. Each method is proved equal to its function.
- `BackportProperties` (`backport_properties.dfy`) proves what a run does and does not
  do.
- `BackportAction` (`backport_action.dfy`) models `backportAction.java`.

In a few places the code behaves differently from what one might expect; the model
follows the code:

- Labels become a list. Label order is kept and duplicates are not removed.
- The "already backported" guard is a suffix test on full remote ref names, not an
  equality.
- A `closed` event counts as a candidate even when the pull request was not merged. The
  `backport` command then stops without effect: there is no backport label, or the pull
  request is not merged.
- A `checkout -b` that throws aborts the whole run. This happens when the branch already
  exists locally or `origin/<branch>` is missing. The exit status is 1 and no summary is
  posted. This includes a label naming the same target twice when the first attempt
  pushed nothing.

## Model

| member | source | states |
|---|---|---|
| Backport.FindBackportBranches | backport.java:277-287 | a branch is returned exactly when `backport-` followed by that branch is one of the labels |
| BackportProperties.FindBackportBranchesAppend | backport.java:280-286 | the branches of two label lists in a row are the branches of the first followed by those of the second, so label order is kept |
| BackportProperties.FindBackportBranchesOfLabel | backport.java:282-284 | one label gives its text after `backport-` when it starts with that prefix, and nothing otherwise |
| BackportProperties.FindBackportBranchesKeepsDuplicates | backport.java:280-286 | each branch occurs as often as its label does, so duplicates are not removed |
| BackportProperties.NoPrefixedLabelNoBranch | backport.java:281-285 | labels of which none starts with `backport-` give no branch |
| BackportProperties.NothingToBackport | backport.java:67-77 | with no `backport-` label, or with a pull request that is not merged, the run exits 0 and does nothing, not even the clone |
| BackportProperties.HeadNameInjective | backport.java:93 | two target branches of one pull request get the same backport branch name only when they are the same |
| Backport.AnyEndsWith | backport.java:96-97 | true exactly when some remote ref name ends with the given name |
| BackportProperties.ExistingBackportBranchIsSkipped | backport.java:96-100 | when a remote ref ends with the backport branch name, the target leaves the whole state unchanged: no fetch, checkout, pick, push, comment or pull request |
| BackportProperties.LongerNameAlsoSkips | backport.java:97 | a remote branch whose name only ends with the backport branch name, such as `old-backport-#7-to-main`, also makes the target be skipped |
| BackportProperties.PushedBranchIsSeenByGuard | backport.java:96-100 | once a backport branch is pushed, the remote listing makes the guard fire for that name |
| BackportProperties.AllSkipped | backport.java:91-100 | when every target's backport branch is on the remote, processing the targets changes nothing |
| BackportProperties.RerunSkipsExistingBackports | backport.java:86-100 | when every backport branch already exists on origin, a run of a merged pull request only clones and exits 0, whatever the picks would give |
| BackportProperties.UnskippedBranchFetchesPullRequest | backport.java:102-116 | a target that passes the guard first fetches `+refs/pull/N/head:refs/remotes/origin/pr/N`, and that destination is then among the remote refs |
| BackportProperties.ProceedingBranchIsReplayed | backport.java:102-132 | a target that passes the guard and whose two checkouts succeed is replayed on the fetched and checked-out state |
| Backport.Attempted | backport.java:144-152 | all picks are attempted when none conflicts; otherwise the picks up to and including the first conflict are attempted, and none before it conflicts |
| BackportProperties.AttemptedStopsAtFirstConflict | backport.java:144-152 | commit i is attempted exactly when no earlier pick conflicted |
| Backport.CherryPickCommits | backport.java:142-159 | it picks exactly the commits up to the first conflict, in list order. The last status is a conflict exactly when some pick conflicts, and there is none exactly when the list is empty. `isChanged` holds exactly when some pick before the stop brought new commits, and so, without a conflict, exactly when some pick did |
| BackportProperties.ConflictGetsOneComment | backport.java:161-173 | a replay with a conflict adds the attempted picks and one comment holding the manual instructions. It adds no push and no pull request, and it leaves the remote refs and the fault unchanged |
| BackportProperties.ConflictedBranchGetsOneComment | backport.java:161-173 | a target whose replay conflicts gets the fetch, the checkouts, the picks up to the conflict and exactly one conflict comment. It gets no push and no pull request, and there is no fault, so the next targets are processed |
| BackportProperties.UnchangedBranchPublishesNothing | backport.java:175-178 | when every commit is already on the target, or there are no commits, only the fetch, checkouts and picks are logged. Nothing is pushed, opened or commented |
| BackportProperties.ChangedBranchIsPublished | backport.java:180-194 | a change without conflict gives one atomic push of the backport branch, then one pull request. Its title is `[branch] Backport <title>`, its head the backport branch, its base the target and its body `Backport #N to branch.`, and it is recorded as created |
| BackportProperties.ConflictCommentStartsWithPrefix | backport.java:163-165 | every conflict comment starts with `Cannot backport to ` |
| BackportProperties.ReplayAppends | backport.java:141-194 | a replay only appends to the log and to the created list, and only adds remote refs. Any push it appends is followed by its pull request, and every such request has this target's head and base and opens a change |
| BackportProperties.SyncAppends | backport.java:102-194 | the same holds for the fetch, the checkouts and the replay of a target together |
| BackportProperties.UnseenHeadIsNew | backport.java:96-100 | when the guard lets a target through, no pull request so far has its backport branch as head |
| BackportProperties.StepKeepsInvariant | backport.java:91-195 | one target keeps the run's invariant and only appends to the log. In the invariant, pushes and pull requests come in pairs, each pull request opens a change, the pull requests opened are the ones recorded as created, the k-th created one carries the number GitHub gave the k-th request, and no two share a head. The new pull requests have this target as base |
| BackportProperties.ProcessAllKeepsInvariant | backport.java:91-195 | processing targets keeps the invariant, and every new pull request is based on one of them |
| BackportProperties.FinalInvariant | backport.java:86-195 | after the clone and all targets, the invariant holds, and every pull request is based on a target named by a label |
| BackportProperties.RunShape | backport.java:62-215 | an early exit gives exit 0 and no effects. Otherwise the exit status is 0 exactly when no checkout threw, and the summary is appended only when the run did not fault and created a pull request |
| BackportProperties.PublishedInLog | backport.java:175-212 | comments appended after the targets keep the pairing of pushes and pull requests, the facts about each pull request, and distinct heads |
| BackportProperties.RunPublishesOnlyChangedBranches | backport.java:175-194 | in a whole run, each push is followed by its pull request. Each pull request is based on a labelled target, has that target's backport branch as head, its replay changed something without a conflict, and it has the title and body built from the target. No two pull requests share a head |
| BackportProperties.ConflictCommentIsNotSummary | backport.java:163-165 | a conflict comment never starts with the summary heading |
| BackportProperties.SummaryIsNotConflictComment | backport.java:198-201 | a summary never starts with the conflict prefix |
| BackportProperties.NoSummaryYet | backport.java:91-195 | before the summary, no comment in the log is a summary |
| BackportProperties.SummaryInLog | backport.java:197-212 | from the state after the targets, a summary is posted exactly when there was no fault and a pull request was opened. It is the last effect, and its text is the summary of exactly the opened pull requests, each with its head, its base and the number GitHub gave it |
| BackportProperties.SummaryListsOpenedPullRequests | backport.java:197-212 | a summary is in the log of a run exactly when the run exits 0 and opened a pull request. It is the last effect, and its text is the summary of exactly the opened pull requests in the order they were opened, each with its head, its base and the number GitHub gave it |
| BackportProperties.SummaryLineForEachPullRequest | backport.java:202-210 | the line of the i-th created pull request appears in the summary right after the heading and the lines of the pull requests before it |
| BackportProperties.SummaryLinesInCreationOrder | backport.java:202-210 | the line of an earlier pull request ends before the line of a later one starts |
| Backport.SummaryCommentSnoc | backport.java:202-210 | one more created pull request appends its line to the end of the summary |
| Backport.BuildSummary | backport.java:198-211 | the comment built line by line is the summary of the created pull requests |
| BackportProperties.ConflictCommentPicksEveryCommit | backport.java:217-254 | the conflict comment holds a `git cherry-pick` line for every commit of the list, attempted or not, right after the fixed preamble lines and the lines of the earlier commits |
| BackportProperties.ConflictCommentPicksInOrder | backport.java:230 | in the conflict comment, the line of an earlier commit ends before the line of a later commit starts |
| Backport.Run | backport.java:62-215 | definition with no contract of its own; its properties are stated by BackportProperties.RunShape, NothingToBackport, RerunSkipsExistingBackports, FinalInvariant, RunPublishesOnlyChangedBranches and SummaryListsOpenedPullRequests, and Backport.Call is proved equal to it |
| Backport.ProcessAll | backport.java:91-195 | definition with no contract of its own; its properties are stated by BackportProperties.ProcessAllKeepsInvariant and AllSkipped |
| Backport.Step | backport.java:91-100 | definition with no contract of its own; its properties are stated by BackportProperties.ExistingBackportBranchIsSkipped, UnskippedBranchFetchesPullRequest and StepKeepsInvariant, and Backport.BackportTo is proved equal to it |
| Backport.Sync | backport.java:102-132 | definition with no contract of its own; its properties are stated by BackportProperties.ProceedingBranchIsReplayed and SyncAppends, and Backport.SyncOnto is proved equal to it |
| Backport.Replay | backport.java:141-178 | definition with no contract of its own; its properties are stated by BackportProperties.ConflictGetsOneComment, UnchangedBranchPublishesNothing and ReplayAppends, and Backport.ReplayOnto is proved equal to it |
| Backport.Publish | backport.java:180-194 | definition with no contract of its own; its properties are stated by BackportProperties.ChangedBranchIsPublished and RunPublishesOnlyChangedBranches |
| Backport.HeadName | backport.java:93 | definition with no contract of its own; its properties are stated by BackportProperties.HeadNameInjective, LongerNameAlsoSkips and PushedBranchIsSeenByGuard |
| Backport.PullRefSpec | backport.java:103-105 | definition with no contract of its own; its property is stated by BackportProperties.UnskippedBranchFetchesPullRequest |
| Backport.ConflictComment | backport.java:163-165 | definition with no contract of its own; its properties are stated by BackportProperties.ConflictCommentStartsWithPrefix, ConflictCommentIsNotSummary, ConflictCommentPicksEveryCommit and ConflictCommentPicksInOrder |
| Backport.ManualInstructions | backport.java:217-254 | definition with no contract of its own; its properties are stated by BackportProperties.ConflictCommentPicksEveryCommit and ConflictCommentPicksInOrder |
| Backport.SummaryComment | backport.java:198-211 | definition with no contract of its own; its properties are stated by BackportProperties.SummaryIsNotConflictComment, SummaryLineForEachPullRequest and SummaryLinesInCreationOrder, by Backport.SummaryCommentSnoc, and Backport.BuildSummary is proved equal to it |
| Backport.BackportTo | backport.java:91-195 | the method's new state for one target is the one `Step` gives |
| Backport.SyncOnto | backport.java:102-132 | the method's new state after fetch and checkouts is the one `Sync` gives |
| Backport.ReplayOnto | backport.java:134-194 | the method's new state after replay and evaluation is the one `Replay` gives |
| Backport.Call | backport.java:62-215 | the exit status and effects of the command are those of `Run`, so every property above holds of the program's loop |
| JavaStrings.ParseIntToString | backportAction.java:47-51 | reading back the decimal text of an `int` gives the same `int` |
| BackportAction.IsCandidateForBackport | backportAction.java:56-60 | a `labeled` event is a candidate exactly when merged, a `closed` event always is, and no other action ever is |
| BackportAction.Arguments | backportAction.java:47-51 | the command line is the token, the repository, and text that reads back as the event's pull request number |
| BackportAction.Command | backport.java:46-51 | the command does not run on a command line without exactly three arguments. Any exit other than a usage error means three arguments whose third reads as an `int` |
| BackportAction.Call | backportAction.java:34-54 | an event of another repository exits 0 with no effect, and so does an event that is not a candidate. Otherwise the result is exactly the backport run on the event's pull request number in the configured repository |
| BackportAction.CallNeverMisusesCommand | backportAction.java:47-53 | the action always exits 0 or 1. It never hands the command a command line it rejects |
| BackportAction.ClosedUnmergedDoesNothing | backportAction.java:56-60 | a closed, unmerged pull request of the configured repository starts the command, which exits 0 without any effect |

## Left out

- Git is reduced to what the run needs to know. The JGit calls are not modelled: clone,
  fetch, checkout, cherry-pick, push, and the save of the fetch ref spec into the
  repository configuration (backport.java:106-110). The working copy's remote refs and
  the status of each cherry-pick are inputs. Each call is an effect in the log.
- GitHub API calls are network I/O. The repository and the pull request are inputs, and
  so is the number GitHub gives a new pull request. Comments and pull-request creation are
  effects.
- The pull request is always created with `maintainerCanModify = true` and
  `draft = false` (backport.java:191). The model does not record these flags.
- Deleting a previous working copy from disk (backport.java:81-84) is filesystem I/O.
- Logging through `log.info` and printing the event are output only.
- Credentials: the token is passed along but not used by the model.
- Exceptions from authentication, the network or the transport are out of scope. Only the
  two `checkout -b` failures are modelled.
- Backport.Call: the model reads the commit list once. The program lists the commits
  again for each target branch, and that would only differ if the pull request changed
  during the run.
- Backport.SyncOnto: a checkout on top of a working copy that an earlier conflict left
  unresolved is taken to succeed. JGit may refuse it, and the model does not capture that.
  Ref-name validity is not checked either.
- BackportAction.Command: only the decimal form of the number is read back, as
  `Integer.toString` prints it. Other forms the command-line library accepts are not
  modelled, such as a leading `+`. Neither is its option handling: an argument that
  starts with `-`, `--help` or `--version`.
- Reading the event from its JSON file is a foreign library. The event is given as an
  already parsed record, and a missing field is not modelled.
