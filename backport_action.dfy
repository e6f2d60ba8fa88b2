/**
 * The workflow action around the backport command: it reads the event that
 * triggered the workflow, ignores events of other repositories and events that
 * do not call for a backport, and otherwise runs the backport command with the
 * token, the repository and the pull request number as its command line.
 *
 * The event payload is given already parsed (`Event`), and GitHub is given as
 * the view the command would see of a repository and pull request number.
 */
module BackportAction {
  import opened Wrappers
  import opened JavaStrings
  import Backport

  /** The fields of the event payload the action reads: `repository.full_name`,
      `action`, `pull_request.merged` and `number`. */
  datatype Event = Event(repositoryFullName: string, action: string, merged: bool, number: Int32)

  /** What GitHub shows the backport command for a repository name and a pull
      request number. */
  type GitHub = (string, Int32) -> Backport.GitHubView

  /**
   * Whether the event calls for a backport. As written, `&&` binds tighter
   * than `||`: a labelled pull request qualifies only once merged, a closed one
   * qualifies whether or not it was merged (the command itself then checks).
   */
  function IsCandidateForBackport(e: Event): (candidate: bool)
    ensures e.action == "labeled" ==> (candidate <==> e.merged)
    ensures e.action == "closed" ==> candidate
    ensures e.action != "labeled" && e.action != "closed" ==> !candidate
  {
    (e.merged && e.action == "labeled") || e.action == "closed"
  }

  /** The command line handed to the backport command; the number is printed
      in decimal, as `Integer.toString` does. */
  function Arguments(token: string, repository: string, e: Event): (args: seq<string>)
    ensures |args| == 3 && args[0] == token && args[1] == repository
    ensures ParseInt(args[2]) == Some(e.number)
  {
    ParseIntToString(e.number);
    [token, repository, IntToString(e.number)]
  }

  /**
   * The backport command started from a command line: exactly three positional
   * parameters, the third converted to an `Integer`; any other command line is
   * a usage error and the command does not run.
   */
  function Command(github: GitHub, wc: Backport.WorkingCopy, args: seq<string>): (r: Backport.Outcome)
    ensures |args| != 3 ==> r == Backport.Outcome(Backport.ExitUsage, [])
    ensures r.exitCode != Backport.ExitUsage ==> |args| == 3 && ParseInt(args[2]).Some?
  {
    if |args| != 3 then Backport.Outcome(Backport.ExitUsage, [])
    else match ParseInt(args[2])
      case None => Backport.Outcome(Backport.ExitUsage, [])
      case Some(number) => Backport.Run(github(args[1], number), wc, number)
  }

  /**
   * The action, given the token and the repository it was configured with.
   * An event of another repository, or one that does not call for a backport,
   * ends it successfully without any effect; otherwise the backport command
   * runs for the event's pull request in that repository.
   */
  function Call(token: string, repository: string, e: Event, github: GitHub, wc: Backport.WorkingCopy)
    : (r: Backport.Outcome)
    ensures repository != e.repositoryFullName ==> r == Backport.Outcome(Backport.ExitOk, [])
    ensures !IsCandidateForBackport(e) ==> r == Backport.Outcome(Backport.ExitOk, [])
    ensures repository == e.repositoryFullName && IsCandidateForBackport(e) ==>
              r == Backport.Run(github(repository, e.number), wc, e.number)
  {
    if repository != e.repositoryFullName then Backport.Outcome(Backport.ExitOk, [])
    else if !IsCandidateForBackport(e) then Backport.Outcome(Backport.ExitOk, [])
    else Command(github, wc, Arguments(token, repository, e))
  }

  /** The action never fails on its own command line: whatever it exits with
      comes from the backport command having run (0 or 1). */
  lemma CallNeverMisusesCommand(token: string, repository: string, e: Event, github: GitHub,
                                wc: Backport.WorkingCopy)
    ensures Call(token, repository, e, github, wc).exitCode in {Backport.ExitOk, Backport.ExitSoftware}
  {
  }

  /** A closed pull request that was not merged reaches the command, which then
      stops without effect because the pull request is not merged. */
  lemma ClosedUnmergedDoesNothing(token: string, repository: string, e: Event, github: GitHub,
                                  wc: Backport.WorkingCopy)
    requires repository == e.repositoryFullName && e.action == "closed"
    requires !github(repository, e.number).pullRequest.merged
    ensures Call(token, repository, e, github, wc) == Backport.Outcome(Backport.ExitOk, [])
  {
  }
}
