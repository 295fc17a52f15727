/** The worker's run poller, and the round trip from a dispatched workflow back to
    the run it was dispatched for. */
module Poller {
  import opened Machine
  import opened Refs
  import opened RunTables
  import opened RunStore

  const GITHUB_ACTIONS: string := "github_actions"

  /** What GET /v1/worker/runs/next answers. */
  datatype ClaimedRun = ClaimedRun(run: Id, provider: string, workflowRef: string, settings: map<string, string>)

  datatype Reason = UnsupportedProvider | NoCredentials | TokenRefused | TriggerFailed

  datatype Effect =
    | MintToken(repo: string)
    | Trigger(repo: string, ref: string, workflow: string, run: Id)
    | ReportFailed(run: Id, reason: Reason)

  predicate Fails(effects: seq<Effect>) { exists e | e in effects :: e.ReportFailed? }

  predicate Triggers(effects: seq<Effect>) { exists e | e in effects :: e.Trigger? }

  /** pollRuns, with the answers of GitHub as inputs. A claimed run is either
      dispatched, and then left for its callback, or reported failed: never both
      and never neither. */
  method PollRuns(next: Option<ClaimedRun>, configured: bool, tokenGranted: bool, triggered: bool)
    returns (effects: seq<Effect>)
    ensures next.None? ==> effects == []
    ensures next.Some? && next.value.provider == GITHUB_ACTIONS && configured ==>
      var settings := next.value.settings;
      effects != [] && effects[0] == MintToken(if "repo" in settings then settings["repo"] else "")
    ensures next.Some? ==>
      var run := next.value;
      var dispatched := run.provider == GITHUB_ACTIONS && configured && tokenGranted && triggered;
      && (Fails(effects) <==> !dispatched)
      && (forall e | e in effects && e.ReportFailed? :: e == effects[|effects| - 1] && e.run == run.run)
      && (Triggers(effects) <==> run.provider == GITHUB_ACTIONS && configured && tokenGranted)
      && (forall e | e in effects && e.Trigger? ::
            && e.run == run.run && e.workflow == run.workflowRef
            && e.repo == (if "repo" in run.settings then run.settings["repo"] else "")
            && NormalizeRef(e.ref) == NormalizeRef(if "ref" in run.settings then run.settings["ref"] else ""))
  {
    effects := [];
    if next.None? { return; }
    var run := next.value;
    if run.provider != GITHUB_ACTIONS || !configured {
      effects := [ReportFailed(run.run, if run.provider != GITHUB_ACTIONS then UnsupportedProvider else NoCredentials)];
      assert effects[0].ReportFailed?;
      return;
    }

    var repo := if "repo" in run.settings then run.settings["repo"] else "";
    effects := [MintToken(repo)];
    if !tokenGranted {
      effects := effects + [ReportFailed(run.run, TokenRefused)];
      assert effects[1].ReportFailed?;
      return;
    }

    var ref := if "ref" in run.settings then run.settings["ref"] else "";
    if ref == "" { ref := "main"; }
    effects := effects + [Trigger(repo, ref, run.workflowRef, run.run)];
    assert effects[1].Trigger?;
    if !triggered {
      effects := effects + [ReportFailed(run.run, TriggerFailed)];
      assert effects[2].ReportFailed?;
    }
  }

  /** The callback of the job that GitHub starts for a pipeline on git ref g: the
      verifier's reading of its claims, relayed by a worker with scope envs. */
  function OwnCallback(p: Pipeline, g: GitRef, cred: Id, envs: set<Id>, externalRef: string, url: string): Callback {
    var repo := Setting(p, "repo");
    Callback(cred, envs, p.provider, repo, ParseWorkflowRef(repo, WorkflowClaim(repo, p.workflowRef, Claimed(g))),
             Claimed(g), externalRef, url)
  }

  /** An executing, unresolved run in scope is among the matches of its own job's
      callback exactly when the claim's workflow path parses back, and the pipeline's
      ref setting, bare or full, names the branch GitHub ran, or is the full name of
      the tag: a bare setting that GitHub resolved to a tag never matches. */
  lemma OwnCallbackMatches(db: DB, run: Id, g: GitRef, cred: Id, envs: set<Id>, externalRef: string, url: string)
    requires run in db.runs && db.runs[run].status.Executing? && db.runs[run].externalRef.None?
    requires db.runs[run].env in envs
    requires db.runs[run].pipeline in db.pipelines
    requires "repo" in db.pipelines[db.runs[run].pipeline].settings
    ensures var p := db.pipelines[db.runs[run].pipeline];
      run in MatchingRuns(db, OwnCallback(p, g, cred, envs, externalRef, url)) <==>
        var repo, setting := Setting(p, "repo"), Setting(p, "ref");
        && (('@' !in repo && '@' !in p.workflowRef) || ('@' in repo && p.workflowRef == UpTo(repo, '@')))
        && if HasPrefix(setting, "refs/") then setting == Claimed(g) else g == Branch(DispatchRef(setting))
  {
    var p := db.pipelines[db.runs[run].pipeline];
    ParseUndoesClaim(Setting(p, "repo"), p.workflowRef, Claimed(g));
    CallbackRefAccepted(Setting(p, "ref"), g);
    hide NormalizeRef, ParseWorkflowRef, WorkflowClaim, Claimed, HasPrefix;
  }
}
