/**
 The release loop of services/control-api/src/shipping-supervisor.js. Every result it meets comes
 from an environment that may answer any request in any way, depending on all that happened before.
 The loops are methods of a class; they are proved equal to recursive functions, and what the loop
 promises is proved about those.
 */
module ShippingSupervisor {
  import opened Options
  import Log = ShippingLog

  datatype Stage =
    | Build | Verification | Repair | ReleaseRepair
    | PreviewDeploy | PreviewUat | ProductionDeploy | ProductionUat
    | ShaTested | ShaDeployed

  /** A command with its SHIPPING_STAGE, SHIPPING_ATTEMPT and place in its list. */
  datatype Request = Request(stage: Stage, attempt: nat, index: nat)

  datatype CommandResult = CommandResult(ok: bool, stdout: string, evidence: string)

  /** What the supervisor did, in order: commands run and events logged. */
  datatype Entry = Ran(request: Request, result: CommandResult) | Logged(kind: string, state: string)

  type Trace = seq<Entry>

  datatype Environment = Environment(
    answer: (Trace, Request) -> CommandResult, clock: Trace -> nat, hash: Log.Hash,
    worktree: Result<string, string>)

  datatype DeployStage = DeployStage(required: bool, uat: nat)

  /** A validated contract; command lists are represented by their lengths. */
  datatype Contract = Contract(digest: string, projectId: string, releaseVersion: string,
                               maxRepairAttempts: nat, verification: nat, preview: DeployStage,
                               production: DeployStage, exactSha: bool, goldenPath: seq<string>)

  predicate ValidContract(c: Contract) {
    && c.verification > 0 && c.goldenPath != []
    && (c.preview.required ==> c.preview.uat > 0) && (c.production.required ==> c.production.uat > 0)
  }

  /** The run, what was done so far, and every version of the run handed to the store. */
  datatype World = World(run: Log.Run, trace: Trace, saved: seq<Log.Run>)

  // ---------------------------------------------------------------- steps

  /** event(): append, then persist. */
  function LogEvent(w: World, env: Environment, kind: string, state: string, message: Option<string>,
                    evidence: string): World {
    var next := Log.Appended(w.run, env.hash, kind, state, env.clock(w.trace), message, evidence);
    World(next, w.trace + [Logged(kind, state)], w.saved + [next])
  }

  function Exec(w: World, env: Environment, request: Request): World {
    w.(trace := w.trace + [Ran(request, env.answer(w.trace, request))])
  }

  function Answer(w: World, env: Environment, request: Request): CommandResult {
    env.answer(w.trace, request)
  }

  function Fail(w: World, env: Environment, message: string): World {
    LogEvent(w, env, "run.failed", "FAILED", Some(message), "{}")
  }

  /** runCommandList from position i: it stops at the first failure. */
  function ExecList(w: World, env: Environment, stage: Stage, attempt: nat, i: nat, n: nat)
    : (World, Option<CommandResult>)
    decreases n - i
  {
    if i >= n then (w, None) else
    var request := Request(stage, attempt, i);
    var result := Answer(w, env, request);
    if !result.ok then (Exec(w, env, request), Some(result))
    else ExecList(Exec(w, env, request), env, stage, attempt, i + 1, n)
  }

  /** verifyWithRepair from a given attempt, with the failure that attempt starts from. */
  function Verify(w: World, env: Environment, c: Contract, attempt: nat, failure: Option<CommandResult>): (World, bool)
    decreases c.maxRepairAttempts + 1 - attempt
  {
    if attempt > c.maxRepairAttempts then (Fail(w, env, "repair_loop_invalid"), false) else
    if failure.None? then
      var (listed, firstFailure) := ExecList(w, env, Verification, attempt, 0, c.verification);
      var logged := LogEvent(listed, env, "verification.finished",
                             if firstFailure.None? then "VERIFIED" else "REPAIRING", None, "list");
      if firstFailure.None? then (logged, true) else VerifyRepair(logged, env, c, attempt)
    else
      VerifyRepair(w, env, c, attempt)
  }

  function VerifyRepair(w: World, env: Environment, c: Contract, attempt: nat): (World, bool)
    requires attempt <= c.maxRepairAttempts
    decreases c.maxRepairAttempts + 1 - attempt, 0
  {
    if attempt == c.maxRepairAttempts then (Fail(w, env, "repair_budget_exhausted"), false) else
    var request := Request(Repair, attempt + 1, 0);
    var repair := Answer(w, env, request);
    var logged := LogEvent(Exec(w, env, request), env, "repair.finished",
                           if repair.ok then "VERIFYING" else "REPAIRING", None, repair.evidence);
    Verify(logged, env, c, attempt + 1, if repair.ok then None else Some(repair))
  }

  predicate HexDigit(c: char) {
    '0' <= c <= '9' || 'a' <= c <= 'f' || 'A' <= c <= 'F'
  }

  predicate ValidSha(s: string) {
    7 <= |s| <= 64 && forall c <- s :: HexDigit(c)
  }

  function Trimmed(s: string): string
    decreases |s|
  {
    if s != "" && Log.Whitespace(s[0]) then Trimmed(s[1..])
    else if s != "" && Log.Whitespace(s[|s| - 1]) then Trimmed(s[..|s| - 1])
    else s
  }

  /** resolveSha; a failed or malformed probe throws out of run(). */
  function ShaOf(result: CommandResult): Result<string, string> {
    if !result.ok then Failure("shipping_sha_probe_failed")
    else if !ValidSha(Trimmed(result.stdout)) then Failure("shipping_sha_invalid")
    else Success(Trimmed(result.stdout))
  }

  const PREVIEW := Stages(PreviewDeploy, PreviewUat, "preview.deploy", "PREVIEW_DEPLOYED", "preview.uat",
                          "PREVIEW_UAT_PASS")
  const PRODUCTION := Stages(ProductionDeploy, ProductionUat, "production.deploy", "PRODUCTION_DEPLOYED",
                             "production.uat", "PRODUCTION_UAT_PASS")

  /** The names a deploy-then-UAT gate works under. */
  datatype Stages = Stages(deploy: Stage, uat: Stage, deployKind: string, deployState: string, uatKind: string,
                           uatState: string)

  /** Deploy and UAT of one environment; the failure that stopped it, if any. */
  function Gate(w: World, env: Environment, g: DeployStage, s: Stages): (World, Option<CommandResult>) {
    if !g.required then (w, None) else
    var request := Request(s.deploy, 0, 0);
    var deploy := Answer(w, env, request);
    var deployed := LogEvent(Exec(w, env, request), env, s.deployKind,
                             if deploy.ok then s.deployState else "REPAIRING", None, deploy.evidence);
    if !deploy.ok then (deployed, Some(deploy)) else
    var (listed, firstFailure) := ExecList(deployed, env, s.uat, 0, 0, g.uat);
    (LogEvent(listed, env, s.uatKind, if firstFailure.None? then s.uatState else "REPAIRING", None, "list"),
     firstFailure)
  }

  datatype Verdict = Passed | Refused(failure: CommandResult) | Threw(error: string)

  /** One pass of the release loop up to its verdict. */
  function ReleaseAttempt(w: World, env: Environment, c: Contract): (World, Verdict) {
    var request := Request(ShaTested, 0, 0);
    var probed := Exec(w, env, request);
    var tested := ShaOf(Answer(w, env, request));
    if tested.Failure? then (probed, Threw(tested.error)) else
    var noted := LogEvent(probed.(run := probed.run.(testedSha := Some(tested.value))), env, "sha.tested", "VERIFIED",
                          None, tested.value);
    var (previewed, previewFailure) := Gate(noted, env, c.preview, PREVIEW);
    if previewFailure.Some? then (previewed, Refused(previewFailure.value)) else
    var (produced, productionFailure) := Gate(previewed, env, c.production, PRODUCTION);
    if productionFailure.Some? then (produced, Refused(productionFailure.value)) else
    MatchShas(produced, env, c)
  }

  function MatchShas(w: World, env: Environment, c: Contract): (World, Verdict) {
    if !c.exactSha then (w.(run := w.run.(deployedSha := w.run.testedSha)), Passed) else
    var request := Request(ShaDeployed, 0, 0);
    var probed := Exec(w, env, request);
    var deployed := ShaOf(Answer(w, env, request));
    if deployed.Failure? then (probed, Threw(deployed.error)) else
    var recorded := probed.(run := probed.run.(deployedSha := Some(deployed.value)));
    if recorded.run.testedSha == recorded.run.deployedSha then (recorded, Passed) else
    (LogEvent(recorded, env, "sha.mismatch", "REPAIRING", None, deployed.value),
     Refused(CommandResult(false, deployed.value, "deployed_sha_mismatch")))
  }

  function Ship(w: World, env: Environment): World {
    var verified := LogEvent(w, env, "sha.verified", "PRODUCTION_VERIFIED", None, "shas");
    var shipped := LogEvent(verified, env, "release.shipped", "SHIPPED", None, "golden path");
    // the run is saved once more with its receipt attached
    shipped.(saved := shipped.saved + [shipped.run])
  }

  /** The release loop from a given attempt; Some(error) when a sha probe threw. */
  function Release(w: World, env: Environment, c: Contract, attempt: nat, failure: Option<CommandResult>)
    : (World, Option<string>)
    decreases c.maxRepairAttempts + 1 - attempt
  {
    if attempt > c.maxRepairAttempts then
      (if failure.Some? then Fail(w, env, "release_failed") else Ship(w, env), None)
    else
      var (tried, verdict) := ReleaseAttempt(w, env, c);
      match verdict
      case Threw(error) => (tried, Some(error))
      case Passed => (Ship(tried, env), None)
      case Refused(f) =>
        if attempt == c.maxRepairAttempts then (Fail(tried, env, "release_repair_budget_exhausted"), None) else
        var (mended, result) := MendRelease(tried, env, attempt);
        if !result.ok then Release(mended, env, c, attempt + 1, Some(result)) else
        var (verified, ok) := Verify(mended, env, c, 0, None);
        if !ok then (verified, None) else Release(verified, env, c, attempt + 1, Some(f))
  }

  /** The release repair of an attempt and its event. */
  function MendRelease(w: World, env: Environment, attempt: nat): (World, CommandResult) {
    var request := Request(ReleaseRepair, attempt + 1, 0);
    var repair := Answer(w, env, request);
    (LogEvent(Exec(w, env, request), env, "release.repair", if repair.ok then "VERIFYING" else "REPAIRING", None,
              repair.evidence), repair)
  }

  function Created(c: Contract, runId: string, at: nat): Log.Run {
    Log.Run(Log.RUN_VERSION, runId, c.projectId, c.releaseVersion, c.digest, "CREATED", at, at,
            None, None, None, None, [])
  }

  function Accepted(env: Environment, c: Contract, runId: string): World {
    LogEvent(World(Created(c, runId, env.clock([])), [], []), env, "contract.accepted", "CONTRACT_ACCEPTED", None,
             c.digest)
  }

  /** No worktree: the run is blocked. */
  function Blocked(env: Environment, c: Contract, runId: string, message: string): World {
    var accepted := Accepted(env, c, runId);
    LogEvent(accepted.(run := accepted.run.(blocker := Some("BLOCKED_SOURCE_UNKNOWN"))), env,
             "run.blocked", "BLOCKED", Some("worktree:" + message), "{}")
  }

  function Ready(env: Environment, c: Contract, runId: string, path: string): World {
    var accepted := Accepted(env, c, runId);
    LogEvent(accepted.(run := accepted.run.(worktreePath := Some(path))), env, "worktree.ready", "WORKTREE_READY",
             None, path)
  }

  /** The build command and its event. */
  function Built(w: World, env: Environment): (World, CommandResult) {
    var request := Request(Build, 0, 0);
    var build := Answer(w, env, request);
    (LogEvent(Exec(w, env, request), env, "builder.finished", if build.ok then "BUILD_COMPLETE" else "REPAIRING", None,
              build.evidence), build)
  }

  /** run() on a validated contract; Some(error) when it throws. */
  function Shipping(env: Environment, c: Contract, runId: string): (World, Option<string>) {
    if env.worktree.Failure? then (Blocked(env, c, runId, env.worktree.error), None) else
    var (built, build) := Built(Ready(env, c, runId, env.worktree.value), env);
    var (verified, ok) := Verify(built, env, c, 0, if build.ok then None else Some(build));
    if !ok then (verified, None) else Release(verified, env, c, 0, None)
  }

  // ---------------------------------------------------------------- the class

  /** The supervisor's loops as it runs them, with its run, its trace and its store as fields. */
  class Supervisor {
    const env: Environment
    var run: Log.Run
    var trace: Trace
    var saved: seq<Log.Run>

    constructor (env: Environment, c: Contract, runId: string)
      ensures this.env == env && Value() == World(Created(c, runId, env.clock([])), [], [])
    {
      this.env := env;
      run, trace, saved := Created(c, runId, env.clock([])), [], [];
    }

    function Value(): World
      reads this
    {
      World(run, trace, saved)
    }

    method LogNext(kind: string, state: string, message: Option<string>, evidence: string)
      modifies this
      ensures Value() == LogEvent(old(Value()), env, kind, state, message, evidence)
    {
      run := Log.Appended(run, env.hash, kind, state, env.clock(trace), message, evidence);
      trace := trace + [Logged(kind, state)];
      saved := saved + [run];
    }

    method RunCommand(request: Request) returns (result: CommandResult)
      modifies this`trace
      ensures result == Answer(old(Value()), env, request) && Value() == Exec(old(Value()), env, request)
    {
      result := env.answer(trace, request);
      trace := trace + [Ran(request, result)];
    }

    method RunCommandList(stage: Stage, attempt: nat, n: nat) returns (firstFailure: Option<CommandResult>)
      modifies this`trace
      ensures (Value(), firstFailure) == ExecList(old(Value()), env, stage, attempt, 0, n)
    {
      for i := 0 to n
        invariant ExecList(Value(), env, stage, attempt, i, n) == ExecList(old(Value()), env, stage, attempt, 0, n)
      {
        var result := RunCommand(Request(stage, attempt, i));
        if !result.ok { return Some(result); }
      }
      return None;
    }

    method VerifyWithRepair(c: Contract, initialFailure: Option<CommandResult>) returns (ok: bool)
      modifies this
      ensures (Value(), ok) == Verify(old(Value()), env, c, 0, initialFailure)
    {
      var failure := initialFailure;
      var attempt := 0;
      while attempt <= c.maxRepairAttempts
        invariant Verify(Value(), env, c, attempt, failure) == Verify(old(Value()), env, c, 0, initialFailure)
      {
        if failure.None? {
          var firstFailure := RunCommandList(Verification, attempt, c.verification);
          LogNext("verification.finished", if firstFailure.None? then "VERIFIED" else "REPAIRING", None, "list");
          if firstFailure.None? { return true; }
          failure := firstFailure;
        }
        if attempt == c.maxRepairAttempts {
          LogNext("run.failed", "FAILED", Some("repair_budget_exhausted"), "{}");
          return false;
        }
        var repair := RunCommand(Request(Repair, attempt + 1, 0));
        LogNext("repair.finished", if repair.ok then "VERIFYING" else "REPAIRING", None, repair.evidence);
        failure := if repair.ok then None else Some(repair);
        attempt := attempt + 1;
      }
      LogNext("run.failed", "FAILED", Some("repair_loop_invalid"), "{}");
      return false;
    }

    method PassGate(g: DeployStage, s: Stages) returns (failure: Option<CommandResult>)
      modifies this
      ensures (Value(), failure) == Gate(old(Value()), env, g, s)
    {
      if !g.required { return None; }
      var deploy := RunCommand(Request(s.deploy, 0, 0));
      LogNext(s.deployKind, if deploy.ok then s.deployState else "REPAIRING", None, deploy.evidence);
      if !deploy.ok { return Some(deploy); }
      failure := RunCommandList(s.uat, 0, g.uat);
      LogNext(s.uatKind, if failure.None? then s.uatState else "REPAIRING", None, "list");
    }

    method TryRelease(c: Contract) returns (verdict: Verdict)
      modifies this
      ensures (Value(), verdict) == ReleaseAttempt(old(Value()), env, c)
    {
      var probe := RunCommand(Request(ShaTested, 0, 0));
      var tested := ShaOf(probe);
      if tested.Failure? { return Threw(tested.error); }
      run := run.(testedSha := Some(tested.value));
      LogNext("sha.tested", "VERIFIED", None, tested.value);
      var failure := PassGate(c.preview, PREVIEW);
      if failure.None? { failure := PassGate(c.production, PRODUCTION); }
      if failure.Some? { return Refused(failure.value); }
      if !c.exactSha {
        run := run.(deployedSha := run.testedSha);
        return Passed;
      }
      probe := RunCommand(Request(ShaDeployed, 0, 0));
      var deployed := ShaOf(probe);
      if deployed.Failure? { return Threw(deployed.error); }
      run := run.(deployedSha := Some(deployed.value));
      if run.testedSha == run.deployedSha { return Passed; }
      LogNext("sha.mismatch", "REPAIRING", None, deployed.value);
      return Refused(CommandResult(false, deployed.value, "deployed_sha_mismatch"));
    }

    /** The loop of run(); the part before it is straight-line code. */
    method ReleaseLoop(c: Contract) returns (error: Option<string>)
      modifies this
      ensures (Value(), error) == Release(old(Value()), env, c, 0, None)
    {
      var releaseFailure := None;
      var releaseAttempt := 0;
      while releaseAttempt <= c.maxRepairAttempts
        invariant Release(Value(), env, c, releaseAttempt, releaseFailure) == Release(old(Value()), env, c, 0, None)
      {
        var verdict := TryRelease(c);
        if verdict.Threw? { return Some(verdict.error); }
        if verdict.Passed? {
          ShipRun();
          return None;
        }
        releaseFailure := Some(verdict.failure);
        if releaseAttempt == c.maxRepairAttempts {
          LogNext("run.failed", "FAILED", Some("release_repair_budget_exhausted"), "{}");
          return None;
        }
        var repair := RunCommand(Request(ReleaseRepair, releaseAttempt + 1, 0));
        LogNext("release.repair", if repair.ok then "VERIFYING" else "REPAIRING", None, repair.evidence);
        if !repair.ok {
          releaseFailure := Some(repair);
        } else {
          var ok := VerifyWithRepair(c, None);
          if !ok { return None; }
        }
        releaseAttempt := releaseAttempt + 1;
      }
      if releaseFailure.Some? {
        LogNext("run.failed", "FAILED", Some("release_failed"), "{}");
      } else {
        ShipRun();
      }
      return None;
    }

    method ShipRun()
      modifies this
      ensures Value() == Ship(old(Value()), env)
    {
      LogNext("sha.verified", "PRODUCTION_VERIFIED", None, "shas");
      LogNext("release.shipped", "SHIPPED", None, "golden path");
      saved := saved + [run];
    }
  }
}
