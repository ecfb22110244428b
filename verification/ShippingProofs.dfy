/** What every supervised release promises, for every environment. */
module ShippingProofs {
  import opened Options
  import Log = ShippingLog
  import opened ShippingSupervisor

  // ---------------------------------------------------------------- reading a trace

  predicate Changes(e: Entry) {
    e.Ran? && (e.request.stage.Build? || e.request.stage.Repair? || e.request.stage.ReleaseRepair?)
  }

  /**
   One pass over a trace. `pending` says that a successful build or repair has not been followed by
   a passed verification yet, `pendingAny` the same counting failed ones; `sound` and `soundAny` say
   that no deployment began while the flag was up.
   */
  datatype Reading = Reading(repairs: nat, productionDeploys: nat, pending: bool, pendingAny: bool,
                             sound: bool, soundAny: bool, releaseRepairFailed: bool, closed: bool)

  const NOTHING := Reading(0, 0, false, false, true, true, false, false)

  function Next(r: Reading, e: Entry): Reading {
    match e
    case Logged(kind, state) =>
      var verified := kind == "verification.finished" && state == "VERIFIED";
      r.(pending := r.pending && !verified, pendingAny := r.pendingAny && !verified,
         closed := r.closed || Log.Terminal(state))
    case Ran(request, result) =>
      Reading(r.repairs + if request.stage.Repair? || request.stage.ReleaseRepair? then 1 else 0,
              r.productionDeploys + if request.stage.ProductionDeploy? then 1 else 0,
              r.pending || (Changes(e) && result.ok), r.pendingAny || Changes(e),
              r.sound && (request.stage.ShaTested? ==> !r.pending),
              r.soundAny && (request.stage.ShaTested? ==> !r.pendingAny),
              r.releaseRepairFailed || (request.stage.ReleaseRepair? && !result.ok), r.closed)
  }

  function Read(t: Trace): Reading {
    if t == [] then NOTHING else Next(Read(t[..|t| - 1]), t[|t| - 1])
  }

  lemma ReadAppend(t: Trace, e: Entry)
    ensures Read(t + [e]) == Next(Read(t), e)
  {
  }

  function LoggedIn(t: Trace): seq<(string, string)> {
    if t == [] then [] else
    LoggedIn(t[..|t| - 1]) + match t[|t| - 1] case Logged(kind, state) => [(kind, state)] case Ran(_, _) => []
  }

  function Labels(events: seq<Log.Event>): seq<(string, string)> {
    seq(|events|, i requires 0 <= i < |events| => (events[i].body.kind, events[i].body.state))
  }

  /** Not a message of the code after either loop. */
  predicate Proper(message: Option<string>) {
    message != Some("repair_loop_invalid") && message != Some("release_failed")
  }

  /**
   The run is valid, every saved version of it was, its events are the logged ones, and none of them
   was logged by the code after either loop.
   */
  ghost predicate Sound(w: World, env: Environment) {
    && (forall e <- w.run.events :: Proper(e.body.message))
    && Log.ValidRun(w.run, env.hash)
    && (forall r <- w.saved :: Log.ValidRun(r, env.hash))
    && Labels(w.run.events) == LoggedIn(w.trace)
  }

  ghost predicate OnlyShipsWithShas(w: World, state: string) {
    Log.ShasOk(w.run.(state := state))
  }

  lemma LogKeepsSound(w: World, env: Environment, kind: string, state: string, message: Option<string>,
                      evidence: string)
    requires Sound(w, env) && OnlyShipsWithShas(w, state) && Proper(message)
    ensures var v := LogEvent(w, env, kind, state, message, evidence);
            && Sound(v, env) && v.trace == w.trace + [Logged(kind, state)]
            && v.run.testedSha == w.run.testedSha && v.run.deployedSha == w.run.deployedSha && v.run.state == state
            && Read(v.trace) == Next(Read(w.trace), Logged(kind, state))
  {
    var v := LogEvent(w, env, kind, state, message, evidence);
    Log.AppendedKeepsValid(w.run, env.hash, kind, state, env.clock(w.trace), message, evidence);
    ReadAppend(w.trace, Logged(kind, state));
    assert v.trace[..|w.trace|] == w.trace;
    assert Labels(v.run.events) == Labels(w.run.events) + [(kind, state)];
  }

  lemma ExecKeepsSound(w: World, env: Environment, request: Request)
    requires Sound(w, env)
    ensures var v := Exec(w, env, request);
            && Sound(v, env) && v.run == w.run && v.trace == w.trace + [Ran(request, Answer(w, env, request))]
            && Read(v.trace) == Next(Read(w.trace), Ran(request, Answer(w, env, request)))
  {
  }

  // ---------------------------------------------------------------- command lists

  /** These entries are commands i..n of a list, in order, each of them successful. */
  ghost predicate PassingList(t: Trace, stage: Stage, attempt: nat, i: nat, n: nat) {
    && i <= n && |t| == n - i
    && forall k :: 0 <= k < |t| ==> t[k].Ran? && t[k].request == Request(stage, attempt, i + k) && t[k].result.ok
  }

  predicate Quiet(stage: Stage) {
    stage.Verification? || stage.PreviewUat? || stage.ProductionUat?
  }

  lemma {:induction false} ListFacts(w: World, env: Environment, stage: Stage, attempt: nat, i: nat, n: nat)
    requires Sound(w, env) && Quiet(stage) && i <= n
    ensures var (v, f) := ExecList(w, env, stage, attempt, i, n);
            && Sound(v, env) && v.run == w.run && w.trace <= v.trace
            && Read(v.trace) == Read(w.trace)
            && (f.None? ==> PassingList(v.trace[|w.trace|..], stage, attempt, i, n))
    decreases n - i
  {
    hide Sound, Read, PassingList;
    EmptyList(w.trace, stage, attempt, n);
    if i < n {
      var request := Request(stage, attempt, i);
      ExecKeepsSound(w, env, request);
      if Answer(w, env, request).ok {
        var u := Exec(w, env, request);
        ListFacts(u, env, stage, attempt, i + 1, n);
        var (v, f) := ExecList(u, env, stage, attempt, i + 1, n);
        if f.None? { LongerList(w.trace, u.trace, v.trace, stage, attempt, i, n); }
      }
    }
  }

  lemma EmptyList(t: Trace, stage: Stage, attempt: nat, n: nat)
    ensures PassingList(t[|t|..], stage, attempt, n, n)
  {
  }

  lemma LongerList(t: Trace, u: Trace, v: Trace, stage: Stage, attempt: nat, i: nat, n: nat)
    requires |u| == |t| + 1 && u <= v && t <= u && PassingList(v[|u|..], stage, attempt, i + 1, n)
    requires u[|t|].Ran? && u[|t|].request == Request(stage, attempt, i) && u[|t|].result.ok
    ensures PassingList(v[|t|..], stage, attempt, i, n)
  {
  }

  // ---------------------------------------------------------------- verification with repair

  ghost predicate PassingVerification(c: Contract, t: Trace) {
    exists attempt :: PassingList(t, Verification, attempt, 0, c.verification)
  }

  /** Entry j announces a passed verification, right after a complete passing list. */
  ghost predicate VerifiedAt(c: Contract, t: Trace, j: int) {
    && c.verification <= j < |t| && t[j] == Logged("verification.finished", "VERIFIED")
    && PassingVerification(c, t[j - c.verification..j])
  }

  /** The run ended in this part of the trace, its last entry being the only terminal event. */
  ghost predicate Ended(before: Trace, t: Trace, state: string) {
    && |before| < |t| && t[|t| - 1].Logged? && t[|t| - 1].state == state && Log.Terminal(state)
    && Read(t[..|t| - 1]).closed == Read(before).closed
  }

  /** What verifyWithRepair does to the readings, given the repairs it may still use. */
  ghost predicate VerifyReading(r: Reading, q: Reading, budget: nat, ok: bool) {
    && r.repairs <= q.repairs <= r.repairs + budget
    && q.productionDeploys == r.productionDeploys && q.sound == r.sound && q.soundAny == r.soundAny
    && q.releaseRepairFailed == r.releaseRepairFailed
    && (ok ==> !q.pending && !q.pendingAny && q.closed == r.closed)
  }

  ghost predicate Verifies(w: World, env: Environment, c: Contract, v: World, ok: bool, budget: nat) {
    && Sound(v, env) && w.trace <= v.trace
    && v.run.testedSha == w.run.testedSha && v.run.deployedSha == w.run.deployedSha
    && VerifyReading(Read(w.trace), Read(v.trace), budget, ok)
    && (if ok then VerifiedAt(c, v.trace, |v.trace| - 1)
        else Ended(w.trace, v.trace, "FAILED") && v.run.state == "FAILED")
  }

  lemma FailFacts(w: World, env: Environment, message: string)
    requires Sound(w, env) && Proper(Some(message))
    ensures var v := Fail(w, env, message);
            && Sound(v, env) && w.trace <= v.trace && Ended(w.trace, v.trace, "FAILED") && v.run.state == "FAILED"
            && v.run.testedSha == w.run.testedSha && v.run.deployedSha == w.run.deployedSha
            && Read(v.trace) == Read(w.trace).(closed := true)
  {
    hide Sound, Read;
    LogKeepsSound(w, env, "run.failed", "FAILED", Some(message), "{}");
    assert Fail(w, env, message).trace[..|w.trace|] == w.trace;
  }

  /** One verification list and its event. */
  lemma VerificationFacts(w: World, env: Environment, c: Contract, attempt: nat)
    requires Sound(w, env)
    ensures var (listed, first) := ExecList(w, env, Verification, attempt, 0, c.verification);
            var state := if first.None? then "VERIFIED" else "REPAIRING";
            var v := LogEvent(listed, env, "verification.finished", state, None, "list");
            && Sound(v, env) && w.trace <= v.trace
            && v.run.testedSha == w.run.testedSha && v.run.deployedSha == w.run.deployedSha
            && VerifyReading(Read(w.trace), Read(v.trace), 0, first.None?)
            && Read(v.trace).closed == Read(w.trace).closed
            && (first.None? ==> VerifiedAt(c, v.trace, |v.trace| - 1))
  {
    hide Sound, Read, ExecList, VerifiedAt, PassingList;
    var (listed, first) := ExecList(w, env, Verification, attempt, 0, c.verification);
    ListFacts(w, env, Verification, attempt, 0, c.verification);
    LogKeepsSound(listed, env, "verification.finished", if first.None? then "VERIFIED" else "REPAIRING", None, "list");
    if first.None? { AnnouncedAt(c, w.trace, listed.trace, attempt); }
  }

  lemma AnnouncedAt(c: Contract, t: Trace, u: Trace, attempt: nat)
    requires t <= u && PassingList(u[|t|..], Verification, attempt, 0, c.verification)
    ensures VerifiedAt(c, u + [Logged("verification.finished", "VERIFIED")], |u|)
  {
  }

  /** One repair command and its event. */
  lemma RepairFacts(w: World, env: Environment, request: Request, kind: string)
    requires Sound(w, env) && (request.stage.Repair? || request.stage.ReleaseRepair?) && kind != "verification.finished"
    ensures var repair := Answer(w, env, request);
            var v := LogEvent(Exec(w, env, request), env, kind, if repair.ok then "VERIFYING" else "REPAIRING", None,
                              repair.evidence);
            var r := Read(w.trace);
            && Sound(v, env) && w.trace <= v.trace
            && v.run.testedSha == w.run.testedSha && v.run.deployedSha == w.run.deployedSha
            && Read(v.trace) == r.(repairs := r.repairs + 1, pending := r.pending || repair.ok, pendingAny := true,
                 releaseRepairFailed := r.releaseRepairFailed || (request.stage.ReleaseRepair? && !repair.ok))
            && |v.trace| == |w.trace| + 2 && v.trace[|w.trace|] == Ran(request, repair)
  {
    hide Sound, Read;
    var repair := Answer(w, env, request);
    ExecKeepsSound(w, env, request);
    LogKeepsSound(Exec(w, env, request), env, kind, if repair.ok then "VERIFYING" else "REPAIRING", None,
                  repair.evidence);
  }

  /** A part of the loop that only adds to the trace composes with the rest of it. */
  lemma VerifiesLater(w: World, u: World, env: Environment, c: Contract, v: World, ok: bool, budget: nat, more: nat)
    requires w.trace <= u.trace && Read(u.trace).closed == Read(w.trace).closed
    requires u.run.testedSha == w.run.testedSha && u.run.deployedSha == w.run.deployedSha
    requires Read(w.trace).repairs <= Read(u.trace).repairs <= Read(w.trace).repairs + more
    requires Read(u.trace).productionDeploys == Read(w.trace).productionDeploys
    requires Read(u.trace).sound == Read(w.trace).sound && Read(u.trace).soundAny == Read(w.trace).soundAny
    requires Read(u.trace).releaseRepairFailed == Read(w.trace).releaseRepairFailed
    requires Verifies(u, env, c, v, ok, budget)
    ensures Verifies(w, env, c, v, ok, budget + more)
  {
  }

  lemma {:induction false} VerifyFacts(w: World, env: Environment, c: Contract, attempt: nat,
                                       failure: Option<CommandResult>)
    requires Sound(w, env) && attempt <= c.maxRepairAttempts
    ensures var (v, ok) := Verify(w, env, c, attempt, failure);
            Verifies(w, env, c, v, ok, c.maxRepairAttempts - attempt)
    decreases c.maxRepairAttempts + 1 - attempt, 1
  {
    hide Sound, Read, VerifiedAt, Verifies, VerifyRepair, ExecList, LogEvent, Ended;
    if failure.None? {
      var (listed, first) := ExecList(w, env, Verification, attempt, 0, c.verification);
      VerificationFacts(w, env, c, attempt);
      var state := if first.None? then "VERIFIED" else "REPAIRING";
      var logged := LogEvent(listed, env, "verification.finished", state, None, "list");
      if first.None? {
        MakeVerifies(w, env, c, logged, c.maxRepairAttempts - attempt);
      } else {
        VerifyRepairFacts(logged, env, c, attempt);
        var (v, ok) := VerifyRepair(logged, env, c, attempt);
        VerifiesLater(w, logged, env, c, v, ok, c.maxRepairAttempts - attempt, 0);
      }
    } else {
      VerifyRepairFacts(w, env, c, attempt);
    }
  }

  lemma MakeVerifies(w: World, env: Environment, c: Contract, v: World, budget: nat)
    requires Sound(v, env) && w.trace <= v.trace
    requires v.run.testedSha == w.run.testedSha && v.run.deployedSha == w.run.deployedSha
    requires VerifyReading(Read(w.trace), Read(v.trace), 0, true) && VerifiedAt(c, v.trace, |v.trace| - 1)
    ensures Verifies(w, env, c, v, true, budget)
  {
  }

  lemma {:induction false} VerifyRepairFacts(w: World, env: Environment, c: Contract, attempt: nat)
    requires Sound(w, env) && attempt <= c.maxRepairAttempts
    ensures var (v, ok) := VerifyRepair(w, env, c, attempt);
            Verifies(w, env, c, v, ok, c.maxRepairAttempts - attempt)
    decreases c.maxRepairAttempts + 1 - attempt, 0
  {
    hide Sound, Read, VerifiedAt, Verify;
    if attempt == c.maxRepairAttempts {
      FailFacts(w, env, "repair_budget_exhausted");
    } else {
      hide Verifies;
      var request := Request(Repair, attempt + 1, 0);
      var repair := Answer(w, env, request);
      RepairFacts(w, env, request, "repair.finished");
      var logged := LogEvent(Exec(w, env, request), env, "repair.finished",
                             if repair.ok then "VERIFYING" else "REPAIRING", None, repair.evidence);
      var next := if repair.ok then None else Some(repair);
      VerifyFacts(logged, env, c, attempt + 1, next);
      var (v, ok) := Verify(logged, env, c, attempt + 1, next);
      VerifiesLater(w, logged, env, c, v, ok, c.maxRepairAttempts - attempt - 1, 1);
    }
  }

  // ---------------------------------------------------------------- one release attempt

  function RequestsOf(t: Trace): seq<Request> {
    if t == [] then [] else (if t[0].Ran? then [t[0].request] else []) + RequestsOf(t[1..])
  }

  ghost predicate AllOk(t: Trace) {
    forall e <- t :: e.Ran? ==> e.result.ok
  }

  lemma {:induction false} RequestsOfSum(a: Trace, b: Trace)
    ensures RequestsOf(a + b) == RequestsOf(a) + RequestsOf(b)
  {
    if a == [] {
      assert a + b == b;
    } else {
      var c := a + b;
      assert c[0] == a[0] && c[1..] == a[1..] + b;
      RequestsOfSum(a[1..], b);
      var head := if a[0].Ran? then [a[0].request] else [];
      assert RequestsOf(c) == head + RequestsOf(c[1..]);
      assert head + (RequestsOf(a[1..]) + RequestsOf(b)) == (head + RequestsOf(a[1..])) + RequestsOf(b);
    }
  }

  function ListRequests(stage: Stage, n: nat): seq<Request> {
    seq(n, i requires 0 <= i < n => Request(stage, 0, i))
  }

  lemma {:induction false} RequestsOfPassing(t: Trace, stage: Stage, i: nat, n: nat)
    requires PassingList(t, stage, 0, i, n)
    ensures AllOk(t) && RequestsOf(t) == ListRequests(stage, n)[i..]
    decreases n - i
  {
    if i < n {
      RequestsOfPassing(t[1..], stage, i + 1, n);
      assert ListRequests(stage, n)[i..] == [Request(stage, 0, i)] + ListRequests(stage, n)[i + 1..];
      assert t == [t[0]] + t[1..];
    }
  }

  function GateRequests(g: DeployStage, s: Stages): seq<Request> {
    if g.required then [Request(s.deploy, 0, 0)] + ListRequests(s.uat, g.uat) else []
  }

  /** The gates of a release, in order: probe, preview deploy and UAT, production deploy and UAT, probe. */
  function ExpectedRequests(c: Contract): seq<Request> {
    [Request(ShaTested, 0, 0)] + GateRequests(c.preview, PREVIEW) + GateRequests(c.production, PRODUCTION)
    + if c.exactSha then [Request(ShaDeployed, 0, 0)] else []
  }

  /** Nothing was built or repaired between t and u. */
  ghost predicate Calm(t: Trace, u: Trace) {
    t <= u && forall k :: |t| <= k < |u| ==> !Changes(u[k])
  }

  ghost predicate GateReading(r: Reading, q: Reading, deploys: nat) {
    && q == r.(productionDeploys := q.productionDeploys)
    && r.productionDeploys <= q.productionDeploys <= r.productionDeploys + deploys
  }

  ghost predicate SameShas(w: World, v: World) {
    v.run.testedSha == w.run.testedSha && v.run.deployedSha == w.run.deployedSha
  }

  lemma {:induction false} ListIsCalm(w: World, env: Environment, stage: Stage, attempt: nat, i: nat, n: nat)
    requires Quiet(stage)
    ensures Calm(w.trace, ExecList(w, env, stage, attempt, i, n).0.trace)
    decreases n - i
  {
    if i < n && Answer(w, env, Request(stage, attempt, i)).ok {
      ListIsCalm(Exec(w, env, Request(stage, attempt, i)), env, stage, attempt, i + 1, n);
    }
  }

  /** A deploy command and its event. */
  lemma DeployFacts(w: World, env: Environment, s: Stages)
    requires Sound(w, env) && s in {PREVIEW, PRODUCTION}
    ensures var request := Request(s.deploy, 0, 0);
            var deploy := Answer(w, env, request);
            var state := if deploy.ok then s.deployState else "REPAIRING";
            var v := LogEvent(Exec(w, env, request), env, s.deployKind, state, None, deploy.evidence);
            && Sound(v, env) && SameShas(w, v) && Calm(w.trace, v.trace)
            && GateReading(Read(w.trace), Read(v.trace), if s == PRODUCTION then 1 else 0)
            && v.trace == w.trace + [Ran(request, deploy), Logged(s.deployKind, state)]
  {
    hide Sound, Read;
    var request := Request(s.deploy, 0, 0);
    var deploy := Answer(w, env, request);
    ExecKeepsSound(w, env, request);
    LogKeepsSound(Exec(w, env, request), env, s.deployKind, if deploy.ok then s.deployState else "REPAIRING", None,
                  deploy.evidence);
  }

  lemma UatFacts(w: World, env: Environment, s: Stages, n: nat)
    requires Sound(w, env) && s in {PREVIEW, PRODUCTION}
    ensures var (listed, first) := ExecList(w, env, s.uat, 0, 0, n);
            var state := if first.None? then s.uatState else "REPAIRING";
            var v := LogEvent(listed, env, s.uatKind, state, None, "list");
            && Sound(v, env) && SameShas(w, v) && Calm(w.trace, v.trace)
            && GateReading(Read(w.trace), Read(v.trace), 0)
            && (first.None? ==>
                  AllOk(v.trace[|w.trace|..]) && RequestsOf(v.trace[|w.trace|..]) == ListRequests(s.uat, n))
  {
    hide Sound, Read, ExecList;
    var (listed, first) := ExecList(w, env, s.uat, 0, 0, n);
    ListFacts(w, env, s.uat, 0, 0, n);
    ListIsCalm(w, env, s.uat, 0, 0, n);
    var state := if first.None? then s.uatState else "REPAIRING";
    LogKeepsSound(listed, env, s.uatKind, state, None, "list");
    if first.None? {
      var v := LogEvent(listed, env, s.uatKind, state, None, "list");
      var list, event := listed.trace[|w.trace|..], [Logged(s.uatKind, state)];
      RequestsOfPassing(list, s.uat, 0, n);
      RequestsOfSum(list, event);
      assert v.trace[|w.trace|..] == list + event;
      assert RequestsOf(event) == [] by { assert event[1..] == []; }
    }
  }

  lemma CalmThrough(t: Trace, u: Trace, v: Trace)
    requires Calm(t, u) && Calm(u, v)
    ensures Calm(t, v) && v[|t|..] == u[|t|..] + v[|u|..]
    ensures RequestsOf(v[|t|..]) == RequestsOf(u[|t|..]) + RequestsOf(v[|u|..])
    ensures AllOk(u[|t|..]) && AllOk(v[|u|..]) ==> AllOk(v[|t|..])
  {
    assert v[|t|..] == u[|t|..] + v[|u|..];
    RequestsOfSum(u[|t|..], v[|u|..]);
  }

  lemma GateFacts(w: World, env: Environment, g: DeployStage, s: Stages)
    requires Sound(w, env) && s in {PREVIEW, PRODUCTION}
    ensures var (v, f) := Gate(w, env, g, s);
            && Sound(v, env) && SameShas(w, v) && Calm(w.trace, v.trace)
            && GateReading(Read(w.trace), Read(v.trace), if s == PRODUCTION then 1 else 0)
            && (f.None? ==> AllOk(v.trace[|w.trace|..]) && RequestsOf(v.trace[|w.trace|..]) == GateRequests(g, s))
  {
    hide Sound, Read, ExecList, Calm, AllOk, RequestsOf, LogEvent, Exec, Answer;
    if g.required {
      var request := Request(s.deploy, 0, 0);
      var deploy := Answer(w, env, request);
      var state := if deploy.ok then s.deployState else "REPAIRING";
      var deployed := LogEvent(Exec(w, env, request), env, s.deployKind, state, None, deploy.evidence);
      DeployFacts(w, env, s);
      if deploy.ok {
        UatFacts(deployed, env, s, g.uat);
        var (listed, first) := ExecList(deployed, env, s.uat, 0, 0, g.uat);
        var v := LogEvent(listed, env, s.uatKind, if first.None? then s.uatState else "REPAIRING", None, "list");
        CalmThrough(w.trace, deployed.trace, v.trace);
        DeployRequests(w.trace, deployed.trace, request, deploy, s.deployKind, state);
      }
    } else {
      NoSteps(w.trace);
    }
  }

  lemma NoSteps(t: Trace)
    ensures Calm(t, t) && AllOk(t[|t|..]) && RequestsOf(t[|t|..]) == []
  {
  }

  lemma DeployRequests(t: Trace, u: Trace, request: Request, result: CommandResult, kind: string, state: string)
    requires u == t + [Ran(request, result), Logged(kind, state)]
    ensures RequestsOf(u[|t|..]) == [request]
    ensures result.ok ==> AllOk(u[|t|..])
  {
    var s := u[|t|..];
    assert s == [Ran(request, result), Logged(kind, state)];
    assert s[1..] == [Logged(kind, state)] && s[1..][1..] == [];
    assert RequestsOf(s[1..]) == [];
  }

  /** The output is this text with nothing but white space before and behind it. */
  ghost predicate Surrounds(output: string, before: string, text: string, after: string) {
    output == before + text + after && Log.Blank(before) && Log.Blank(after)
  }

  /** The probe succeeded and printed this sha: 7 to 64 hexadecimal digits, in white space. */
  ghost predicate Prints(result: CommandResult, sha: string) {
    && result.ok && 7 <= |sha| <= 64
    && (forall c <- sha :: '0' <= c <= '9' || 'a' <= c <= 'f' || 'A' <= c <= 'F')
    && exists before, after :: Surrounds(result.stdout, before, sha, after)
  }

  lemma {:induction false} TrimmedStands(s: string)
    ensures exists before, after :: Surrounds(s, before, Trimmed(s), after)
    decreases |s|
  {
    hide Log.Whitespace;
    if s != "" && Log.Whitespace(s[0]) {
      TrimmedStands(s[1..]);
      var before, after :| Surrounds(s[1..], before, Trimmed(s[1..]), after);
      assert s == [s[0]] + s[1..];
      assert s == ([s[0]] + before) + Trimmed(s) + after;
      assert Surrounds(s, [s[0]] + before, Trimmed(s), after);
    } else if s != "" && Log.Whitespace(s[|s| - 1]) {
      TrimmedStands(s[..|s| - 1]);
      var before, after :| Surrounds(s[..|s| - 1], before, Trimmed(s[..|s| - 1]), after);
      assert s == s[..|s| - 1] + [s[|s| - 1]];
      assert s == before + Trimmed(s) + (after + [s[|s| - 1]]);
      assert Surrounds(s, before, Trimmed(s), after + [s[|s| - 1]]);
    } else {
      assert Trimmed(s) == s && s == "" + s + "";
      assert Surrounds(s, "", Trimmed(s), "");
    }
  }

  lemma {:induction false} TrimmedIs(s: string, before: string, text: string, after: string)
    requires Surrounds(s, before, text, after) && text != ""
    requires !Log.Whitespace(text[0]) && !Log.Whitespace(text[|text| - 1])
    ensures Trimmed(s) == text
    decreases |s|
  {
    hide Log.Whitespace;
    if before != "" {
      assert s[0] == before[0] && s[1..] == before[1..] + text + after;
      TrimmedIs(s[1..], before[1..], text, after);
    } else if after != "" {
      assert s[0] == text[0] && s[|s| - 1] == after[|after| - 1];
      assert s[..|s| - 1] == before + text + after[..|after| - 1];
      TrimmedIs(s[..|s| - 1], before, text, after[..|after| - 1]);
    } else {
      assert s == text;
    }
  }

  lemma DigitsAreNotBlank(c: char)
    requires '0' <= c <= '9' || 'a' <= c <= 'f' || 'A' <= c <= 'F'
    ensures !Log.Whitespace(c)
  {
  }

  /** resolveSha answers exactly the sha its probe printed. */
  lemma ShaOfPrints(result: CommandResult, sha: string)
    ensures ShaOf(result) == Success(sha) <==> Prints(result, sha)
  {
    hide Trimmed, Log.Whitespace;
    TrimmedStands(result.stdout);
    if Prints(result, sha) {
      var before, after :| Surrounds(result.stdout, before, sha, after);
      assert sha[0] in sha && sha[|sha| - 1] in sha;
      DigitsAreNotBlank(sha[0]);
      DigitsAreNotBlank(sha[|sha| - 1]);
      TrimmedIs(result.stdout, before, sha, after);
    }
  }

  /**
   A complete passing release: every required gate ran once, in order, and succeeded; the first
   probe printed `sha`, and so did the last one when the contract asks for an exact match.
   */
  ghost predicate PassingRelease(c: Contract, sha: string, s: Trace) {
    && RequestsOf(s) == ExpectedRequests(c) && AllOk(s)
    && s != [] && s[0].Ran? && Prints(s[0].result, sha)
    && (c.exactSha ==> DeployedProbe(s[|s| - 1], sha))
  }

  ghost predicate DeployedProbe(e: Entry, sha: string) {
    e.Ran? && e.request.stage == ShaDeployed && Prints(e.result, sha)
  }

  /** Tested and deployed sha agree, and a complete passing release proves it. */
  ghost predicate Matched(c: Contract, run: Log.Run, s: Trace) {
    && run.testedSha.Some? && run.deployedSha == run.testedSha && ValidSha(run.testedSha.value)
    && PassingRelease(c, run.testedSha.value, s)
  }

  ghost predicate AttemptReading(r: Reading, q: Reading) {
    && q == r.(productionDeploys := q.productionDeploys, sound := r.sound && !r.pending,
               soundAny := r.soundAny && !r.pendingAny)
    && r.productionDeploys <= q.productionDeploys <= r.productionDeploys + 1
  }

  ghost predicate ProbeReading(r: Reading, q: Reading) {
    q == r.(sound := r.sound && !r.pending, soundAny := r.soundAny && !r.pendingAny)
  }

  lemma ProbeFacts(w: World, env: Environment)
    requires Sound(w, env)
    ensures var request := Request(ShaTested, 0, 0);
            var result := Answer(w, env, request);
            var probed := Exec(w, env, request);
            && Sound(probed, env) && Calm(w.trace, probed.trace) && ProbeReading(Read(w.trace), Read(probed.trace))
            && (ShaOf(result).Success? ==>
                  var noted := LogEvent(probed.(run := probed.run.(testedSha := Some(ShaOf(result).value))), env,
                                        "sha.tested", "VERIFIED", None, ShaOf(result).value);
                  && Sound(noted, env) && Calm(w.trace, noted.trace) && ProbeReading(Read(w.trace), Read(noted.trace))
                  && noted.run.testedSha == Some(ShaOf(result).value)
                  && noted.trace == w.trace + [Ran(request, result), Logged("sha.tested", "VERIFIED")])
  {
    var request := Request(ShaTested, 0, 0);
    var result := Answer(w, env, request);
    var probed := Exec(w, env, request);
    hide Sound, Read, ShaOf;
    ExecKeepsSound(w, env, request);
    ShaOfIsValid(result);
    if ShaOf(result).Success? {
      var sha := ShaOf(result).value;
      var set1 := probed.(run := probed.run.(testedSha := Some(sha)));
      ShasStayOk(w, env, sha);
      SettingShasKeepsSound(probed, env, set1);
      LogKeepsSound(set1, env, "sha.tested", "VERIFIED", None, sha);
    }
  }

  lemma ShasStayOk(w: World, env: Environment, sha: string)
    requires Sound(w, env) && ValidSha(sha)
    ensures Log.ShasOk(w.run.(testedSha := Some(sha))) && Log.ShasOk(w.run.(deployedSha := Some(sha)))
  {
  }

  lemma SettingShasKeepsSound(w: World, env: Environment, v: World)
    requires Sound(w, env) && Log.ShasOk(v.run)
    requires v == w.(run := w.run.(testedSha := v.run.testedSha, deployedSha := v.run.deployedSha,
                                   blocker := v.run.blocker, worktreePath := v.run.worktreePath))
    ensures Sound(v, env)
  {
    Log.ChainOnlyReadsEvents(w.run, v.run, env.hash);
  }

  lemma MatchFacts(w: World, env: Environment, c: Contract, sha: string)
    requires Sound(w, env) && w.run.testedSha == Some(sha) && ValidSha(sha)
    ensures var (v, verdict) := MatchShas(w, env, c);
            && Sound(v, env) && Calm(w.trace, v.trace) && Read(v.trace) == Read(w.trace)
            && (verdict.Passed? ==>
                  && v.run.testedSha == v.run.deployedSha == Some(sha)
                  && AllOk(v.trace[|w.trace|..])
                  && RequestsOf(v.trace[|w.trace|..]) == (if c.exactSha then [Request(ShaDeployed, 0, 0)] else [])
                  && (c.exactSha ==> |v.trace| == |w.trace| + 1 && DeployedProbe(v.trace[|w.trace|], sha)))
  {
    hide Sound, Read, ShaOf, Prints, RequestsOf, AllOk, LogEvent, Calm;
    if !c.exactSha {
      ShasStayOk(w, env, sha);
      SettingShasKeepsSound(w, env, w.(run := w.run.(deployedSha := w.run.testedSha)));
      NoSteps(w.trace);
    } else {
      var request := Request(ShaDeployed, 0, 0);
      var result := Answer(w, env, request);
      var probed := Exec(w, env, request);
      ExecKeepsSound(w, env, request);
      OneRequest(w.trace, Ran(request, result));
      CalmStep(w.trace, Ran(request, result));
      ShaOfIsValid(result);
      if ShaOf(result).Success? {
        ShaOfPrints(result, ShaOf(result).value);
        var recorded := probed.(run := probed.run.(deployedSha := Some(ShaOf(result).value)));
        ShasStayOk(w, env, ShaOf(result).value);
        SettingShasKeepsSound(probed, env, recorded);
        LogKeepsSound(recorded, env, "sha.mismatch", "REPAIRING", None, ShaOf(result).value);
        CalmStep(recorded.trace, Logged("sha.mismatch", "REPAIRING"));
        CalmThrough(w.trace, recorded.trace, recorded.trace + [Logged("sha.mismatch", "REPAIRING")]);
      }
    }
  }

  lemma CalmStep(t: Trace, e: Entry)
    requires !Changes(e)
    ensures Calm(t, t + [e])
  {
  }

  lemma ShaOfIsValid(result: CommandResult)
    ensures ShaOf(result).Success? ==> result.ok && ValidSha(ShaOf(result).value)
  {
  }

  lemma OneRequest(t: Trace, e: Entry)
    requires e.Ran?
    ensures RequestsOf((t + [e])[|t|..]) == [e.request]
    ensures e.result.ok ==> AllOk((t + [e])[|t|..])
  {
  }

  lemma PassingReleaseShape(t: Trace, noted: Trace, produced: Trace, v: Trace, c: Contract, sha: string,
                            result: CommandResult)
    requires noted == t + [Ran(Request(ShaTested, 0, 0), result), Logged("sha.tested", "VERIFIED")]
    requires ShaOf(result) == Success(sha) && noted <= produced <= v
    requires RequestsOf(v[|t|..]) == ExpectedRequests(c) && AllOk(v[|t|..])
    requires c.exactSha ==> |v| == |produced| + 1 && DeployedProbe(v[|produced|], sha)
    ensures PassingRelease(c, sha, v[|t|..])
  {
    hide Prints, ShaOf;
    ShaOfPrints(result, sha);
  }

  lemma AttemptFacts(w: World, env: Environment, c: Contract)
    requires Sound(w, env)
    ensures var (v, verdict) := ReleaseAttempt(w, env, c);
            && Sound(v, env) && Calm(w.trace, v.trace) && AttemptReading(Read(w.trace), Read(v.trace))
            && (verdict.Passed? ==> Matched(c, v.run, v.trace[|w.trace|..]))
  {
    hide Sound, Read, Calm, AllOk, RequestsOf, LogEvent, Exec, Gate, MatchShas, PassingRelease;
    ProbeFacts(w, env);
    var request := Request(ShaTested, 0, 0);
    var result := Answer(w, env, request);
    if ShaOf(result).Success? {
      var sha := ShaOf(result).value;
      var probed := Exec(w, env, request);
      var noted := LogEvent(probed.(run := probed.run.(testedSha := Some(sha))), env, "sha.tested", "VERIFIED", None,
                            sha);
      GateFacts(noted, env, c.preview, PREVIEW);
      var (previewed, f1) := Gate(noted, env, c.preview, PREVIEW);
      CalmThrough(w.trace, noted.trace, previewed.trace);
      if f1.None? {
        GateFacts(previewed, env, c.production, PRODUCTION);
        var (produced, f2) := Gate(previewed, env, c.production, PRODUCTION);
        CalmThrough(w.trace, previewed.trace, produced.trace);
        if f2.None? {
          MatchFacts(produced, env, c, sha);
          var (v, verdict) := MatchShas(produced, env, c);
          CalmThrough(w.trace, produced.trace, v.trace);
          if verdict.Passed? {
            DeployRequests(w.trace, noted.trace, request, result, "sha.tested", "VERIFIED");
            PassingReleaseShape(w.trace, noted.trace, produced.trace, v.trace, c, sha, result);
          }
        }
      }
    }
  }

  // ---------------------------------------------------------------- the release loop

  /** Nothing was successfully built or repaired since a verification passed. */
  ghost predicate LastChangeVerified(c: Contract, t: Trace) {
    exists j :: VerifiedAt(c, t, j) && NoChangeSince(t, j)
  }

  ghost predicate NoChangeSince(t: Trace, j: int) {
    forall k :: j < k < |t| && 0 <= k ==> !(Changes(t[k]) && t[k].result.ok)
  }

  lemma VerifiedStays(c: Contract, t: Trace, u: Trace)
    requires LastChangeVerified(c, t) && t <= u
    requires forall k :: |t| <= k < |u| ==> !(Changes(u[k]) && u[k].result.ok)
    ensures LastChangeVerified(c, u)
  {
    var j :| VerifiedAt(c, t, j) && NoChangeSince(t, j);
    assert u[j - c.verification..j] == t[j - c.verification..j];
    assert VerifiedAt(c, u, j) && NoChangeSince(u, j);
  }

  lemma VerifiedNow(c: Contract, t: Trace)
    requires VerifiedAt(c, t, |t| - 1)
    ensures LastChangeVerified(c, t)
  {
  }

  /** What SHIPPED stands for. */
  ghost predicate Earned(c: Contract, run: Log.Run, t: Trace) {
    && |t| >= 2 && t[|t| - 2] == Logged("sha.verified", "PRODUCTION_VERIFIED")
    && t[|t| - 1] == Logged("release.shipped", "SHIPPED")
    && LastChangeVerified(c, t)
    && exists k :: ReleasedFrom(c, run, t, k)
  }

  /** The entries from k up to the last two events are a complete passing release. */
  ghost predicate ReleasedFrom(c: Contract, run: Log.Run, t: Trace, k: int) {
    0 <= k <= |t| - 2 && Matched(c, run, t[k..|t| - 2])
  }

  /** Repairs that n further release attempts may use: each a release repair and a full verification budget. */
  function Budget(maxRepairs: nat, n: nat): nat {
    if n == 0 then 0 else maxRepairs + 1 + Budget(maxRepairs, n - 1)
  }

  /** How the release loop is entered: a failed release repair shows exactly in the readings. */
  ghost predicate Entry0(r: Reading) {
    r.sound && !r.pending && !r.closed && (r.releaseRepairFailed <==> !r.soundAny || r.pendingAny)
  }

  ghost predicate Released(w: World, env: Environment, c: Contract, v: World, error: Option<string>, n: nat) {
    var r, q := Read(w.trace), Read(v.trace);
    && Sound(v, env) && w.trace <= v.trace
    && q.repairs <= r.repairs + Budget(c.maxRepairAttempts, n)
    && q.productionDeploys <= r.productionDeploys + n + 1
    && q.sound && (q.releaseRepairFailed <==> !q.soundAny)
    && (if error.Some? then !q.closed else Ended(w.trace, v.trace, v.run.state) && v.run.state in {"FAILED", "SHIPPED"})
    && (error.None? && v.run.state == "SHIPPED" ==> Earned(c, v.run, v.trace))
  }

  lemma ShipFacts(w: World, u: World, env: Environment, c: Contract)
    requires Sound(u, env) && Calm(w.trace, u.trace) && LastChangeVerified(c, w.trace)
    requires Matched(c, u.run, u.trace[|w.trace|..])
    ensures var v := Ship(u, env);
            && Sound(v, env) && u.trace <= v.trace && Ended(u.trace, v.trace, "SHIPPED") && v.run.state == "SHIPPED"
            && Read(v.trace) == Read(u.trace).(closed := true)
            && Earned(c, v.run, v.trace)
  {
    hide Read, PassingRelease, VerifiedAt;
    LogKeepsSound(u, env, "sha.verified", "PRODUCTION_VERIFIED", None, "shas");
    var verified := LogEvent(u, env, "sha.verified", "PRODUCTION_VERIFIED", None, "shas");
    LogKeepsSound(verified, env, "release.shipped", "SHIPPED", None, "golden path");
    var v := Ship(u, env);
    assert v.trace[..|v.trace| - 1] == verified.trace;
    VerifiedStays(c, w.trace, v.trace);
    assert v.trace[|w.trace|..|v.trace| - 2] == u.trace[|w.trace|..];
    assert ReleasedFrom(c, v.run, v.trace, |w.trace|);
  }

  lemma EndedLater(t: Trace, u: Trace, v: Trace, state: string)
    requires t <= u && Read(u).closed == Read(t).closed && Ended(u, v, state)
    ensures Ended(t, v, state)
  {
  }

  lemma ReleasedLater(w: World, u: World, env: Environment, c: Contract, v: World, error: Option<string>, n: nat)
    requires w.trace <= u.trace && Read(u.trace).closed == Read(w.trace).closed
    requires Read(u.trace).repairs <= Read(w.trace).repairs + c.maxRepairAttempts + 1
    requires Read(u.trace).productionDeploys <= Read(w.trace).productionDeploys + 1
    requires Released(u, env, c, v, error, n)
    ensures Released(w, env, c, v, error, n + 1)
  {
  }

  lemma {:induction false} ReleaseFacts(w: World, env: Environment, c: Contract, attempt: nat,
                                        failure: Option<CommandResult>)
    requires Sound(w, env) && LastChangeVerified(c, w.trace) && Entry0(Read(w.trace)) && attempt <= c.maxRepairAttempts
    ensures var (v, error) := Release(w, env, c, attempt, failure);
            Released(w, env, c, v, error, c.maxRepairAttempts - attempt)
    decreases c.maxRepairAttempts - attempt
  {
    hide Sound, Read, LastChangeVerified, Earned, Matched, ReleaseAttempt, Verify, MendRelease, Ship, Fail;
    AttemptFacts(w, env, c);
    var (tried, verdict) := ReleaseAttempt(w, env, c);
    match verdict
    case Threw(error) =>
    case Passed => ShipFacts(w, tried, env, c);
    case Refused(f) =>
      VerifiedStays(c, w.trace, tried.trace);
      if attempt == c.maxRepairAttempts {
        FailFacts(tried, env, "release_repair_budget_exhausted");
      } else {
        hide Released;
        RefusedFacts(w, tried, env, c, attempt, f);
      }
  }

  /** The tail of a refused attempt: mend, verify again if that worked, and try again. */
  lemma {:induction false} RefusedFacts(w: World, tried: World, env: Environment, c: Contract, attempt: nat,
                                        f: CommandResult)
    requires Sound(tried, env) && w.trace <= tried.trace && LastChangeVerified(c, tried.trace)
    requires Entry0(Read(w.trace)) && AttemptReading(Read(w.trace), Read(tried.trace)) && attempt < c.maxRepairAttempts
    ensures var (mended, result) := MendRelease(tried, env, attempt);
            var (verified, ok) := Verify(mended, env, c, 0, None);
            var (v, error) := if !result.ok then Release(mended, env, c, attempt + 1, Some(result))
                              else if !ok then (verified, None)
                              else Release(verified, env, c, attempt + 1, Some(f));
            Released(w, env, c, v, error, c.maxRepairAttempts - attempt)
    decreases c.maxRepairAttempts - attempt, 0
  {
    hide Sound, Read, LastChangeVerified, VerifiedAt, Earned, Verify, Release, Released;
    var n := c.maxRepairAttempts - attempt - 1;
    var (mended, result) := MendRelease(tried, env, attempt);
    RepairFacts(tried, env, Request(ReleaseRepair, attempt + 1, 0), "release.repair");
    if !result.ok {
      VerifiedStays(c, tried.trace, mended.trace);
      ReleaseFacts(mended, env, c, attempt + 1, Some(result));
      var (v, error) := Release(mended, env, c, attempt + 1, Some(result));
      ReleasedLater(w, mended, env, c, v, error, n);
    } else {
      VerifyFacts(mended, env, c, 0, None);
      var (verified, ok) := Verify(mended, env, c, 0, None);
      if ok {
        VerifiedNow(c, verified.trace);
        ReleaseFacts(verified, env, c, attempt + 1, Some(f));
        var (v, error) := Release(verified, env, c, attempt + 1, Some(f));
        ReleasedLater(w, verified, env, c, v, error, n);
      } else {
        assert Budget(c.maxRepairAttempts, n + 1) >= c.maxRepairAttempts + 1;
        GiveUp(w, mended, env, c, verified, n + 1);
      }
    }
  }

  lemma GiveUp(w: World, u: World, env: Environment, c: Contract, v: World, n: nat)
    requires w.trace <= u.trace && Read(u.trace).closed == Read(w.trace).closed
    requires Read(u.trace).repairs <= Read(w.trace).repairs + 1 && n > 0
    requires Read(u.trace).productionDeploys <= Read(w.trace).productionDeploys + 1
    requires Read(u.trace).sound && (Read(u.trace).releaseRepairFailed <==> !Read(u.trace).soundAny)
    requires Verifies(u, env, c, v, false, c.maxRepairAttempts)
    ensures Released(w, env, c, v, None, n)
  {
  }

  // ---------------------------------------------------------------- the whole run

  lemma LogFacts(w: World, env: Environment, kind: string, state: string, message: Option<string>, evidence: string)
    requires Sound(w, env) && state != "SHIPPED" && kind != "verification.finished" && Proper(message)
    ensures var v := LogEvent(w, env, kind, state, message, evidence);
            && Sound(v, env) && v.trace == w.trace + [Logged(kind, state)] && v.run.state == state
            && (!Log.Terminal(state) ==> Read(v.trace) == Read(w.trace))
            && (Log.Terminal(state) ==> Read(v.trace) == Read(w.trace).(closed := true))
  {
    hide Sound, Read;
    LogKeepsSound(w, env, kind, state, message, evidence);
  }

  lemma AcceptedFacts(env: Environment, c: Contract, runId: string)
    ensures Sound(Accepted(env, c, runId), env) && Read(Accepted(env, c, runId).trace) == NOTHING
  {
    var first := World(Created(c, runId, env.clock([])), [], []);
    assert Sound(first, env) && Read(first.trace) == NOTHING;
    hide Sound, Read;
    LogFacts(first, env, "contract.accepted", "CONTRACT_ACCEPTED", None, c.digest);
  }

  lemma BlockedFacts(env: Environment, c: Contract, runId: string, message: string)
    ensures var v := Blocked(env, c, runId, message);
            && Sound(v, env) && v.run.state == "BLOCKED" && Read(v.trace) == NOTHING.(closed := true)
            && Ended([], v.trace, "BLOCKED")
  {
    AcceptedFacts(env, c, runId);
    var accepted := Accepted(env, c, runId);
    var marked := accepted.(run := accepted.run.(blocker := Some("BLOCKED_SOURCE_UNKNOWN")));
    ShippedHasShas(accepted, env);
    SettingShasKeepsSound(accepted, env, marked);
    assert ("worktree:" + message)[0] == 'w';
    EmptyReading();
    hide Sound, Read;
    LogFacts(marked, env, "run.blocked", "BLOCKED", Some("worktree:" + message), "{}");
    var v := Blocked(env, c, runId, message);
    assert v.trace[..|v.trace| - 1] == accepted.trace;
  }

  lemma ShippedHasShas(w: World, env: Environment)
    requires Sound(w, env)
    ensures Log.ShasOk(w.run)
  {
  }

  lemma EmptyReading()
    ensures Read([]) == NOTHING
  {
  }

  lemma ReadyFacts(env: Environment, c: Contract, runId: string, path: string)
    ensures Sound(Ready(env, c, runId, path), env) && Read(Ready(env, c, runId, path).trace) == NOTHING
  {
    hide Sound, Read;
    AcceptedFacts(env, c, runId);
    var accepted := Accepted(env, c, runId);
    hide Accepted;
    var placed := accepted.(run := accepted.run.(worktreePath := Some(path)));
    ShippedHasShas(accepted, env);
    SettingShasKeepsSound(accepted, env, placed);
    LogFacts(placed, env, "worktree.ready", "WORKTREE_READY", None, path);
  }

  lemma BuiltFacts(env: Environment, c: Contract, runId: string, path: string)
    ensures var v := Built(Ready(env, c, runId, path), env).0;
            && Sound(v, env) && v.trace != []
            && Read(v.trace).repairs == 0 && Read(v.trace).productionDeploys == 0 && !Read(v.trace).closed
            && Read(v.trace).sound && Read(v.trace).soundAny && !Read(v.trace).releaseRepairFailed
  {
    hide Sound, Read, Ready;
    ReadyFacts(env, c, runId, path);
    var ready := Ready(env, c, runId, path);
    var request := Request(Build, 0, 0);
    ExecKeepsSound(ready, env, request);
    var build := Answer(ready, env, request);
    LogFacts(Exec(ready, env, request), env, "builder.finished", if build.ok then "BUILD_COMPLETE" else "REPAIRING",
             None, build.evidence);
  }

  /** What is true of every supervised run, for every environment and contract. */
  ghost predicate Supervised(env: Environment, c: Contract, v: World, error: Option<string>) {
    var R, q := c.maxRepairAttempts, Read(v.trace);
    && Sound(v, env)
    && q.repairs <= R + Budget(R, R) && q.productionDeploys <= R + 1
    && q.sound && (q.releaseRepairFailed <==> !q.soundAny)
    && (if error.Some? then !q.closed else Ended([], v.trace, v.run.state))
    && (error.None? && v.run.state == "SHIPPED" ==> Earned(c, v.run, v.trace))
  }

  lemma ShippingFacts(env: Environment, c: Contract, runId: string)
    ensures var (v, error) := Shipping(env, c, runId); Supervised(env, c, v, error)
  {
    hide Sound, Read, Verify, Release, Earned, LastChangeVerified, VerifiedAt, Blocked, Ready, Built;
    EmptyReading();
    if env.worktree.Failure? {
      BlockedFacts(env, c, runId, env.worktree.error);
    } else {
      BuiltFacts(env, c, runId, env.worktree.value);
      var (built, build) := Built(Ready(env, c, runId, env.worktree.value), env);
      var failure := if build.ok then None else Some(build);
      VerifyFacts(built, env, c, 0, failure);
      var (verified, ok) := Verify(built, env, c, 0, failure);
      if ok {
        VerifiedNow(c, verified.trace);
        ReleaseFacts(verified, env, c, 0, None);
        var (v, error) := Release(verified, env, c, 0, None);
        if error.None? { EndedLater([], verified.trace, v.trace, v.run.state); }
      } else {
        EndedLater([], built.trace, verified.trace, "FAILED");
      }
    }
  }

  // ---------------------------------------------------------------- main results

  lemma BudgetIs(R: nat, n: nat)
    ensures Budget(R, n) == n * (R + 1)
  {
  }

  /**
   SHIPPED is earned: the trace ends with a complete passing release of one sha and the two final
   events, a full verification passed after the last successful build or repair, the run is valid,
   and its last event is its only terminal one.
   */
  lemma ShippedIsEarned(env: Environment, c: Contract, runId: string)
    requires Shipping(env, c, runId).1.None? && Shipping(env, c, runId).0.run.state == "SHIPPED"
    ensures var v := Shipping(env, c, runId).0;
            && Earned(c, v.run, v.trace) && Log.ValidRun(v.run, env.hash)
            && Labels(v.run.events) == LoggedIn(v.trace)
            && v.trace[|v.trace| - 1] == Logged("release.shipped", "SHIPPED")
            && !Read(v.trace[..|v.trace| - 1]).closed
  {
    hide Read, Earned, LoggedIn, Shipping;
    ShippingFacts(env, c, runId);
    EmptyReading();
    ShippedLast(c, Shipping(env, c, runId).0);
  }

  lemma ShippedLast(c: Contract, v: World)
    requires Earned(c, v.run, v.trace)
    ensures v.trace != [] && v.trace[|v.trace| - 1] == Logged("release.shipped", "SHIPPED")
  {
  }

  /** Without a worktree nothing is run at all: the run is blocked and says why. */
  lemma NoWorktreeBlocks(env: Environment, c: Contract, runId: string)
    requires env.worktree.Failure?
    ensures var (v, error) := Shipping(env, c, runId);
            && error.None? && v.run.state == "BLOCKED" && v.run.blocker == Some("BLOCKED_SOURCE_UNKNOWN")
            && v.trace == [Logged("contract.accepted", "CONTRACT_ACCEPTED"), Logged("run.blocked", "BLOCKED")]
            && |v.run.events| == 2
            && v.run.events[1].body.message == Some("worktree:" + env.worktree.error)
  {
  }

  /** The sha of a run that ships, and the two probes of the release that shipped it. */
  ghost predicate ShippedSha(run: Log.Run, sha: string, first: Entry, last: Entry) {
    && run.testedSha == Some(sha) && run.deployedSha == Some(sha)
    && first.Ran? && first.request.stage == ShaTested && Prints(first.result, sha)
    && last.Ran? && last.request.stage == ShaDeployed && Prints(last.result, sha)
  }

  /** Under an exact match, both probes of the release printed the one sha that is recorded as tested and deployed. */
  lemma ShippedShaWasPrintedTwice(env: Environment, c: Contract, runId: string)
    requires Shipping(env, c, runId).1.None? && Shipping(env, c, runId).0.run.state == "SHIPPED" && c.exactSha
    ensures var v := Shipping(env, c, runId).0;
            exists sha, i, j :: 0 <= i < j < |v.trace| && ShippedSha(v.run, sha, v.trace[i], v.trace[j])
  {
    hide Shipping, Prints, LastChangeVerified, RequestsOf, AllOk, ValidSha;
    ShippedIsEarned(env, c, runId);
    var v := Shipping(env, c, runId).0;
    var k :| ReleasedFrom(c, v.run, v.trace, k);
    var s := v.trace[k..|v.trace| - 2];
    FirstIsTheProbe(c, v.run.testedSha.value, s);
    assert s[0] == v.trace[k] && s[|s| - 1] == v.trace[|v.trace| - 3];
    assert ShippedSha(v.run, v.run.testedSha.value, v.trace[k], v.trace[|v.trace| - 3]);
  }

  lemma FirstIsTheProbe(c: Contract, sha: string, s: Trace)
    requires PassingRelease(c, sha, s)
    ensures s[0].request.stage == ShaTested && (c.exactSha ==> |s| > 1)
  {
    hide AllOk, Prints, GateRequests;
    assert RequestsOf(s) == [s[0].request] + RequestsOf(s[1..]);
    assert ExpectedRequests(c)[0] == Request(ShaTested, 0, 0);
  }

  /** A probe prints at most one sha. */
  lemma OneShaPrinted(result: CommandResult, a: string, b: string)
    requires Prints(result, a) && Prints(result, b)
    ensures a == b
  {
    hide Prints, ShaOf;
    ShaOfPrints(result, a);
    ShaOfPrints(result, b);
  }

  /**
   When a release attempt passes: exactly when what it did is a complete passing release. So two probes that print
   different shas, a failed command or a malformed sha never pass, and nothing else is refused.
   */
  lemma AttemptPassesExactly(w: World, env: Environment, c: Contract)
    requires Sound(w, env)
    ensures var (v, verdict) := ReleaseAttempt(w, env, c);
            w.trace <= v.trace && (verdict.Passed? <==> exists sha :: PassingRelease(c, sha, v.trace[|w.trace|..]))
  {
    hide Sound, Read, PassingRelease, ReleaseAttempt;
    AttemptFacts(w, env, c);
    var (v, verdict) := ReleaseAttempt(w, env, c);
    if !verdict.Passed? {
      forall sha ensures !PassingRelease(c, sha, v.trace[|w.trace|..]) { UnpassedShows(w, env, c, sha); }
    }
  }

  /** In particular two probes that print different shas never end an attempt well. */
  lemma DifferentShasNeverPass(w: World, env: Environment, c: Contract, a: string, b: string)
    requires Sound(w, env) && c.exactSha && a != b
    requires w.trace <= ReleaseAttempt(w, env, c).0.trace
    requires var s := ReleaseAttempt(w, env, c).0.trace[|w.trace|..];
             s != [] && s[0].Ran? && s[|s| - 1].Ran? && Prints(s[0].result, a) && Prints(s[|s| - 1].result, b)
    ensures !ReleaseAttempt(w, env, c).1.Passed?
  {
    hide Sound, Prints, ReleaseAttempt, RequestsOf, AllOk, ExpectedRequests;
    AttemptPassesExactly(w, env, c);
    var s := ReleaseAttempt(w, env, c).0.trace[|w.trace|..];
    forall sha ensures !PassingRelease(c, sha, s) {
      if PassingRelease(c, sha, s) {
        OneShaPrinted(s[0].result, a, sha);
        OneShaPrinted(s[|s| - 1].result, b, sha);
      }
    }
  }

  lemma FailedGateShows(w: World, env: Environment, g: DeployStage, s: Stages)
    ensures var (v, f) := Gate(w, env, g, s);
            w.trace <= v.trace && (f.Some? ==> !AllOk(v.trace[|w.trace|..]))
  {
    if g.required {
      var request := Request(s.deploy, 0, 0);
      var deploy := Answer(w, env, request);
      var deployed := LogEvent(Exec(w, env, request), env, s.deployKind,
                               if deploy.ok then s.deployState else "REPAIRING", None, deploy.evidence);
      assert deployed.trace[|w.trace|] == Ran(request, deploy);
      if deploy.ok {
        FailedListShows(deployed, env, s.uat, 0, 0, g.uat);
        var (listed, f) := ExecList(deployed, env, s.uat, 0, 0, g.uat);
        var v := Gate(w, env, g, s).0;
        assert v.trace[|w.trace|..] ==
               deployed.trace[|w.trace|..] + listed.trace[|deployed.trace|..] + [v.trace[|v.trace| - 1]];
      } else {
        assert deployed.trace[|w.trace|..][0] == Ran(request, deploy);
      }
    }
  }

  lemma {:induction false} FailedListShows(w: World, env: Environment, stage: Stage, attempt: nat, i: nat, n: nat)
    ensures var (v, f) := ExecList(w, env, stage, attempt, i, n);
            w.trace <= v.trace && (f.Some? ==> !AllOk(v.trace[|w.trace|..]))
    decreases n - i
  {
    if i < n {
      var request := Request(stage, attempt, i);
      var next := Exec(w, env, request);
      var v := ExecList(w, env, stage, attempt, i, n).0;
      if Answer(w, env, request).ok {
        FailedListShows(next, env, stage, attempt, i + 1, n);
        assert v.trace[|w.trace|..] == next.trace[|w.trace|..] + v.trace[|next.trace|..];
      } else {
        assert v.trace[|w.trace|..][0] == Ran(request, Answer(w, env, request));
      }
    }
  }

  lemma LaterFailureShows(t: Trace, u: Trace, v: Trace)
    requires t <= u <= v && !AllOk(v[|u|..])
    ensures !AllOk(v[|t|..])
  {
    assert v[|t|..] == u[|t|..] + v[|u|..];
  }

  lemma EarlierFailureShows(t: Trace, u: Trace, v: Trace)
    requires t <= u <= v && !AllOk(u[|t|..])
    ensures !AllOk(v[|t|..])
  {
    assert v[|t|..] == u[|t|..] + v[|u|..];
  }

  lemma UnmatchedShows(w: World, env: Environment, c: Contract, sha: string)
    requires c.exactSha && w.run.testedSha == Some(sha) && !MatchShas(w, env, c).1.Passed?
    ensures var v := MatchShas(w, env, c).0;
            w.trace < v.trace && !DeployedProbe(v.trace[|v.trace| - 1], sha)
  {
    hide ShaOf, Prints;
    var result := Answer(w, env, Request(ShaDeployed, 0, 0));
    ShaOfPrints(result, sha);
  }

  lemma UnpassedShows(w: World, env: Environment, c: Contract, sha: string)
    requires !ReleaseAttempt(w, env, c).1.Passed?
    ensures w.trace <= ReleaseAttempt(w, env, c).0.trace
    ensures !PassingRelease(c, sha, ReleaseAttempt(w, env, c).0.trace[|w.trace|..])
  {
    hide ShaOf, Prints, Gate, MatchShas, AllOk, RequestsOf, DeployedProbe;
    var request := Request(ShaTested, 0, 0);
    var result := Answer(w, env, request);
    ShaOfPrints(result, sha);
    var probed := Exec(w, env, request);
    var v := ReleaseAttempt(w, env, c).0;
    if ShaOf(result).Success? {
      var tested := ShaOf(result).value;
      var noted := LogEvent(probed.(run := probed.run.(testedSha := Some(tested))), env, "sha.tested", "VERIFIED",
                            None, tested);
      FailedGateShows(noted, env, c.preview, PREVIEW);
      var (previewed, f1) := Gate(noted, env, c.preview, PREVIEW);
      if f1.Some? {
        LaterFailureShows(w.trace, noted.trace, previewed.trace);
      } else {
        FailedGateShows(previewed, env, c.production, PRODUCTION);
        var (produced, f2) := Gate(previewed, env, c.production, PRODUCTION);
        if f2.Some? {
          LaterFailureShows(w.trace, previewed.trace, produced.trace);
        } else {
          GateKeepsSha(noted, env, c.preview, PREVIEW);
          GateKeepsSha(previewed, env, c.production, PRODUCTION);
          NotMatchedMeansExact(produced, env, c);
          UnmatchedShows(produced, env, c, tested);
          FirstOf(w.trace, noted.trace, v.trace, request, result);
        }
      }
    } else {
      assert v == probed;
      assert v.trace[|w.trace|..][0] == Ran(request, result);
    }
  }

  lemma GateKeepsSha(w: World, env: Environment, g: DeployStage, s: Stages)
    ensures Gate(w, env, g, s).0.run.testedSha == w.run.testedSha
  {
    if g.required {
      var request := Request(s.deploy, 0, 0);
      var deploy := Answer(w, env, request);
      var deployed := LogEvent(Exec(w, env, request), env, s.deployKind,
                               if deploy.ok then s.deployState else "REPAIRING", None, deploy.evidence);
      ListKeepsRun(deployed, env, s.uat, 0, 0, g.uat);
    }
  }

  lemma {:induction false} ListKeepsRun(w: World, env: Environment, stage: Stage, attempt: nat, i: nat, n: nat)
    ensures ExecList(w, env, stage, attempt, i, n).0.run == w.run
    decreases n - i
  {
    if i < n { ListKeepsRun(Exec(w, env, Request(stage, attempt, i)), env, stage, attempt, i + 1, n); }
  }

  lemma NotMatchedMeansExact(w: World, env: Environment, c: Contract)
    ensures !MatchShas(w, env, c).1.Passed? ==> c.exactSha
  {
  }

  lemma FirstOf(t: Trace, noted: Trace, v: Trace, request: Request, result: CommandResult)
    requires t + [Ran(request, result)] <= noted <= v
    ensures v[|t|..] != [] && v[|t|..][0] == Ran(request, result)
    ensures v[|t|..][|v| - |t| - 1] == v[|v| - 1]
  {
  }

  ghost predicate WithinBounds(v: World, R: nat) {
    && Read(v.trace).repairs <= R * R + 2 * R && Read(v.trace).productionDeploys <= R + 1
    && forall e <- v.run.events :: Proper(e.body.message)
  }

  /**
   Whatever the environment does, the loops stop within R*R + 2R repairs and R + 1 production
   deployments, and the code after each loop never runs.
   */
  lemma RepairWorkIsBounded(env: Environment, c: Contract, runId: string)
    ensures WithinBounds(Shipping(env, c, runId).0, c.maxRepairAttempts)
  {
    hide Read, Shipping;
    ShippingFacts(env, c, runId);
    BudgetIs(c.maxRepairAttempts, c.maxRepairAttempts);
  }

  /** Every version of the run handed to the store is valid. */
  lemma EverySavedRunIsValid(env: Environment, c: Contract, runId: string)
    ensures forall r <- Shipping(env, c, runId).0.saved :: Log.ValidRun(r, env.hash)
  {
    hide Read, Shipping;
    ShippingFacts(env, c, runId);
  }

  /**
   The documented promise that a repair is verified before anything is deployed again holds exactly
   on the runs in which no release repair failed; counting successful changes only, it always holds.
   */
  lemma RedeployedOnlyVerified(env: Environment, c: Contract, runId: string)
    ensures var q := Read(Shipping(env, c, runId).0.trace);
            q.sound && (q.soundAny <==> !q.releaseRepairFailed)
  {
    hide Read, Shipping;
    ShippingFacts(env, c, runId);
  }

  // ---------------------------------------------------------------- the bound is reached

  /** Verification passes only on its last attempt, and production never deploys. */
  function Stubborn(R: nat): Environment {
    Environment((t: Trace, q: Request) =>
                  CommandResult(if q.stage == Verification then q.attempt == R else q.stage != ProductionDeploy,
                                "abcdef0", "{}"),
                (t: Trace) => 0, (b: Log.Body) => "digest", Success("/tmp/worktree"))
  }

  function StubbornContract(R: nat): Contract {
    Contract("sha256:0", "project", "1.0.0", R, 1, DeployStage(false, 0), DeployStage(true, 1), false, ["path"])
  }

  ghost predicate Used(w: World, v: World, repairs: nat, deploys: nat) {
    Read(v.trace).repairs == Read(w.trace).repairs + repairs
    && Read(v.trace).productionDeploys == Read(w.trace).productionDeploys + deploys
  }

  lemma LogUses(w: World, env: Environment, kind: string, state: string, message: Option<string>, evidence: string)
    ensures Used(w, LogEvent(w, env, kind, state, message, evidence), 0, 0)
  {
  }

  lemma ExecUses(w: World, env: Environment, q: Request)
    ensures Used(w, Exec(w, env, q), if q.stage.Repair? || q.stage.ReleaseRepair? then 1 else 0,
                 if q.stage.ProductionDeploy? then 1 else 0)
  {
  }

  lemma {:induction false} StubbornVerify(w: World, R: nat, attempt: nat)
    requires attempt <= R
    ensures var (v, ok) := Verify(w, Stubborn(R), StubbornContract(R), attempt, None);
            ok && Used(w, v, R - attempt, 0)
    decreases R - attempt
  {
    hide Read, LogEvent;
    var (env, c) := (Stubborn(R), StubbornContract(R));
    var q := Request(Verification, attempt, 0);
    var listed := Exec(w, env, q);
    ExecUses(w, env, q);
    assert ExecList(listed, env, Verification, attempt, 1, 1) == (listed, None);
    if attempt == R {
      assert ExecList(w, env, Verification, attempt, 0, 1) == (listed, None);
      LogUses(listed, env, "verification.finished", "VERIFIED", None, "list");
    } else {
      assert ExecList(w, env, Verification, attempt, 0, 1) == (listed, Some(Answer(w, env, q)));
      LogUses(listed, env, "verification.finished", "REPAIRING", None, "list");
      var logged := LogEvent(listed, env, "verification.finished", "REPAIRING", None, "list");
      var p := Request(Repair, attempt + 1, 0);
      ExecUses(logged, env, p);
      LogUses(Exec(logged, env, p), env, "repair.finished", "VERIFYING", None, "{}");
      var next := LogEvent(Exec(logged, env, p), env, "repair.finished", "VERIFYING", None, "{}");
      StubbornVerify(next, R, attempt + 1);
      assert VerifyRepair(logged, env, c, attempt) == Verify(next, env, c, attempt + 1, None);
    }
  }

  lemma StubbornAttempt(w: World, R: nat)
    ensures var (v, verdict) := ReleaseAttempt(w, Stubborn(R), StubbornContract(R));
            verdict.Refused? && Used(w, v, 0, 1)
  {
    hide Read, LogEvent;
    var env := Stubborn(R);
    var q := Request(ShaTested, 0, 0);
    var probed := Exec(w, env, q);
    ExecUses(w, env, q);
    assert Trimmed("abcdef0") == "abcdef0";
    var noted := probed.(run := probed.run.(testedSha := Some("abcdef0")));
    LogUses(noted, env, "sha.tested", "VERIFIED", None, "abcdef0");
    var logged := LogEvent(noted, env, "sha.tested", "VERIFIED", None, "abcdef0");
    var p := Request(ProductionDeploy, 0, 0);
    ExecUses(logged, env, p);
    LogUses(Exec(logged, env, p), env, "production.deploy", "REPAIRING", None, "{}");
  }

  lemma StubbornMend(w: World, R: nat, attempt: nat)
    ensures var (v, result) := MendRelease(w, Stubborn(R), attempt); result.ok && Used(w, v, 1, 0)
  {
  }

  lemma {:induction false} StubbornRelease(w: World, R: nat, attempt: nat, failure: Option<CommandResult>)
    requires attempt <= R
    ensures Used(w, Release(w, Stubborn(R), StubbornContract(R), attempt, failure).0, Budget(R, R - attempt),
                 R - attempt + 1)
    decreases R - attempt
  {
    hide Read, LogEvent, ReleaseAttempt, MendRelease, Verify;
    var (env, c) := (Stubborn(R), StubbornContract(R));
    StubbornAttempt(w, R);
    var (tried, verdict) := ReleaseAttempt(w, env, c);
    if attempt == R {
      LogUses(tried, env, "run.failed", "FAILED", Some("release_repair_budget_exhausted"), "{}");
    } else {
      StubbornMend(tried, R, attempt);
      var mended := MendRelease(tried, env, attempt).0;
      StubbornVerify(mended, R, 0);
      var verified := Verify(mended, env, c, 0, None).0;
      StubbornRelease(verified, R, attempt + 1, Some(verdict.failure));
    }
  }

  /** Both bounds are reached, for every repair budget, by a valid contract. */
  lemma BoundsAreTight(R: nat, runId: string)
    ensures ValidContract(StubbornContract(R))
    ensures var q := Read(Shipping(Stubborn(R), StubbornContract(R), runId).0.trace);
            q.repairs == R * R + 2 * R && q.productionDeploys == R + 1
  {
    hide Read, LogEvent, Verify, Release, Ready;
    var (env, c) := (Stubborn(R), StubbornContract(R));
    BuiltFacts(env, c, runId, "/tmp/worktree");
    var (built, build) := Built(Ready(env, c, runId, "/tmp/worktree"), env);
    assert build.ok;
    StubbornVerify(built, R, 0);
    StubbornRelease(Verify(built, env, c, 0, None).0, R, 0, None);
    BudgetIs(R, R);
  }

  // ---------------------------------------------------------------- a failed release repair

  /** Production never deploys and the release repair fails. */
  const CARELESS := Environment(
    (t: Trace, q: Request) => CommandResult(q.stage != ProductionDeploy && q.stage != ReleaseRepair, "abcdef0", "{}"),
    (t: Trace) => 0, (b: Log.Body) => "digest", Success("/tmp/worktree"))

  lemma CarelessLog(w: World, kind: string, state: string, message: Option<string>, evidence: string)
    ensures var q := Read(LogEvent(w, CARELESS, kind, state, message, evidence).trace);
            && q.releaseRepairFailed == Read(w.trace).releaseRepairFailed
            && q.productionDeploys == Read(w.trace).productionDeploys
  {
  }

  lemma CarelessGate(w: World)
    ensures var (v, failure) := Gate(w, CARELESS, DeployStage(true, 1), PRODUCTION);
            && failure.Some? && Read(v.trace).releaseRepairFailed == Read(w.trace).releaseRepairFailed
            && Read(v.trace).productionDeploys == Read(w.trace).productionDeploys + 1
  {
    hide Read, LogEvent;
    var p := Request(ProductionDeploy, 0, 0);
    var deployed := Exec(w, CARELESS, p);
    ReadAppend(w.trace, Ran(p, Answer(w, CARELESS, p)));
    CarelessLog(deployed, "production.deploy", "REPAIRING", None, "{}");
  }

  lemma CarelessAttempt(w: World)
    ensures var (v, verdict) := ReleaseAttempt(w, CARELESS, StubbornContract(1));
            && verdict.Refused? && Read(v.trace).releaseRepairFailed == Read(w.trace).releaseRepairFailed
            && Read(v.trace).productionDeploys == Read(w.trace).productionDeploys + 1
  {
    hide Read, LogEvent, MatchShas;
    var q := Request(ShaTested, 0, 0);
    var probed := Exec(w, CARELESS, q);
    ReadAppend(w.trace, Ran(q, Answer(w, CARELESS, q)));
    assert Trimmed("abcdef0") == "abcdef0";
    var noted := probed.(run := probed.run.(testedSha := Some("abcdef0")));
    CarelessLog(noted, "sha.tested", "VERIFIED", None, "abcdef0");
    CarelessGate(LogEvent(noted, CARELESS, "sha.tested", "VERIFIED", None, "abcdef0"));
  }

  /** From the first release attempt on: deploy, failed repair, deploy again, give up. */
  lemma CarelessRelease(w: World)
    ensures var (v, error) := Release(w, CARELESS, StubbornContract(1), 0, None);
            && error.None? && Read(v.trace).releaseRepairFailed
            && Read(v.trace).productionDeploys == Read(w.trace).productionDeploys + 2
  {
    hide Read, LogEvent, ReleaseAttempt;
    var (env, c) := (CARELESS, StubbornContract(1));
    CarelessAttempt(w);
    var tried := ReleaseAttempt(w, env, c).0;
    var p := Request(ReleaseRepair, 1, 0);
    var failed := CommandResult(false, "abcdef0", "{}");
    ReadAppend(tried.trace, Ran(p, failed));
    var mended := LogEvent(Exec(tried, env, p), env, "release.repair", "REPAIRING", None, "{}");
    CarelessLog(Exec(tried, env, p), "release.repair", "REPAIRING", None, "{}");
    CarelessAttempt(mended);
    var again := ReleaseAttempt(mended, env, c).0;
    CarelessLog(again, "run.failed", "FAILED", Some("release_repair_budget_exhausted"), "{}");
    assert Release(mended, env, c, 1, Some(failed)) == (Fail(again, env, "release_repair_budget_exhausted"), None);
  }

  /**
   With one repair allowed, the second deployment starts straight after the failed repair, with no
   verification in between: shipping-supervisor.js:114 against docs/SHIPPING_OS.md:15.
   */
  lemma RedeployAfterFailedRepair(runId: string)
    ensures var q := Read(Shipping(CARELESS, StubbornContract(1), runId).0.trace);
            q.releaseRepairFailed && !q.soundAny && q.productionDeploys == 2
  {
    hide Read, LogEvent, Ready, Release;
    var (env, c) := (CARELESS, StubbornContract(1));
    BuiltFacts(env, c, runId, "/tmp/worktree");
    var built := Built(Ready(env, c, runId, "/tmp/worktree"), env).0;
    var q := Request(Verification, 0, 0);
    ExecUses(built, env, q);
    var listed := Exec(built, env, q);
    assert ExecList(listed, env, Verification, 0, 1, 1) == (listed, None);
    LogUses(listed, env, "verification.finished", "VERIFIED", None, "list");
    var verified := LogEvent(listed, env, "verification.finished", "VERIFIED", None, "list");
    assert Verify(built, env, c, 0, None) == (verified, true);
    CarelessRelease(verified);
    RedeployedOnlyVerified(env, c, runId);
  }

  // ---------------------------------------------------------------- run() itself

  /**
   run(): the straight-line code around the loops. It computes Shipping, and on the SHIPPED path the
   release receipt is always issued, for exactly this run.
   */
  method SuperviseRelease(env: Environment, c: Contract, runId: string, seal: Log.Receipt -> string)
    returns (supervisor: Supervisor, error: Option<string>, receipt: Option<Log.SealedReceipt>)
    requires ValidContract(c)
    ensures fresh(supervisor)
    ensures (supervisor.Value(), error) == Shipping(env, c, runId)
    ensures receipt.Some? <==> error.None? && supervisor.run.state == "SHIPPED"
    ensures receipt.Some? ==>
              && Log.VerifyReleaseReceipt(receipt.value, seal)
              && receipt.value.receipt.finalEventDigest == Log.LastDigest(supervisor.run.events)
              && receipt.value.receipt.testedSha == receipt.value.receipt.deployedSha == supervisor.run.testedSha
  {
    hide Read, Sound;
    supervisor := new Supervisor(env, c, runId);
    error := Launch(supervisor, c, runId);
    receipt := None;
    if error.None? && supervisor.run.state == "SHIPPED" {
      ShippedIsEarned(env, c, runId);
      var built := Log.BuildReleaseReceipt(supervisor.run, c.goldenPath, env.hash, seal);
      receipt := Some(built.value);
    }
  }

  method Launch(supervisor: Supervisor, c: Contract, runId: string) returns (error: Option<string>)
    requires supervisor.Value() == World(Created(c, runId, supervisor.env.clock([])), [], [])
    modifies supervisor
    ensures (supervisor.Value(), error) == Shipping(supervisor.env, c, runId)
  {
    var env := supervisor.env;
    supervisor.LogNext("contract.accepted", "CONTRACT_ACCEPTED", None, c.digest);
    if env.worktree.Failure? {
      supervisor.run := supervisor.run.(blocker := Some("BLOCKED_SOURCE_UNKNOWN"));
      supervisor.LogNext("run.blocked", "BLOCKED", Some("worktree:" + env.worktree.error), "{}");
      return None;
    }
    supervisor.run := supervisor.run.(worktreePath := Some(env.worktree.value));
    supervisor.LogNext("worktree.ready", "WORKTREE_READY", None, env.worktree.value);
    var build := supervisor.RunCommand(Request(Build, 0, 0));
    supervisor.LogNext("builder.finished", if build.ok then "BUILD_COMPLETE" else "REPAIRING", None, build.evidence);
    var ok := supervisor.VerifyWithRepair(c, if build.ok then None else Some(build));
    if !ok { return None; }
    error := supervisor.ReleaseLoop(c);
  }
}
