/**
 The hash-chained history of a shipping run, its verification, its release receipt and its restart
 reconciliation: services/control-api/src/shipping-receipts.js.

 `hash` stands for SHA-256 over the canonical JSON of an event without its digest; where a proof
 needs collision freedom it asks for an injective hash.
 */
module ShippingLog {
  import opened Options

  const RUN_VERSION := "shipping-run/v1"
  const EVENT_VERSION := "shipping-receipt/v1"
  const RECEIPT_VERSION := "shipping-release-receipt/v1"

  /** An event without its digest. */
  datatype Body = Body(version: string, sequence: nat, runId: string, contractDigest: string, kind: string,
                       state: string, at: nat, message: Option<string>, evidence: string,
                       previousDigest: Option<string>)

  datatype Event = Event(body: Body, digest: string)

  datatype Run = Run(version: string, runId: string, projectId: string, releaseVersion: string,
                     contractDigest: string, state: string, createdAt: nat, updatedAt: nat,
                     testedSha: Option<string>, deployedSha: Option<string>, blocker: Option<string>,
                     worktreePath: Option<string>, events: seq<Event>)

  type Hash = Body -> string

  ghost predicate Injective<X(!new), Y>(h: X -> Y) {
    forall x, y :: h(x) == h(y) ==> x == y
  }

  function LastDigest(events: seq<Event>): Option<string> {
    if events == [] then None else Some(events[|events| - 1].digest)
  }

  /** What trim() removes: white space and line terminators. */
  predicate Whitespace(c: char) {
    || c in {' ', '\t', '\n', '\r', '\U{0B}', '\U{0C}', '\U{A0}', '\U{FEFF}'}
    || c in {'\U{1680}', '\U{2028}', '\U{2029}', '\U{202F}', '\U{205F}', '\U{3000}'}
    || '\U{2000}' <= c <= '\U{200A}'
  }

  predicate Blank(s: string) {
    forall c <- s :: Whitespace(c)
  }

  /** The run with one more event. */
  function Appended(run: Run, hash: Hash, kind: string, state: string, at: nat, message: Option<string>,
                    evidence: string): Run {
    var body := Body(EVENT_VERSION, |run.events| + 1, run.runId, run.contractDigest, kind, state, at, message, evidence,
                     LastDigest(run.events));
    run.(state := state, updatedAt := at, events := run.events + [Event(body, hash(body))])
  }

  function Append(run: Run, hash: Hash, kind: string, state: string, at: nat, message: Option<string>,
                  evidence: string): Result<Run, string>
  {
    if run.version != RUN_VERSION then Failure("shipping_run_invalid")
    else if Blank(kind) then Failure("shipping_event_type_required")
    else Success(Appended(run, hash, kind, state, at, message, evidence))
  }

  // ---------------------------------------------------------------- verifyShippingRun

  datatype Problem =
    | RunInvalid
    | SequenceInvalid(position: nat)
    | IdentityInvalid(position: nat)
    | ChainInvalid(position: nat)
    | DigestInvalid(position: nat)
    | ShippedWithoutTestedSha
    | ShippedWithoutDeployedSha

  ghost predicate EventOk(run: Run, hash: Hash, i: nat)
    requires i < |run.events|
  {
    var e := run.events[i];
    && e.body.sequence == i + 1
    && e.body.runId == run.runId && e.body.contractDigest == run.contractDigest
    && e.body.previousDigest == LastDigest(run.events[..i])
    && e.digest == hash(e.body)
  }

  predicate ShasOk(run: Run) {
    run.state == "SHIPPED" ==>
      run.testedSha.Some? && run.testedSha.value != "" && run.deployedSha.Some? && run.deployedSha.value != ""
  }

  ghost predicate ValidRun(run: Run, hash: Hash) {
    && run.version == RUN_VERSION
    && (forall i :: 0 <= i < |run.events| ==> EventOk(run, hash, i))
    && ShasOk(run)
  }

  /** The event at this index has this fault. */
  predicate Faulty(run: Run, hash: Hash, i: nat, p: Problem)
    requires i < |run.events|
  {
    var e := run.events[i];
    match p
    case SequenceInvalid(n) => n == i + 1 && e.body.sequence != i + 1
    case IdentityInvalid(n) =>
      n == i + 1 && (e.body.runId != run.runId || e.body.contractDigest != run.contractDigest)
    case ChainInvalid(n) =>
      n == i + 1 && e.body.previousDigest != (if i == 0 then None else Some(run.events[i - 1].digest))
    case DigestInvalid(n) => n == i + 1 && e.digest != hash(e.body)
    case _ => false
  }

  ghost predicate FaultBefore(run: Run, hash: Hash, n: nat, p: Problem)
    requires n <= |run.events|
  {
    exists i: nat :: i < n && Faulty(run, hash, i, p)
  }

  /** It reports nothing exactly on a valid run, and otherwise exactly the faults there are. */
  method VerifyShippingRun(run: Run, hash: Hash) returns (problems: seq<Problem>)
    ensures problems == [] <==> ValidRun(run, hash)
    ensures run.version == RUN_VERSION ==> forall p: Problem :: p in problems <==>
              || FaultBefore(run, hash, |run.events|, p)
              || (p.ShippedWithoutTestedSha? && run.state == "SHIPPED"
                  && (run.testedSha == None || run.testedSha == Some("")))
              || (p.ShippedWithoutDeployedSha? && run.state == "SHIPPED"
                  && (run.deployedSha == None || run.deployedSha == Some("")))
  {
    if run.version != RUN_VERSION { return [RunInvalid]; }
    problems := [];
    var previousDigest := None;
    for index := 0 to |run.events|
      invariant previousDigest == LastDigest(run.events[..index])
      invariant problems == [] <==> forall i :: 0 <= i < index ==> EventOk(run, hash, i)
      invariant forall p: Problem :: p in problems <==> FaultBefore(run, hash, index, p)
    {
      ghost var before := problems;
      var event := run.events[index];
      if event.body.sequence != index + 1 { problems := problems + [SequenceInvalid(index + 1)]; }
      if event.body.runId != run.runId || event.body.contractDigest != run.contractDigest {
        problems := problems + [IdentityInvalid(index + 1)];
      }
      if event.body.previousDigest != previousDigest { problems := problems + [ChainInvalid(index + 1)]; }
      if hash(event.body) != event.digest { problems := problems + [DigestInvalid(index + 1)]; }
      assert previousDigest == if index == 0 then None else Some(run.events[index - 1].digest);
      previousDigest := Some(event.digest);
      forall p: Problem ensures p in problems <==> FaultBefore(run, hash, index + 1, p) {
        assert FaultBefore(run, hash, index + 1, p) <==>
               FaultBefore(run, hash, index, p) || Faulty(run, hash, index, p);
      }
      assert problems == [] <==> before == [] && EventOk(run, hash, index);
      assert run.events[..index + 1][index] == event;
    }
    if run.state == "SHIPPED" {
      if run.testedSha.None? || run.testedSha.value == "" { problems := problems + [ShippedWithoutTestedSha]; }
      if run.deployedSha.None? || run.deployedSha.value == "" { problems := problems + [ShippedWithoutDeployedSha]; }
    }
  }

  /** What is appended: the next event of the chain with what the caller says, and nothing that was there changes. */
  lemma AppendedSays(run: Run, hash: Hash, kind: string, state: string, at: nat, message: Option<string>,
                     evidence: string)
    ensures var next := Appended(run, hash, kind, state, at, message, evidence);
            && |next.events| == |run.events| + 1 && run.events <= next.events
            && next.state == state && next.updatedAt == at
            && next == run.(state := state, updatedAt := at, events := next.events)
            && var body := next.events[|run.events|].body;
               && body.sequence == |run.events| + 1 && body.runId == run.runId
               && body.contractDigest == run.contractDigest
               && body.kind == kind && body.state == state && body.at == at
               && body.message == message && body.evidence == evidence
               && body.previousDigest == if run.events == [] then None else Some(run.events[|run.events| - 1].digest)
  {
  }

  /** Appending to a valid run gives a valid run, unless it claims SHIPPED without its two shas. */
  lemma AppendedKeepsValid(run: Run, hash: Hash, kind: string, state: string, at: nat, message: Option<string>,
                           evidence: string)
    requires ValidRun(run, hash)
    ensures ValidRun(Appended(run, hash, kind, state, at, message, evidence), hash) <==> ShasOk(run.(state := state))
  {
    var next := Appended(run, hash, kind, state, at, message, evidence);
    forall i | 0 <= i < |next.events| ensures EventOk(next, hash, i) {
      if i < |run.events| {
        assert EventOk(run, hash, i);
        assert next.events[..i] == run.events[..i];
      } else {
        assert next.events[..i] == run.events;
      }
    }
  }

  /** Fields outside the chain do not matter to it. */
  lemma ChainOnlyReadsEvents(run: Run, other: Run, hash: Hash)
    requires ValidRun(run, hash) && ShasOk(other) && other.version == RUN_VERSION
    requires other.events == run.events && other.runId == run.runId && other.contractDigest == run.contractDigest
    ensures ValidRun(other, hash)
  {
    forall i | 0 <= i < |other.events| ensures EventOk(other, hash, i) {
      assert EventOk(run, hash, i);
    }
  }

  lemma {:induction false} PrefixesAgree(a: Run, b: Run, hash: Hash, n: nat)
    requires Injective(hash) && ValidRun(a, hash) && ValidRun(b, hash)
    requires n <= |a.events| && n <= |b.events|
    requires LastDigest(a.events[..n]) == LastDigest(b.events[..n])
    ensures a.events[..n] == b.events[..n]
  {
    if n > 0 {
      assert a.events[..n][n - 1] == a.events[n - 1] && b.events[..n][n - 1] == b.events[n - 1];
      assert EventOk(a, hash, n - 1) && EventOk(b, hash, n - 1);
      assert a.events[n - 1].body == b.events[n - 1].body;
      PrefixesAgree(a, b, hash, n - 1);
      assert a.events[..n] == a.events[..n - 1] + [a.events[n - 1]];
      assert b.events[..n] == b.events[..n - 1] + [b.events[n - 1]];
    }
  }

  /** The final digest of a valid run determines its whole history. */
  lemma FinalDigestDeterminesHistory(a: Run, b: Run, hash: Hash)
    requires Injective(hash) && ValidRun(a, hash) && ValidRun(b, hash)
    requires LastDigest(a.events) == LastDigest(b.events)
    ensures a.events == b.events
  {
    if a.events != [] {
      var m, n := |a.events|, |b.events|;
      assert EventOk(a, hash, m - 1) && EventOk(b, hash, n - 1);
      assert a.events[m - 1].body == b.events[n - 1].body;
      assert a.events[..m] == a.events && b.events[..m] == b.events;
      PrefixesAgree(a, b, hash, m);
    }
  }

  // ---------------------------------------------------------------- receipts

  datatype Receipt = Receipt(version: string, runId: string, projectId: string, releaseVersion: string,
                             contractDigest: string, testedSha: Option<string>,
                             deployedSha: Option<string>, goldenPath: seq<string>, finalEventDigest: Option<string>,
                             shippedAt: nat)

  datatype SealedReceipt = SealedReceipt(receipt: Receipt, receiptDigest: string)

  method BuildReleaseReceipt(run: Run, goldenPath: seq<string>, hash: Hash, seal: Receipt -> string)
    returns (r: Result<SealedReceipt, string>)
    ensures r.Success? <==> ValidRun(run, hash) && run.state == "SHIPPED" && goldenPath != []
    ensures r.Success? ==>
              && r.value.receiptDigest == seal(r.value.receipt)
              && r.value.receipt.version == RECEIPT_VERSION
              && r.value.receipt.finalEventDigest == LastDigest(run.events)
              && r.value.receipt.testedSha == run.testedSha && r.value.receipt.deployedSha == run.deployedSha
              && r.value.receipt.goldenPath == goldenPath && r.value.receipt.shippedAt == run.updatedAt
              && r.value.receipt.runId == run.runId && r.value.receipt.contractDigest == run.contractDigest
              && r.value.receipt.projectId == run.projectId && r.value.receipt.releaseVersion == run.releaseVersion
  {
    var problems := VerifyShippingRun(run, hash);
    if problems != [] { return Failure("shipping_run_invalid"); }
    if run.state != "SHIPPED" { return Failure("shipping_release_not_shipped"); }
    if goldenPath == [] { return Failure("shipping_release_golden_path_required"); }
    var receipt := Receipt(RECEIPT_VERSION, run.runId, run.projectId, run.releaseVersion, run.contractDigest,
                           run.testedSha, run.deployedSha, goldenPath, LastDigest(run.events), run.updatedAt);
    return Success(SealedReceipt(receipt, seal(receipt)));
  }

  function VerifyReleaseReceipt(r: SealedReceipt, seal: Receipt -> string): bool {
    r.receipt.version == RECEIPT_VERSION && seal(r.receipt) == r.receiptDigest
  }

  /** A receipt digest pins down the receipt, and through it the history of the run it was issued for. */
  lemma ReceiptDeterminesHistory(a: Run, b: Run, ra: SealedReceipt, rb: SealedReceipt, hash: Hash,
                                 seal: Receipt -> string)
    requires Injective(hash) && Injective(seal) && ValidRun(a, hash) && ValidRun(b, hash)
    requires VerifyReleaseReceipt(ra, seal) && VerifyReleaseReceipt(rb, seal) && ra.receiptDigest == rb.receiptDigest
    requires ra.receipt.finalEventDigest == LastDigest(a.events) && rb.receipt.finalEventDigest == LastDigest(b.events)
    ensures ra == rb && a.events == b.events
  {
    FinalDigestDeterminesHistory(a, b, hash);
  }

  // ---------------------------------------------------------------- restart

  predicate Terminal(state: string) {
    state in {"SHIPPED", "FAILED", "BLOCKED", "CANCELLED"}
  }

  function ReconcileOnStartup(run: Run, hash: Hash, at: nat): Result<Run, string> {
    if Terminal(run.state) then Success(run)
    else Append(run, hash, "run.reconciled", "INTERRUPTED", at, Some("restart_from:" + run.state), "{}")
  }

  /** A restart keeps the chain valid, extends the history at most by its own event, and never fabricates success. */
  lemma RestartIsHonest(run: Run, hash: Hash, at: nat)
    requires ValidRun(run, hash)
    ensures var r := ReconcileOnStartup(run, hash, at);
            && r.Success? && ValidRun(r.value, hash)
            && run.events <= r.value.events && |r.value.events| <= |run.events| + 1
            && (r.value.state == "SHIPPED" <==> run.state == "SHIPPED")
            && (run.state in {"SHIPPED", "FAILED", "BLOCKED", "CANCELLED"} ==> r.value == run)
            && (run.state !in {"SHIPPED", "FAILED", "BLOCKED", "CANCELLED"} ==>
                  && r.value.state == "INTERRUPTED" && |r.value.events| == |run.events| + 1
                  && r.value.events[|run.events|].body.message == Some("restart_from:" + run.state))
  {
    assert 'r' in "run.reconciled";
    AppendedKeepsValid(run, hash, "run.reconciled", "INTERRUPTED", at, Some("restart_from:" + run.state), "{}");
  }
}
