/**
 Capability installs of packages/capability-fabric/src/runtime.js: a plan overwrites files under a
 target root after backing them up, and a rollback undoes it. The file system below the root is a
 map from paths to contents; a digest is a content in a wrapper.
 */
module CapabilityInstall {
  import opened Options

  type Path = seq<string>
  type Bytes = string
  type Files = map<Path, Bytes>

  datatype Digest = Sha256(of: Bytes)

  datatype File = File(path: Path, content: Bytes)

  datatype Plan = Plan(installId: string, files: seq<File>)

  datatype Previous = Previous(backupPath: Path, digest: Digest)

  datatype Operation = Operation(path: Path, installed: Digest, previous: Option<Previous>)

  datatype Error =
    | WriteNotApproved
    | TargetDrifted(path: Path)
    | BackupMissing(path: Path)
    | BackupDigestMismatch(path: Path)

  const BACKUPS: Path := [".agent-work-os", "capability-backups"]
  const RECEIPT: Path := ["install-receipt.json"]

  function BackupRoot(installId: string): Path {
    BACKUPS + [installId]
  }

  function Get(fs: Files, p: Path): Option<Bytes> {
    if p in fs then Some(fs[p]) else None
  }

  // ---------------------------------------------------------------- applyInstallPlan

  function OperationFor(fs: Files, installId: string, f: File): Operation {
    Operation(f.path, Sha256(f.content),
              if f.path in fs then Some(Previous(BackupRoot(installId) + f.path, Sha256(fs[f.path]))) else None)
  }

  function Installed(fs: Files, installId: string, f: File): Files {
    (if f.path in fs then fs[BackupRoot(installId) + f.path := fs[f.path]] else fs)[f.path := f.content]
  }

  function AllInstalled(fs: Files, installId: string, files: seq<File>): Files {
    if files == [] then fs
    else Installed(AllInstalled(fs, installId, files[..|files| - 1]), installId, files[|files| - 1])
  }

  function Operations(fs: Files, installId: string, files: seq<File>): (ops: seq<Operation>)
    ensures |ops| == |files|
  {
    if files == [] then [] else
    var before := files[..|files| - 1];
    var op := OperationFor(AllInstalled(fs, installId, before), installId, files[|files| - 1]);
    Operations(fs, installId, before) + [op]
  }

  /** The receipt is written beside the backups, under a name a backup may have too. */
  function Applied(fs: Files, plan: Plan, receiptText: Bytes): Files {
    AllInstalled(fs, plan.installId, plan.files)[BackupRoot(plan.installId) + RECEIPT := receiptText]
  }

  // ---------------------------------------------------------------- rollbackInstall

  predicate Drifted(fs: Files, op: Operation) {
    op.path in fs && Sha256(fs[op.path]) != op.installed
  }

  function Undone(fs: Files, op: Operation, force: bool): Result<Files, Error> {
    if !force && Drifted(fs, op) then Failure(TargetDrifted(op.path))
    else if op.previous.None? then Success(fs - {op.path})
    else
      var backup := op.previous.value;
      if backup.backupPath !in fs then Failure(BackupMissing(op.path))
      else if !force && Sha256(fs[backup.backupPath]) != backup.digest then Failure(BackupDigestMismatch(op.path))
      else Success(fs[op.path := fs[backup.backupPath]])
  }

  /** The files afterwards, and the error the rollback stopped with. */
  function RolledBack(fs: Files, ops: seq<Operation>, force: bool): (Files, Option<Error>)
    decreases |ops|
  {
    if ops == [] then (fs, None) else
    var undone := Undone(fs, ops[|ops| - 1], force);
    if undone.Failure? then (fs, Some(undone.error)) else RolledBack(undone.value, ops[..|ops| - 1], force)
  }

  /** The operations of an install write outside the backups, and their backups lie inside. */
  predicate Separate(ops: seq<Operation>) {
    forall op <- ops :: !InBackups(op.path) && (op.previous.Some? ==> InBackups(op.previous.value.backupPath))
  }

  /** A forced rollback looks at no digest: it succeeds exactly when the backups it needs are there. */
  lemma {:induction false} ForcedRollbackSucceeds(fs: Files, ops: seq<Operation>)
    requires Separate(ops)
    ensures RolledBack(fs, ops, true).1.None? <==>
            forall op <- ops :: op.previous.Some? ==> op.previous.value.backupPath in fs
    decreases |ops|
  {
    if ops != [] {
      var op, before := ops[|ops| - 1], ops[..|ops| - 1];
      assert op in ops && forall q :: q in ops <==> q == op || q in before;
      var undone := Undone(fs, op, true);
      if undone.Success? { ForcedRollbackSucceeds(undone.value, before); }
    }
  }

  // ---------------------------------------------------------------- the running code

  class TargetRoot {
    var files: Files

    constructor (files: Files)
      ensures this.files == files
    {
      this.files := files;
    }

    method ApplyInstallPlan(plan: Plan, approveWrite: bool, receiptText: Bytes)
      returns (r: Result<seq<Operation>, Error>)
      modifies this
      ensures !approveWrite ==> r == Failure(WriteNotApproved) && files == old(files)
      ensures approveWrite ==> r == Success(Operations(old(files), plan.installId, plan.files))
                               && files == Applied(old(files), plan, receiptText)
    {
      if !approveWrite { return Failure(WriteNotApproved); }
      var backupRoot := BackupRoot(plan.installId);
      var operations := [];
      for i := 0 to |plan.files|
        invariant files == AllInstalled(old(files), plan.installId, plan.files[..i])
        invariant operations == Operations(old(files), plan.installId, plan.files[..i])
      {
        var file := plan.files[i];
        assert plan.files[..i + 1][..i] == plan.files[..i];
        var previous := None;
        if file.path in files {
          var backupPath := backupRoot + file.path;
          previous := Some(Previous(backupPath, Sha256(files[file.path])));
          files := files[backupPath := files[file.path]];
        }
        files := files[file.path := file.content];
        operations := operations + [Operation(file.path, Sha256(files[file.path]), previous)];
      }
      assert plan.files[..|plan.files|] == plan.files;
      files := files[backupRoot + RECEIPT := receiptText];
      return Success(operations);
    }

    method RollbackInstall(operations: seq<Operation>, force: bool) returns (error: Option<Error>)
      modifies this
      ensures (files, error) == RolledBack(old(files), operations, force)
    {
      assert operations[..|operations|] == operations;
      for i := |operations| downto 0
        invariant RolledBack(files, operations[..i], force) == RolledBack(old(files), operations, force)
      {
        var operation := operations[i];
        assert operations[..i + 1][..i] == operations[..i];
        if !force && operation.path in files && Sha256(files[operation.path]) != operation.installed {
          return Some(TargetDrifted(operation.path));
        }
        if operation.previous.Some? {
          var backupPath := operation.previous.value.backupPath;
          if backupPath !in files { return Some(BackupMissing(operation.path)); }
          var contents := files[backupPath];
          if !force && Sha256(contents) != operation.previous.value.digest {
            return Some(BackupDigestMismatch(operation.path));
          }
          files := files[operation.path := contents];
        } else {
          files := files - {operation.path};
        }
      }
      return None;
    }
  }

  // ---------------------------------------------------------------- undoing one install

  predicate InBackups(p: Path) {
    BACKUPS <= p
  }

  predicate OutsideBackups(files: seq<File>) {
    forall i :: 0 <= i < |files| ==> !InBackups(files[i].path)
  }

  /** Everything but the backups is the same, absence included. */
  ghost predicate SameOutside(a: Files, b: Files) {
    forall p: Path :: !InBackups(p) ==> Get(a, p) == Get(b, p)
  }

  ghost predicate SameInside(a: Files, b: Files) {
    forall p: Path :: InBackups(p) ==> Get(a, p) == Get(b, p)
  }

  lemma SlotIsInside(installId: string, p: Path)
    ensures InBackups(BackupRoot(installId) + p)
  {
  }

  lemma SlotsDiffer(a: string, p: Path, b: string, q: Path)
    ensures BackupRoot(a) + p == BackupRoot(b) + q <==> a == b && p == q
  {
    var s, t := BackupRoot(a) + p, BackupRoot(b) + q;
    assert s[2] == a && t[2] == b && s[3..] == p && t[3..] == q;
  }

  /** What is at a path once these files are written. */
  function Current(fs: Files, files: seq<File>, p: Path): Option<Bytes> {
    if files == [] then Get(fs, p)
    else if files[|files| - 1].path == p then Some(files[|files| - 1].content)
    else Current(fs, files[..|files| - 1], p)
  }

  lemma {:induction false} InstalledIsCurrent(fs: Files, installId: string, files: seq<File>, p: Path)
    requires !InBackups(p)
    ensures Get(AllInstalled(fs, installId, files), p) == Current(fs, files, p)
  {
    if files != [] {
      var before, f := files[..|files| - 1], files[|files| - 1];
      InstalledIsCurrent(fs, installId, before, p);
      SlotIsInside(installId, f.path);
    }
  }

  predicate Writes(files: seq<File>, p: Path) {
    exists f <- files :: f.path == p
  }

  function LastOf(files: seq<File>, p: Path): (i: nat)
    requires Writes(files, p)
    ensures i < |files| && files[i].path == p && forall j :: i < j < |files| ==> files[j].path != p
  {
    if files[|files| - 1].path == p then |files| - 1 else LastOf(files[..|files| - 1], p)
  }

  /** The backup of a path is what was there before its last write. */
  lemma {:induction false} BackupIsLastBefore(fs: Files, installId: string, files: seq<File>, p: Path)
    requires OutsideBackups(files) && Writes(files, p)
    ensures var before := Current(fs, files[..LastOf(files, p)], p);
            before.Some? ==> Get(AllInstalled(fs, installId, files), BackupRoot(installId) + p) == before
  {
    var before, f := files[..|files| - 1], files[|files| - 1];
    SlotsDiffer(installId, p, installId, f.path);
    SlotIsInside(installId, p);
    assert f.path != BackupRoot(installId) + p;
    if f.path == p {
      InstalledIsCurrent(fs, installId, before, p);
    } else {
      assert Writes(before, p);
      BackupIsLastBefore(fs, installId, before, p);
      assert files[..LastOf(before, p)] == before[..LastOf(before, p)];
    }
  }

  /** A backup is not overwritten with something else: by a later write of the same path or by the receipt. */
  predicate Kept(fs: Files, files: seq<File>, receiptText: Bytes, i: nat)
    requires i < |files|
  {
    var p := files[i].path;
    var previous := Current(fs, files[..i], p);
    previous.Some? ==>
      && (p == RECEIPT ==> previous.value == receiptText)
      && (forall j :: i < j < |files| && files[j].path == p ==> Current(fs, files[..j], p) == previous)
  }

  /** What a caller can check before the call: it looks only at the plan and the files it finds. */
  predicate BackupsSurvive(fs: Files, files: seq<File>, receiptText: Bytes) {
    forall i :: 0 <= i < |files| ==> Kept(fs, files, receiptText, i)
  }

  /** After the install, the backup of write i holds what was there before it. */
  ghost predicate Holds(fs: Files, plan: Plan, receiptText: Bytes, i: nat)
    requires i < |plan.files|
  {
    var p := plan.files[i].path;
    var previous := Current(fs, plan.files[..i], p);
    previous.Some? ==> Get(Applied(fs, plan, receiptText), BackupRoot(plan.installId) + p) == previous
  }

  lemma {:induction false} WrittenStays(fs: Files, files: seq<File>, i: nat, j: nat, p: Path)
    requires i <= j <= |files| && Current(fs, files[..i], p).Some?
    ensures Current(fs, files[..j], p).Some?
  {
    if i < j {
      WrittenStays(fs, files, i, j - 1, p);
      assert files[..j][..j - 1] == files[..j - 1];
    }
  }

  lemma FinalBackup(fs: Files, plan: Plan, receiptText: Bytes, i: nat)
    requires OutsideBackups(plan.files) && i < |plan.files| && Current(fs, plan.files[..i], plan.files[i].path).Some?
    ensures Writes(plan.files, plan.files[i].path) && LastOf(plan.files, plan.files[i].path) >= i
    ensures var p := plan.files[i].path;
            Get(Applied(fs, plan, receiptText), BackupRoot(plan.installId) + p) ==
            if p == RECEIPT then Some(receiptText) else Current(fs, plan.files[..LastOf(plan.files, p)], p)
  {
    var p := plan.files[i].path;
    assert plan.files[i] in plan.files;
    SlotsDiffer(plan.installId, p, plan.installId, RECEIPT);
    WrittenStays(fs, plan.files, i, LastOf(plan.files, p), p);
    BackupIsLastBefore(fs, plan.installId, plan.files, p);
  }

  lemma SurvivingBackupsHold(fs: Files, plan: Plan, receiptText: Bytes)
    requires OutsideBackups(plan.files)
    ensures BackupsSurvive(fs, plan.files, receiptText) <==>
            forall i :: 0 <= i < |plan.files| ==> Holds(fs, plan, receiptText, i)
  {
    hide Current, Applied, LastOf;
    var files := plan.files;
    forall i | 0 <= i < |files| && Current(fs, files[..i], files[i].path).Some?
      ensures Kept(fs, files, receiptText, i) ==> Holds(fs, plan, receiptText, i)
      ensures (forall k :: 0 <= k < |files| ==> Holds(fs, plan, receiptText, k)) ==> Kept(fs, files, receiptText, i)
    {
      FinalBackup(fs, plan, receiptText, i);
      forall j | i < j < |files| && files[j].path == files[i].path
        ensures Current(fs, files[..j], files[i].path).Some?
      {
        WrittenStays(fs, files, i, j, files[i].path);
      }
      assert forall k :: 0 <= k < |files| ==> (Holds(fs, plan, receiptText, k) ==>
        (Current(fs, files[..k], files[k].path).Some? ==>
           Get(Applied(fs, plan, receiptText), BackupRoot(plan.installId) + files[k].path) ==
               Current(fs, files[..k], files[k].path)));
    }
  }

  // ---------------------------------------------------------------- rolling back right away

  /** The backups of one install are the same. */
  ghost predicate SameBackups(a: Files, b: Files, installId: string) {
    forall p: Path :: Get(a, BackupRoot(installId) + p) == Get(b, BackupRoot(installId) + p)
  }

  lemma OperationsStep(fs: Files, installId: string, files: seq<File>, k: nat)
    requires 0 < k <= |files|
    ensures var ops := Operations(fs, installId, files[..k]);
            && ops[..k - 1] == Operations(fs, installId, files[..k - 1])
            && ops[k - 1] == OperationFor(AllInstalled(fs, installId, files[..k - 1]), installId, files[k - 1])
    ensures AllInstalled(fs, installId, files[..k]) ==
            Installed(AllInstalled(fs, installId, files[..k - 1]), installId, files[k - 1])
  {
    assert files[..k][..k - 1] == files[..k - 1];
  }

  /** Undoing the last write brings back the state before it, exactly when its backup holds. */
  lemma UndoLast(fs: Files, plan: Plan, receiptText: Bytes, k: nat, cur: Files)
    requires OutsideBackups(plan.files) && 0 < k <= |plan.files|
    requires SameOutside(cur, AllInstalled(fs, plan.installId, plan.files[..k]))
    requires SameBackups(cur, Applied(fs, plan, receiptText), plan.installId)
    ensures var before := AllInstalled(fs, plan.installId, plan.files[..k - 1]);
            var undone := Undone(cur, OperationFor(before, plan.installId, plan.files[k - 1]), false);
            && (undone.Success? <==> Holds(fs, plan, receiptText, k - 1))
            && (undone.Success? ==> SameOutside(undone.value, before) && SameInside(undone.value, cur))
  {
    var f := plan.files[k - 1];
    var before := AllInstalled(fs, plan.installId, plan.files[..k - 1]);
    OperationsStep(fs, plan.installId, plan.files, k);
    InstalledIsCurrent(fs, plan.installId, plan.files[..k - 1], f.path);
    SlotIsInside(plan.installId, f.path);
    assert Get(cur, f.path) == Some(f.content);
    if f.path in before {
      FinalBackup(fs, plan, receiptText, k - 1);
      WrittenStays(fs, plan.files, k - 1, LastOf(plan.files, f.path), f.path);
    }
    hide Applied, AllInstalled, Current, LastOf, Operations;
    UndoneOutside(cur, before, plan.installId, f);
  }

  lemma UndoneOutside(cur: Files, before: Files, installId: string, f: File)
    requires !InBackups(f.path) && SameOutside(cur, Installed(before, installId, f))
    ensures var backup := Get(cur, BackupRoot(installId) + f.path);
            var undone := Undone(cur, OperationFor(before, installId, f), false);
            && (f.path in before ==> (undone.Success? <==> backup == Some(before[f.path])))
            && (f.path !in before ==> undone.Success?)
            && (undone.Success? ==> SameOutside(undone.value, before) && SameInside(undone.value, cur))
  {
  }

  lemma InsideIsTransitive(a: Files, b: Files, c: Files)
    requires SameInside(a, b) && SameInside(b, c)
    ensures SameInside(a, c)
  {
  }

  lemma InsideKeepsBackups(a: Files, b: Files, c: Files, installId: string)
    requires SameInside(a, b) && SameBackups(b, c, installId)
    ensures SameBackups(a, c, installId)
  {
  }

  lemma RolledBackStep(cur: Files, ops: seq<Operation>, force: bool)
    requires ops != []
    ensures var undone := Undone(cur, ops[|ops| - 1], force);
            RolledBack(cur, ops, force) ==
            if undone.Failure? then (cur, Some(undone.error)) else RolledBack(undone.value, ops[..|ops| - 1], force)
  {
  }

  lemma NothingToUndo(fs: Files, plan: Plan, cur: Files)
    ensures RolledBack(cur, Operations(fs, plan.installId, plan.files[..0]), false) == (cur, None)
    ensures AllInstalled(fs, plan.installId, plan.files[..0]) == fs && SameInside(cur, cur)
  {
  }

  lemma NothingMoves(cur: Files)
    ensures SameInside(cur, cur)
  {
  }

  lemma {:induction false} RollbackFrom(fs: Files, plan: Plan, receiptText: Bytes, k: nat, cur: Files)
    requires OutsideBackups(plan.files) && k <= |plan.files|
    requires SameOutside(cur, AllInstalled(fs, plan.installId, plan.files[..k]))
    requires SameBackups(cur, Applied(fs, plan, receiptText), plan.installId)
    ensures var (after, error) := RolledBack(cur, Operations(fs, plan.installId, plan.files[..k]), false);
            && SameInside(after, cur)
            && (error.None? <==> forall i :: 0 <= i < k ==> Holds(fs, plan, receiptText, i))
            && (error.None? ==> SameOutside(after, fs))
    decreases k
  {
    hide AllInstalled, Operations, OperationFor, Undone, Applied, Holds, SameOutside, SameInside, SameBackups,
         OutsideBackups, RolledBack;
    if k == 0 {
      NothingToUndo(fs, plan, cur);
    } else {
      UndoLast(fs, plan, receiptText, k, cur);
      OperationsStep(fs, plan.installId, plan.files, k);
      var before := AllInstalled(fs, plan.installId, plan.files[..k - 1]);
      var undone := Undone(cur, OperationFor(before, plan.installId, plan.files[k - 1]), false);
      RolledBackStep(cur, Operations(fs, plan.installId, plan.files[..k]), false);
      NothingMoves(cur);
      if undone.Success? {
        InsideKeepsBackups(undone.value, cur, Applied(fs, plan, receiptText), plan.installId);
        RollbackFrom(fs, plan, receiptText, k - 1, undone.value);
        InsideIsTransitive(RolledBack(undone.value, Operations(fs, plan.installId, plan.files[..k - 1]), false).0,
                           undone.value, cur);
      }
    }
  }

  lemma ReceiptIsInside(fs: Files, plan: Plan, receiptText: Bytes)
    ensures SameOutside(Applied(fs, plan, receiptText), AllInstalled(fs, plan.installId, plan.files))
  {
  }

  /**
   Rolling an install back restores every file outside the backups, absence included, exactly when no backup is
   overwritten with something else; otherwise it stops with an error.
   */
  lemma RollbackRestores(fs: Files, plan: Plan, receiptText: Bytes)
    requires OutsideBackups(plan.files)
    ensures var (after, error) := RolledBack(Applied(fs, plan, receiptText),
                                             Operations(fs, plan.installId, plan.files), false);
            && (error.None? <==> BackupsSurvive(fs, plan.files, receiptText))
            && (error.None? ==> SameOutside(after, fs))
  {
    var all := plan.files[..|plan.files|];
    assert all == plan.files;
    SurvivingBackupsHold(fs, plan, receiptText);
    ReceiptIsInside(fs, plan, receiptText);
    hide Applied, AllInstalled, Operations, RolledBack, BackupsSurvive, Holds;
    RollbackFrom(fs, plan, receiptText, |plan.files|, Applied(fs, plan, receiptText));
  }

  /** Different paths, none named like the receipt. */
  predicate Plain(files: seq<File>) {
    && (forall i, j :: 0 <= i < j < |files| ==> files[i].path != files[j].path)
    && (forall i :: 0 <= i < |files| ==> files[i].path != RECEIPT)
  }

  lemma PlainPlansSurvive(fs: Files, files: seq<File>, receiptText: Bytes)
    requires Plain(files)
    ensures BackupsSurvive(fs, files, receiptText)
  {
  }

  /** A file called install-receipt.json loses its backup to the receipt; the rollback then leaves it overwritten. */
  lemma ReceiptNameLosesBackup(fs: Files, installId: string, content: Bytes, receiptText: Bytes)
    requires RECEIPT in fs && fs[RECEIPT] != receiptText
    ensures var plan := Plan(installId, [File(RECEIPT, content)]);
            var (after, error) := RolledBack(Applied(fs, plan, receiptText), Operations(fs, installId, plan.files),
                                             false);
            error.Some? && Get(after, RECEIPT) == Some(content)
  {
  }

  // ---------------------------------------------------------------- a stack of installs

  datatype Install = Install(plan: Plan, receiptText: Bytes)

  /** Apply the installs in order, then roll them back in reverse order. */
  function Unwound(fs: Files, installs: seq<Install>): (Files, Option<Error>)
    decreases |installs|
  {
    if installs == [] then (fs, None) else
    var plan := installs[0].plan;
    var (mid, error) := Unwound(Applied(fs, plan, installs[0].receiptText), installs[1..]);
    if error.Some? then (mid, error) else RolledBack(mid, Operations(fs, plan.installId, plan.files), false)
  }

  /** Each install, when its turn comes, keeps its backups. */
  predicate AllSurvive(fs: Files, installs: seq<Install>)
    decreases |installs|
  {
    installs == [] ||
    (&& BackupsSurvive(fs, installs[0].plan.files, installs[0].receiptText)
     && AllSurvive(Applied(fs, installs[0].plan, installs[0].receiptText), installs[1..]))
  }

  ghost predicate StackOk(installs: seq<Install>) {
    && (forall i :: 0 <= i < |installs| ==> OutsideBackups(installs[i].plan.files))
    && (forall i, j :: 0 <= i < j < |installs| ==> installs[i].plan.installId != installs[j].plan.installId)
  }

  lemma {:induction false} InstallKeepsOthersBackups(fs: Files, installId: string, files: seq<File>, other: string)
    requires OutsideBackups(files) && other != installId
    ensures SameBackups(AllInstalled(fs, installId, files), fs, other)
  {
    if files != [] {
      var before, f := files[..|files| - 1], files[|files| - 1];
      InstallKeepsOthersBackups(fs, installId, before, other);
      forall p: Path
        ensures Get(AllInstalled(fs, installId, files), BackupRoot(other) + p) == Get(fs, BackupRoot(other) + p)
      {
        SlotsDiffer(other, p, installId, f.path);
        SlotIsInside(other, p);
      }
    }
  }

  lemma ApplyKeepsOthersBackups(fs: Files, plan: Plan, receiptText: Bytes, other: string)
    requires OutsideBackups(plan.files) && other != plan.installId
    ensures SameBackups(Applied(fs, plan, receiptText), fs, other)
  {
    InstallKeepsOthersBackups(fs, plan.installId, plan.files, other);
    hide AllInstalled;
    forall p: Path
      ensures Get(Applied(fs, plan, receiptText), BackupRoot(other) + p) == Get(fs, BackupRoot(other) + p)
    {
      SlotsDiffer(other, p, plan.installId, RECEIPT);
    }
  }

  lemma {:induction false} UnwindKeepsOthersBackups(fs: Files, installs: seq<Install>, other: string)
    requires StackOk(installs) && (forall i :: 0 <= i < |installs| ==> installs[i].plan.installId != other)
    requires AllSurvive(fs, installs)
    ensures Unwound(fs, installs).1.None? && SameOutside(Unwound(fs, installs).0, fs)
    ensures SameBackups(Unwound(fs, installs).0, fs, other)
    decreases |installs|
  {
    if installs != [] {
      var plan, text, rest := installs[0].plan, installs[0].receiptText, installs[1..];
      var applied := Applied(fs, plan, text);
      assert StackOk(rest);
      UnwindKeepsOthersBackups(applied, rest, other);
      UnwindKeepsOthersBackups(applied, rest, plan.installId);
      var mid := Unwound(applied, rest).0;
      UnwindFirst(fs, plan, text, mid);
      ApplyKeepsOthersBackups(fs, plan, text, other);
      var after := RolledBack(mid, Operations(fs, plan.installId, plan.files), false).0;
      hide Applied, Operations, RolledBack, Unwound, AllSurvive, OutsideBackups, SameOutside;
      InsideKeepsBackups(after, mid, applied, other);
    }
  }

  /** The first install is rolled back from a state like the one it left. */
  lemma UnwindFirst(fs: Files, plan: Plan, receiptText: Bytes, mid: Files)
    requires OutsideBackups(plan.files) && BackupsSurvive(fs, plan.files, receiptText)
    requires SameOutside(mid, Applied(fs, plan, receiptText))
    requires SameBackups(mid, Applied(fs, plan, receiptText), plan.installId)
    ensures var (after, error) := RolledBack(mid, Operations(fs, plan.installId, plan.files), false);
            error.None? && SameOutside(after, fs) && SameInside(after, mid)
  {
    assert plan.files[..|plan.files|] == plan.files;
    SurvivingBackupsHold(fs, plan, receiptText);
    ReceiptIsInside(fs, plan, receiptText);
    hide Applied, AllInstalled, Operations, RolledBack, BackupsSurvive, Holds;
    RollbackFrom(fs, plan, receiptText, |plan.files|, mid);
  }

  /**
   Installs unwind like a stack: any sequence of installs with different ids, rolled back in reverse, restores
   every file outside the backups byte for byte, absence included.
   */
  lemma InstallsUnwind(fs: Files, installs: seq<Install>)
    requires StackOk(installs) && forall i :: 0 <= i < |installs| ==> Plain(installs[i].plan.files)
    ensures Unwound(fs, installs).1.None? && SameOutside(Unwound(fs, installs).0, fs)
  {
    PlainStacksSurvive(fs, installs);
    var other := Unused(installs);
    UnwindKeepsOthersBackups(fs, installs, other);
  }

  lemma {:induction false} PlainStacksSurvive(fs: Files, installs: seq<Install>)
    requires forall i :: 0 <= i < |installs| ==> Plain(installs[i].plan.files)
    ensures AllSurvive(fs, installs)
    decreases |installs|
  {
    if installs != [] {
      PlainPlansSurvive(fs, installs[0].plan.files, installs[0].receiptText);
      PlainStacksSurvive(Applied(fs, installs[0].plan, installs[0].receiptText), installs[1..]);
    }
  }

  /** Some id no install has: longer than all of them. */
  function Unused(installs: seq<Install>): (id: string)
    ensures forall i :: 0 <= i < |installs| ==> |installs[i].plan.installId| < |id|
  {
    if installs == [] then "x" else Unused(installs[1..]) + installs[0].plan.installId + "x"
  }

  // ---------------------------------------------------------------- rolling back after changes

  /** How many leading files a rollback leaves alone: it stops at the last one that has drifted. */
  function StopsAt(cur: Files, files: seq<File>, force: bool): (stop: nat)
    ensures stop <= |files|
  {
    if files == [] || force then 0 else
    var f := files[|files| - 1];
    if f.path in cur && cur[f.path] != f.content then |files| else StopsAt(cur, files[..|files| - 1], force)
  }

  /** Files from position `stop` on are back as they were; all others are as they are now. */
  ghost predicate RestoredFrom(after: Files, fs: Files, cur: Files, files: seq<File>, stop: nat)
    requires stop <= |files|
  {
    forall p: Path :: !InBackups(p) ==> Get(after, p) == if Writes(files[stop..], p) then Get(fs, p) else Get(cur, p)
  }

  lemma NotWrittenBefore(files: seq<File>, i: nat)
    requires Plain(files) && i < |files|
    ensures !Writes(files[..i], files[i].path)
  {
  }

  lemma {:induction false} FirstWriteFindsOriginal(fs: Files, files: seq<File>, p: Path)
    requires !Writes(files, p)
    ensures Current(fs, files, p) == Get(fs, p)
  {
    if files != [] {
      assert files[|files| - 1] in files;
      FirstWriteFindsOriginal(fs, files[..|files| - 1], p);
    }
  }

  /** With plain paths each backup holds the original. */
  lemma BackupHoldsOriginal(fs: Files, plan: Plan, receiptText: Bytes, i: nat)
    requires OutsideBackups(plan.files) && Plain(plan.files) && i < |plan.files|
    ensures var p := plan.files[i].path;
            var before := AllInstalled(fs, plan.installId, plan.files[..i]);
            && Get(before, p) == Get(fs, p)
            && (p in fs ==> Get(Applied(fs, plan, receiptText), BackupRoot(plan.installId) + p) == Get(fs, p))
  {
    var p := plan.files[i].path;
    NotWrittenBefore(plan.files, i);
    FirstWriteFindsOriginal(fs, plan.files[..i], p);
    InstalledIsCurrent(fs, plan.installId, plan.files[..i], p);
    PlainPlansSurvive(fs, plan.files, receiptText);
    SurvivingBackupsHold(fs, plan, receiptText);
    assert Holds(fs, plan, receiptText, i);
    hide Applied, AllInstalled;
  }

  /** One undo, whatever has happened to the file, puts the original back, unless drift stops it. */
  lemma UndoOne(fs: Files, plan: Plan, receiptText: Bytes, k: nat, cur: Files, force: bool)
    requires OutsideBackups(plan.files) && Plain(plan.files) && 0 < k <= |plan.files|
    requires SameBackups(cur, Applied(fs, plan, receiptText), plan.installId)
    ensures var f := plan.files[k - 1];
            var undone := Undone(cur, Operations(fs, plan.installId, plan.files[..k])[k - 1], force);
            && (undone.Failure? <==> !force && f.path in cur && cur[f.path] != f.content)
            && (undone.Failure? ==> undone.error == TargetDrifted(f.path))
            && (undone.Success? ==> undone.value == if f.path in fs then cur[f.path := fs[f.path]] else cur - {f.path})
  {
    var f := plan.files[k - 1];
    BackupHoldsOriginal(fs, plan, receiptText, k - 1);
    OperationsStep(fs, plan.installId, plan.files, k);
    hide AllInstalled, Applied, Operations;
    assert Get(cur, BackupRoot(plan.installId) + f.path) ==
           Get(Applied(fs, plan, receiptText), BackupRoot(plan.installId) + f.path);
  }

  lemma RestoredOneMore(after: Files, fs: Files, cur: Files, files: seq<File>, k: nat, stop: nat)
    requires Plain(files) && 0 < k <= |files| && stop < k
    requires var f := files[k - 1];
             RestoredFrom(after, fs, if f.path in fs then cur[f.path := fs[f.path]] else cur - {f.path},
                          files[..k - 1], stop)
    ensures RestoredFrom(after, fs, cur, files[..k], stop)
  {
    var f := files[k - 1];
    assert files[..k][stop..] == files[..k - 1][stop..] + [f];
    forall p: Path | !InBackups(p)
      ensures Get(after, p) == if Writes(files[..k][stop..], p) then Get(fs, p) else Get(cur, p)
    {
      assert Writes(files[..k][stop..], p) <==> Writes(files[..k - 1][stop..], p) || f.path == p by {
        if Writes(files[..k - 1][stop..], p) {
          var g :| g in files[..k - 1][stop..] && g.path == p;
          assert g in files[..k][stop..];
        }
        assert f in files[..k][stop..];
      }
    }
  }

  /** Restoring one file leaves the others as drifted as they were. */
  lemma {:induction false} StopUnaffected(cur: Files, next: Files, files: seq<File>, p: Path, force: bool)
    requires forall q: Path :: q != p ==> Get(cur, q) == Get(next, q)
    requires !Writes(files, p)
    ensures StopsAt(cur, files, force) == StopsAt(next, files, force)
  {
    if files != [] && !force {
      var f := files[|files| - 1];
      assert f in files && f.path != p;
      assert Get(cur, f.path) == Get(next, f.path);
      StopUnaffected(cur, next, files[..|files| - 1], p, force);
    }
  }

  lemma StopsAtStep(cur: Files, files: seq<File>, k: nat, force: bool)
    requires 0 < k <= |files|
    ensures var f := files[k - 1];
            StopsAt(cur, files[..k], force) ==
            if !force && f.path in cur && cur[f.path] != f.content then k else StopsAt(cur, files[..k - 1], force)
  {
    assert files[..k][..k - 1] == files[..k - 1];
    if force {
      assert StopsAt(cur, files[..k - 1], force) == 0;
    }
  }

  /**
   A rollback after any changes outside the backups: it stops at the last file of the plan that has drifted,
   having restored exactly the files after it and touched nothing else. With force, or without drift, it
   restores them all.
   */
  lemma {:induction false} RollbackStopsAtDrift(fs: Files, plan: Plan, receiptText: Bytes, k: nat, cur: Files,
                                                force: bool)
    requires OutsideBackups(plan.files) && Plain(plan.files) && k <= |plan.files|
    requires SameBackups(cur, Applied(fs, plan, receiptText), plan.installId)
    ensures var (after, error) := RolledBack(cur, Operations(fs, plan.installId, plan.files[..k]), force);
            var stop := StopsAt(cur, plan.files[..k], force);
            && error == (if stop == 0 then None else Some(TargetDrifted(plan.files[stop - 1].path)))
            && RestoredFrom(after, fs, cur, plan.files[..k], stop)
    decreases k
  {
    hide AllInstalled, Operations, OperationFor, Undone, Applied, SameBackups, RestoredFrom, Writes, StopsAt;
    NothingRestored(fs, cur, plan.files[..k]);
    if k > 0 {
      var f := plan.files[k - 1];
      UndoOne(fs, plan, receiptText, k, cur, force);
      OperationsStep(fs, plan.installId, plan.files, k);
      RolledBackStep(cur, Operations(fs, plan.installId, plan.files[..k]), force);
      StopsAtStep(cur, plan.files, k, force);
      hide RolledBack;
      if force || !(f.path in cur && cur[f.path] != f.content) {
        var next := if f.path in fs then cur[f.path := fs[f.path]] else cur - {f.path};
        RestoredIsOutside(fs, plan, receiptText, cur, f);
        RollbackStopsAtDrift(fs, plan, receiptText, k - 1, next, force);
        NotWrittenBefore(plan.files, k - 1);
        StopUnaffected(cur, next, plan.files[..k - 1], f.path, force);
        var after := RolledBack(next, Operations(fs, plan.installId, plan.files[..k - 1]), force).0;
        RestoredOneMore(after, fs, cur, plan.files, k, StopsAt(cur, plan.files[..k - 1], force));
      }
    }
  }

  lemma RestoredIsOutside(fs: Files, plan: Plan, receiptText: Bytes, cur: Files, f: File)
    requires SameBackups(cur, Applied(fs, plan, receiptText), plan.installId) && !InBackups(f.path)
    ensures var next := if f.path in fs then cur[f.path := fs[f.path]] else cur - {f.path};
            && SameBackups(next, Applied(fs, plan, receiptText), plan.installId)
            && forall q: Path :: q != f.path ==> Get(cur, q) == Get(next, q)
  {
  }

  lemma NothingRestored(fs: Files, cur: Files, files: seq<File>)
    ensures RestoredFrom(cur, fs, cur, files, |files|)
  {
  }

  /**
   A rollback that stopped cannot simply be run again: it takes what it has restored itself for drift. Once the
   last file is back to an original that differs from the installed content, a second run stops there at once.
   */
  lemma StoppedRollbackDoesNotResume(fs: Files, plan: Plan, receiptText: Bytes, cur: Files)
    requires OutsideBackups(plan.files) && Plain(plan.files) && plan.files != []
    requires SameBackups(cur, Applied(fs, plan, receiptText), plan.installId)
    requires var f := plan.files[|plan.files| - 1];
             f.path in fs && fs[f.path] != f.content && Get(cur, f.path) == Get(fs, f.path)
    ensures RolledBack(cur, Operations(fs, plan.installId, plan.files), false) ==
            (cur, Some(TargetDrifted(plan.files[|plan.files| - 1].path)))
  {
  }
}
