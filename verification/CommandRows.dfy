/**
 The table agent_work_os_daemon_commands_v1 and the statements that
 services/control-api/src/daemon-command-router.js runs on it.
 */
module CommandRows {
  import opened Options
  import Receipts = CommandReceipts

  type CommandId = string
  type InstanceId = nat
  type MachineId = string

  datatype Action =
    | SessionStart(session: string)
    | SessionMessage(session: string)
    | SessionInterrupt(session: string)
    | ShippingStart(run: string)

  datatype Command = Command(id: CommandId, machine: MachineId, action: Action)

  datatype Status = Pending | Dispatching | Acked | Failed

  datatype Reconciliation = ToReconcile | Processing | Complete

  datatype Row = Row(command: Command, status: Status, owner: Option<InstanceId>, lease: Option<nat>,
                     ackError: Option<string>, recon: Reconciliation, reconOwner: Option<InstanceId>,
                     reconLease: Option<nat>, createdAt: nat, updatedAt: nat)

  type Table = map<CommandId, Row>

  // ---------------------------------------------------------------- the statements

  datatype Statement =
    | Nothing
    | Insert(command: Command, createdAt: nat)
    | ReleaseExpired
    | Claim(ids: set<CommandId>, who: InstanceId, leaseMs: nat)
    | ReturnUnsent(id: CommandId, who: InstanceId)
    | Acknowledge(id: CommandId, machine: MachineId, who: InstanceId, receipt: Receipts.Receipt, legacy: bool)
    | ReleaseReconciliations
    | ClaimReconciliations(ids: set<CommandId>, who: InstanceId, leaseMs: nat)
    | CompleteReconciliation(id: CommandId, who: InstanceId)
    | ReturnLeases(who: InstanceId)
    | ReturnReconciliations(who: InstanceId)

  predicate Holds(r: Row, who: InstanceId) {
    r.status == Dispatching && r.owner == Some(who)
  }

  predicate HoldsReconciliation(r: Row, who: InstanceId) {
    r.recon == Processing && r.reconOwner == Some(who)
  }

  predicate Expired(lease: Option<nat>, now: nat) {
    lease.Some? && lease.value <= now
  }

  function Returned(r: Row): Row {
    r.(status := Pending, owner := None, lease := None)
  }

  function ReconReturned(r: Row): Row {
    r.(recon := ToReconcile, reconOwner := None, reconLease := None)
  }

  function AckText(receipt: Receipts.Receipt): string {
    var text := if receipt.error.Some? then receipt.error.value else "daemon_command_failed";
    if |text| > 2000 then text[..2000] else text
  }

  /** The BEFORE UPDATE OF status trigger of migration 008. */
  function Trigger(before: Row, after: Row): Row {
    if after.status == Failed && before.status != Failed && after.recon == Complete then ReconReturned(after) else after
  }

  /** The WHERE clause of acknowledge(). */
  predicate AckMatches(r: Row, machine: MachineId, who: InstanceId) {
    r.command.machine == machine && Holds(r, who)
  }

  /** `legacy` is an API server from before migration 008: it does not know the reconciliation columns. */
  function Acknowledged(r: Row, receipt: Receipts.Receipt, legacy: bool): Row {
    var after := r.(status := if receipt.ok then Acked else Failed,
                    ackError := if receipt.ok then None else Some(AckText(receipt)), lease := None);
    Trigger(r, if legacy then after
               else after.(recon := if receipt.ok then Complete else ToReconcile,
                           reconOwner := None, reconLease := None))
  }

  /** The WHERE clause; a claim names the ids its SELECT returned. */
  predicate Matches(r: Row, stmt: Statement, now: nat) {
    match stmt
    case Nothing => false
    case Insert(_, _) => false
    case ReleaseExpired => r.status == Dispatching && Expired(r.lease, now)
    case Claim(ids, _, _) => r.command.id in ids
    case ReturnUnsent(id, who) => r.command.id == id && Holds(r, who)
    case Acknowledge(id, machine, who, _, _) => r.command.id == id && AckMatches(r, machine, who)
    case ReleaseReconciliations => r.status == Failed && r.recon == Processing && Expired(r.reconLease, now)
    case ClaimReconciliations(ids, _, _) => r.command.id in ids
    case CompleteReconciliation(id, who) => r.command.id == id && r.status == Failed && HoldsReconciliation(r, who)
    case ReturnLeases(who) => Holds(r, who)
    case ReturnReconciliations(who) => HoldsReconciliation(r, who)
  }

  /** The SET clause. */
  function Changed(r: Row, stmt: Statement, now: nat): Row {
    match stmt
    case Nothing => r
    case Insert(_, _) => r
    case ReleaseExpired => Returned(r)
    case Claim(_, who, leaseMs) => r.(status := Dispatching, owner := Some(who), lease := Some(now + leaseMs))
    case ReturnUnsent(_, _) => Returned(r)
    case Acknowledge(_, _, _, receipt, legacy) => Acknowledged(r, receipt, legacy)
    case ReleaseReconciliations => ReconReturned(r)
    case ClaimReconciliations(_, who, leaseMs) =>
      r.(recon := Processing, reconOwner := Some(who), reconLease := Some(now + leaseMs))
    case CompleteReconciliation(_, _) => r.(recon := Complete, reconOwner := None, reconLease := None)
    case ReturnLeases(_) => Returned(r)
    case ReturnReconciliations(_) => ReconReturned(r)
  }

  function Updated(r: Row, stmt: Statement, now: nat): Row {
    if Matches(r, stmt, now) then Changed(r, stmt, now).(updatedAt := now) else r
  }

  function Inserted(c: Command, at: nat): Row {
    Row(c, Pending, None, None, None, Complete, None, None, at, at)
  }

  /** An insert does nothing when the command id is there. */
  function Execute(rows: Table, stmt: Statement, now: nat): Table {
    if stmt.Insert? then
      if stmt.command.id in rows then rows else rows[stmt.command.id := Inserted(stmt.command, stmt.createdAt)]
    else
      map id | id in rows :: Updated(rows[id], stmt, now)
  }

  // ---------------------------------------------------------------- ORDER BY ... LIMIT 50

  /** Ids compare like strings. */
  predicate Less(a: string, b: string) {
    if a == "" then b != ""
    else b != "" && (a[0] < b[0] || (a[0] == b[0] && Less(a[1..], b[1..])))
  }

  lemma {:induction false} LessIsTotal(a: string, b: string)
    ensures Less(a, b) || Less(b, a) || a == b
  {
    if a != "" && b != "" && a[0] == b[0] {
      LessIsTotal(a[1..], b[1..]);
      if a[1..] == b[1..] { assert a == [a[0]] + a[1..] && b == [b[0]] + b[1..]; }
    }
  }

  lemma {:induction false} LessIsTransitive(a: string, b: string, c: string)
    requires Less(a, b) && Less(b, c)
    ensures Less(a, c)
  {
    if a != "" && a[0] == b[0] && b[0] == c[0] { LessIsTransitive(a[1..], b[1..], c[1..]); }
  }

  /** ORDER BY a timestamp, then the command id. */
  predicate Earlier(times: map<CommandId, nat>, x: CommandId, y: CommandId)
    requires x in times && y in times
  {
    times[x] < times[y] || (times[x] == times[y] && Less(x, y))
  }

  const LIMIT := 50

  /** What SELECT ... ORDER BY ... LIMIT 50 FOR UPDATE SKIP LOCKED returns of the rows it may return. */
  ghost predicate IsOldest(ids: set<CommandId>, eligible: set<CommandId>, times: map<CommandId, nat>)
    requires eligible <= times.Keys
  {
    && ids <= eligible && |ids| <= LIMIT && (|ids| < LIMIT ==> ids == eligible)
    && forall x, y :: x in ids && y in eligible - ids ==> Earlier(times, x, y)
  }

  /**
   What that answer is, written out: at most fifty, everything when there are fewer, and nothing that is left out comes
   before anything taken.
   */
  lemma OldestFifty(ids: set<CommandId>, eligible: set<CommandId>, times: map<CommandId, nat>)
    requires eligible <= times.Keys && IsOldest(ids, eligible, times)
    ensures |ids| <= 50 && ids <= eligible && (ids != eligible ==> |ids| == 50)
    ensures forall x, y :: x in ids && y in eligible && y !in ids ==>
              times[x] <= times[y] && (times[x] == times[y] ==> Less(x, y))
  {
    forall x, y | x in ids && y in eligible && y !in ids
      ensures times[x] <= times[y] && (times[x] == times[y] ==> Less(x, y))
    {
      assert Earlier(times, x, y);
    }
  }

  /** There is always an answer. */
  lemma SomeIsOldest(eligible: set<CommandId>, times: map<CommandId, nat>) returns (ids: set<CommandId>)
    requires eligible <= times.Keys
    ensures IsOldest(ids, eligible, times)
  {
    ids := OldestOf(eligible, times, LIMIT);
  }

  lemma {:induction false} OldestOf(eligible: set<CommandId>, times: map<CommandId, nat>, n: nat)
    returns (ids: set<CommandId>)
    requires eligible <= times.Keys
    ensures ids <= eligible && |ids| <= n && (|ids| < n ==> ids == eligible)
    ensures forall x, y :: x in ids && y in eligible - ids ==> Earlier(times, x, y)
    decreases n
  {
    if n == 0 || eligible == {} {
      ids := {};
    } else {
      var first := Earliest(eligible, times);
      var rest := OldestOf(eligible - {first}, times, n - 1);
      ids := rest + {first};
    }
  }

  lemma {:induction false} Earliest(eligible: set<CommandId>, times: map<CommandId, nat>) returns (first: CommandId)
    requires eligible != {} && eligible <= times.Keys
    ensures first in eligible && forall y :: y in eligible - {first} ==> Earlier(times, first, y)
    decreases |eligible|
  {
    first :| first in eligible;
    var others := eligible - {first};
    if others != {} {
      var best := Earliest(others, times);
      LessIsTotal(first, best);
      if !Earlier(times, first, best) {
        first := best;
      } else {
        forall y | y in others ensures Earlier(times, first, y) {
          if y != best {
            assert y in others - {best};
            EarlierIsTransitive(times, first, best, y);
          }
        }
      }
    }
  }

  lemma EarlierIsTransitive(times: map<CommandId, nat>, x: CommandId, y: CommandId, z: CommandId)
    requires x in times && y in times && z in times && Earlier(times, x, y) && Earlier(times, y, z)
    ensures Earlier(times, x, z)
  {
    if Less(x, y) && Less(y, z) { LessIsTransitive(x, y, z); }
  }

  // ---------------------------------------------------------------- what a statement may do

  predicate Finished(r: Row) {
    r.status == Acked || r.status == Failed
  }

  /** Leases, owners and reconciliation columns agree with the status. */
  predicate RowOk(id: CommandId, r: Row) {
    && id != "" && r.command.id == id
    && (r.status == Dispatching <==> r.lease.Some?)
    && (r.status == Dispatching ==> r.owner.Some?)
    && (r.status == Pending ==> r.owner.None?)
    && (r.recon != Complete ==> r.status == Failed)
    && (r.recon == Processing <==> r.reconOwner.Some?)
    && (r.recon == Processing <==> r.reconLease.Some?)
  }

  ghost predicate RowsOk(rows: Table) {
    forall id :: id in rows ==> RowOk(id, rows[id])
  }

  /** The rows a SELECT ... FOR UPDATE inside the claiming transaction returned. */
  predicate Selectable(r: Row, stmt: Statement) {
    match stmt
    case Claim(ids, _, _) => r.command.id in ids ==> r.status == Pending
    case ClaimReconciliations(ids, _, _) => r.command.id in ids ==> r.status == Failed && r.recon == ToReconcile
    case _ => true
  }

  /** The verdicts: they are final, and only an acknowledgement that matches the current lease owner gives one. */
  ghost predicate KeepsVerdict(id: CommandId, r: Row, q: Row, stmt: Statement) {
    && (Finished(r) ==> q.status == r.status && q.ackError == r.ackError)
    && (r.status == Failed && r.recon == Complete ==> q.recon == Complete)
    && (Finished(q) && !Finished(r) ==> stmt.Acknowledge? && stmt.id == id && AckMatches(r, stmt.machine, stmt.who))
    && (q.status == Failed && q.recon == Complete && !(r.status == Failed && r.recon == Complete) ==>
          stmt.CompleteReconciliation? && stmt.id == id)
  }

  /** The leases: only an instance's own claim gives it one, and only of a row its SELECT returned. */
  ghost predicate KeepsLeases(id: CommandId, r: Row, q: Row, stmt: Statement) {
    && (forall who :: Holds(q, who) && !Holds(r, who) ==> stmt.Claim? && stmt.who == who && id in stmt.ids)
    && (forall who :: HoldsReconciliation(q, who) && !HoldsReconciliation(r, who) ==>
          stmt.ClaimReconciliations? && stmt.who == who && id in stmt.ids)
    && (r.status == Pending && q.status != Pending ==> stmt.Claim? && id in stmt.ids)
    && (r.status == Failed && r.recon == ToReconcile && q.recon != ToReconcile ==>
          stmt.ClaimReconciliations? && id in stmt.ids)
    && (stmt.ReturnLeases? ==> !Holds(q, stmt.who))
    && (stmt.ReturnReconciliations? ==> !HoldsReconciliation(q, stmt.who))
  }

  ghost predicate Follows(id: CommandId, r: Row, q: Row, stmt: Statement) {
    && RowOk(id, q) && q.command == r.command && q.createdAt == r.createdAt
    && KeepsVerdict(id, r, q, stmt) && KeepsLeases(id, r, q, stmt)
  }

  /** Whatever statement hits a row, and whenever. */
  lemma UpdateIsSafe(id: CommandId, r: Row, stmt: Statement, now: nat)
    requires RowOk(id, r) && Selectable(r, stmt)
    ensures Follows(id, r, Updated(r, stmt, now), stmt)
  {
  }

  /** What a holder may do with its own lease: give it back or bring the daemon's acknowledgement. */
  predicate OwnUse(id: CommandId, h: InstanceId, stmt: Statement) {
    match stmt
    case ReturnUnsent(x, who) => x == id && who == h
    case Acknowledge(x, _, who, _, _) => x == id && who == h
    case ReturnLeases(who) => who == h
    case _ => false
  }

  predicate OwnReconciliation(id: CommandId, h: InstanceId, stmt: Statement) {
    match stmt
    case CompleteReconciliation(x, who) => x == id && who == h
    case ReturnReconciliations(who) => who == h
    case _ => false
  }

  /** Until its time a lease is safe: no statement but the holder's own touches status, owner or lease. */
  lemma LeaseIsSafe(id: CommandId, r: Row, h: InstanceId, stmt: Statement, now: nat)
    requires RowOk(id, r) && Selectable(r, stmt)
    requires r.status == Dispatching && r.owner == Some(h) && r.lease.value > now && !OwnUse(id, h, stmt)
    ensures var q := Updated(r, stmt, now);
            q.status == Dispatching && q.owner == Some(h) && q.lease == r.lease && q.command == r.command
  {
  }

  /** So is a reconciliation lease. */
  lemma ReconciliationIsSafe(id: CommandId, r: Row, h: InstanceId, stmt: Statement, now: nat)
    requires RowOk(id, r) && Selectable(r, stmt)
    requires r.recon == Processing && r.reconOwner == Some(h) && r.reconLease.value > now
    requires !OwnReconciliation(id, h, stmt)
    ensures var q := Updated(r, stmt, now);
            q.status == Failed && q.recon == Processing && q.reconOwner == Some(h) && q.reconLease == r.reconLease
  {
  }

  /** Every row a statement touches is stamped with its time, so a reconciliation that failed goes to the end. */
  lemma TouchedRowsAreStamped(r: Row, stmt: Statement, now: nat)
    ensures var q := Updated(r, stmt, now);
            && (q != r ==> q.updatedAt == now) && q.createdAt == r.createdAt && q.command == r.command
            && (stmt.ClaimReconciliations? && r.command.id in stmt.ids ==> q.updatedAt == now)
  {
  }

  /** From its time on the sweep of any instance ends it. */
  lemma OldLeaseIsSwept(id: CommandId, r: Row, now: nat)
    requires RowOk(id, r)
    ensures r.status == Dispatching && r.lease.value <= now ==>
              var q := Updated(r, ReleaseExpired, now); q.status == Pending && q.owner == None && q.lease == None
    ensures r.recon == Processing && r.reconLease.value <= now ==>
              var q := Updated(r, ReleaseReconciliations, now);
              q.recon == ToReconcile && q.reconOwner == None && q.reconLease == None && q.status == Failed
  {
  }

  /** A lease is the claimer's for exactly the lease time. */
  lemma ClaimLasts(r: Row, ids: set<CommandId>, h: InstanceId, leaseMs: nat, now: nat)
    requires r.command.id in ids
    ensures var q := Updated(r, Claim(ids, h, leaseMs), now);
            q.status == Dispatching && q.owner == Some(h) && q.lease == Some(now + leaseMs)
    ensures var q := Updated(r, ClaimReconciliations(ids, h, leaseMs), now);
            q.recon == Processing && q.reconOwner == Some(h) && q.reconLease == Some(now + leaseMs)
  {
  }

  /** The text kept with a failure: at most the first 2000 characters, and a standing text for a receipt without one. */
  ghost predicate IsAckText(text: string, error: Option<string>) {
    if error.None? then text == "daemon_command_failed"
    else text <= error.value && |text| <= 2000 && (|text| < 2000 ==> text == error.value)
  }

  /** The holder's acknowledgement for the command's machine is accepted, and nobody else's is. */
  lemma HoldersAckCounts(id: CommandId, r: Row, machine: MachineId, h: InstanceId, receipt: Receipts.Receipt,
                         legacy: bool, now: nat)
    requires RowOk(id, r) && r.status == Dispatching && r.owner.Some?
    ensures var q := Updated(r, Acknowledge(id, machine, h, receipt, legacy), now);
            if r.owner == Some(h) && r.command.machine == machine
            then q.status == (if receipt.ok then Acked else Failed) && q.lease == None
                 && (q.recon == ToReconcile <==> !receipt.ok)
                 && (if receipt.ok then q.ackError == None
                     else q.ackError.Some? && IsAckText(q.ackError.value, receipt.error))
            else q == r
  {
  }

  ghost predicate TableFollows(rows: Table, t: Table, stmt: Statement) {
    && RowsOk(t)
    && rows.Keys <= t.Keys
    && (forall id :: id in rows ==> Follows(id, rows[id], t[id], stmt))
    && (forall id :: id in t && id !in rows ==>
          && stmt.Insert? && id == stmt.command.id
          && t[id].status == Pending && t[id].recon == Complete && t[id].command == stmt.command)
  }

  /** What any statement does to a whole table: each row by itself, and no insert overwrites. */
  lemma ExecuteFollows(rows: Table, stmt: Statement, now: nat)
    requires RowsOk(rows) && (stmt.Insert? ==> stmt.command.id != "")
    requires forall id :: id in rows ==> Selectable(rows[id], stmt)
    ensures TableFollows(rows, Execute(rows, stmt, now), stmt)
  {
    hide Updated, Follows, Selectable;
    forall id | id in rows ensures Follows(id, rows[id], Execute(rows, stmt, now)[id], stmt) {
      if stmt.Insert? { RowStays(id, rows[id], stmt); } else { UpdateIsSafe(id, rows[id], stmt, now); }
    }
    UpdatedRowsOk(rows, Execute(rows, stmt, now), stmt);
  }

  lemma RowStays(id: CommandId, r: Row, stmt: Statement)
    requires RowOk(id, r) && stmt.Insert?
    ensures Follows(id, r, r, stmt)
  {
  }

  lemma UpdatedRowsOk(rows: Table, t: Table, stmt: Statement)
    requires forall id :: id in rows ==> id in t && Follows(id, rows[id], t[id], stmt)
    requires forall id :: id in t && id !in rows ==> RowOk(id, t[id])
    ensures RowsOk(t)
  {
  }
}
