/**
 PostgresDaemonCommandRouter of services/control-api/src/daemon-command-router.js: its own fields and
 the statements it issues, one method for each stretch between two awaits. The statements are those
 that the runs of CommandOutbox are made of.
 */
module CommandRouter {
  import opened Options
  import opened CommandRows
  import Receipts = CommandReceipts

  class CommandTable {
    var rows: Table
    var now: nat

    constructor ()
      ensures rows == map[] && now == 0
    {
      rows, now := map[], 0;
    }
  }

  predicate IsHex(c: char) {
    '0' <= c <= '9' || 'a' <= c <= 'f' || 'A' <= c <= 'F'
  }

  /** UUID_PATTERN of daemon-command-outbox.js. */
  predicate IsUuid(id: string) {
    && |id| == 36
    && (forall k | 0 <= k < 36 :: if k in {8, 13, 18, 23} then id[k] == '-' else IsHex(id[k]))
    && '1' <= id[14] <= '8'
    && id[19] in "89abAB"
  }

  class Router {
    const instanceId: InstanceId
    const leaseMs: nat
    const pool: CommandTable
    var polling: bool
    var closed: bool

    constructor (instanceId: InstanceId, leaseMs: nat, pool: CommandTable)
      ensures this.instanceId == instanceId && this.leaseMs == leaseMs && this.pool == pool && !polling && !closed
    {
      this.instanceId, this.leaseMs, this.pool, polling, closed := instanceId, leaseMs, pool, false, false;
    }

    /** Stored once per command id, refused after close() or for an id that is no UUID. */
    method Enqueue(command: Command) returns (r: Result<CommandId, string>)
      modifies pool`rows
      ensures r.Success? <==> !closed && IsUuid(command.id)
      ensures r.Failure? ==> pool.rows == old(pool.rows)
      ensures r.Success? ==> r.value == command.id
                             && pool.rows == Execute(old(pool.rows), Insert(command, pool.now), pool.now)
      ensures r.Success? && command.id in old(pool.rows) ==> pool.rows == old(pool.rows)
      ensures r.Success? && command.id !in old(pool.rows) ==>
                pool.rows == old(pool.rows)[command.id := Row(command, Pending, None, None, None, Complete, None, None,
                                                              pool.now, pool.now)]
    {
      if closed { return Failure("daemon_command_router_closed"); }
      if !IsUuid(command.id) { return Failure("daemon_command_id_invalid"); }
      if command.id !in pool.rows {
        pool.rows := pool.rows[command.id := Inserted(command, pool.now)];
      }
      return Success(command.id);
    }

    /** True exactly when this instance holds the lease of that machine's command. */
    method AcknowledgeCommand(machine: MachineId, id: CommandId, receipt: Receipts.Receipt) returns (accepted: bool)
      requires RowsOk(pool.rows)
      modifies pool`rows
      ensures accepted <==> id in old(pool.rows) && AckMatches(old(pool.rows)[id], machine, instanceId)
      ensures pool.rows == Execute(old(pool.rows), Acknowledge(id, machine, instanceId, receipt, false), pool.now)
      ensures accepted ==> Finished(pool.rows[id]) && (pool.rows[id].recon == ToReconcile <==> !receipt.ok)
      ensures !accepted ==> pool.rows == old(pool.rows)
    {
      if id !in pool.rows || !AckMatches(pool.rows[id], machine, instanceId) { return false; }
      pool.rows := pool.rows[id := Acknowledged(pool.rows[id], receipt, false).(updatedAt := pool.now)];
      return true;
    }

    /** One poll at a time, and none after close() was called. */
    method PollBegins(connected: set<MachineId>) returns (machines: Option<set<MachineId>>)
      modifies this`polling
      ensures machines == if closed || old(polling) then None else Some(connected)
      ensures polling <==> old(polling) || !closed
    {
      if closed || polling { return None; }
      polling := true;
      return Some(connected);
    }

    /** The claiming transaction of #poll; `selected` is what its SELECT returned, `locked` what it skipped. */
    method ClaimSelected(selected: set<CommandId>, machines: set<MachineId>, locked: set<CommandId>)
      requires RowsOk(pool.rows)
      requires IsOldest(selected,
                        set id | id in pool.rows && pool.rows[id].status == Pending && id !in locked
                                 && pool.rows[id].command.machine in machines,
                        map id | id in pool.rows :: pool.rows[id].createdAt)
      modifies pool`rows
      ensures pool.rows == Execute(old(pool.rows), Claim(selected, instanceId, leaseMs), pool.now)
      ensures forall id :: id in old(pool.rows) && id !in selected ==> pool.rows[id] == old(pool.rows)[id]
      ensures forall id <- selected ::
                pool.rows[id].owner == Some(instanceId) && pool.rows[id].lease == Some(pool.now + leaseMs)
    {
      if selected != {} {
        pool.rows := map id | id in pool.rows ::
          if id in selected
          then pool.rows[id].(status := Dispatching, owner := Some(instanceId), lease := Some(pool.now + leaseMs),
                              updatedAt := pool.now)
          else pool.rows[id];
      }
    }

    /** close(), before it waits for a running poll. */
    method CloseBegins()
      modifies this`closed
      ensures closed
    {
      closed := true;
    }

    /** Its first statement. */
    method CloseReturnsLeases()
      requires RowsOk(pool.rows) && closed && !polling
      modifies pool`rows
      ensures pool.rows == Execute(old(pool.rows), ReturnLeases(instanceId), pool.now)
      ensures forall id :: id in pool.rows ==> !Holds(pool.rows[id], instanceId)
    {
      pool.rows := map id | id in pool.rows ::
        if Holds(pool.rows[id], instanceId) then Returned(pool.rows[id]).(updatedAt := pool.now) else pool.rows[id];
    }

    /** Its second. */
    method CloseReturnsReconciliations()
      requires RowsOk(pool.rows) && closed && !polling
      modifies pool`rows
      ensures pool.rows == Execute(old(pool.rows), ReturnReconciliations(instanceId), pool.now)
      ensures forall id :: id in pool.rows ==> !HoldsReconciliation(pool.rows[id], instanceId)
    {
      pool.rows := map id | id in pool.rows ::
        if HoldsReconciliation(pool.rows[id], instanceId)
        then ReconReturned(pool.rows[id]).(updatedAt := pool.now)
        else pool.rows[id];
    }
  }
}
