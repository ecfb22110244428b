/**
 The daemon's receipt cache: runtime/daemon/src/command-receipts.js. A Map that remembers the
 receipts of the most recently inserted commands, and a Set of commands still being handled.
 */
module CommandReceipts {
  import opened Options

  type CommandId = string

  datatype Receipt = Receipt(ok: bool, error: Option<string>)

  datatype Answer = New | InFlight | Duplicate(receipt: Receipt)

  /** `order` is the Map's insertion order, `receipts` its entries. */
  datatype Cache = Cache(order: seq<CommandId>, receipts: map<CommandId, Receipt>, inFlight: set<CommandId>)

  const EMPTY := Cache([], map[], {})

  ghost predicate Distinct(order: seq<CommandId>) {
    forall i, j :: 0 <= i < j < |order| ==> order[i] != order[j]
  }

  ghost predicate WellFormed(c: Cache, maxEntries: nat) {
    && Distinct(c.order)
    && (forall id :: id in c.receipts <==> id in c.order)
    && |c.order| <= maxEntries
  }

  function Asked(c: Cache, id: CommandId): Answer {
    if id in c.receipts then Duplicate(c.receipts[id])
    else if id in c.inFlight then InFlight
    else New
  }

  function Begun(c: Cache, id: CommandId): Cache {
    if Asked(c, id).New? then c.(inFlight := c.inFlight + {id}) else c
  }

  /** Oldest entries go until the size fits. */
  function Evicted(c: Cache, maxEntries: nat): Cache
    decreases |c.order|
  {
    if |c.order| <= maxEntries then c
    else Evicted(c.(order := c.order[1..], receipts := c.receipts - {c.order[0]}), maxEntries)
  }

  /** A repeated completion keeps the entry's place in the order. */
  function Completed(c: Cache, id: CommandId, receipt: Receipt, maxEntries: nat): Cache {
    Evicted(Cache(if id in c.receipts then c.order else c.order + [id],
                  c.receipts[id := receipt], c.inFlight - {id}), maxEntries)
  }

  lemma CompletedShape(c: Cache, id: CommandId, receipt: Receipt, maxEntries: nat)
    requires maxEntries >= 1 && WellFormed(c, maxEntries)
    ensures var d := Completed(c, id, receipt, maxEntries);
            && WellFormed(d, maxEntries)
            && d.inFlight == c.inFlight - {id}
            && id in d.receipts && d.receipts[id] == receipt
            && (forall other :: other in d.receipts && other != id ==>
                  other in c.receipts && d.receipts[other] == c.receipts[other])
            && d.order == if id in c.receipts then c.order
                          else if |c.order| < maxEntries then c.order + [id]
                          else c.order[1..] + [id]
  {
    hide WellFormed;
    var grown := Grown(c, id, receipt);
    GrownIsOk(c, id, receipt, maxEntries);
    if |grown.order| > maxEntries {
      OneEvicted(grown, maxEntries);
      OneMoreThanMax(c, maxEntries);
      assert grown.order[1..] == c.order[1..] + [id];
      assert id in grown.order[1..];
    }
  }

  function Grown(c: Cache, id: CommandId, receipt: Receipt): Cache {
    Cache(if id in c.receipts then c.order else c.order + [id], c.receipts[id := receipt], c.inFlight - {id})
  }

  /** The order without a bound. */
  ghost predicate InStep(c: Cache) {
    Distinct(c.order) && forall id :: id in c.receipts <==> id in c.order
  }

  lemma GrownIsOk(c: Cache, id: CommandId, receipt: Receipt, maxEntries: nat)
    requires WellFormed(c, maxEntries)
    ensures var g := Grown(c, id, receipt);
            && InStep(g) && |g.order| <= maxEntries + 1 && (|g.order| <= maxEntries ==> WellFormed(g, maxEntries))
            && (|g.order| > maxEntries ==> id !in c.receipts && |c.order| == maxEntries)
  {
  }

  lemma OneMoreThanMax(c: Cache, maxEntries: nat)
    requires WellFormed(c, maxEntries)
    ensures |c.order| <= maxEntries
  {
  }

  /** One entry too many: exactly the oldest goes. */
  lemma OneEvicted(g: Cache, maxEntries: nat)
    requires InStep(g) && |g.order| == maxEntries + 1 && maxEntries >= 1
    ensures var d := Evicted(g, maxEntries);
            && d == g.(order := g.order[1..], receipts := g.receipts - {g.order[0]}) && WellFormed(d, maxEntries)
            && (forall x :: x in g.order[1..] ==> x in d.receipts && d.receipts[x] == g.receipts[x])
  {
    var cut := g.(order := g.order[1..], receipts := g.receipts - {g.order[0]});
    assert Evicted(g, maxEntries) == Evicted(cut, maxEntries) == cut;
    assert forall x :: x in g.order <==> x == g.order[0] || x in cut.order;
    assert g.order[0] !in cut.order;
  }

  class CommandReceiptCache {
    const maxEntries: nat
    var order: seq<CommandId>
    var receipts: map<CommandId, Receipt>
    var inFlight: set<CommandId>

    ghost predicate Valid()
      reads this
    {
      maxEntries >= 1 && WellFormed(Value(), maxEntries)
    }

    function Value(): Cache
      reads this
    {
      Cache(order, receipts, inFlight)
    }

    constructor (maxEntries: nat)
      requires maxEntries >= 1
      ensures Valid() && Value() == EMPTY && this.maxEntries == maxEntries
    {
      this.maxEntries := maxEntries;
      order, receipts, inFlight := [], map[], {};
    }

    method Begin(id: CommandId) returns (answer: Answer)
      requires Valid()
      modifies this
      ensures Valid() && answer == Asked(old(Value()), id) && Value() == Begun(old(Value()), id)
    {
      if id in receipts { return Duplicate(receipts[id]); }
      if id in inFlight { return InFlight; }
      inFlight := inFlight + {id};
      return New;
    }

    method Complete(id: CommandId, receipt: Receipt)
      requires Valid()
      modifies this
      ensures Valid() && Value() == Completed(old(Value()), id, receipt, maxEntries)
    {
      CompletedShape(Value(), id, receipt, maxEntries);
      inFlight := inFlight - {id};
      if id !in receipts { order := order + [id]; }
      receipts := receipts[id := receipt];
      while |order| > maxEntries
        invariant Evicted(Value(), maxEntries) == Completed(old(Value()), id, receipt, maxEntries)
      {
        var oldest := order[0];
        order, receipts := order[1..], receipts - {oldest};
      }
    }
  }

  /** createCommandReceiptCache refuses a limit below one. */
  method CreateCommandReceiptCache(maxEntries: int) returns (r: Result<CommandReceiptCache, string>)
    ensures r.Failure? <==> maxEntries < 1
    ensures r.Success? ==>
              fresh(r.value) && r.value.Valid() && r.value.Value() == EMPTY && r.value.maxEntries == maxEntries
  {
    if maxEntries < 1 { return Failure("command_receipt_cache_limit_invalid"); }
    var cache := new CommandReceiptCache(maxEntries);
    return Success(cache);
  }

  // ---------------------------------------------------------------- the message handler

  /** How the work on a new command ends: before its ack, normally, or by throwing after it. */
  datatype Handling = Throws(error: string) | Acks | AcksThenThrows(error: string)

  function ReceiptsOf(h: Handling): seq<Receipt> {
    match h
    case Throws(error) => [Receipt(false, Some(error))]
    case Acks => [Receipt(true, None)]
    case AcksThenThrows(error) => [Receipt(true, None), Receipt(false, Some(error))]
  }

  /** runtime/daemon/src/index.js, the "message" listener: `begun` are the commands started. */
  class Daemon {
    const commandReceipts: CommandReceiptCache
    var begun: seq<CommandId>
    var acks: seq<(CommandId, Receipt)>

    constructor (cache: CommandReceiptCache)
      requires cache.Valid()
      ensures commandReceipts == cache && begun == [] && acks == []
    {
      commandReceipts, begun, acks := cache, [], [];
    }

    /** Up to the point where the work starts; true when this call started it. */
    method OnCommand(id: CommandId) returns (started: bool)
      requires commandReceipts.Valid()
      modifies this, commandReceipts
      ensures commandReceipts.Valid() && commandReceipts.Value() == Begun(old(commandReceipts.Value()), id)
      ensures started <==> Asked(old(commandReceipts.Value()), id).New?
      ensures begun == if started then old(begun) + [id] else old(begun)
      ensures acks == if Asked(old(commandReceipts.Value()), id).Duplicate?
                      then old(acks) + [(id, Asked(old(commandReceipts.Value()), id).receipt)] else old(acks)
    {
      var answer := commandReceipts.Begin(id);
      if answer.InFlight? { return false; }
      if answer.Duplicate? {
        acks := acks + [(id, answer.receipt)];
        return false;
      }
      begun := begun + [id];
      return true;
    }

    method Acknowledge(id: CommandId, receipt: Receipt)
      requires commandReceipts.Valid()
      modifies this`acks, commandReceipts
      ensures commandReceipts.Valid()
      ensures commandReceipts.Value() == Completed(old(commandReceipts.Value()), id, receipt,
                                                   commandReceipts.maxEntries)
      ensures acks == old(acks) + [(id, receipt)]
    {
      commandReceipts.Complete(id, receipt);
      acks := acks + [(id, receipt)];
    }

    /** The work ends. Whatever it does, the command leaves the in-flight set with its last receipt cached. */
    method OnHandled(id: CommandId, h: Handling)
      requires commandReceipts.Valid()
      modifies this`acks, commandReceipts
      ensures commandReceipts.Valid()
      ensures id !in commandReceipts.inFlight && id in commandReceipts.receipts
      ensures commandReceipts.receipts[id] == ReceiptsOf(h)[|ReceiptsOf(h)| - 1]
      ensures acks == old(acks) + seq(|ReceiptsOf(h)|, i requires 0 <= i < |ReceiptsOf(h)| => (id, ReceiptsOf(h)[i]))
    {
      var before := commandReceipts.Value();
      if h.Throws? {
        CompletedShape(before, id, Receipt(false, Some(h.error)), commandReceipts.maxEntries);
        Acknowledge(id, Receipt(false, Some(h.error)));
      } else {
        CompletedShape(before, id, Receipt(true, None), commandReceipts.maxEntries);
        Acknowledge(id, Receipt(true, None));
        if h.AcksThenThrows? {
          CompletedShape(commandReceipts.Value(), id, Receipt(false, Some(h.error)), commandReceipts.maxEntries);
          Acknowledge(id, Receipt(false, Some(h.error)));
        }
      }
    }
  }

  // ---------------------------------------------------------------- one daemon process

  /**
   A daemon process's cache with its history: which commands it ever began, how many insertions
   the receipt Map has seen, and for each completed command the number of its latest insertion
   and the receipt it was last given.
   */
  datatype Ledger = Ledger(cache: Cache, begun: set<CommandId>, insertions: nat,
                           insertedAt: map<CommandId, nat>, lastReceipt: map<CommandId, Receipt>)

  const BOOTED := Ledger(EMPTY, {}, 0, map[], map[])

  function AfterBegin(l: Ledger, id: CommandId): Ledger {
    l.(cache := Begun(l.cache, id), begun := if Asked(l.cache, id).New? then l.begun + {id} else l.begun)
  }

  function AfterComplete(l: Ledger, id: CommandId, receipt: Receipt, maxEntries: nat): Ledger {
    var isNew := id !in l.cache.receipts;
    Ledger(Completed(l.cache, id, receipt, maxEntries), l.begun,
           if isNew then l.insertions + 1 else l.insertions,
           if isNew then l.insertedAt[id := l.insertions] else l.insertedAt,
           l.lastReceipt[id := receipt])
  }

  /** How many receipts were inserted after this command's own. */
  function Newer(l: Ledger, id: CommandId): int
    requires id in l.insertedAt
  {
    l.insertions - l.insertedAt[id] - 1
  }

  /** The cache holds the latest insertions, oldest first. */
  ghost predicate OrderIsLatest(l: Ledger) {
    forall k :: 0 <= k < |l.cache.order| ==>
      l.cache.order[k] in l.insertedAt && l.insertedAt[l.cache.order[k]] == l.insertions - |l.cache.order| + k
  }

  ghost predicate LatestIsCached(l: Ledger) {
    forall id :: id in l.insertedAt ==>
      l.insertedAt[id] < l.insertions
      && (l.insertedAt[id] >= l.insertions - |l.cache.order| ==>
            l.cache.order[l.insertedAt[id] - (l.insertions - |l.cache.order|)] == id)
  }

  ghost predicate BegunIsTracked(l: Ledger) {
    forall id :: id in l.begun ==> id in l.cache.inFlight || id in l.insertedAt
  }

  ghost predicate InFlightIsBegun(l: Ledger) {
    l.cache.inFlight <= l.begun
  }

  ghost predicate ReceiptsAreLatest(l: Ledger) {
    forall id :: id in l.cache.receipts ==> id in l.lastReceipt && l.lastReceipt[id] == l.cache.receipts[id]
  }

  ghost predicate LedgerOk(l: Ledger, maxEntries: nat) {
    && WellFormed(l.cache, maxEntries)
    && |l.cache.order| == (if l.insertions < maxEntries then l.insertions else maxEntries)
    && OrderIsLatest(l)
    && LatestIsCached(l)
    && BegunIsTracked(l)
    && InFlightIsBegun(l)
    && ReceiptsAreLatest(l)
  }

  lemma CompleteKeepsOrder(l: Ledger, id: CommandId, receipt: Receipt, maxEntries: nat)
    requires maxEntries >= 1 && LedgerOk(l, maxEntries)
    ensures OrderIsLatest(AfterComplete(l, id, receipt, maxEntries))
  {
    hide Completed, LatestIsCached;
    CompletedShape(l.cache, id, receipt, maxEntries);
    var m := AfterComplete(l, id, receipt, maxEntries);

    var c, d := l.cache, m.cache;
    if id !in c.receipts {
      var shift := |c.order| + 1 - |d.order|;
      forall k | 0 <= k < |d.order|
        ensures d.order[k] in m.insertedAt && m.insertedAt[d.order[k]] == m.insertions - |d.order| + k
      {
        if k < |d.order| - 1 {
          assert d.order[k] == c.order[k + shift];

        }
      }
    }
  }

  lemma CompleteKeepsLatest(l: Ledger, id: CommandId, receipt: Receipt, maxEntries: nat)
    requires maxEntries >= 1 && LedgerOk(l, maxEntries)
    ensures LatestIsCached(AfterComplete(l, id, receipt, maxEntries))
  {
    hide Completed, WellFormed, OrderIsLatest, BegunIsTracked, ReceiptsAreLatest;
    CompletedShape(l.cache, id, receipt, maxEntries);
  }

  lemma CompleteKeepsTracking(l: Ledger, id: CommandId, receipt: Receipt, maxEntries: nat)
    requires maxEntries >= 1 && LedgerOk(l, maxEntries)
    ensures BegunIsTracked(AfterComplete(l, id, receipt, maxEntries))
    ensures ReceiptsAreLatest(AfterComplete(l, id, receipt, maxEntries))
  {
    hide Completed, OrderIsLatest, LatestIsCached;
    CompletedShape(l.cache, id, receipt, maxEntries);
    assert id in l.cache.receipts ==> id in l.insertedAt by {
      if id in l.cache.receipts { CachedWasInserted(l, id); }
    }
  }

  lemma CachedWasInserted(l: Ledger, id: CommandId)
    requires OrderIsLatest(l) && id in l.cache.order
    ensures id in l.insertedAt && l.insertedAt[id] >= l.insertions - |l.cache.order|
  {
  }

  lemma CompleteKeepsLedger(l: Ledger, id: CommandId, receipt: Receipt, maxEntries: nat)
    requires maxEntries >= 1 && LedgerOk(l, maxEntries)
    ensures LedgerOk(AfterComplete(l, id, receipt, maxEntries), maxEntries)
  {
    hide Completed, OrderIsLatest, LatestIsCached, WellFormed, BegunIsTracked, ReceiptsAreLatest;
    CompleteKeepsTracking(l, id, receipt, maxEntries);
    CompleteKeepsOrder(l, id, receipt, maxEntries);
    CompleteKeepsLatest(l, id, receipt, maxEntries);
    CompletedShape(l.cache, id, receipt, maxEntries);
  }

  /**
   A command is in the cache exactly when fewer than maxEntries receipts were inserted after its
   own; so a completed command is answered from the cache, with its last receipt, until then.
   */
  lemma RememberedUntilPushedOut(l: Ledger, id: CommandId, maxEntries: nat)
    requires maxEntries >= 1 && LedgerOk(l, maxEntries) && id in l.insertedAt
    ensures Newer(l, id) < maxEntries <==> id in l.cache.receipts
    ensures Newer(l, id) < maxEntries ==> id in l.lastReceipt && Asked(l.cache, id) == Duplicate(l.lastReceipt[id])
  {
  }

  /** The at-most-once half of the protocol: a second beginning needs maxEntries newer receipts. */
  lemma BegunTwiceOnlyAfterEviction(l: Ledger, id: CommandId, maxEntries: nat)
    requires maxEntries >= 1 && LedgerOk(l, maxEntries)
    ensures id in l.begun && Asked(l.cache, id).New? ==> id in l.insertedAt && Newer(l, id) >= maxEntries
  {
  }

  /** What a daemon process does to its cache, in the order it does it. */
  datatype CacheUse = Receive(id: CommandId) | Finish(id: CommandId, receipt: Receipt)

  function LedgerAfter(uses: seq<CacheUse>, maxEntries: nat): Ledger {
    if uses == [] then BOOTED else
    var l := LedgerAfter(uses[..|uses| - 1], maxEntries);
    match uses[|uses| - 1]
    case Receive(id) => AfterBegin(l, id)
    case Finish(id, receipt) => AfterComplete(l, id, receipt, maxEntries)
  }

  /** Every history of a daemon process keeps the ledger in order. */
  lemma {:induction false} EveryHistoryIsOk(uses: seq<CacheUse>, maxEntries: nat)
    requires maxEntries >= 1
    ensures LedgerOk(LedgerAfter(uses, maxEntries), maxEntries)
  {
    if uses != [] {
      var before := uses[..|uses| - 1];
      EveryHistoryIsOk(before, maxEntries);
      match uses[|uses| - 1] {
        case Receive(id) =>
        case Finish(id, receipt) => CompleteKeepsLedger(LedgerAfter(before, maxEntries), id, receipt, maxEntries);
      }
    }
  }
}
