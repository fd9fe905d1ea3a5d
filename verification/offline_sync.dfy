/** The offline-sync coordinator: queued writes are replayed against the remote database
    in timestamp order whenever the client is online, and the sync status summarises the
    last pass. Each asynchronous step is modelled as one atomic transition on a
    `Coordinator` record; the remote database is a sequence of outcomes, one per request. */
module OfflineSync {
  import opened Wrappers
  import opened LocalDb

  /** The retry budget: an operation is dropped once its retry count exceeds it. */
  const MaxRetries := 5

  /** The period of the background drain, in milliseconds. */
  const SyncIntervalMs := 30000

  datatype SyncStatus = SyncStatus(pending: int, synced: int, failed: int, lastSyncAt: Option<string>)

  const InitialStatus := SyncStatus(0, 0, 0, None)

  /** How the remote call behind one replayed operation settles. A query builder that
      resolves with an `{error}` object still resolves: the replay never inspects it. */
  datatype RemoteOutcome = Resolved(errorReturned: bool) | Rejected

  /** The request a replayed operation sends to the remote table. */
  datatype Request =
    | Insert(table: string, row: SyncOperationData)
    | UpdateById(table: string, id: string, row: SyncOperationData)
    | DeleteById(table: string, id: string)

  /** `executeOperation`: a create inserts the payload, an update writes it to the row
      with the payload's id, a delete removes the row with the payload's id. */
  function Dispatch(op: SyncOperation): (r: Request)
    ensures r.table == op.table
    ensures r.Insert? <==> op.opType == Create
    ensures r.UpdateById? <==> op.opType == Update
    ensures r.DeleteById? <==> op.opType == Delete
    ensures !r.Insert? ==> r.id == op.data.id
    ensures !r.DeleteById? ==> r.row == op.data
  {
    match op.opType
    case Create => Insert(op.table, op.data)
    case Update => UpdateById(op.table, op.data.id, op.data)
    case Delete => DeleteById(op.table, op.data.id)
  }

  /** The retry bookkeeping after a rejected replay. `AsWritten` increments the count on
      the copy read for this pass only, so the stored operation never changes;
      `WriteBack` stores the incremented count, which is what the retry limit needs. */
  datatype RetryPolicy = AsWritten | WriteBack

  /** What one replay leaves in the queue for its operation: nothing once it resolved or
      its retry budget is spent, otherwise the operation as the policy stores it. */
  function AfterAttempt(policy: RetryPolicy, op: SyncOperation, o: RemoteOutcome): (r: Option<SyncOperation>)
    ensures r.None? <==> (o.Resolved? || op.retries >= MaxRetries)
    ensures r.Some? ==> r.value.(retries := op.retries) == op
    ensures r.Some? && policy == AsWritten ==> r.value == op
    ensures r.Some? && policy == WriteBack ==> r.value.retries == op.retries + 1
  {
    match o
    case Resolved(_) => None
    case Rejected =>
      if op.retries + 1 > MaxRetries then None
      else if policy == AsWritten then Some(op)
      else Some(op.(retries := op.retries + 1))
  }

  /** One operation's fate over consecutive passes that each replay it once. */
  function Fate(policy: RetryPolicy, op: SyncOperation, os: seq<RemoteOutcome>): Option<SyncOperation>
    decreases |os|
  {
    if os == [] then Some(op)
    else match AfterAttempt(policy, op, os[0])
      case None => None
      case Some(next) => Fate(policy, next, os[1..])
  }

  function Rejections(n: nat): (r: seq<RemoteOutcome>)
    ensures |r| == n && forall i :: 0 <= i < n ==> r[i] == Rejected
  {
    seq(n, i => Rejected)
  }

  /** As written, an operation queued with a retry count below the budget survives any
      number of rejected passes unchanged: it is never dropped. */
  lemma {:induction false} AsWrittenNeverDrops(op: SyncOperation, n: nat)
    requires op.retries < MaxRetries
    ensures Fate(AsWritten, op, Rejections(n)) == Some(op)
  {
    if n > 0 {
      assert Rejections(n)[1..] == Rejections(n - 1);
      AsWrittenNeverDrops(op, n - 1);
    }
  }

  /** With the count written back, each rejected pass adds one retry, and the pass that
      pushes the count past the budget drops the operation. */
  lemma {:induction false} WriteBackCountsRetries(op: SyncOperation, n: nat)
    ensures Fate(WriteBack, op, Rejections(n))
      == if n > 0 && op.retries + n > MaxRetries then None
         else Some(op.(retries := op.retries + n))
    decreases n
  {
    if n > 0 {
      assert Rejections(n)[1..] == Rejections(n - 1);
      if op.retries + 1 > MaxRetries {
      } else {
        WriteBackCountsRetries(op.(retries := op.retries + 1), n - 1);
      }
    }
  }

  /** A freshly queued operation (retry count 0) is dropped by its sixth rejected pass
      and not before, once the count is written back. */
  lemma WriteBackDropsAfterSixFailures(op: SyncOperation, n: nat)
    requires op.retries == 0
    ensures Fate(WriteBack, op, Rejections(n)).None? <==> n >= MaxRetries + 1
  {
    WriteBackCountsRetries(op, n);
  }

  /** The outcome of one pass over a snapshot of the queue. */
  datatype PassResult = PassResult(synced: int, failed: int, requests: seq<Request>)

  lemma IdsOfCons(queue: seq<SyncOperation>)
    requires queue != []
    ensures IdsOf(queue) == {queue[0].id} + IdsOf(queue[1..])
  {
    var t := queue[1..];
    forall k | k in IdsOf(queue) ensures k in {queue[0].id} + IdsOf(t) {
      var i :| 0 <= i < |queue| && queue[i].id == k;
      if i > 0 { assert t[i - 1].id == k; }
    }
    forall k | k in IdsOf(t) ensures k in IdsOf(queue) {
      var i :| 0 <= i < |t| && t[i].id == k;
      assert queue[i + 1].id == k;
    }
  }

  /** The store after one replay: a removed operation is deleted; a kept one is written
      back only under `WriteBack` (as written, the store is left as it is). */
  function Settle(policy: RetryPolicy, db: Database, op: SyncOperation, o: RemoteOutcome): (r: Database)
    requires op.id in db.syncQueue && db.syncQueue[op.id] == op
    ensures Lookup(r.syncQueue, op.id) == AfterAttempt(policy, op, o)
    ensures forall k :: k != op.id ==> Lookup(r.syncQueue, k) == Lookup(db.syncQueue, k)
    ensures r.(syncQueue := db.syncQueue) == db
  {
    var next := AfterAttempt(policy, op, o);
    var r := if next.None? then RemoveFromSyncQueue(db, op.id)
             else if policy == WriteBack then AddToSyncQueue(db, next.value)
             else db;
    assert r.(syncQueue := db.syncQueue) == db;
    SettleFrame(db.syncQueue, r.syncQueue, op.id);
    r
  }

  /** Two queues that agree on every key but one agree on every lookup but that one. */
  lemma SettleFrame(q: map<string, SyncOperation>, q1: map<string, SyncOperation>, id: string)
    requires forall k :: k != id ==> (k in q1 <==> k in q)
    requires forall k :: k in q1 && k in q && k != id ==> q1[k] == q[k]
    ensures forall k :: k != id ==> Lookup(q1, k) == Lookup(q, k)
  {
    forall k | k != id ensures Lookup(q1, k) == Lookup(q, k) {
      if k in q1 { assert k in q; }
    }
  }

  /** The rest of a snapshot is still stored, and does not hold its head's id. */
  lemma SnapshotTail(db: Database, db1: Database, queue: seq<SyncOperation>)
    requires queue != [] && DistinctIds(queue) && AllStored(db.syncQueue, queue)
    requires forall k :: k != queue[0].id ==> Lookup(db1.syncQueue, k) == Lookup(db.syncQueue, k)
    ensures DistinctIds(queue[1..]) && AllStored(db1.syncQueue, queue[1..])
    ensures queue[0].id !in IdsOf(queue[1..])
    ensures IdsOf(queue) == {queue[0].id} + IdsOf(queue[1..])
  {
    var t := queue[1..];
    forall i | 0 <= i < |t| ensures t[i].id in db1.syncQueue && db1.syncQueue[t[i].id] == t[i] {
      assert t[i] == queue[i + 1];
      assert queue[i + 1].id != queue[0].id;
      assert Lookup(db1.syncQueue, t[i].id) == Lookup(db.syncQueue, t[i].id);
    }
    assert forall i :: 0 <= i < |t| ==> t[i].id != queue[0].id by {
      forall i | 0 <= i < |t| ensures t[i].id != queue[0].id {
        assert t[i] == queue[i + 1];
      }
    }
    IdsOfCons(queue);
  }

  lemma RejectedCount(outcomes: seq<RemoteOutcome>)
    requires outcomes != []
    ensures multiset(outcomes)[Rejected]
      == (if outcomes[0].Rejected? then 1 else 0) + multiset(outcomes[1..])[Rejected]
  {
    assert outcomes == [outcomes[0]] + outcomes[1..];
  }

  /** The queue after replaying a snapshot in order: each operation's entry becomes what
      `AfterAttempt` leaves of it, and entries outside the snapshot are untouched. Storage
      writes are assumed to succeed. */
  function DrainStore(policy: RetryPolicy, db: Database, queue: seq<SyncOperation>,
                                          outcomes: seq<RemoteOutcome>): (r: Database)
    requires |outcomes| == |queue|
    requires DistinctIds(queue) && AllStored(db.syncQueue, queue)
    ensures r.(syncQueue := db.syncQueue) == db
    ensures forall i :: 0 <= i < |queue| ==>
      Lookup(r.syncQueue, queue[i].id) == AfterAttempt(policy, queue[i], outcomes[i])
    ensures forall k :: k !in IdsOf(queue) ==> Lookup(r.syncQueue, k) == Lookup(db.syncQueue, k)
    decreases |queue|
  {
    if queue == [] then db
    else
      var db1 := Settle(policy, db, queue[0], outcomes[0]);
      SnapshotTail(db, db1, queue);
      var rest := DrainStore(policy, db1, queue[1..], outcomes[1..]);
      assert forall i :: 1 <= i < |queue| ==>
        Lookup(rest.syncQueue, queue[i].id) == AfterAttempt(policy, queue[i], outcomes[i]) by {
        forall i | 1 <= i < |queue|
          ensures Lookup(rest.syncQueue, queue[i].id) == AfterAttempt(policy, queue[i], outcomes[i])
        {
          assert queue[i] == queue[1..][i - 1] && outcomes[i] == outcomes[1..][i - 1];
        }
      }
      rest
  }

  /** The rejected replays of operations whose retry budget the rejection spends. */
  function SpentRejections(queue: seq<SyncOperation>, outcomes: seq<RemoteOutcome>): nat
    requires |outcomes| == |queue|
    decreases |queue|
  {
    if queue == [] then 0
    else
      var spent := if outcomes[0].Rejected? && queue[0].retries + 1 > MaxRetries then 1 else 0;
      spent + SpentRejections(queue[1..], outcomes[1..])
  }

  /** The counts of a pass grow by one step's counts: one success for a resolved replay,
      one failure for a rejected one and a second when the budget is spent. */
  lemma CountStep(queue: seq<SyncOperation>, outcomes: seq<RemoteOutcome>, restSynced: int, restFailed: int)
    requires |outcomes| == |queue| && queue != []
    requires restSynced == |queue| - 1 - multiset(outcomes[1..])[Rejected]
    requires multiset(outcomes[1..])[Rejected] <= restFailed <= 2 * multiset(outcomes[1..])[Rejected]
    requires (forall i :: 0 <= i < |queue| - 1 ==> queue[1..][i].retries < MaxRetries) ==>
      restFailed == multiset(outcomes[1..])[Rejected]
    requires restFailed == multiset(outcomes[1..])[Rejected] + SpentRejections(queue[1..], outcomes[1..])
    ensures var s := if outcomes[0].Resolved? then 1 else 0;
      s + restSynced == |queue| - multiset(outcomes)[Rejected]
    ensures var f := if outcomes[0].Resolved? then 0 else if queue[0].retries + 1 > MaxRetries then 2 else 1;
      && multiset(outcomes)[Rejected] <= f + restFailed <= 2 * multiset(outcomes)[Rejected]
      && ((forall i :: 0 <= i < |queue| ==> queue[i].retries < MaxRetries) ==>
            f + restFailed == multiset(outcomes)[Rejected])
      && f + restFailed == multiset(outcomes)[Rejected] + SpentRejections(queue, outcomes)
  {
    RejectedCount(outcomes);
    if forall i :: 0 <= i < |queue| ==> queue[i].retries < MaxRetries {
      assert forall i :: 0 <= i < |queue| - 1 ==> queue[1..][i] == queue[i + 1];
    }
  }

  /** The counting side of the loop of `processQueue`: every operation of the snapshot
      is replayed in order; a resolved replay counts one success, a rejected one counts
      one failure, and a second failure when its retry budget is spent. The counts do not
      depend on the retry policy. */
  function DrainPass(queue: seq<SyncOperation>, outcomes: seq<RemoteOutcome>): (r: PassResult)
    requires |outcomes| == |queue|
    ensures |r.requests| == |queue|
    ensures forall i :: 0 <= i < |queue| ==> r.requests[i] == Dispatch(queue[i])
    ensures r.synced == |queue| - multiset(outcomes)[Rejected]
    ensures multiset(outcomes)[Rejected] <= r.failed <= 2 * multiset(outcomes)[Rejected]
    ensures (forall i :: 0 <= i < |queue| ==> queue[i].retries < MaxRetries) ==>
      r.failed == multiset(outcomes)[Rejected]
    ensures r.failed == multiset(outcomes)[Rejected] + SpentRejections(queue, outcomes)
    decreases |queue|
  {
    if queue == [] then PassResult(0, 0, [])
    else
      var op := queue[0];
      var o := outcomes[0];
      var rest := DrainPass(queue[1..], outcomes[1..]);
      var s := if o.Resolved? then 1 else 0;
      var f := if o.Resolved? then 0 else if op.retries + 1 > MaxRetries then 2 else 1;
      CountStep(queue, outcomes, rest.synced, rest.failed);
      var requests := [Dispatch(op)] + rest.requests;
      assert forall i :: 1 <= i < |queue| ==> requests[i] == rest.requests[i - 1];
      PassResult(s + rest.synced, f + rest.failed, requests)
  }

  /** A pass over a full listing only removes operations or, under `WriteBack`, rewrites
      them under their own ids; as written, whatever stays is exactly as it was. */
  lemma PassStore(policy: RetryPolicy, db: Database, snapshot: seq<SyncOperation>, outcomes: seq<RemoteOutcome>)
    requires IsQueueListing(db.syncQueue, snapshot) && |outcomes| == |snapshot|
    ensures DrainStore(policy, db, snapshot, outcomes).syncQueue.Keys <= db.syncQueue.Keys
    ensures QueueKeyed(DrainStore(policy, db, snapshot, outcomes).syncQueue)
    ensures policy == AsWritten ==>
      var st := DrainStore(policy, db, snapshot, outcomes).syncQueue;
      forall k :: k in st ==> st[k] == db.syncQueue[k]
  {
    var st := DrainStore(policy, db, snapshot, outcomes).syncQueue;
    forall k | k in st
      ensures k in db.syncQueue && st[k].id == k
      ensures policy == AsWritten ==> st[k] == db.syncQueue[k]
    {
      assert Lookup(st, k).Some?;
      assert k in IdsOf(snapshot);
      var i :| 0 <= i < |snapshot| && snapshot[i].id == k;
      assert Lookup(st, k) == AfterAttempt(policy, snapshot[i], outcomes[i]);
    }
  }

  /** The coordinator's observable state: the connectivity flag, the syncing flag, the
      re-entrancy guard, the status summary and the local store. */
  datatype Coordinator = Coordinator(
    isOnline: bool,
    isSyncing: bool,
    syncInProgress: bool,
    status: SyncStatus,
    db: Database)

  /** The service as constructed: connectivity from the browser, nothing in progress. */
  function Initial(online: bool, db: Database): (r: Coordinator)
    ensures r.isOnline == online && !r.isSyncing && !r.syncInProgress
    ensures r.status.pending == 0 && r.status.lastSyncAt.None?
  {
    Coordinator(online, false, false, InitialStatus, db)
  }

  /** Between transitions no pass is running and the queue keeps every operation under its id. */
  predicate Settled(c: Coordinator) {
    !c.isSyncing && !c.syncInProgress && QueueKeyed(c.db.syncQueue)
  }

  /** `processQueue`, given the listing the queue read returns and the remote outcome of
      each replay. It returns at once while a pass runs or while offline; an empty queue
      only clears the flags; otherwise it drains and records the pass in the status. */
  function ProcessQueue(c: Coordinator, policy: RetryPolicy, now: string,
                        snapshot: seq<SyncOperation>, outcomes: seq<RemoteOutcome>): (r: Coordinator)
    requires IsQueueListing(c.db.syncQueue, snapshot) && |outcomes| == |snapshot|
    ensures r.isOnline == c.isOnline
    ensures c.syncInProgress || !c.isOnline ==> r == c
    ensures !c.syncInProgress && c.isOnline ==> !r.syncInProgress && !r.isSyncing
    ensures snapshot == [] && !c.syncInProgress && c.isOnline ==> r == c.(isSyncing := false)
    ensures r.db.(syncQueue := c.db.syncQueue) == c.db
    ensures r.db.syncQueue.Keys <= c.db.syncQueue.Keys
    ensures QueueKeyed(r.db.syncQueue)
    ensures c.isOnline && !c.syncInProgress && snapshot != [] ==>
      && r.status.pending == |r.db.syncQueue|
      && r.status.synced == |snapshot| - multiset(outcomes)[Rejected]
      && r.status.failed == multiset(outcomes)[Rejected] + SpentRejections(snapshot, outcomes)
      && r.status.lastSyncAt == Some(now)
      && (forall i :: 0 <= i < |snapshot| && outcomes[i].Resolved? ==> snapshot[i].id !in r.db.syncQueue)
    ensures policy == AsWritten ==>
      forall k :: k in r.db.syncQueue ==> r.db.syncQueue[k] == c.db.syncQueue[k]
  {
    if c.syncInProgress || !c.isOnline then c
    else if snapshot == [] then c.(isSyncing := false, syncInProgress := false)
    else
      var store := DrainStore(policy, c.db, snapshot, outcomes);
      var pass := DrainPass(snapshot, outcomes);
      PassStore(policy, c.db, snapshot, outcomes);
      assert forall i :: 0 <= i < |snapshot| && outcomes[i].Resolved? ==>
        Lookup(store.syncQueue, snapshot[i].id).None?;
      c.(isSyncing := false, syncInProgress := false, db := store,
         status := SyncStatus(|store.syncQueue|, pass.synced, pass.failed, Some(now)))
  }

  /** `queueOperation`: stores a new operation with the given id and timestamp and zero
      retries, refreshes the pending count from the queue, and reports whether it then
      starts a drain (which `ProcessQueue` models as the next transition). */
  function QueueOperation(c: Coordinator, id: string, opType: SyncOpType, table: string,
                          data: SyncOperationData, now: int): (r: (Coordinator, bool))
    ensures r.0.db.syncQueue.Keys == c.db.syncQueue.Keys + {id}
    ensures r.0.db.syncQueue[id] == SyncOperation(id, opType, table, data, now, 0)
    ensures forall k :: k in c.db.syncQueue && k != id ==> r.0.db.syncQueue[k] == c.db.syncQueue[k]
    ensures r.0.db.(syncQueue := c.db.syncQueue) == c.db
    ensures r.0.status.pending == |r.0.db.syncQueue|
    ensures id !in c.db.syncQueue ==> r.0.status.pending == |c.db.syncQueue| + 1
    ensures r.0.status.(pending := c.status.pending) == c.status
    ensures r.0.(db := c.db, status := c.status) == c
    ensures r.1 <==> c.isOnline && !c.syncInProgress
  {
    var op := SyncOperation(id, opType, table, data, now, 0);
    var db := AddToSyncQueue(c.db, op);
    (c.(db := db, status := c.status.(pending := |db.syncQueue|)), c.isOnline && !c.syncInProgress)
  }

  datatype SyncError = Offline(message: string)

  /** `forceSyncNow`: drains when online, otherwise fails without touching anything. */
  function ForceSyncNow(c: Coordinator, policy: RetryPolicy, now: string,
                        snapshot: seq<SyncOperation>, outcomes: seq<RemoteOutcome>): (r: Result<Coordinator, SyncError>)
    requires IsQueueListing(c.db.syncQueue, snapshot) && |outcomes| == |snapshot|
    ensures r.Err? <==> !c.isOnline
    ensures r.Err? ==> r.error == Offline("Cannot sync while offline")
    ensures r.Ok? ==> r.value == ProcessQueue(c, policy, now, snapshot, outcomes)
  {
    if c.isOnline then Ok(ProcessQueue(c, policy, now, snapshot, outcomes))
    else Err(Offline("Cannot sync while offline"))
  }

  /** The `online` event: set the flag, then drain. */
  function GoOnline(c: Coordinator, policy: RetryPolicy, now: string,
                    snapshot: seq<SyncOperation>, outcomes: seq<RemoteOutcome>): (r: Coordinator)
    requires IsQueueListing(c.db.syncQueue, snapshot) && |outcomes| == |snapshot|
    ensures r.isOnline
    ensures !c.syncInProgress && snapshot != [] ==> r.status.lastSyncAt == Some(now)
    ensures c.syncInProgress ==> r == c.(isOnline := true)
  {
    ProcessQueue(c.(isOnline := true), policy, now, snapshot, outcomes)
  }

  /** The `offline` event: only the flag changes; a running pass is not interrupted. */
  function GoOffline(c: Coordinator): (r: Coordinator)
    ensures !r.isOnline && r.(isOnline := c.isOnline) == c
  {
    c.(isOnline := false)
  }

  /** The 30-second timer: drain when online and no pass is running. */
  function PeriodicTick(c: Coordinator, policy: RetryPolicy, now: string,
                        snapshot: seq<SyncOperation>, outcomes: seq<RemoteOutcome>): (r: Coordinator)
    requires IsQueueListing(c.db.syncQueue, snapshot) && |outcomes| == |snapshot|
    ensures !c.isOnline || c.syncInProgress ==> r == c
  {
    if c.isOnline && !c.syncInProgress then ProcessQueue(c, policy, now, snapshot, outcomes) else c
  }

  /** The timer's guard repeats the one inside `processQueue`, so a tick is exactly a drain attempt. */
  lemma TickIsProcessQueue(c: Coordinator, policy: RetryPolicy, now: string,
                           snapshot: seq<SyncOperation>, outcomes: seq<RemoteOutcome>)
    requires IsQueueListing(c.db.syncQueue, snapshot) && |outcomes| == |snapshot|
    ensures PeriodicTick(c, policy, now, snapshot, outcomes) == ProcessQueue(c, policy, now, snapshot, outcomes)
  {
  }

  /** Every transition keeps a settled coordinator settled. */
  lemma TransitionsKeepSettled(c: Coordinator, policy: RetryPolicy, now: string,
                               snapshot: seq<SyncOperation>, outcomes: seq<RemoteOutcome>,
                               id: string, opType: SyncOpType, table: string, data: SyncOperationData, ts: int)
    requires Settled(c)
    requires IsQueueListing(c.db.syncQueue, snapshot) && |outcomes| == |snapshot|
    ensures Settled(ProcessQueue(c, policy, now, snapshot, outcomes))
    ensures Settled(GoOnline(c, policy, now, snapshot, outcomes))
    ensures Settled(GoOffline(c))
    ensures Settled(PeriodicTick(c, policy, now, snapshot, outcomes))
    ensures Settled(QueueOperation(c, id, opType, table, data, ts).0)
    ensures ForceSyncNow(c, policy, now, snapshot, outcomes).Ok? ==>
      Settled(ForceSyncNow(c, policy, now, snapshot, outcomes).value)
  {
  }

  /** After a pass whose every replay resolved, the queue is empty and nothing failed. */
  lemma AllResolvedEmptiesQueue(c: Coordinator, policy: RetryPolicy, now: string,
                                snapshot: seq<SyncOperation>, outcomes: seq<RemoteOutcome>)
    requires IsQueueListing(c.db.syncQueue, snapshot) && |outcomes| == |snapshot|
    requires c.isOnline && !c.syncInProgress
    requires forall i :: 0 <= i < |outcomes| ==> outcomes[i].Resolved?
    ensures |ProcessQueue(c, policy, now, snapshot, outcomes).db.syncQueue| == 0
    ensures snapshot != [] ==> ProcessQueue(c, policy, now, snapshot, outcomes).status.failed == 0
  {
    var r := ProcessQueue(c, policy, now, snapshot, outcomes);
    assert multiset(outcomes)[Rejected] == 0;
    assert forall k :: k in r.db.syncQueue ==> k in IdsOf(snapshot);
    assert forall i :: 0 <= i < |snapshot| ==> snapshot[i].id !in r.db.syncQueue;
    assert r.db.syncQueue.Keys == {};
  }

  /** A drain applies `AfterAttempt` to every operation of the snapshot, so the fate of
      one operation over consecutive drains is `Fate` over its outcomes: as written a
      rejected operation stays exactly as queued; with write-back its count advances. */
  lemma DrainAppliesAfterAttempt(c: Coordinator, policy: RetryPolicy, now: string,
                                 snapshot: seq<SyncOperation>, outcomes: seq<RemoteOutcome>, i: int)
    requires IsQueueListing(c.db.syncQueue, snapshot) && |outcomes| == |snapshot|
    requires c.isOnline && !c.syncInProgress && 0 <= i < |snapshot|
    ensures Lookup(ProcessQueue(c, policy, now, snapshot, outcomes).db.syncQueue, snapshot[i].id)
      == AfterAttempt(policy, snapshot[i], outcomes[i])
  {
  }

  /** As written, an operation queued with zero retries and rejected by a drain is still
      queued afterwards with zero retries; with write-back it carries one retry. */
  lemma RejectedFreshOperation(c: Coordinator, policy: RetryPolicy, now: string,
                               snapshot: seq<SyncOperation>, outcomes: seq<RemoteOutcome>, i: int)
    requires IsQueueListing(c.db.syncQueue, snapshot) && |outcomes| == |snapshot|
    requires c.isOnline && !c.syncInProgress && 0 <= i < |snapshot|
    requires snapshot[i].retries == 0 && outcomes[i] == Rejected
    ensures var q := ProcessQueue(c, policy, now, snapshot, outcomes).db.syncQueue;
      snapshot[i].id in q
      && q[snapshot[i].id].retries == (if policy == AsWritten then 0 else 1)
  {
    DrainAppliesAfterAttempt(c, policy, now, snapshot, outcomes, i);
  }
}
