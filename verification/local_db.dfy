/** The browser-local store: eight keyed tables (each a map from primary key to row),
    the sync-queue operations, the workout-table operations, and the ordered listings
    (`getSyncQueue` by timestamp, `getWorkoutExercises` by position). Reads return
    values, so a caller can never alias a stored row. */
module LocalDb {
  import opened Wrappers
  import opened Js
  import opened Enums
  import opened OutputSchema
  import opened InputSchema

  /** The input the workout service records with a generated workout:
      the form parameters, the selected type and the user's profile. */
  datatype GenerationInput = GenerationInput(
    params: map<string, JsValue>,
    workoutType: WorkoutType,
    user: UserProfile)

  /** A saved workout as the workout service writes it (`WorkoutRow`). */
  datatype WorkoutRow = WorkoutRow(
    id: string,
    userId: string,
    workoutType: string,
    data: WorkoutOutput,
    input: Option<GenerationInput>,
    createdAt: string,
    updatedAt: string)

  /** A row of the workout-exercise join table. */
  datatype WorkoutExerciseRow = WorkoutExerciseRow(
    id: string,
    workoutId: string,
    exerciseId: string,
    position: int,
    targetSets: int,
    targetReps: string,
    restSeconds: int,
    notes: Option<string>,
    createdAt: string)

  /** A row of a table whose columns play no part in the modelled logic. */
  datatype Record = Record(id: string, fields: map<string, JsValue>)

  datatype SyncOpType = Create | Update | Delete

  /** The body of a queued write beyond its target id. */
  datatype SyncPayload =
    | RowPayload(row: WorkoutRow)
    | NoFields
    | WorkoutUpdate(data: WorkoutOutput, updatedAt: string)
    | Fields(fields: map<string, JsValue>)

  /** `SyncOperationData`: always carries the id of the remote row it targets. */
  datatype SyncOperationData = SyncOperationData(id: string, payload: SyncPayload)

  datatype SyncOperation = SyncOperation(
    id: string,
    opType: SyncOpType,
    table: string,
    data: SyncOperationData,
    timestamp: int,
    retries: int)

  /** The tables whose rows are kept as opaque records. */
  datatype RecordTable = Exercises | WorkoutSessions | SessionSets | TrainingPlans | PlanWorkouts

  datatype Database = Database(
    exercises: map<string, Record>,
    workouts: map<string, WorkoutRow>,
    workoutExercises: map<string, WorkoutExerciseRow>,
    workoutSessions: map<string, Record>,
    sessionSets: map<string, Record>,
    trainingPlans: map<string, Record>,
    planWorkouts: map<string, Record>,
    syncQueue: map<string, SyncOperation>)

  /** Every stored operation sits under its own id, as the `id` primary key guarantees. */
  predicate QueueKeyed(q: map<string, SyncOperation>) {
    forall k :: k in q ==> q[k].id == k
  }

  predicate WorkoutsKeyed(t: map<string, WorkoutRow>) {
    forall k :: k in t ==> t[k].id == k
  }

  predicate WorkoutExercisesKeyed(t: map<string, WorkoutExerciseRow>) {
    forall k :: k in t ==> t[k].id == k
  }

  function EmptyDatabase(): Database {
    Database(map[], map[], map[], map[], map[], map[], map[], map[])
  }

  // ----- sync queue -----

  /** `addToSyncQueue`: `put` inserts, or overwrites the operation with the same id. */
  function AddToSyncQueue(db: Database, op: SyncOperation): (r: Database)
    ensures r.syncQueue.Keys == db.syncQueue.Keys + {op.id}
    ensures r.syncQueue[op.id] == op
    ensures forall k :: k in db.syncQueue && k != op.id ==> r.syncQueue[k] == db.syncQueue[k]
    ensures QueueKeyed(db.syncQueue) ==> QueueKeyed(r.syncQueue)
    ensures r.(syncQueue := db.syncQueue) == db
  {
    db.(syncQueue := db.syncQueue[op.id := op])
  }

  /** `removeFromSyncQueue`: deletes by id; deleting an absent id changes nothing. */
  function RemoveFromSyncQueue(db: Database, id: string): (r: Database)
    ensures r.syncQueue.Keys == db.syncQueue.Keys - {id}
    ensures forall k :: k in r.syncQueue ==> r.syncQueue[k] == db.syncQueue[k]
    ensures id !in db.syncQueue ==> r == db
    ensures QueueKeyed(db.syncQueue) ==> QueueKeyed(r.syncQueue)
    ensures r.(syncQueue := db.syncQueue) == db
  {
    db.(syncQueue := db.syncQueue - {id})
  }

  /** `clearSyncQueue`. */
  function ClearSyncQueue(db: Database): (r: Database)
    ensures |r.syncQueue| == 0
    ensures r.(syncQueue := db.syncQueue) == db
  {
    db.(syncQueue := map[])
  }

  /** The operation stored under a key, if any. */
  function Lookup(q: map<string, SyncOperation>, k: string): (r: Option<SyncOperation>)
    ensures r.Some? <==> k in q
    ensures r.Some? ==> r.value == q[k]
  {
    if k in q then Some(q[k]) else None
  }

  /** Every listed operation is the one stored under its id. */
  predicate AllStored(q: map<string, SyncOperation>, s: seq<SyncOperation>) {
    forall i :: 0 <= i < |s| ==> s[i].id in q && q[s[i].id] == s[i]
  }

  predicate DistinctIds(s: seq<SyncOperation>) {
    forall i, j :: 0 <= i < j < |s| ==> s[i].id != s[j].id
  }

  function IdsOf(s: seq<SyncOperation>): set<string> {
    set i | 0 <= i < |s| :: s[i].id
  }

  /** A sequence lists a queue when it holds every queued operation exactly once,
      as stored, in non-decreasing timestamp order. */
  predicate IsQueueListing(q: map<string, SyncOperation>, s: seq<SyncOperation>) {
    && AllStored(q, s)
    && DistinctIds(s)
    && q.Keys == IdsOf(s)
    && (forall i, j :: 0 <= i < j < |s| ==> s[i].timestamp <= s[j].timestamp)
  }

  /** A listing has exactly as many entries as the queue has operations. */
  lemma ListingSize(q: map<string, SyncOperation>, s: seq<SyncOperation>)
    requires IsQueueListing(q, s)
    ensures |s| == |q|
  {
    DistinctIdsCount(s);
  }

  /** A sequence with pairwise distinct ids has as many ids as entries. */
  lemma {:induction false} DistinctIdsCount(s: seq<SyncOperation>)
    requires DistinctIds(s)
    ensures |IdsOf(s)| == |s|
  {
    if s != [] {
      var t := s[..|s| - 1];
      DistinctIdsCount(t);
      var ids := IdsOf(s);
      var tids := IdsOf(t);
      assert ids == tids + {s[|s| - 1].id};
      assert s[|s| - 1].id !in tids;
    }
  }

  /** `getSyncQueue`: `orderBy('timestamp').toArray()`. The order among equal
      timestamps is left open. */
  method GetSyncQueue(db: Database) returns (r: seq<SyncOperation>)
    requires QueueKeyed(db.syncQueue)
    ensures IsQueueListing(db.syncQueue, r)
  {
    var q := db.syncQueue;
    var ks := ListBy(q, (op: SyncOperation) => op.timestamp);
    r := seq(|ks|, i requires 0 <= i < |ks| => q[ks[i]]);
    assert forall i :: 0 <= i < |r| ==> r[i].id == ks[i];
    assert q.Keys == IdsOf(r) by {
      forall k | k in q ensures k in IdsOf(r) {
        var i :| 0 <= i < |ks| && ks[i] == k;
        assert r[i].id == k;
      }
    }
  }

  // ----- ordered listing of a keyed table -----

  /** Some key of a non-empty key set carries the least rank. */
  lemma {:induction false} MinRankExists<T>(m: map<string, T>, rank: T -> int, rem: set<string>)
    requires rem != {} && rem <= m.Keys
    ensures exists k :: k in rem && forall k' :: k' in rem ==> rank(m[k]) <= rank(m[k'])
    decreases |rem|
  {
    var x :| x in rem;
    var rest := rem - {x};
    if rest != {} {
      MinRankExists(m, rank, rest);
      var y :| y in rest && forall k' :: k' in rest ==> rank(m[y]) <= rank(m[k']);
      if rank(m[x]) < rank(m[y]) {
        assert forall k' :: k' in rem ==> rank(m[x]) <= rank(m[k']);
      } else {
        assert forall k' :: k' in rem ==> rank(m[y]) <= rank(m[k']);
      }
    } else {
      assert rem == {x};
    }
  }

  /** Every key of `m` exactly once, in non-decreasing order of the rank of its row. */
  method ListBy<T>(m: map<string, T>, rank: T -> int) returns (ks: seq<string>)
    ensures forall i :: 0 <= i < |ks| ==> ks[i] in m
    ensures forall i, j :: 0 <= i < j < |ks| ==> ks[i] != ks[j]
    ensures forall k :: k in m ==> k in ks
    ensures forall i, j :: 0 <= i < j < |ks| ==> rank(m[ks[i]]) <= rank(m[ks[j]])
  {
    ks := [];
    var rem := m.Keys;
    while rem != {}
      invariant rem <= m.Keys
      invariant forall i :: 0 <= i < |ks| ==> ks[i] in m && ks[i] !in rem
      invariant forall i, j :: 0 <= i < j < |ks| ==> ks[i] != ks[j]
      invariant forall k :: k in m ==> k in rem || k in ks
      invariant forall i, j :: 0 <= i < j < |ks| ==> rank(m[ks[i]]) <= rank(m[ks[j]])
      invariant forall i, k :: 0 <= i < |ks| && k in rem ==> rank(m[ks[i]]) <= rank(m[k])
      decreases rem
    {
      MinRankExists(m, rank, rem);
      var k :| k in rem && forall k' :: k' in rem ==> rank(m[k]) <= rank(m[k']);
      ks := ks + [k];
      rem := rem - {k};
    }
  }

  // ----- workouts table -----

  /** `saveWorkout`: `put` by the row's id. */
  function SaveWorkout(db: Database, row: WorkoutRow): (r: Database)
    ensures r.workouts.Keys == db.workouts.Keys + {row.id}
    ensures r.workouts[row.id] == row
    ensures forall k :: k in db.workouts && k != row.id ==> r.workouts[k] == db.workouts[k]
    ensures WorkoutsKeyed(db.workouts) ==> WorkoutsKeyed(r.workouts)
    ensures r.(workouts := db.workouts) == db
  {
    db.(workouts := db.workouts[row.id := row])
  }

  /** `deleteWorkout`: delete by id; absent ids change nothing. */
  function DeleteWorkout(db: Database, id: string): (r: Database)
    ensures r.workouts.Keys == db.workouts.Keys - {id}
    ensures forall k :: k in r.workouts ==> r.workouts[k] == db.workouts[k]
    ensures id !in db.workouts ==> r == db
    ensures r.(workouts := db.workouts) == db
  {
    db.(workouts := db.workouts - {id})
  }

  /** `getWorkoutById`. */
  function GetWorkoutById(db: Database, id: string): (r: Option<WorkoutRow>)
    ensures r.Some? <==> id in db.workouts
    ensures r.Some? ==> r.value == db.workouts[id]
  {
    if id in db.workouts then Some(db.workouts[id]) else None
  }

  /** Saving then reading a workout returns it; deleting then reading returns nothing. */
  lemma SaveThenGet(db: Database, row: WorkoutRow, other: string)
    ensures GetWorkoutById(SaveWorkout(db, row), row.id) == Some(row)
    ensures GetWorkoutById(DeleteWorkout(db, row.id), row.id) == None
    ensures other != row.id ==>
      GetWorkoutById(SaveWorkout(db, row), other) == GetWorkoutById(db, other)
  {
  }

  /** `getWorkouts(userId)`: `where('user_id').equals(userId)`. The order of the
      result is not modelled. */
  method GetWorkouts(db: Database, userId: string) returns (r: seq<WorkoutRow>)
    ensures forall i :: 0 <= i < |r| ==> r[i].userId == userId
    ensures forall i :: 0 <= i < |r| ==> r[i] in db.workouts.Values
    ensures forall k :: k in db.workouts && db.workouts[k].userId == userId ==> db.workouts[k] in r
    ensures WorkoutsKeyed(db.workouts) ==> forall i, j :: 0 <= i < j < |r| ==> r[i].id != r[j].id
  {
    var mine := map k | k in db.workouts && db.workouts[k].userId == userId :: db.workouts[k];
    var ks := ListBy(mine, (w: WorkoutRow) => 0);
    r := seq(|ks|, i requires 0 <= i < |ks| => mine[ks[i]]);
    if WorkoutsKeyed(db.workouts) {
      assert forall i :: 0 <= i < |r| ==> r[i].id == ks[i];
    }
    forall i | 0 <= i < |r| ensures r[i] in db.workouts.Values {
      assert db.workouts[ks[i]] == r[i];
    }
    forall k | k in db.workouts && db.workouts[k].userId == userId
      ensures db.workouts[k] in r
    {
      assert k in mine;
      var i :| 0 <= i < |ks| && ks[i] == k;
      assert r[i] == db.workouts[k];
    }
  }

  // ----- workout-exercises table -----

  /** `getWorkoutExercises(workoutId)`: the rows of that workout sorted by `position`.
      The order among equal positions is left open. */
  method GetWorkoutExercises(db: Database, workoutId: string) returns (r: seq<WorkoutExerciseRow>)
    requires WorkoutExercisesKeyed(db.workoutExercises)
    ensures forall i :: 0 <= i < |r| ==>
      (r[i].workoutId == workoutId && r[i].id in db.workoutExercises
       && db.workoutExercises[r[i].id] == r[i])
    ensures forall k :: k in db.workoutExercises && db.workoutExercises[k].workoutId == workoutId ==>
      db.workoutExercises[k] in r
    ensures forall i, j :: 0 <= i < j < |r| ==> r[i].id != r[j].id
    ensures forall i, j :: 0 <= i < j < |r| ==> r[i].position <= r[j].position
  {
    var t := db.workoutExercises;
    var mine := map k | k in t && t[k].workoutId == workoutId :: t[k];
    var ks := ListBy(mine, (e: WorkoutExerciseRow) => e.position);
    r := seq(|ks|, i requires 0 <= i < |ks| => mine[ks[i]]);
    assert forall i :: 0 <= i < |r| ==> r[i].id == ks[i];
    forall k | k in t && t[k].workoutId == workoutId ensures t[k] in r {
      assert k in mine;
      var i :| 0 <= i < |ks| && ks[i] == k;
      assert r[i] == t[k];
    }
  }

  /** `saveWorkoutExercise`: `put` by the row's id. */
  function SaveWorkoutExercise(db: Database, row: WorkoutExerciseRow): (r: Database)
    ensures r.workoutExercises.Keys == db.workoutExercises.Keys + {row.id}
    ensures r.workoutExercises[row.id] == row
    ensures forall k :: k in db.workoutExercises && k != row.id ==> r.workoutExercises[k] == db.workoutExercises[k]
    ensures WorkoutExercisesKeyed(db.workoutExercises) ==> WorkoutExercisesKeyed(r.workoutExercises)
    ensures r.(workoutExercises := db.workoutExercises) == db
  {
    db.(workoutExercises := db.workoutExercises[row.id := row])
  }

  /** `deleteWorkoutExercise`: delete by id; absent ids change nothing. */
  function DeleteWorkoutExercise(db: Database, id: string): (r: Database)
    ensures r.workoutExercises.Keys == db.workoutExercises.Keys - {id}
    ensures forall k :: k in r.workoutExercises ==> r.workoutExercises[k] == db.workoutExercises[k]
    ensures id !in db.workoutExercises ==> r == db
    ensures r.(workoutExercises := db.workoutExercises) == db
  {
    db.(workoutExercises := db.workoutExercises - {id})
  }

  // ----- opaque tables -----

  function RecordsOf(db: Database, t: RecordTable): map<string, Record> {
    match t
    case Exercises => db.exercises
    case WorkoutSessions => db.workoutSessions
    case SessionSets => db.sessionSets
    case TrainingPlans => db.trainingPlans
    case PlanWorkouts => db.planWorkouts
  }

  function WithRecords(db: Database, t: RecordTable, rows: map<string, Record>): (r: Database)
    ensures RecordsOf(r, t) == rows
    ensures forall u :: u != t ==> RecordsOf(r, u) == RecordsOf(db, u)
    ensures r.workouts == db.workouts && r.workoutExercises == db.workoutExercises
    ensures r.syncQueue == db.syncQueue
  {
    match t
    case Exercises => db.(exercises := rows)
    case WorkoutSessions => db.(workoutSessions := rows)
    case SessionSets => db.(sessionSets := rows)
    case TrainingPlans => db.(trainingPlans := rows)
    case PlanWorkouts => db.(planWorkouts := rows)
  }

  /** `saveExercise`, `saveWorkoutSession`, `saveSessionSet`, `saveTrainingPlan`,
      `savePlanWorkout`: `put` by id into one table. */
  function PutRecord(db: Database, t: RecordTable, rec: Record): (r: Database)
    ensures RecordsOf(r, t) == RecordsOf(db, t)[rec.id := rec]
    ensures forall u :: u != t ==> RecordsOf(r, u) == RecordsOf(db, u)
    ensures r.workouts == db.workouts && r.workoutExercises == db.workoutExercises
    ensures r.syncQueue == db.syncQueue
  {
    WithRecords(db, t, RecordsOf(db, t)[rec.id := rec])
  }

  /** The matching `delete…(id)` operations. */
  function DeleteRecord(db: Database, t: RecordTable, id: string): (r: Database)
    ensures RecordsOf(r, t).Keys == RecordsOf(db, t).Keys - {id}
    ensures forall k :: k in RecordsOf(r, t) ==> RecordsOf(r, t)[k] == RecordsOf(db, t)[k]
    ensures forall u :: u != t ==> RecordsOf(r, u) == RecordsOf(db, u)
    ensures r.workouts == db.workouts && r.workoutExercises == db.workoutExercises
    ensures r.syncQueue == db.syncQueue
  {
    WithRecords(db, t, RecordsOf(db, t) - {id})
  }

  /** Reading a record back after `put` gives it, and deleting a record that was not
      there before the `put` restores the database exactly. */
  lemma PutThenDeleteRecord(db: Database, t: RecordTable, rec: Record)
    ensures rec.id in RecordsOf(PutRecord(db, t, rec), t) && RecordsOf(PutRecord(db, t, rec), t)[rec.id] == rec
    ensures rec.id !in RecordsOf(DeleteRecord(PutRecord(db, t, rec), t, rec.id), t)
    ensures rec.id !in RecordsOf(db, t) ==> DeleteRecord(PutRecord(db, t, rec), t, rec.id) == db
  {
    if rec.id !in RecordsOf(db, t) {
      assert RecordsOf(db, t)[rec.id := rec] - {rec.id} == RecordsOf(db, t);
    }
  }

  /** `clearAllData`: the database is deleted and recreated empty. */
  function ClearAllData(db: Database): (r: Database)
    ensures |r.workouts| == 0 && |r.workoutExercises| == 0 && |r.syncQueue| == 0
    ensures forall t :: |RecordsOf(r, t)| == 0
  {
    EmptyDatabase()
  }
}
