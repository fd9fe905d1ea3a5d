/** The saved-workout page: a pending edit held on top of the service's current row,
    the save that writes it through the service, and the three AI revisions, whose
    results become the pending edit and never touch the saved row. */
module WorkoutDetail {
  import opened Wrappers
  import opened OutputSchema
  import opened LocalDb
  import opened WorkoutFlow

  /** `isEditing`, `error` and the pending `editedWorkout` of the page. */
  datatype Detail = Detail(isEditing: bool, error: Option<string>, editedWorkout: Option<WorkoutOutput>)

  const InitialDetail := Detail(false, None, None)

  /** The page and the service it reads the current row from. */
  datatype Page = Page(detail: Detail, service: Service)

  /** `workout`: the pending edit when there is one, else the current row's data. */
  function Displayed(d: Detail, current: Option<WorkoutRow>): (r: Option<WorkoutOutput>)
    ensures r.None? <==> d.editedWorkout.None? && current.None?
    ensures d.editedWorkout.Some? ==> r == d.editedWorkout
    ensures d.editedWorkout.None? && current.Some? ==> r == Some(current.value.data)
  {
    if d.editedWorkout.Some? then d.editedWorkout
    else if current.Some? then Some(current.value.data)
    else None
  }

  function Shown(p: Page): Option<WorkoutOutput> {
    Displayed(p.detail, p.service.currentWorkout)
  }

  /** The Edit button. */
  function StartEditing(d: Detail): (r: Detail)
    ensures r.isEditing && r.(isEditing := d.isEditing) == d
  {
    d.(isEditing := true)
  }

  /** `cancelEditing`: the pending edit and the error are dropped. */
  function CancelEditing(d: Detail): (r: Detail)
    ensures !r.isEditing && r.error.None? && r.editedWorkout.None?
  {
    InitialDetail
  }

  /** `onWorkoutChanged`: an editor change becomes the pending edit. */
  function OnWorkoutChanged(d: Detail, w: WorkoutOutput): (r: Detail)
    ensures forall current :: Displayed(r, current) == Some(w)
    ensures r.(editedWorkout := d.editedWorkout) == d
  {
    d.(editedWorkout := Some(w))
  }

  /** After cancelling, the page shows exactly the saved row. */
  lemma CancelShowsSavedRow(d: Detail, current: Option<WorkoutRow>)
    ensures current.Some? ==> Displayed(CancelEditing(d), current) == Some(current.value.data)
    ensures current.None? ==> Displayed(CancelEditing(d), current).None?
  {
  }

  /** `onSave`: without a current row or a pending edit nothing happens. A save that
      settles closes editing and drops the pending edit; one that throws keeps both and
      shows the message, or 'Failed to save changes' for a non-`Error`. */
  function OnSave(d: Detail, current: Option<WorkoutRow>, saved: Result<(), Thrown>): (r: Detail)
    ensures current.None? || d.editedWorkout.None? ==> r == d
    ensures current.Some? && d.editedWorkout.Some? && saved.Ok? ==>
      !r.isEditing && r.error.None? && r.editedWorkout.None?
    ensures current.Some? && d.editedWorkout.Some? && saved.Err? ==>
      r.error == Some(MessageOr(saved.error, "Failed to save changes"))
      && r.(error := d.error) == d
  {
    if current.None? || d.editedWorkout.None? then d
    else
      match saved
      case Ok(_) => d.(error := None, editedWorkout := None, isEditing := false)
      case Err(t) => d.(error := Some(MessageOr(t, "Failed to save changes")))
  }

  /** Saving through the service: `updateSavedWorkout` on the current row's id with the
      pending edit. It settles whatever the remote write does, so the page then shows
      the saved data from the updated current row, and the cached row carries it too. */
  lemma SaveShowsSavedData(p: Page, now: string, remote: RemoteWrite, opId: string, timestamp: int)
    requires p.service.currentWorkout.Some? && p.detail.editedWorkout.Some?
    ensures var row := p.service.currentWorkout.value;
      var data := p.detail.editedWorkout.value;
      var s := UpdateSavedWorkout(p.service, row.id, data, now, remote, opId, timestamp);
      var d := OnSave(p.detail, p.service.currentWorkout, Ok(()));
      && Displayed(d, s.currentWorkout) == Some(data)
      && !d.isEditing
      && (row.id in p.service.db.workouts ==> s.db.workouts[row.id].data == data)
  {
  }

  /** How a revision request ends on the page: the revised workout becomes the pending
      edit, or the thrown message (or `fallback`) is shown and the pending edit kept. */
  function RevisionSettled(d: Detail, result: Result<WorkoutOutput, Thrown>, fallback: string): (r: Detail)
    ensures r.isEditing == d.isEditing
    ensures result.Ok? ==> r.error.None? && r.editedWorkout == Some(result.value)
    ensures result.Err? ==>
      r.error == Some(MessageOr(result.error, fallback)) && r.editedWorkout == d.editedWorkout
  {
    match result
    case Ok(w) => d.(error := None, editedWorkout := Some(w))
    case Err(t) => d.(error := Some(MessageOr(t, fallback)))
  }

  /** The stored state a revision must leave alone. */
  predicate SameSavedState(s: Service, t: Service) {
    s.currentWorkout == t.currentWorkout && s.workouts == t.workouts && s.db == t.db
  }

  /** `onWorkoutRevisionRequested`: with nothing shown nothing happens; otherwise the
      service's `reviseSavedWorkout` settles and its result becomes the pending edit. */
  function OnWorkoutRevisionRequested(p: Page, result: ApiResult<WorkoutOutput>): (r: Page)
    ensures Shown(p).None? ==> r == p
    ensures Shown(p).Some? && HasSavedContext(p.service) && result.ApiOk? ==>
      r.detail.editedWorkout == Some(result.value) && r.detail.error.None?
    ensures Shown(p).Some? && HasSavedContext(p.service) && result.ApiFail? ==>
      r.detail.error == Some(MessageOr(result.thrown, "Failed to revise workout"))
      && r.detail.editedWorkout == p.detail.editedWorkout
    ensures Shown(p).Some? && !HasSavedContext(p.service) ==>
      r.detail.error == Some("No saved workout context for revision")
      && r.detail.editedWorkout == p.detail.editedWorkout
    ensures r.detail.isEditing == p.detail.isEditing
    ensures SameSavedState(r.service, p.service)
  {
    if Shown(p).None? then p
    else
      var o := ReviseSavedWorkout(p.service, result);
      Page(RevisionSettled(p.detail, o.result, "Failed to revise workout"), o.state)
  }

  /** `onExerciseRevisionRequested`: the service revises exercise `i` of the workout
      shown, and the whole workout with that exercise replaced becomes the pending edit. */
  function OnExerciseRevisionRequested(p: Page, i: int, result: ApiResult<Exercise>): (r: Page)
    ensures Shown(p).None? ==> r == p
    ensures Shown(p).Some? && HasSavedContext(p.service) && HasExercise(Shown(p).value, i) && result.ApiOk? ==>
      r.detail.editedWorkout == Some(WithExercise(Shown(p).value, i, result.value)) && r.detail.error.None?
    ensures Shown(p).Some? && HasSavedContext(p.service) && HasExercise(Shown(p).value, i) && result.ApiFail? ==>
      r.detail.error == Some(MessageOr(result.thrown, "Failed to revise exercise"))
      && r.detail.editedWorkout == p.detail.editedWorkout
    ensures Shown(p).Some? && HasSavedContext(p.service) && !HasExercise(Shown(p).value, i) ==>
      r.detail.error.Some? && r.detail.editedWorkout == p.detail.editedWorkout
    ensures r.detail.isEditing == p.detail.isEditing
    ensures SameSavedState(r.service, p.service)
  {
    if Shown(p).None? then p
    else
      var o := ReviseSavedExercise(p.service, Shown(p).value, i, result);
      Page(RevisionSettled(p.detail, o.result, "Failed to revise exercise"), o.state)
  }

  /** `onIntervalRevisionRequested`. */
  function OnIntervalRevisionRequested(p: Page, i: int, result: ApiResult<Interval>): (r: Page)
    ensures Shown(p).None? ==> r == p
    ensures Shown(p).Some? && HasSavedContext(p.service) && HasInterval(Shown(p).value, i) && result.ApiOk? ==>
      r.detail.editedWorkout == Some(WithInterval(Shown(p).value, i, result.value)) && r.detail.error.None?
    ensures Shown(p).Some? && HasSavedContext(p.service) && HasInterval(Shown(p).value, i) && result.ApiFail? ==>
      r.detail.error == Some(MessageOr(result.thrown, "Failed to revise interval"))
      && r.detail.editedWorkout == p.detail.editedWorkout
    ensures Shown(p).Some? && HasSavedContext(p.service) && !HasInterval(Shown(p).value, i) ==>
      r.detail.error.Some? && r.detail.editedWorkout == p.detail.editedWorkout
    ensures r.detail.isEditing == p.detail.isEditing
    ensures SameSavedState(r.service, p.service)
  {
    if Shown(p).None? then p
    else
      var o := ReviseSavedInterval(p.service, Shown(p).value, i, result);
      Page(RevisionSettled(p.detail, o.result, "Failed to revise interval"), o.state)
  }

  /** Revisions are only pending edits: whatever a revision returns, cancelling
      afterwards shows the saved row exactly as before. */
  lemma RevisionsArePendingOnly(p: Page, i: int, rw: ApiResult<WorkoutOutput>,
                                re: ApiResult<Exercise>, ri: ApiResult<Interval>)
    requires p.service.currentWorkout.Some?
    ensures var r := OnWorkoutRevisionRequested(p, rw);
      Displayed(CancelEditing(r.detail), r.service.currentWorkout) == Some(p.service.currentWorkout.value.data)
    ensures var r := OnExerciseRevisionRequested(p, i, re);
      Displayed(CancelEditing(r.detail), r.service.currentWorkout) == Some(p.service.currentWorkout.value.data)
    ensures var r := OnIntervalRevisionRequested(p, i, ri);
      Displayed(CancelEditing(r.detail), r.service.currentWorkout) == Some(p.service.currentWorkout.value.data)
  {
  }

  /** A revised exercise that is then saved is what the current row holds afterwards:
      the saved data is the shown workout with exactly that exercise replaced. */
  lemma RevisedExerciseIsSaved(p: Page, i: int, e: Exercise, now: string, remote: RemoteWrite,
                               opId: string, timestamp: int)
    requires HasSavedContext(p.service) && Shown(p).Some? && HasExercise(Shown(p).value, i)
    ensures var q := OnExerciseRevisionRequested(p, i, ApiOk(e));
      var row := q.service.currentWorkout.value;
      var s := UpdateSavedWorkout(q.service, row.id, q.detail.editedWorkout.value, now, remote, opId, timestamp);
      s.currentWorkout.Some? && s.currentWorkout.value.data == WithExercise(Shown(p).value, i, e)
  {
  }
}
