/** The workout editor: the warm-up and cool-down lists edited in a local buffer and
    applied back to the workout, and the manual replacement of one exercise or interval.
    Every change the editor makes leaves the component as a `workoutChanged` event,
    modelled here as the `emitted` part of a `Step`. */
module WorkoutEditor {
  import opened Wrappers
  import opened Text
  import opened OutputSchema
  import WorkoutFlow

  /** The two string lists the editor lets the user edit line by line. */
  datatype ListKind = Warmup | Cooldown

  /** One list's edit state: whether it is open for editing, and its edit buffer. */
  datatype ListEdit = ListEdit(editing: bool, items: seq<string>)

  /** `isEditingWarmup`/`editWarmup` and `isEditingCooldown`/`editCooldown`. */
  datatype Editor = Editor(warmup: ListEdit, cooldown: ListEdit) {

    function Get(k: ListKind): ListEdit {
      match k
      case Warmup => warmup
      case Cooldown => cooldown
    }

    function Set(k: ListKind, le: ListEdit): (r: Editor)
      ensures r.Get(k) == le
      ensures forall other :: other != k ==> r.Get(other) == Get(other)
    {
      match k
      case Warmup => this.(warmup := le)
      case Cooldown => this.(cooldown := le)
    }
  }

  /** Neither list is open and both buffers are empty. */
  const InitialEditor := Editor(ListEdit(false, []), ListEdit(false, []))

  /** The editor state after an action, and the workout it emitted, if any. */
  datatype Step = Step(editor: Editor, emitted: Option<WorkoutOutput>)

  function ListOf(w: WorkoutOutput, k: ListKind): seq<string> {
    match k
    case Warmup => w.warmup
    case Cooldown => w.cooldown
  }

  /** `{ ...workout, warmup: items }` or `{ ...workout, cooldown: items }`. */
  function WithList(w: WorkoutOutput, k: ListKind, items: seq<string>): (r: WorkoutOutput)
    ensures ListOf(r, k) == items
    ensures forall other :: other != k ==> ListOf(r, other) == ListOf(w, other)
    ensures r.(warmup := w.warmup, cooldown := w.cooldown) == w
  {
    match k
    case Warmup => w.(warmup := items)
    case Cooldown => w.(cooldown := items)
  }

  /** `items.filter((item) => item.trim().length > 0)`: blank lines are dropped and
      every other line is kept, as often as it occurs. */
  function NonBlank(items: seq<string>): (r: seq<string>)
    ensures |r| <= |items|
    ensures forall i :: 0 <= i < |r| ==> Trim(r[i]) != []
  {
    if items == [] then []
    else if Trim(items[0]) != [] then [items[0]] + NonBlank(items[1..])
    else NonBlank(items[1..])
  }

  /** The filter keeps every non-blank line as often as it occurs, and nothing else. */
  lemma {:induction false} NonBlankCounts(items: seq<string>, x: string)
    ensures multiset(NonBlank(items))[x] == if Trim(x) == [] then 0 else multiset(items)[x]
  {
    if items != [] {
      var h, t := items[0], items[1..];
      NonBlankCounts(t, x);
      assert items == [h] + t;
      assert multiset(items) == multiset{h} + multiset(t);
      if Trim(h) != [] {
        assert multiset(NonBlank(items)) == multiset{h} + multiset(NonBlank(t));
      } else {
        assert NonBlank(items) == NonBlank(t);
        assert h != x || Trim(x) == [];
      }
    }
  }

  /** The filter keeps order: filtering a concatenation is concatenating the filtered
      parts, so each kept line stays before the lines that followed it. */
  lemma {:induction false} NonBlankConcat(a: seq<string>, b: seq<string>)
    ensures NonBlank(a + b) == NonBlank(a) + NonBlank(b)
    decreases |a|
  {
    if a != [] {
      assert (a + b)[0] == a[0];
      assert (a + b)[1..] == a[1..] + b;
      NonBlankConcat(a[1..], b);
    } else {
      assert a + b == b;
    }
  }

  /** A list whose lines are all non-blank passes the filter unchanged. */
  lemma {:induction false} NonBlankKeepsNonBlank(items: seq<string>)
    requires forall i :: 0 <= i < |items| ==> Trim(items[i]) != []
    ensures NonBlank(items) == items
  {
    if items != [] {
      NonBlankKeepsNonBlank(items[1..]);
      assert NonBlank(items) == [items[0]] + NonBlank(items[1..]);
    }
  }

  /** Filtering twice is filtering once. */
  lemma NonBlankIdempotent(items: seq<string>)
    ensures NonBlank(NonBlank(items)) == NonBlank(items)
  {
    NonBlankKeepsNonBlank(NonBlank(items));
  }

  /** An added empty line never reaches the workout: it is blank when applied. */
  lemma {:induction false} AddedItemDropped(items: seq<string>)
    ensures NonBlank(items + [""]) == NonBlank(items)
  {
    TrimEmptyIffBlank("");
    if items == [] {
      assert items + [""] == [""];
    } else {
      assert (items + [""])[1..] == items[1..] + [""];
      AddedItemDropped(items[1..]);
    }
  }

  /** `applyWarmupEdits` / `applyCooldownEdits`: the workout with the edited list,
      blank lines dropped, and everything else as it was. */
  function ApplyEdits(w: WorkoutOutput, k: ListKind, items: seq<string>): (r: WorkoutOutput)
    ensures ListOf(r, k) == NonBlank(items)
    ensures forall other :: other != k ==> ListOf(r, other) == ListOf(w, other)
    ensures r.(warmup := w.warmup, cooldown := w.cooldown) == w
    ensures WorkoutTypeOf(r) == WorkoutTypeOf(w)
    ensures ValidWorkoutOutput(w) ==> ValidWorkoutOutput(r)
  {
    var r := WithList(w, k, NonBlank(items));
    assert ValidWorkoutOutput(w) ==> ValidWorkoutOutput(r) by {
      if ValidWorkoutOutput(w) {
        WarmupCooldownUnconstrained(w, r.warmup, r.cooldown);
      }
    }
    r
  }

  /** `toggleWarmupEdit` / `toggleCooldownEdit`: closing the list applies the buffer and
      emits; opening it copies the workout's list into the buffer and emits nothing. */
  function ToggleEdit(w: WorkoutOutput, e: Editor, k: ListKind): (r: Step)
    ensures r.editor.Get(k).editing == !e.Get(k).editing
    ensures forall other :: other != k ==> r.editor.Get(other) == e.Get(other)
    ensures r.emitted.Some? <==> e.Get(k).editing
    ensures e.Get(k).editing ==>
      r.editor.Get(k).items == e.Get(k).items && r.emitted == Some(ApplyEdits(w, k, e.Get(k).items))
    ensures !e.Get(k).editing ==> r.editor.Get(k).items == ListOf(w, k)
  {
    var le := e.Get(k);
    if le.editing then
      Step(e.Set(k, ListEdit(false, le.items)), Some(ApplyEdits(w, k, le.items)))
    else
      Step(e.Set(k, ListEdit(true, ListOf(w, k))), None)
  }

  /** `a[index] = value` on a JavaScript array of strings. A negative index names a
      property outside the array, so the elements are unchanged; the index one past the
      end appends. */
  function SetAt<T>(a: seq<T>, i: int, v: T): (r: seq<T>)
    requires i <= |a|
    ensures i < 0 ==> r == a
    ensures 0 <= i < |a| ==> |r| == |a| && r[i] == v && forall j :: 0 <= j < |a| && j != i ==> r[j] == a[j]
    ensures i == |a| ==> |r| == |a| + 1 && r[..|a|] == a && r[|a|] == v
  {
    if i < 0 then a else if i == |a| then a + [v] else a[i := v]
  }

  /** The index `splice(start, 1)` removes at: a negative start counts from the end and is
      clamped at 0; a start at or past the end removes nothing. */
  function SpliceStart(len: nat, start: int): (k: nat)
    ensures 0 <= start ==> k == start
    ensures start < 0 && 0 <= len + start ==> k == len + start
    ensures len + start < 0 ==> k == 0
  {
    if start >= 0 then start else if len + start >= 0 then len + start else 0
  }

  /** `a.splice(start, 1)` as it leaves `a`. */
  function Splice1<T>(a: seq<T>, start: int): (r: seq<T>)
    ensures var k := SpliceStart(|a|, start);
      (k < |a| ==>
        |r| == |a| - 1
        && (forall j :: 0 <= j < k ==> r[j] == a[j])
        && (forall j :: k <= j < |r| ==> r[j] == a[j + 1]))
      && (k >= |a| ==> r == a)
  {
    var k := SpliceStart(|a|, start);
    if k < |a| then a[..k] + a[k + 1..] else a
  }

  /** The element `splice` removes is the only one lost: the buffer keeps every other
      line, as often as it occurred. */
  lemma SpliceRemovesOne<T>(a: seq<T>, start: int)
    ensures var k := SpliceStart(|a|, start);
      k < |a| ==> multiset(Splice1(a, start)) + multiset{a[k]} == multiset(a)
  {
    var k := SpliceStart(|a|, start);
    if k < |a| {
      assert a == a[..k] + [a[k]] + a[k + 1..];
      assert Splice1(a, start) == a[..k] + a[k + 1..];
    }
  }

  /** `updateWarmupItem` / `updateCooldownItem`: only the buffer changes. */
  function UpdateItem(e: Editor, k: ListKind, i: int, v: string): (r: Editor)
    requires i <= |e.Get(k).items|
    ensures r.Get(k).editing == e.Get(k).editing
    ensures r.Get(k).items == SetAt(e.Get(k).items, i, v)
    ensures forall other :: other != k ==> r.Get(other) == e.Get(other)
  {
    var le := e.Get(k);
    e.Set(k, le.(items := SetAt(le.items, i, v)))
  }

  /** `removeWarmupItem` / `removeCooldownItem`: the line leaves the buffer and the
      buffer is applied to the workout at once. */
  function RemoveItem(w: WorkoutOutput, e: Editor, k: ListKind, i: int): (r: Step)
    ensures r.editor.Get(k).editing == e.Get(k).editing
    ensures r.editor.Get(k).items == Splice1(e.Get(k).items, i)
    ensures forall other :: other != k ==> r.editor.Get(other) == e.Get(other)
    ensures r.emitted == Some(ApplyEdits(w, k, r.editor.Get(k).items))
  {
    var le := e.Get(k);
    var items := Splice1(le.items, i);
    Step(e.Set(k, le.(items := items)), Some(ApplyEdits(w, k, items)))
  }

  /** `addWarmupItem` / `addCooldownItem`: an empty line at the end of the buffer. */
  function AddItem(e: Editor, k: ListKind): (r: Editor)
    ensures r.Get(k).editing == e.Get(k).editing
    ensures |r.Get(k).items| == |e.Get(k).items| + 1
    ensures r.Get(k).items[..|e.Get(k).items|] == e.Get(k).items
    ensures r.Get(k).items[|e.Get(k).items|] == ""
    ensures forall other :: other != k ==> r.Get(other) == e.Get(other)
  {
    var le := e.Get(k);
    e.Set(k, le.(items := le.items + [""]))
  }

  /** Adding a line and then closing the list emits what closing it straight away would:
      the new line is still empty. */
  lemma AddThenCloseIgnoresEmptyLine(w: WorkoutOutput, e: Editor, k: ListKind)
    requires e.Get(k).editing
    ensures ToggleEdit(w, AddItem(e, k), k).emitted == ToggleEdit(w, e, k).emitted
  {
    AddedItemDropped(e.Get(k).items);
  }

  /** Opening and closing a list without editing emits the workout unchanged when none
      of its lines is blank. */
  lemma ToggleTwiceWithoutEdits(w: WorkoutOutput, e: Editor, k: ListKind)
    requires !e.Get(k).editing
    requires forall i :: 0 <= i < |ListOf(w, k)| ==> Trim(ListOf(w, k)[i]) != []
    ensures var s := ToggleEdit(w, ToggleEdit(w, e, k).editor, k);
      s.emitted == Some(w) && s.editor.Get(k).editing == false
  {
    NonBlankKeepsNonBlank(ListOf(w, k));
    var r := ApplyEdits(w, k, ListOf(w, k));
    assert ListOf(r, k) == ListOf(w, k);
    assert forall other :: ListOf(r, other) == ListOf(w, other);
    assert r.warmup == ListOf(r, Warmup) && r.cooldown == ListOf(r, Cooldown);
  }

  /** `onExerciseChanged`: a conditioning workout has no exercises and nothing is
      emitted; otherwise the workout with `exercises[index]` replaced. */
  function OnExerciseChanged(w: WorkoutOutput, index: int, ex: Exercise): (r: Option<WorkoutOutput>)
    requires !w.ConditioningOutput? ==> index <= |w.exercises|
    ensures r.None? <==> w.ConditioningOutput?
    ensures r.Some? ==>
      !r.value.ConditioningOutput? && r.value.exercises == SetAt(w.exercises, index, ex)
      && r.value.(exercises := w.exercises) == w
  {
    if w.ConditioningOutput? then None
    else Some(w.(exercises := SetAt(w.exercises, index, ex)))
  }

  /** `onIntervalChanged`: only a conditioning workout has intervals. */
  function OnIntervalChanged(w: WorkoutOutput, index: int, iv: Interval): (r: Option<WorkoutOutput>)
    requires w.ConditioningOutput? ==> index <= |w.intervals|
    ensures r.Some? <==> w.ConditioningOutput?
    ensures r.Some? ==>
      r.value.ConditioningOutput? && r.value.intervals == SetAt(w.intervals, index, iv)
      && r.value.(intervals := w.intervals) == w
  {
    if !w.ConditioningOutput? then None
    else Some(w.(intervals := SetAt(w.intervals, index, iv)))
  }

  /** A manual edit of an existing exercise or interval produces the same workout as the
      service's AI revision of it, so the two paths agree, and it keeps a valid workout
      valid when the replacement is valid. */
  lemma ManualEditAgreesWithRevision(w: WorkoutOutput, i: int, ex: Exercise, iv: Interval)
    ensures WorkoutFlow.HasExercise(w, i) ==>
      OnExerciseChanged(w, i, ex) == Some(WorkoutFlow.WithExercise(w, i, ex))
      && (ValidWorkoutOutput(w) && ValidExercise(ex) ==> ValidWorkoutOutput(OnExerciseChanged(w, i, ex).value))
    ensures WorkoutFlow.HasInterval(w, i) ==>
      OnIntervalChanged(w, i, iv) == Some(WorkoutFlow.WithInterval(w, i, iv))
      && (ValidWorkoutOutput(w) && ValidInterval(iv) ==> ValidWorkoutOutput(OnIntervalChanged(w, i, iv).value))
  {
    if WorkoutFlow.HasExercise(w, i) && ValidWorkoutOutput(w) && ValidExercise(ex) {
      WorkoutFlow.WithExerciseKeepsValid(w, i, ex);
    }
    if WorkoutFlow.HasInterval(w, i) && ValidWorkoutOutput(w) && ValidInterval(iv) {
      WorkoutFlow.WithIntervalKeepsValid(w, i, iv);
    }
  }
}
