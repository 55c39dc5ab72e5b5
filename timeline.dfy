/**
 * The timeline engine of the administrator's order table: the builder of the
 * default milestone sequence, the status deriver and the two draft edits.
 */
module TimelineEngine {
  import opened Wrappers
  import opened Orders

  const ConfirmedLabel := "Pedido Confirmado"
  const PickedUpLabel := "Recogido por Transportista"
  const InTransitLabel := "En Tránsito"
  const LocalDistributionLabel := "En Distribución Local"
  const DeliveredLabel := "Entregado"

  /** The canonical stage labels, in stage order. */
  const AdminLabels: seq<string> :=
    [ConfirmedLabel, PickedUpLabel, InTransitLabel, LocalDistributionLabel, DeliveredLabel]

  /** How many days after the order date each stage is dated. */
  const DayOffsets: seq<int> := [0, 0, 1, 2, 2]

  /** Whether stage `k` of a built timeline is completed for an order in status `s`. */
  function StageCompleted(s: Status, k: nat): bool {
    if k == 0 then true
    else if k == 1 then s != Pendiente
    else if k == 2 then s == EnTransito || s == Entregado
    else s == Entregado
  }

  // ---------------------------------------------------------------------
  // Completion flags
  // ---------------------------------------------------------------------

  /** No gap: a completed milestone is preceded only by completed ones. */
  predicate CompletedPrefix(tl: Timeline) {
    forall i, j :: 0 <= i < j < |tl| && tl[j].completed ==> tl[i].completed
  }

  function CompletedCount(tl: Timeline): nat {
    if |tl| == 0 then 0 else (if tl[0].completed then 1 else 0) + CompletedCount(tl[1..])
  }

  // ---------------------------------------------------------------------
  // Builder
  // ---------------------------------------------------------------------

  /** The default timeline of an order that has none. */
  function BuildInitialTimeline(o: Order, addDays: Calendar): (r: Timeline)
    ensures |r| == 5
    ensures forall k :: 0 <= k < 5 ==>
      && r[k].stage == AdminLabels[k]
      && r[k].date == addDays(o.date, DayOffsets[k])
      && r[k].completed == StageCompleted(o.status, k)
  {
    [ Milestone(ConfirmedLabel, o.origin, addDays(o.date, 0), "09:00", true),
      Milestone(PickedUpLabel, o.origin, addDays(o.date, 0), "14:15", o.status != Pendiente),
      Milestone(InTransitLabel, "En ruta hacia " + o.destination, addDays(o.date, 1), "11:45",
                o.status == EnTransito || o.status == Entregado),
      Milestone(LocalDistributionLabel, o.destination, addDays(o.date, 2), "Estimado", o.status == Entregado),
      Milestone(DeliveredLabel, o.destination, addDays(o.date, 2), "Estimado", o.status == Entregado) ]
  }

  /**
   * A built timeline has no completion gap, and its completed stages are all
   * five for a delivered order, the first three in transit, only the first
   * when pending, and the first two for any other status.
   */
  lemma BuiltCompletion(o: Order, addDays: Calendar)
    ensures CompletedPrefix(BuildInitialTimeline(o, addDays))
    ensures CompletedCount(BuildInitialTimeline(o, addDays)) ==
      match o.status
      case Entregado => 5
      case EnTransito => 3
      case Pendiente => 1
      case _ => 2
  {
    var r := BuildInitialTimeline(o, addDays);
    assert r[4..][1..] == [];
    assert r[3..][1..] == r[4..];
    assert r[2..][1..] == r[3..];
    assert r[1..][1..] == r[2..];
    assert CompletedCount(r[4..]) == (if r[4].completed then 1 else 0);
    assert CompletedCount(r[3..]) == (if r[3].completed then 1 else 0) + CompletedCount(r[4..]);
    assert CompletedCount(r[2..]) == (if r[2].completed then 1 else 0) + CompletedCount(r[3..]);
    assert CompletedCount(r[1..]) == (if r[1].completed then 1 else 0) + CompletedCount(r[2..]);
  }

  // ---------------------------------------------------------------------
  // Status deriver
  // ---------------------------------------------------------------------

  /** The index of the first milestone with the given stage name (`Array.prototype.find`). */
  function FirstWithStage(tl: Timeline, name: string): (r: Option<nat>)
    ensures r.Some? ==> r.value < |tl| && tl[r.value].stage == name
    ensures r.Some? ==> forall j :: 0 <= j < r.value ==> tl[j].stage != name
    ensures r.None? ==> forall j :: 0 <= j < |tl| ==> tl[j].stage != name
  {
    if |tl| == 0 then None
    else if tl[0].stage == name then Some(0)
    else match FirstWithStage(tl[1..], name)
      case Some(k) => Some(k + 1)
      case None => None
  }

  /** The first milestone carrying a stage name is the one `FirstWithStage` finds. */
  lemma FirstWithStageAt(tl: Timeline, name: string, k: nat)
    requires k < |tl| && tl[k].stage == name
    requires forall j :: 0 <= j < k ==> tl[j].stage != name
    ensures FirstWithStage(tl, name) == Some(k)
  {
  }

  /** `timeline.find(s => s.status === name)?.completed`: a missing stage is not completed. */
  predicate StageDone(tl: Timeline, name: string) {
    match FirstWithStage(tl, name)
    case Some(k) => tl[k].completed
    case None => false
  }

  /** The coarse status a timeline gives an order whose status was `current`. */
  function DeriveStatusFromTimeline(tl: Timeline, current: Status): (r: Status)
    ensures !r.Other?
    ensures r == Cancelado <==> current == Cancelado
    ensures r == Entregado <==> current != Cancelado && StageDone(tl, DeliveredLabel)
    ensures r == EnTransito <==>
      current != Cancelado && !StageDone(tl, DeliveredLabel) && StageDone(tl, InTransitLabel)
  {
    if current == Cancelado then Cancelado
    else if StageDone(tl, DeliveredLabel) then Entregado
    else if StageDone(tl, InTransitLabel) then EnTransito
    else Pendiente
  }

  /** Deriving again from the same timeline changes nothing. */
  lemma DeriveIdempotent(tl: Timeline, current: Status)
    ensures DeriveStatusFromTimeline(tl, DeriveStatusFromTimeline(tl, current)) ==
            DeriveStatusFromTimeline(tl, current)
  {
  }

  /** The builder and the deriver agree on every status but Cancelado, which stays. */
  lemma BuilderDeriverAgree(o: Order, addDays: Calendar)
    ensures o.status in {Pendiente, EnTransito, Entregado, Cancelado} ==>
      DeriveStatusFromTimeline(BuildInitialTimeline(o, addDays), o.status) == o.status
    ensures o.status.Other? ==>
      DeriveStatusFromTimeline(BuildInitialTimeline(o, addDays), o.status) == Pendiente
  {
    var r := BuildInitialTimeline(o, addDays);
    FirstWithStageAt(r, DeliveredLabel, 4);
    FirstWithStageAt(r, InTransitLabel, 2);
  }

  lemma {:induction false} FirstWithStagePrefix(tl: Timeline, rest: Timeline, name: string)
    requires FirstWithStage(tl, name).Some?
    ensures FirstWithStage(tl + rest, name) == FirstWithStage(tl, name)
    decreases |tl|
  {
    if tl[0].stage != name {
      assert (tl + rest)[1..] == tl[1..] + rest;
      FirstWithStagePrefix(tl[1..], rest, name);
    }
  }

  /**
   * Only the first milestone carrying each name is consulted: once both
   * stages occur, whatever follows does not change the derived status.
   */
  lemma DeriveIgnoresLaterMilestones(tl: Timeline, rest: Timeline, current: Status)
    requires exists i :: 0 <= i < |tl| && tl[i].stage == DeliveredLabel
    requires exists i :: 0 <= i < |tl| && tl[i].stage == InTransitLabel
    ensures DeriveStatusFromTimeline(tl + rest, current) == DeriveStatusFromTimeline(tl, current)
  {
    FirstWithStagePrefix(tl, rest, DeliveredLabel);
    FirstWithStagePrefix(tl, rest, InTransitLabel);
    var d := FirstWithStage(tl, DeliveredLabel).value;
    var t := FirstWithStage(tl, InTransitLabel).value;
    assert (tl + rest)[d] == tl[d] && (tl + rest)[t] == tl[t];
  }

  /**
   * What counts is the named stages, not how many stages are completed: with
   * neither `En Tránsito` nor `Entregado` completed the order is pending.
   */
  lemma DeriveWithoutNamedStages(tl: Timeline, current: Status)
    requires current != Cancelado
    requires forall i :: 0 <= i < |tl| && tl[i].completed ==>
      tl[i].stage != DeliveredLabel && tl[i].stage != InTransitLabel
    ensures DeriveStatusFromTimeline(tl, current) == Pendiente
  {
    match FirstWithStage(tl, DeliveredLabel) {
      case Some(k) => assert !tl[k].completed;
      case None =>
    }
    match FirstWithStage(tl, InTransitLabel) {
      case Some(k) => assert !tl[k].completed;
      case None =>
    }
  }

  // ---------------------------------------------------------------------
  // Draft edits
  // ---------------------------------------------------------------------

  /** The milestone fields the editor's text inputs change. */
  datatype Field = Location | Date | Time

  function SetField(m: Milestone, field: Field, value: string): Milestone {
    match field
    case Location => m.(location := value)
    case Date => m.(date := value)
    case Time => m.(time := value)
  }

  /** Milestone `index` gets `value` in `field`; nothing else changes. */
  function UpdateDraftEvent(tl: Timeline, index: int, field: Field, value: string): (r: Timeline)
    ensures |r| == |tl|
    ensures forall i :: 0 <= i < |tl| && i != index ==> r[i] == tl[i]
    ensures 0 <= index < |tl| ==>
      && r[index].stage == tl[index].stage
      && r[index].completed == tl[index].completed
      && r[index].location == (if field == Location then value else tl[index].location)
      && r[index].date == (if field == Date then value else tl[index].date)
      && r[index].time == (if field == Time then value else tl[index].time)
  {
    seq(|tl|, i requires 0 <= i < |tl| => if i == index then SetField(tl[i], field, value) else tl[i])
  }

  /**
   * Milestone `index` takes completion `value`; clearing it also clears
   * every later milestone. Setting it never completes another milestone.
   */
  function ToggleCompleted(tl: Timeline, index: int, value: bool): (r: Timeline)
    ensures |r| == |tl|
    ensures forall i :: 0 <= i < |tl| ==> r[i] == tl[i].(completed := r[i].completed)
    ensures forall i :: 0 <= i < |tl| && i < index ==> r[i] == tl[i]
    ensures 0 <= index < |tl| ==> r[index].completed == value
    ensures forall i :: 0 <= i < |tl| && i > index ==>
      r[i].completed == (value && tl[i].completed)
  {
    seq(|tl|, i requires 0 <= i < |tl| =>
      if i == index then tl[i].(completed := value)
      else if i > index && !value then tl[i].(completed := false)
      else tl[i])
  }

  lemma {:induction false} FirstWithStageSameStages(tl: Timeline, tl': Timeline, name: string)
    requires |tl| == |tl'|
    requires forall i :: 0 <= i < |tl| ==> tl[i].stage == tl'[i].stage
    ensures FirstWithStage(tl, name) == FirstWithStage(tl', name)
    decreases |tl|
  {
    if |tl| > 0 {
      FirstWithStageSameStages(tl[1..], tl'[1..], name);
    }
  }

  /** Editing a location, date or time never changes the derived status. */
  lemma UpdateDraftEventKeepsStatus(tl: Timeline, index: int, field: Field, value: string, current: Status)
    ensures DeriveStatusFromTimeline(UpdateDraftEvent(tl, index, field, value), current) ==
            DeriveStatusFromTimeline(tl, current)
  {
    var r := UpdateDraftEvent(tl, index, field, value);
    FirstWithStageSameStages(r, tl, DeliveredLabel);
    FirstWithStageSameStages(r, tl, InTransitLabel);
  }

  /** Clearing a milestone keeps a gap-free timeline gap-free. */
  lemma ToggleOffKeepsPrefix(tl: Timeline, index: int)
    requires CompletedPrefix(tl)
    ensures CompletedPrefix(ToggleCompleted(tl, index, false))
  {
  }

  /**
   * Completing a milestone keeps the timeline gap-free when its predecessor
   * is completed, which is when the editor enables its checkbox.
   */
  lemma ToggleOnKeepsPrefix(tl: Timeline, index: int)
    requires CompletedPrefix(tl)
    requires 0 <= index < |tl|
    requires index == 0 || tl[index - 1].completed
    ensures CompletedPrefix(ToggleCompleted(tl, index, true))
  {
    var r := ToggleCompleted(tl, index, true);
    forall i, j | 0 <= i < j < |r| && r[j].completed
      ensures r[i].completed
    {
      if j != index && i != index {
        assert tl[j].completed;
      } else if j == index && i < index {
        assert tl[index - 1].completed;
      }
    }
  }
}
