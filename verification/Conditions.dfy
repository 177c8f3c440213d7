/** Status conditions: the list operations and the transitions the operator applies to them. */
module Conditions {
  import opened Objects

  /** The first entry of the given type (`meta.FindStatusCondition`). */
  function Find(conditions: seq<Condition>, kind: ConditionType): Option<Condition> {
    if |conditions| == 0 then None
    else if conditions[0].kind == kind then Some(conditions[0])
    else Find(conditions[1..], kind)
  }

  predicate IsStatusConditionTrue(conditions: seq<Condition>, kind: ConditionType) {
    var found := Find(conditions, kind);
    found.Some? && found.value.status.True?
  }

  /** The test that gates the node on its data. */
  predicate Restored(conditions: seq<Condition>) {
    IsStatusConditionTrue(conditions, Restore)
  }

  /** The test looks at the first entry of the type `Restore`, and passes only on a plain true. */
  lemma {:induction false} RestoredMeans(conditions: seq<Condition>)
    ensures Restored(conditions) <==>
            exists i :: 0 <= i < |conditions| && FirstOf(conditions, i, Restore)
                        && conditions[i].status == ConditionStatus.True
  {
    if |conditions| > 0 {
      var rest := conditions[1..];
      RestoredMeans(rest);
      if conditions[0].kind == Restore {
        assert FirstOf(conditions, 0, Restore);
      } else {
        assert forall i :: 0 <= i < |rest| ==> (FirstOf(rest, i, Restore) <==> FirstOf(conditions, i + 1, Restore));
        assert Restored(conditions) <==> Restored(rest);
      }
    }
  }

  predicate FirstOf(conditions: seq<Condition>, i: nat, kind: ConditionType)
    requires i < |conditions|
  {
    conditions[i].kind == kind && forall j :: 0 <= j < i ==> conditions[j].kind != kind
  }

  /** `meta.SetStatusCondition`: update in place by type, append when missing; the transition time moves only when
      the status does. */
  function SetStatusCondition(conditions: seq<Condition>, c: Condition, now: int): (r: seq<Condition>)
    ensures Find(r, c.kind).Some?
    ensures Find(r, c.kind).value.status == c.status && Find(r, c.kind).value.reason == c.reason
    ensures forall t :: t != c.kind ==> Find(r, t) == Find(conditions, t)
  {
    if |conditions| == 0 then
      [c.(lastTransition := now)]
    else if conditions[0].kind == c.kind then
      var present := conditions[0];
      var since := if present.status == c.status then present.lastTransition else now;
      var r := [c.(lastTransition := since)] + conditions[1..];
      assert r[1..] == conditions[1..];
      r
    else
      var rest := SetStatusCondition(conditions[1..], c, now);
      var r := [conditions[0]] + rest;
      assert r[1..] == rest;
      r
  }

  /** The list after a whole batch of transitions, in order. */
  function ApplyAll(conditions: seq<Condition>, transitions: seq<Condition>, now: int): seq<Condition> {
    if |transitions| == 0 then conditions
    else SetStatusCondition(ApplyAll(conditions, transitions[..|transitions| - 1], now),
        transitions[|transitions| - 1], now)
  }

  // ---- The two typed status enumerations ----

  datatype RestoreStatus = RestorePending | Restoring | Success | Failed | Skipped {
    function Status(): ConditionStatus {
      match this
      case RestorePending => ConditionStatus.False
      case Restoring => ConditionStatus.False
      case Failed => ConditionStatus.False
      case Success => ConditionStatus.True
      case Skipped => ConditionStatus.True
    }
  }

  datatype AvailableStatus =
    | AvailablePending
    | AvailableCreating
    | AvailableCatchingUp
    | Ready
    | AvailableFailed
    | AvailableUnknown
  {
    function Status(): ConditionStatus {
      match this
      case Ready => ConditionStatus.True
      case AvailableFailed => ConditionStatus.False
      case _ => ConditionStatus.Unknown
    }
  }

  // ---- The transitions ----

  const RESTORE_PENDING := Condition(Restore, RestorePending.Status(), Reason.Pending, 0)
  const AVAILABLE_PENDING := Condition(Available, AvailablePending.Status(), Reason.Pending, 0)
  const AVAILABLE_CREATING := Condition(Available, AvailableCreating.Status(), Creating, 0)
  const AVAILABLE_CATCHING_UP := Condition(Available, AvailableCatchingUp.Status(), CatchingUp, 0)
  const ARCHIVE_FINISHED := Condition(Restore, ConditionStatus.True, ArchiveJobFinished, 0)
  const RESTORE_FAILED := Condition(Restore, ConditionStatus.False, ArchiveJobFailed, 0)
  const RESTORE_SKIPPED := Condition(Restore, ConditionStatus.True, ArchiveRestoreSkipped, 0)
  const RESTORE_PROGRESSING := Condition(Restore, ConditionStatus.False, ArchiveJobProgressing, 0)

  /** The places where the operator stores its conditions; the Job or Pod is the local copy it holds there. */
  datatype StatusWrite =
    | Initialize
    | ResetRestore
    | SkipRestore
    | StartRestore
    | FinishRestore(seen: Job)
    | FailRestore(seen: Job)
    | MarkCreating(made: Pod)
    | MarkCatchingUp

  function Transitions(w: StatusWrite): seq<Condition> {
    match w
    case Initialize => [RESTORE_PENDING, AVAILABLE_PENDING]
    case ResetRestore => [RESTORE_PENDING]
    case SkipRestore => [RESTORE_SKIPPED]
    case StartRestore => [RESTORE_PROGRESSING]
    case FinishRestore(_) => [ARCHIVE_FINISHED]
    case FailRestore(_) => [RESTORE_FAILED]
    case MarkCreating(_) => [AVAILABLE_CREATING]
    case MarkCatchingUp => [AVAILABLE_CATCHING_UP]
  }

  function Write(conditions: seq<Condition>, w: StatusWrite, now: int): seq<Condition> {
    ApplyAll(conditions, Transitions(w), now)
  }

  lemma ApplyAllSnoc(conditions: seq<Condition>, ts: seq<Condition>, c: Condition, now: int)
    ensures ApplyAll(conditions, ts + [c], now) == SetStatusCondition(ApplyAll(conditions, ts, now), c, now)
  {
    assert (ts + [c])[..|ts|] == ts;
  }

  /** A batch of one is one `SetStatusCondition`; the initial batch is two. */
  lemma WriteUnfolds(conditions: seq<Condition>, w: StatusWrite, now: int)
    ensures w.Initialize? ==>
              Write(conditions, w, now) ==
              SetStatusCondition(SetStatusCondition(conditions, RESTORE_PENDING, now), AVAILABLE_PENDING, now)
    ensures !w.Initialize? ==> Write(conditions, w, now) == SetStatusCondition(conditions, Transitions(w)[0], now)
  {
    ApplyAllSnoc(conditions, [], Transitions(w)[0], now);
    assert [] + [Transitions(w)[0]] == [Transitions(w)[0]];
    ApplyAllSnoc(conditions, [RESTORE_PENDING], AVAILABLE_PENDING, now);
    assert [RESTORE_PENDING] + [AVAILABLE_PENDING] == Transitions(Initialize);
  }

  // ---- The shape the operator gives the list ----

  predicate RestoreEntry(c: Condition) {
    && c.kind == Restore
    && match c.reason
       case Pending => c.status.False?
       case ArchiveJobProgressing => c.status.False?
       case ArchiveJobFailed => c.status.False?
       case ArchiveJobFinished => c.status.True?
       case ArchiveRestoreSkipped => c.status.True?
       case _ => false
  }

  predicate AvailableEntry(c: Condition) {
    && c.kind == Available
    && c.status.Unknown?
    && (c.reason.Pending? || c.reason.Creating? || c.reason.CatchingUp?)
  }

  predicate Shaped(conditions: seq<Condition>) {
    && |conditions| == 2
    && RestoreEntry(conditions[0])
    && AvailableEntry(conditions[1])
  }

  /** The initial write turns the empty list into a shaped one, and every other write keeps it shaped, rewriting
      the entry it is for and leaving the other as it was. */
  lemma WriteShapes(conditions: seq<Condition>, w: StatusWrite, now: int)
    requires if w.Initialize? then conditions == [] else Shaped(conditions)
    ensures var r := Write(conditions, w, now);
            && Shaped(r)
            && Restored(r) == r[0].status.True?
            && (w.Initialize? ==> r[0].reason == r[1].reason == Reason.Pending)
            && (w.MarkCreating? ==> r == [conditions[0], r[1]] && r[1].reason == Creating)
            && (w.MarkCatchingUp? ==> r == [conditions[0], conditions[1].(reason := CatchingUp)])
            && (!w.Initialize? && !w.MarkCreating? && !w.MarkCatchingUp? ==>
                  && r == [r[0], conditions[1]]
                  && r[0].status == Transitions(w)[0].status && r[0].reason == Transitions(w)[0].reason)
  {
    WriteUnfolds(conditions, w, now);
    if w.Initialize? {
      var first := SetStatusCondition([], RESTORE_PENDING, now);
      assert first == [RESTORE_PENDING.(lastTransition := now)];
      assert first[1..] == [];
    } else {
      var tail := conditions[1..];
      assert tail == [conditions[1]] && tail[1..] == [];
    }
  }
}
