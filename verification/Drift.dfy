/** The generic drift-repair loop behind `CreateOrReconcile`. */
module Drift {
  import opened Objects

  /** A check may also dereference a nil pointer, which in Go unwinds the whole pass. */
  datatype Verdict = UpToDate | Drifted | Panics

  datatype ObjectReconciler = ObjectReconciler(
    name: string,
    isUpToDate: Object -> Verdict,
    update: Object -> Option<Object>)

  datatype Repaired = Settled(payload: Object, updated: bool) | Broken | Crashed

  function Repair(o: Object, reconcilers: seq<ObjectReconciler>): Repaired
    decreases |reconcilers|
  {
    if |reconcilers| == 0 then Settled(o, false)
    else
      match reconcilers[0].isUpToDate(o)
      case Panics => Crashed
      case UpToDate => Repair(o, reconcilers[1..])
      case Drifted =>
        match reconcilers[0].update(o)
        case None => Broken
        case Some(changed) => Touched(Repair(changed, reconcilers[1..]))
  }

  function Touched(r: Repaired): Repaired {
    if r.Settled? then r.(updated := true) else r
  }

  /** The loop over a single repair. */
  lemma RepairOfOne(o: Object, r: ObjectReconciler)
    ensures Repair(o, [r]) ==
            match r.isUpToDate(o)
            case UpToDate => Settled(o, false)
            case Panics => Crashed
            case Drifted => if r.update(o).Some? then Settled(r.update(o).value, true) else Broken
  {
    assert [r][1..] == [];
  }

  predicate AllUpToDate(o: Object, reconcilers: seq<ObjectReconciler>) {
    forall i :: 0 <= i < |reconcilers| ==> reconcilers[i].isUpToDate(o) == UpToDate
  }

  /** Each update establishes its own check. */
  ghost predicate Establishing(reconcilers: seq<ObjectReconciler>) {
    forall i, o :: 0 <= i < |reconcilers| && reconcilers[i].update(o).Some? ==>
                     reconcilers[i].isUpToDate(reconcilers[i].update(o).value) == UpToDate
  }

  /** Each update keeps the checks before it. */
  ghost predicate NonInterfering(reconcilers: seq<ObjectReconciler>) {
    forall i, j, o ::
      0 <= i < j < |reconcilers| && reconcilers[j].update(o).Some? && reconcilers[i].isUpToDate(o) == UpToDate ==>
        reconcilers[i].isUpToDate(reconcilers[j].update(o).value) == UpToDate
  }

  /** A check keeps holding through the updates of later reconcilers. */
  lemma {:induction false} RepairKeeps(o: Object, reconcilers: seq<ObjectReconciler>, k: nat, from: nat)
    requires k < from <= |reconcilers|
    requires NonInterfering(reconcilers)
    requires reconcilers[k].isUpToDate(o) == UpToDate
    requires Repair(o, reconcilers[from..]).Settled?
    ensures reconcilers[k].isUpToDate(Repair(o, reconcilers[from..]).payload) == UpToDate
    decreases |reconcilers| - from
  {
    if from < |reconcilers| {
      var rest := reconcilers[from..];
      assert rest[0] == reconcilers[from] && rest[1..] == reconcilers[from + 1..];
      if rest[0].isUpToDate(o) == UpToDate {
        RepairKeeps(o, reconcilers, k, from + 1);
      } else {
        RepairKeeps(rest[0].update(o).value, reconcilers, k, from + 1);
      }
    }
  }

  lemma {:induction false} RepairEstablishes(o: Object, reconcilers: seq<ObjectReconciler>, from: nat)
    requires from <= |reconcilers|
    requires Establishing(reconcilers) && NonInterfering(reconcilers)
    requires Repair(o, reconcilers[from..]).Settled?
    ensures AllUpToDate(Repair(o, reconcilers[from..]).payload, reconcilers[from..])
    decreases |reconcilers| - from
  {
    if from < |reconcilers| {
      var rest := reconcilers[from..];
      assert rest[0] == reconcilers[from] && rest[1..] == reconcilers[from + 1..];
      var next := if rest[0].isUpToDate(o) == UpToDate then o else rest[0].update(o).value;
      RepairEstablishes(next, reconcilers, from + 1);
      RepairKeeps(next, reconcilers, from, from + 1);
      var done := Repair(o, rest).payload;
      forall i | 0 <= i < |rest|
        ensures rest[i].isUpToDate(done) == UpToDate
      {
        if i > 0 {
          assert rest[i] == rest[1..][i - 1];
        }
      }
    }
  }

  /** The loop reports no update exactly when every check passes on the object it was given, which it then returns. */
  lemma {:induction false} RepairUpdatesIffDrift(o: Object, reconcilers: seq<ObjectReconciler>)
    ensures AllUpToDate(o, reconcilers) <==> Repair(o, reconcilers) == Settled(o, false)
    ensures Repair(o, reconcilers).Settled? && !Repair(o, reconcilers).updated ==> Repair(o, reconcilers).payload == o
  {
    if |reconcilers| > 0 {
      RepairUpdatesIffDrift(o, reconcilers[1..]);
      assert reconcilers == [reconcilers[0]] + reconcilers[1..];
    }
  }

  /** One run of the loop repairs everything it can see, so a second run finds nothing to do. */
  lemma RepairIsFinal(o: Object, reconcilers: seq<ObjectReconciler>)
    requires Establishing(reconcilers) && NonInterfering(reconcilers)
    requires Repair(o, reconcilers).Settled?
    ensures var done := Repair(o, reconcilers);
            && AllUpToDate(done.payload, reconcilers)
            && (done.updated <==> !AllUpToDate(o, reconcilers))
            && Repair(done.payload, reconcilers) == Settled(done.payload, false)
  {
    assert reconcilers[0..] == reconcilers;
    RepairEstablishes(o, reconcilers, 0);
    RepairUpdatesIffDrift(o, reconcilers);
    RepairUpdatesIffDrift(Repair(o, reconcilers).payload, reconcilers);
  }
}
