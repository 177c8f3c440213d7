/** What any sequence of condition writes keeps of a condition list. */
module ConditionLists {
  import opened Objects
  import opened Conditions

  predicate DistinctTypes(conditions: seq<Condition>) {
    forall i, j :: 0 <= i < j < |conditions| ==> conditions[i].kind != conditions[j].kind
  }

  /** One list grew out of another: no entry was lost or moved to another place. */
  predicate Extends(conditions: seq<Condition>, later: seq<Condition>) {
    && |conditions| <= |later|
    && forall i :: 0 <= i < |conditions| ==> later[i].kind == conditions[i].kind
  }

  /** What one write does to an entry. */
  predicate EntryStep(was: Condition, c: Condition, now: int, after: Condition) {
    if was.kind != c.kind then after == was
    else after == c.(lastTransition := if was.status == c.status then was.lastTransition else now)
  }

  lemma {:induction false} FindAt(conditions: seq<Condition>, i: nat)
    requires DistinctTypes(conditions) && i < |conditions|
    ensures Find(conditions, conditions[i].kind) == Some(conditions[i])
  {
    if i > 0 {
      assert conditions[0].kind != conditions[i].kind;
      FindAt(conditions[1..], i - 1);
    }
  }

  lemma {:induction false} FindNone(conditions: seq<Condition>, kind: ConditionType)
    ensures Find(conditions, kind).None? <==> forall i :: 0 <= i < |conditions| ==> conditions[i].kind != kind
  {
    if |conditions| > 0 {
      FindNone(conditions[1..], kind);
      assert forall i :: 1 <= i < |conditions| ==> conditions[i] == conditions[1..][i - 1];
      assert forall i :: 0 <= i < |conditions| - 1 ==> conditions[1..][i] == conditions[i + 1];
    }
  }

  lemma {:induction false} SetKeepsPlaces(conditions: seq<Condition>, c: Condition, now: int)
    ensures var r := SetStatusCondition(conditions, c, now);
            && Extends(conditions, r)
            && (if Find(conditions, c.kind).None? then r == conditions + [c.(lastTransition := now)]
                else |r| == |conditions|)
  {
    if |conditions| > 0 && conditions[0].kind != c.kind {
      SetKeepsPlaces(conditions[1..], c, now);
      assert conditions == [conditions[0]] + conditions[1..];
    }
  }

  lemma {:induction false} SetStepsEntry(conditions: seq<Condition>, c: Condition, now: int, i: nat)
    requires DistinctTypes(conditions) && i < |conditions|
    ensures i < |SetStatusCondition(conditions, c, now)|
    ensures EntryStep(conditions[i], c, now, SetStatusCondition(conditions, c, now)[i])
  {
    if conditions[0].kind != c.kind && i > 0 {
      SetStepsEntry(conditions[1..], c, now, i - 1);
    }
  }

  lemma TypesStayDistinct(conditions: seq<Condition>, later: seq<Condition>)
    requires DistinctTypes(conditions) && Extends(conditions, later) && |later| <= |conditions| + 1
    requires |later| > |conditions| ==>
               forall i :: 0 <= i < |conditions| ==> conditions[i].kind != later[|conditions|].kind
    ensures DistinctTypes(later)
  {
    forall i, j | 0 <= i < j < |later| ensures later[i].kind != later[j].kind {
      assert later[i].kind == conditions[i].kind;
    }
  }

  /** One write changes the entry of its type and nothing else, and appends that entry when it is missing; the
      transition time of an entry moves, to the present, exactly when its status flips. */
  lemma SetStatusConditionStep(conditions: seq<Condition>, c: Condition, now: int)
    requires DistinctTypes(conditions)
    ensures var r := SetStatusCondition(conditions, c, now);
            && DistinctTypes(r) && Extends(conditions, r)
            && |r| == |conditions| + (if Find(conditions, c.kind).None? then 1 else 0)
            && (forall i :: 0 <= i < |conditions| ==> EntryStep(conditions[i], c, now, r[i]))
            && (Find(conditions, c.kind).None? ==> r == conditions + [c.(lastTransition := now)])
  {
    SetKeepsPlaces(conditions, c, now);
    assert DistinctTypes(SetStatusCondition(conditions, c, now)) by {
      FindNone(conditions, c.kind);
      TypesStayDistinct(conditions, SetStatusCondition(conditions, c, now));
    }
    forall i | 0 <= i < |conditions|
      ensures EntryStep(conditions[i], c, now, SetStatusCondition(conditions, c, now)[i])
    {
      SetStepsEntry(conditions, c, now, i);
    }
  }

  // ---- Any number of writes ----

  datatype ConditionSet = ConditionSet(condition: Condition, now: int)

  function SetAll(conditions: seq<Condition>, settings: seq<ConditionSet>): seq<Condition> {
    if |settings| == 0 then conditions
    else
      var last := settings[|settings| - 1];
      SetStatusCondition(SetAll(conditions, settings[..|settings| - 1]), last.condition, last.now)
  }

  function Batch(transitions: seq<Condition>, now: int): seq<ConditionSet> {
    seq(|transitions|, i requires 0 <= i < |transitions| => ConditionSet(transitions[i], now))
  }

  /** A batch of transitions stored together is a sequence of writes made at one time. */
  lemma {:induction false} BatchIsSettings(conditions: seq<Condition>, transitions: seq<Condition>, now: int)
    ensures ApplyAll(conditions, transitions, now) == SetAll(conditions, Batch(transitions, now))
  {
    if |transitions| > 0 {
      var earlier := transitions[..|transitions| - 1];
      BatchIsSettings(conditions, earlier, now);
      var all := Batch(transitions, now);
      assert all[..|all| - 1] == Batch(earlier, now);
    }
  }

  /** Settings of one batch after those of another. */
  lemma {:induction false} SetAllAppends(conditions: seq<Condition>, a: seq<ConditionSet>, b: seq<ConditionSet>)
    ensures SetAll(conditions, a + b) == SetAll(SetAll(conditions, a), b)
  {
    if |b| == 0 {
      assert a + b == a;
    } else {
      assert (a + b)[..|a + b| - 1] == a + b[..|b| - 1];
      SetAllAppends(conditions, a, b[..|b| - 1]);
    }
  }

  /** One type on its own: what its entry must be after the writes, found from the writes for that type only. */
  function Track(entry: Option<Condition>, settings: seq<ConditionSet>, kind: ConditionType): Option<Condition> {
    if |settings| == 0 then entry
    else
      var earlier := Track(entry, settings[..|settings| - 1], kind);
      var ConditionSet(c, now) := settings[|settings| - 1];
      if c.kind != kind then earlier
      else if earlier.Some? && earlier.value.status == c.status then
        Some(c.(lastTransition := earlier.value.lastTransition))
      else Some(c.(lastTransition := now))
  }

  lemma FindAfterSetting(conditions: seq<Condition>, c: Condition, now: int)
    requires DistinctTypes(conditions)
    ensures Find(SetStatusCondition(conditions, c, now), c.kind) ==
            Track(Find(conditions, c.kind), [ConditionSet(c, now)], c.kind)
  {
    var r := SetStatusCondition(conditions, c, now);
    SetStatusConditionStep(conditions, c, now);
    FindNone(conditions, c.kind);
    var singleton := [ConditionSet(c, now)];
    assert singleton[..0] == [];
    if i :| 0 <= i < |conditions| && conditions[i].kind == c.kind {
      FindAt(conditions, i);
      FindAt(r, i);
    } else {
      FindAt(r, |conditions|);
    }
  }

  /** Whatever is written in whatever order: there is one entry a type, no entry is lost or moved, and each type's entry
      is what the writes for that type alone make of it. */
  lemma {:induction false} ListsStayWellFormed(conditions: seq<Condition>, settings: seq<ConditionSet>,
      kind: ConditionType)
    requires DistinctTypes(conditions)
    ensures var r := SetAll(conditions, settings);
            DistinctTypes(r) && Extends(conditions, r) && Find(r, kind) == Track(Find(conditions, kind), settings, kind)
  {
    if |settings| > 0 {
      var earlier, last := settings[..|settings| - 1], settings[|settings| - 1];
      ListsStayWellFormed(conditions, earlier, kind);
      SetStatusConditionStep(SetAll(conditions, earlier), last.condition, last.now);
      if last.condition.kind == kind {
        FindAfterSetting(SetAll(conditions, earlier), last.condition, last.now);
        assert [last][..0] == [];
      }
    }
  }
}
