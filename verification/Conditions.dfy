/** The status conditions of a Release and how the controller updates them (internal/controller/condition.go). */
module Conditions {
  import opened Wrappers
  import opened Api

  // ---------------------------------------------------------------- the condition list

  /** The first condition of a type. */
  function Find(conds: seq<Condition>, ctype: string): (r: Option<Condition>)
    ensures r.Some? ==> r.value.ctype == ctype && r.value in conds
  {
    if conds == [] then None
    else if conds[0].ctype == ctype then Some(conds[0])
    else Find(conds[1..], ctype)
  }

  /** Updates the first condition of the type, or appends one. */
  function SetCond(conds: seq<Condition>, c: Condition): seq<Condition> {
    if conds == [] then [c]
    else if conds[0].ctype == c.ctype then [c] + conds[1..]
    else [conds[0]] + SetCond(conds[1..], c)
  }

  lemma {:induction false} SetAt(conds: seq<Condition>, c: Condition, i: nat)
    requires i <= |conds| && forall j | 0 <= j < i :: conds[j].ctype != c.ctype
    requires i < |conds| ==> conds[i].ctype == c.ctype
    ensures SetCond(conds, c) == if i < |conds| then conds[i := c] else conds + [c]
  {
    if i > 0 {
      SetAt(conds[1..], c, i - 1);
    }
  }

  function Types(conds: seq<Condition>): seq<string> {
    seq(|conds|, i requires 0 <= i < |conds| => conds[i].ctype)
  }

  predicate UniqueTypes(conds: seq<Condition>) {
    forall i, j | 0 <= i < j < |conds| :: conds[i].ctype != conds[j].ctype
  }

  lemma {:induction false} FindSet(conds: seq<Condition>, c: Condition, t: string)
    ensures Find(SetCond(conds, c), t) == if t == c.ctype then Some(c) else Find(conds, t)
  {
    if conds != [] && conds[0].ctype != c.ctype {
      FindSet(conds[1..], c, t);
    }
  }

  /** Setting a condition keeps the types, in order, and adds its own at the end when it was missing. */
  lemma {:induction false} TypesSet(conds: seq<Condition>, c: Condition)
    ensures Types(SetCond(conds, c)) == Types(conds) + if Find(conds, c.ctype).Some? then [] else [c.ctype]
    ensures UniqueTypes(conds) ==> UniqueTypes(SetCond(conds, c))
  {
    if conds != [] && conds[0].ctype != c.ctype {
      var rest := conds[1..];
      TypesSet(rest, c);
      assert Types(conds) == [conds[0].ctype] + Types(rest);
      var s := SetCond(rest, c);
      assert Types([conds[0]] + s) == [conds[0].ctype] + Types(s);
      if UniqueTypes(conds) {
        assert UniqueTypes(rest);
        forall j | 0 <= j < |s| ensures s[j].ctype != conds[0].ctype {
          assert s[j].ctype == Types(s)[j];
          if j < |rest| { assert Types(s)[j] == rest[j].ctype; }
        }
      }
    }
  }

  lemma {:induction false} FindByType(conds: seq<Condition>, t: string)
    ensures Find(conds, t).Some? <==> t in Types(conds)
  {
    if conds != [] {
      FindByType(conds[1..], t);
      assert Types(conds) == [conds[0].ctype] + Types(conds[1..]);
    }
  }

  lemma {:induction false} FindAt(conds: seq<Condition>, k: nat)
    requires UniqueTypes(conds) && k < |conds|
    ensures Find(conds, conds[k].ctype) == Some(conds[k])
  {
    if k > 0 {
      FindAt(conds[1..], k - 1);
    }
  }

  /** Two lists with the same unique types and the same entry for each type are equal. */
  lemma SameByFind(a: seq<Condition>, b: seq<Condition>)
    requires Types(a) == Types(b) && UniqueTypes(a)
    requires forall t :: Find(a, t) == Find(b, t)
    ensures a == b
  {
    assert |a| == |Types(a)| == |Types(b)| == |b|;
    forall k | 0 <= k < |a| ensures a[k].ctype == b[k].ctype {
      assert Types(a)[k] == Types(b)[k];
    }
    forall k | 0 <= k < |a| ensures a[k] == b[k] {
      FindAt(a, k);
      FindAt(b, k);
    }
  }

  // ---------------------------------------------------------------- updates of a Release

  function SetCondition(r: Release, ctype: string, status: bool, reason: State): Release {
    r.(status := r.status.(conditions := SetCond(r.status.conditions, Condition(ctype, status, reason, r.generation))))
  }

  function ConditionOf(r: Release, ctype: string): Option<Condition> {
    Find(r.status.conditions, ctype)
  }

  predicate IsTrue(r: Release, ctype: string) {
    ConditionOf(r, ctype).Some? && ConditionOf(r, ctype).value.status
  }

  predicate HasReason(r: Release, ctype: string, reason: State) {
    ConditionOf(r, ctype).Some? && ConditionOf(r, ctype).value.reason == reason
  }

  function AddPending(r: Release, ctype: string): Release {
    if ConditionOf(r, ctype).None? then SetCondition(r, ctype, false, Pending) else r
  }

  function AddAllPending(r: Release, types: seq<string>): Release
    decreases |types|
  {
    if types == [] then r else AddAllPending(AddPending(r, types[0]), types[1..])
  }

  function PhaseTypes(phases: seq<Phase>): seq<string> {
    seq(|phases|, i requires 0 <= i < |phases| => ConditionType(phases[i]))
  }

  /** Every condition a Release gets when its generation is first seen, in order. */
  function AllTypes(phases: seq<Phase>): seq<string> {
    [ConditionType(PHASE_LCM), CONDITION_MANIFEST_RESOLVED] + PhaseTypes(phases) + [CONDITION_APPLIED]
  }

  function UpdatePhase(r: Release, phase: Phase, state: State): Release {
    if Completes(state) && IsTrue(r, ConditionType(phase)) then r
    else SetCondition(r, ConditionType(phase), Completes(state), state)
  }

  /** The phase updates of a result, applied in the given order. */
  function UpdatePhases(r: Release, order: seq<Phase>, states: map<Phase, State>): Release
    requires forall p | p in order :: p in states
    decreases |order|
  {
    if order == [] then r
    else UpdatePhases(UpdatePhase(r, order[0], states[order[0]]), order[1..], states)
  }

  predicate PhaseIs(r: Release, p: Phase, reason: State) {
    ConditionOf(r, ConditionType(p)).Some? && !IsTrue(r, ConditionType(p)) && HasReason(r, ConditionType(p), reason)
  }

  predicate AllPhasesTrue(r: Release, phases: seq<Phase>) {
    forall p | p in phases :: IsTrue(r, ConditionType(p))
  }

  predicate AnyPhaseIs(r: Release, phases: seq<Phase>, reason: State) {
    exists p | p in phases :: PhaseIs(r, p, reason)
  }

  lemma PhasesSnoc(r: Release, phases: seq<Phase>, p: Phase, reason: State)
    ensures AnyPhaseIs(r, phases + [p], reason) <==> AnyPhaseIs(r, phases, reason) || PhaseIs(r, p, reason)
    ensures AllPhasesTrue(r, phases + [p]) <==> AllPhasesTrue(r, phases) && IsTrue(r, ConditionType(p))
  {
    assert forall q :: q in phases + [p] <==> q in phases || q == p;
  }

  /** What the Applied condition must become; None leaves it as it is. */
  function AppliedVerdict(r: Release, phases: seq<Phase>): Option<(bool, State)> {
    if PhaseIs(r, PHASE_LCM, Failed) then Some((false, Failed))
    else if HasReason(r, CONDITION_MANIFEST_RESOLVED, Failed) then Some((false, Failed))
    else if !IsTrue(r, CONDITION_MANIFEST_RESOLVED) then None
    else if AllPhasesTrue(r, phases) then Some((true, Succeeded))
    else if AnyPhaseIs(r, phases, Failed) then Some((false, Failed))
    else if AnyPhaseIs(r, phases, InProgress) then Some((false, InProgress))
    else None
  }

  function UpdateApplied(r: Release, phases: seq<Phase>): Release {
    match AppliedVerdict(r, phases)
    case None => r
    case Some((status, reason)) => SetCondition(r, CONDITION_APPLIED, status, reason)
  }

  // ---------------------------------------------------------------- the Release object

  /** The Release that a reconcile pass updates in place. */
  class ReleaseObject {
    const name: string
    const generation: int
    const spec: Spec
    var version: string
    var conditions: seq<Condition>
    var observedGeneration: int

    function Value(): Release
      reads this
    {
      Release(name, generation, spec, Status(version, conditions, observedGeneration))
    }

    constructor (r: Release)
      ensures Value() == r
    {
      name, generation, spec := r.name, r.generation, r.spec;
      version, conditions, observedGeneration := r.status.version, r.status.conditions, r.status.observedGeneration;
    }

    /** Looks for the condition type from the front and replaces that entry, or appends a new one. */
    method Set(ctype: string, status: bool, reason: State)
      modifies this`conditions
      ensures Value() == SetCondition(old(Value()), ctype, status, reason)
    {
      var c := Condition(ctype, status, reason, generation);
      var i := 0;
      while i < |conditions| && conditions[i].ctype != ctype
        invariant i <= |conditions| && conditions == old(conditions)
        invariant forall j | 0 <= j < i :: conditions[j].ctype != ctype
      {
        i := i + 1;
      }
      SetAt(conditions, c, i);
      conditions := if i < |conditions| then conditions[i := c] else conditions + [c];
    }

    method InitializePendingConditions(phases: seq<Phase>)
      modifies this`conditions
      ensures Value() == AddAllPending(old(Value()), AllTypes(phases))
    {
      ghost var start := Value();
      ghost var all := AllTypes(phases);
      AddIfMissing(ConditionType(PHASE_LCM));
      assert all[1..][0] == CONDITION_MANIFEST_RESOLVED;
      AddIfMissing(CONDITION_MANIFEST_RESOLVED);
      assert all[1..][1..] == all[2..];
      for i := 0 to |phases|
        invariant AddAllPending(start, all) == AddAllPending(Value(), all[2 + i..])
      {
        assert all[2 + i..][0] == ConditionType(phases[i]) && all[2 + i..][1..] == all[2 + (i + 1)..];
        AddIfMissing(ConditionType(phases[i]));
      }
      assert all[2 + |phases|..] == [CONDITION_APPLIED];
      assert [CONDITION_APPLIED][1..] == [];
      AddIfMissing(CONDITION_APPLIED);
    }

    method AddIfMissing(ctype: string)
      modifies this`conditions
      ensures Value() == AddPending(old(Value()), ctype)
    {
      if Find(conditions, ctype).None? {
        Set(ctype, false, Pending);
      }
    }

    method UpdatePhaseCondition(phase: Phase, state: State)
      modifies this`conditions
      ensures Value() == UpdatePhase(old(Value()), phase, state)
    {
      var status := false;
      if state == Succeeded || state == Skipped {
        var existing := Find(conditions, ConditionType(phase));
        if existing.Some? && existing.value.status {
          return;
        }
        status := true;
      }
      Set(ConditionType(phase), status, state);
    }

    /** Visits the phases of a result in an arbitrary order, which is returned. */
    method UpdatePhaseConditions(states: map<Phase, State>) returns (ghost order: seq<Phase>)
      modifies this`conditions
      ensures IsOrderOf(order, states.Keys)
      ensures Value() == UpdatePhases(old(Value()), order, states)
    {
      order := [];
      var todo := states.Keys;
      while todo != {}
        invariant todo <= states.Keys && IsOrderOf(order, states.Keys - todo)
        invariant Value() == UpdatePhases(old(Value()), order, states)
        decreases todo
      {
        var p :| p in todo;
        UpdatePhasesSnoc(old(Value()), order, p, states);
        todo := todo - {p};
        order := order + [p];
        UpdatePhaseCondition(p, states[p]);
      }
    }

    method UpdateAppliedCondition(phases: seq<Phase>)
      modifies this`conditions
      ensures Value() == UpdateApplied(old(Value()), phases)
    {
      ghost var r := Value();
      var lcm := Find(conditions, ConditionType(PHASE_LCM));
      if lcm.Some? && !lcm.value.status && lcm.value.reason == Failed {
        Set(CONDITION_APPLIED, false, Failed);
        return;
      }
      var manifest := Find(conditions, CONDITION_MANIFEST_RESOLVED);
      if manifest.Some? && manifest.value.reason == Failed {
        Set(CONDITION_APPLIED, false, Failed);
        return;
      } else if manifest.None? || !manifest.value.status {
        return;
      }
      var allSucceeded, failed, inProgress := true, false, false;
      for i := 0 to |phases|
        invariant Value() == r
        invariant allSucceeded <==> AllPhasesTrue(r, phases[..i])
        invariant failed <==> AnyPhaseIs(r, phases[..i], Failed)
        invariant inProgress <==> AnyPhaseIs(r, phases[..i], InProgress)
      {
        assert phases[..i + 1] == phases[..i] + [phases[i]];
        PhasesSnoc(r, phases[..i], phases[i], Failed);
        PhasesSnoc(r, phases[..i], phases[i], InProgress);
        var cond := Find(conditions, ConditionType(phases[i]));
        if cond.None? {
          allSucceeded := false;
        } else if !cond.value.status {
          allSucceeded := false;
          if cond.value.reason == Failed {
            failed := true;
          } else if cond.value.reason == InProgress && !inProgress {
            inProgress := true;
          }
        }
      }
      assert phases[..|phases|] == phases;
      assert AppliedVerdict(r, phases) ==
             if allSucceeded then Some((true, Succeeded)) else if failed then Some((false, Failed))
             else if inProgress then Some((false, InProgress)) else None;
      if allSucceeded {
        Set(CONDITION_APPLIED, true, Succeeded);
      } else if failed {
        Set(CONDITION_APPLIED, false, Failed);
      } else if inProgress {
        Set(CONDITION_APPLIED, false, InProgress);
      }
    }
  }

  // ---------------------------------------------------------------- phase updates commute

  /** `order` lists the phases of `s`, each once. */
  ghost predicate IsOrderOf(order: seq<Phase>, s: set<Phase>) {
    && (forall p :: p in order <==> p in s)
    && forall i, j | 0 <= i < j < |order| :: order[i] != order[j]
  }

  lemma {:induction false} UpdatePhasesSnoc(r: Release, order: seq<Phase>, p: Phase, states: map<Phase, State>)
    requires (forall q | q in order :: q in states) && p in states
    ensures UpdatePhases(r, order + [p], states) == UpdatePhase(UpdatePhases(r, order, states), p, states[p])
    decreases |order|
  {
    if order != [] {
      assert (order + [p])[1..] == order[1..] + [p];
      UpdatePhasesSnoc(UpdatePhase(r, order[0], states[order[0]]), order[1..], p, states);
    }
  }

  /** What one phase update does to the condition of each type. */
  lemma FindUpdatePhase(r: Release, phase: Phase, state: State, t: string)
    ensures ConditionOf(UpdatePhase(r, phase, state), t) ==
            if t != ConditionType(phase) || (Completes(state) && IsTrue(r, t)) then ConditionOf(r, t)
            else Some(Condition(t, Completes(state), state, r.generation))
  {
    FindSet(r.status.conditions, Condition(ConditionType(phase), Completes(state), state, r.generation), t);
  }

  /** The condition of type `t` after all updates does not depend on the order. */
  ghost function Updated(r: Release, states: map<Phase, State>, p: Phase): Option<Condition> {
    if p !in states || (Completes(states[p]) && IsTrue(r, ConditionType(p))) then ConditionOf(r, ConditionType(p))
    else Some(Condition(ConditionType(p), Completes(states[p]), states[p], r.generation))
  }

  lemma {:induction false} FindUpdatePhases(r: Release, order: seq<Phase>, states: map<Phase, State>)
    requires forall q | q in order :: q in states
    requires forall i, j | 0 <= i < j < |order| :: order[i] != order[j]
    ensures var u := UpdatePhases(r, order, states);
            && u.generation == r.generation && u.spec == r.spec && u.name == r.name
            && u.status.version == r.status.version && u.status.observedGeneration == r.status.observedGeneration
            && (forall p | p in order :: ConditionOf(u, ConditionType(p)) == Updated(r, states, p))
            && (forall t | (forall p | p in order :: t != ConditionType(p)) :: ConditionOf(u, t) == ConditionOf(r, t))
    decreases |order|
  {
    if order != [] {
      var p, rest := order[0], order[1..];
      var r1 := UpdatePhase(r, p, states[p]);
      FindUpdatePhases(r1, rest, states);
      var u := UpdatePhases(r, order, states);
      forall q ensures ConditionType(p) == ConditionType(q) <==> p == q {
        ConditionTypeInjective(p, q);
      }
      forall t ensures t != ConditionType(p) ==> ConditionOf(r1, t) == ConditionOf(r, t) {
        FindUpdatePhase(r, p, states[p], t);
      }
      FindUpdatePhase(r, p, states[p], ConditionType(p));
      assert order == [p] + rest;
      assert p !in rest;
      forall t | forall q | q in order :: t != ConditionType(q) ensures ConditionOf(u, t) == ConditionOf(r, t) {
        assert p in order;
        forall q | q in rest ensures t != ConditionType(q) { assert q in order; }
      }
    }
  }

  lemma {:induction false} UpdatePhasesTypes(r: Release, order: seq<Phase>, states: map<Phase, State>)
    requires forall q | q in order :: q in states && ConditionOf(r, ConditionType(q)).Some?
    ensures Types(UpdatePhases(r, order, states).status.conditions) == Types(r.status.conditions)
    ensures UniqueTypes(r.status.conditions) ==> UniqueTypes(UpdatePhases(r, order, states).status.conditions)
    decreases |order|
  {
    if order != [] {
      var p := order[0];
      var r1 := UpdatePhase(r, p, states[p]);
      TypesSet(r.status.conditions, Condition(ConditionType(p), Completes(states[p]), states[p], r.generation));
      forall q | q in order[1..] ensures ConditionOf(r1, ConditionType(q)).Some? {
        assert q in order;
        FindUpdatePhase(r, p, states[p], ConditionType(q));
      }
      UpdatePhasesTypes(r1, order[1..], states);
    }
  }

  lemma SameConditionEitherOrder(r: Release, states: map<Phase, State>, order: seq<Phase>, order': seq<Phase>,
                                 t: string)
    requires IsOrderOf(order, states.Keys) && IsOrderOf(order', states.Keys)
    ensures ConditionOf(UpdatePhases(r, order, states), t) == ConditionOf(UpdatePhases(r, order', states), t)
  {
    FindUpdatePhases(r, order, states);
    FindUpdatePhases(r, order', states);
    if exists p :: p in states && t == ConditionType(p) {
      var p :| p in states && t == ConditionType(p);
      assert p in order && p in order';
    } else {
      assert forall p | p in order :: t != ConditionType(p);
      assert forall p | p in order' :: t != ConditionType(p);
    }
  }

  /** Applying a result's phase states in any two orders gives
      the same Release, with the same unique condition types. */
  lemma PhaseUpdatesCommute(r: Release, states: map<Phase, State>, order: seq<Phase>, order': seq<Phase>)
    requires IsOrderOf(order, states.Keys) && IsOrderOf(order', states.Keys)
    requires UniqueTypes(r.status.conditions)
    requires forall p | p in states :: ConditionOf(r, ConditionType(p)).Some?
    ensures UpdatePhases(r, order, states) == UpdatePhases(r, order', states)
    ensures Types(UpdatePhases(r, order, states).status.conditions) == Types(r.status.conditions)
    ensures UniqueTypes(UpdatePhases(r, order, states).status.conditions)
  {
    var u, u' := UpdatePhases(r, order, states), UpdatePhases(r, order', states);
    UpdatePhasesTypes(r, order, states);
    UpdatePhasesTypes(r, order', states);
    forall t ensures Find(u.status.conditions, t) == Find(u'.status.conditions, t) {
      SameConditionEitherOrder(r, states, order, order', t);
    }
    SameByFind(u.status.conditions, u'.status.conditions);
    assert u == u' by {
      FindUpdatePhases(r, order, states);
      FindUpdatePhases(r, order', states);
    }
  }
}
