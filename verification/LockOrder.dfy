/**
 Concurrent merges and the two event locks each of them takes.

 Every merge locks its two events one after the other and keeps both until it ends, and an
 event is locked by one merge at a time.  Merges arrive, advance and fail in any order.
 */
module LockOrder {
  type EventId = nat

  datatype Phase = Waiting | HoldsFirst | HoldsBoth | Finished

  datatype Merge = Merge(first: EventId, second: EventId, phase: Phase)

  /** Who holds each locked event. */
  datatype State = State(merges: seq<Merge>, owner: map<EventId, nat>)

  datatype Act = Arrive(source: EventId, target: EventId) | Advance(i: nat) | Fail(i: nat)

  const Start := State([], map[])

  /** MergeDuplicateEvents sorts its two event ids before it locks them. */
  function Begin(source: EventId, target: EventId): Merge {
    if source < target then Merge(source, target, Waiting) else Merge(target, source, Waiting)
  }

  predicate Enabled(s: State, i: nat)
    requires i < |s.merges|
  {
    var m := s.merges[i];
    match m.phase
    case Waiting => m.first !in s.owner
    case HoldsFirst => m.second !in s.owner
    case HoldsBoth => true
    case Finished => false
  }

  function Release(owner: map<EventId, nat>, i: nat): map<EventId, nat> {
    map e | e in owner && owner[e] != i :: owner[e]
  }

  function Step(s: State, a: Act): State {
    match a
    case Arrive(source, target) =>
      if source == target then s else s.(merges := s.merges + [Begin(source, target)])
    case Advance(i) =>
      if i >= |s.merges| || !Enabled(s, i) then s
      else
        var m := s.merges[i];
        (match m.phase
         case Waiting => State(s.merges[i := m.(phase := HoldsFirst)], s.owner[m.first := i])
         case HoldsFirst => State(s.merges[i := m.(phase := HoldsBoth)], s.owner[m.second := i])
         case HoldsBoth => State(s.merges[i := m.(phase := Finished)], Release(s.owner, i))
         case Finished => s)
    case Fail(i) =>
      if i >= |s.merges| then s
      else State(s.merges[i := s.merges[i].(phase := Finished)], Release(s.owner, i))
  }

  function Run(s: State, script: seq<Act>): State
    decreases |script|
  {
    if script == [] then s else Step(Run(s, script[..|script| - 1]), script[|script| - 1])
  }

  /** Which events a merge holds in its phase. */
  function Held(m: Merge): set<EventId> {
    match m.phase
    case HoldsFirst => {m.first}
    case HoldsBoth => {m.first, m.second}
    case _ => {}
  }

  predicate Owns(owner: map<EventId, nat>, i: nat, e: EventId) {
    e in owner && owner[e] == i
  }

  ghost predicate OwnersRight(s: State) {
    forall i: nat, e :: Owns(s.owner, i, e) <==> i < |s.merges| && e in Held(s.merges[i])
  }

  ghost predicate Sorted(s: State) {
    forall i :: 0 <= i < |s.merges| ==> s.merges[i].first < s.merges[i].second
  }

  ghost predicate Unfinished(s: State, i: nat) {
    i < |s.merges| && s.merges[i].phase != Finished
  }

  /** One merge changes phase and only its own locks change with it. */
  lemma MoveKeepsOwners(s: State, i: nat, m: Merge, owner: map<EventId, nat>)
    requires OwnersRight(s) && i < |s.merges|
    requires forall e :: Owns(owner, i, e) <==> e in Held(m)
    requires forall k: nat, e :: k != i ==> (Owns(owner, k, e) <==> Owns(s.owner, k, e))
    ensures OwnersRight(State(s.merges[i := m], owner))
  {
  }

  lemma AdvanceKeepsOwners(s: State, i: nat)
    requires OwnersRight(s) && Sorted(s) && i < |s.merges| && Enabled(s, i)
    ensures OwnersRight(Step(s, Advance(i)))
  {
    var s' := Step(s, Advance(i));
    var m := s.merges[i];
    assert s'.merges[i].first == m.first && s'.merges[i].second == m.second;
    forall e ensures Owns(s'.owner, i, e) <==> e in Held(s'.merges[i]) {
      assert Owns(s.owner, i, e) <==> e in Held(m);
    }
    MoveKeepsOwners(s, i, s'.merges[i], s'.owner);
  }

  lemma StepKeepsOwners(s: State, a: Act)
    requires OwnersRight(s) && Sorted(s)
    ensures OwnersRight(Step(s, a)) && Sorted(Step(s, a))
  {
    match a
    case Arrive(source, target) => assert Held(Begin(source, target)) == {};
    case Advance(i) => if i < |s.merges| && Enabled(s, i) { AdvanceKeepsOwners(s, i); }
    case Fail(i) =>
      if i < |s.merges| {
        MoveKeepsOwners(s, i, s.merges[i].(phase := Finished), Release(s.owner, i));
      }
  }

  lemma {:induction false} RunKeepsOwners(script: seq<Act>)
    ensures OwnersRight(Run(Start, script)) && Sorted(Run(Start, script))
    decreases |script|
  {
    if script != [] {
      RunKeepsOwners(script[..|script| - 1]);
      StepKeepsOwners(Run(Start, script[..|script| - 1]), script[|script| - 1]);
    }
  }

  ghost predicate HoldsAbove(s: State, k: nat, e: EventId) {
    k < |s.merges| && s.merges[k].phase == HoldsFirst && s.merges[k].second >= e
  }

  /** Some merge can go on. */
  ghost predicate CanAdvance(s: State) {
    exists j: nat :: j < |s.merges| && Enabled(s, j)
  }

  /**
   Among the merges waiting for their second lock, follow from each blocked one to the one that
   blocks it: its second lock is higher, so the walk ends at one that can go on.
   */
  lemma {:induction false} SomeHolderAdvances(s: State, i: nat, left: set<nat>) returns (j: nat)
    requires OwnersRight(s) && Sorted(s)
    requires i < |s.merges| && s.merges[i].phase == HoldsFirst
    requires forall k: nat :: HoldsAbove(s, k, s.merges[i].second) ==> k in left
    ensures j < |s.merges| && Enabled(s, j)
    decreases left
  {
    if Enabled(s, i) {
      j := i;
    } else {
      var k := s.owner[s.merges[i].second];
      assert Owns(s.owner, k, s.merges[i].second);
      assert HoldsAbove(s, i, s.merges[i].second);
      if s.merges[k].phase == HoldsBoth {
        j := k;
      } else {
        j := SomeHolderAdvances(s, k, left - {i});
      }
    }
  }

  /** No state that concurrent merges can reach is a deadlock. */
  lemma NeverDeadlocked(script: seq<Act>, i: nat)
    requires Unfinished(Run(Start, script), i)
    ensures CanAdvance(Run(Start, script))
  {
    var s := Run(Start, script);
    RunKeepsOwners(script);
    var j := i;
    if s.merges[i].phase == Waiting && !Enabled(s, i) {
      j := s.owner[s.merges[i].first];
      assert Owns(s.owner, j, s.merges[i].first);
    }
    if s.merges[j].phase == HoldsFirst {
      j := SomeHolderAdvances(s, j, set k: nat | HoldsAbove(s, k, s.merges[j].second) && k < |s.merges|);
    }
    assert Enabled(s, j);
  }

  function StepsLeft(p: Phase): nat {
    match p case Waiting => 3 case HoldsFirst => 2 case HoldsBoth => 1 case Finished => 0
  }

  function Work(ms: seq<Merge>): nat {
    if ms == [] then 0 else StepsLeft(ms[0].phase) + Work(ms[1..])
  }

  lemma {:induction false} WorkUpdated(ms: seq<Merge>, i: nat, m: Merge)
    requires i < |ms|
    ensures Work(ms[i := m]) + StepsLeft(ms[i].phase) == Work(ms) + StepsLeft(m.phase)
  {
    if i == 0 {
      assert ms[0 := m][1..] == ms[1..];
    } else {
      WorkUpdated(ms[1..], i - 1, m);
      assert ms[i := m][1..] == ms[1..][i - 1 := m];
    }
  }

  /** Each advance uses up one step, so without new arrivals all merges end. */
  lemma AdvanceFinishes(s: State, i: nat)
    requires i < |s.merges| && Enabled(s, i)
    ensures Work(Step(s, Advance(i)).merges) == Work(s.merges) - 1
  {
    WorkUpdated(s.merges, i, Step(s, Advance(i)).merges[i]);
  }

  lemma {:induction false} WorkIsZero(ms: seq<Merge>)
    ensures Work(ms) == 0 <==> forall i :: 0 <= i < |ms| ==> ms[i].phase == Finished
  {
    if ms != [] {
      WorkIsZero(ms[1..]);
      assert forall i :: 1 <= i < |ms| ==> ms[i] == ms[1..][i - 1];
    }
  }

  /** From every reachable state the merges under way can all be brought to their end. */
  lemma {:induction false} CanAlwaysFinish(script: seq<Act>) returns (more: seq<Act>)
    ensures forall i :: 0 <= i < |Run(Start, script + more).merges| ==> !Unfinished(Run(Start, script + more), i)
    ensures |more| == Work(Run(Start, script).merges)
    decreases Work(Run(Start, script).merges)
  {
    var s := Run(Start, script);
    WorkIsZero(s.merges);
    if Work(s.merges) == 0 {
      more := [];
      assert script + more == script;
    } else {
      var i :| 0 <= i < |s.merges| && s.merges[i].phase != Finished;
      NeverDeadlocked(script, i);
      var j: nat :| j < |s.merges| && Enabled(s, j);
      AdvanceFinishes(s, j);
      var next := script + [Advance(j)];
      assert next[..|next| - 1] == script;
      more := CanAlwaysFinish(next);
      assert script + ([Advance(j)] + more) == next + more;
      more := [Advance(j)] + more;
    }
  }

  /** Without the sort two opposite merges can block each other for good. */
  lemma UnsortedDeadlock()
    ensures var s := State([Merge(0, 1, Waiting), Merge(1, 0, Waiting)], map[]);
      var stuck := Run(s, [Advance(0), Advance(1)]);
      && OwnersRight(stuck)
      && Unfinished(stuck, 0) && Unfinished(stuck, 1)
      && !Enabled(stuck, 0) && !Enabled(stuck, 1)
  {
    var s := State([Merge(0, 1, Waiting), Merge(1, 0, Waiting)], map[]);
    var script := [Advance(0), Advance(1)];
    assert script[..1] == [Advance(0)] && script[..1][..0] == [];
    assert Run(s, script[..1]) == Step(s, Advance(0));
    assert Run(s, script) == Step(Step(s, Advance(0)), Advance(1));
  }
}
