/**
 Where evidence comes from: in every state of every run each claim, copied by however many merges,
 superseded and brought back however often, says what one submission or one curator said.
 */
module Provenance {
  import opened Common
  import opened Claims
  import opened Evidence
  import opened Records
  import MG = MergeGraph
  import RR = ResolveReopen

  /** The same statement of the same source, wherever it stands and whatever has become of it. */
  ghost predicate SameSaid(a: Claim, b: Claim) {
    && a.source == b.source && a.snapshot == b.snapshot && a.field == b.field && a.value == b.value
    && a.author == b.author && a.at == b.at
  }

  /** Act `j` is the submission that took the claim's snapshot, and one of its items is the claim's. */
  ghost predicate SubmittedAt(states: seq<State>, acts: seq<Act>, j: nat, c: Claim)
    requires IsRun(states, acts) && j < |acts|
  {
    && acts[j].Ingesting? && acts[j].origin == c.source && acts[j].at == c.at && c.author.None?
    && c.snapshot == Some(|states[j].store.snapshots|)
    && exists k :: 0 <= k < |acts[j].items| && acts[j].items[k] == Item(c.field, c.value)
  }

  /** Act `j` is the resolution in which a curator gave the claim's value. */
  ghost predicate GivenAt(states: seq<State>, acts: seq<Act>, j: nat, c: Claim)
    requires IsRun(states, acts) && j < |acts|
  {
    acts[j].Deciding? && c.snapshot.None? && exists x :: x in acts[j].extra && SameSaid(x, c)
  }

  ghost predicate Comes(states: seq<State>, acts: seq<Act>, n: nat, c: Claim)
    requires IsRun(states, acts) && n <= |acts|
  {
    exists j :: 0 <= j < n && (SubmittedAt(states, acts, j, c) || GivenAt(states, acts, j, c))
  }

  /** The claim was there before, perhaps in another place. */
  ghost predicate Carried(claims: seq<Claim>, c: Claim) {
    exists o :: 0 <= o < |claims| && SameSaid(claims[o], c)
  }

  lemma MergedCarries(s: Store, s': Store, source: EventId, target: EventId, order: seq<ClaimId>, i: ClaimId)
    requires Merged(s, s', source, target, order) && i < |s'.claims|
    ensures Carried(s.claims, s'.claims[i])
  {
    var o := Origin(s, order, i);
    if i < |s.claims| {
      if i in order { var k :| 0 <= k < |order| && order[k] == i; }
    } else {
      assert s'.claims[|s.claims| + (i - |s.claims|)] == CopyTo(s.claims[o], target);
    }
    assert SameSaid(s.claims[o], s'.claims[i]);
  }

  lemma IngestedCarries(states: seq<State>, acts: seq<Act>, n: nat, i: ClaimId)
    requires IsRun(states, acts) && n < |acts| && acts[n].Ingesting? && i < |states[n + 1].store.claims|
    ensures Carried(states[n].store.claims, states[n + 1].store.claims[i]) ||
            SubmittedAt(states, acts, n, states[n + 1].store.claims[i])
  {
    assert StepAt(states, acts, n);
    var s, s', a := states[n].store, states[n + 1].store, acts[n];
    if i < |s.claims| {
      assert s'.claims[i] == Afterwards(s, i, a.event, a.origin, a.record, a.items, |a.items|);
      assert SameSaid(s.claims[i], s'.claims[i]);
    } else {
      IngestedNew(s, s', a.event, a.origin, a.record, a.items, a.at, i);
      assert a.items[i - |s.claims|] == Item(s'.claims[i].field, s'.claims[i].value);
    }
  }

  lemma DecidedCarries(s: Store, s': Store, extra: seq<Claim>, losers: set<ClaimId>, winner: ClaimId, i: ClaimId)
    requires Decided(s, s', extra, losers, winner) && i < |s'.claims|
    ensures Carried(s.claims, s'.claims[i]) ||
            (s'.claims[i].snapshot.None? && exists x :: x in extra && SameSaid(x, s'.claims[i]))
  {
    var all := s.claims + extra;
    assert SameSaid(all[i], s'.claims[i]);
    if i < |s.claims| { assert SameSaid(s.claims[i], s'.claims[i]); } else { assert all[i] in extra; }
  }

  lemma UndoneCarries(s: Store, s': Store, r: RR.State, r': RR.State, i: ClaimId)
    requires Undone(s, s', r, r') && i < |s'.claims|
    ensures Carried(s.claims, s'.claims[i])
  {
    assert s'.claims[i] == RR.Revived(r, i);
    assert SameSaid(s.claims[i], s'.claims[i]);
  }

  lemma SameCarries(claims: seq<Claim>, i: ClaimId)
    requires i < |claims|
    ensures Carried(claims, claims[i])
  {
    assert SameSaid(claims[i], claims[i]);
  }

  lemma StepCarries(states: seq<State>, acts: seq<Act>, n: nat, i: ClaimId)
    requires IsRun(states, acts) && n < |acts| && i < |states[n + 1].store.claims|
    ensures var c := states[n + 1].store.claims[i];
      Carried(states[n].store.claims, c) || SubmittedAt(states, acts, n, c) || GivenAt(states, acts, n, c)
  {
    var st, st' := states[n], states[n + 1];
    assert StepAt(states, acts, n);
    if i < |st.store.claims| { SameCarries(st.store.claims, i); }
    match acts[n]
    case Merging(source, target, order) => MergedCarries(st.store, st'.store, source, target, order, i);
    case Ingesting(_, _, _, _, _) => IngestedCarries(states, acts, n, i);
    case Deciding(e, extra, losers, winner, built) =>
      var s :| Decided(st.store, s, extra, losers, winner) && st' == Ended(st, s, e, AtTheEnd(built));
      if i < |s.claims| { DecidedCarries(st.store, s, extra, losers, winner, i); }
    case Undoing(r, r', built) =>
      var s :| Undone(st.store, s, r, r') && st' == Ended(st, s, r.conflict.event, AtTheEnd(built));
      if i < |s.claims| { UndoneCarries(st.store, s, r, r', i); }
    case Reprojecting(_, _) =>
  }

  lemma ComesCarried(states: seq<State>, acts: seq<Act>, j: nat, a: Claim, b: Claim)
    requires IsRun(states, acts) && j < |acts| && SameSaid(a, b)
    ensures SubmittedAt(states, acts, j, a) ==> SubmittedAt(states, acts, j, b)
    ensures GivenAt(states, acts, j, a) ==> GivenAt(states, acts, j, b)
  {
    if GivenAt(states, acts, j, a) {
      var x :| x in acts[j].extra && SameSaid(x, a);
      assert SameSaid(x, b);
    }
  }

  /**
   Nothing is ever said that was not submitted or given by a curator: every claim of every state of
   every run goes back to the act that said it.
   */
  lemma {:induction false} EveryClaimWasSaid(states: seq<State>, acts: seq<Act>, n: nat, i: ClaimId)
    requires IsRun(states, acts) && n <= |acts| && i < |states[n].store.claims|
    ensures Comes(states, acts, n, states[n].store.claims[i])
  {
    assert n > 0;
    var c := states[n].store.claims[i];
    StepCarries(states, acts, n - 1, i);
    if Carried(states[n - 1].store.claims, c) {
      var o :| 0 <= o < |states[n - 1].store.claims| && SameSaid(states[n - 1].store.claims[o], c);
      EveryClaimWasSaid(states, acts, n - 1, o);
      var j :| 0 <= j < n - 1 && (SubmittedAt(states, acts, j, states[n - 1].store.claims[o]) ||
                                  GivenAt(states, acts, j, states[n - 1].store.claims[o]));
      ComesCarried(states, acts, j, states[n - 1].store.claims[o], c);
    }
  }
}
