/**
 ConflictReconciler: the bounded retry loops, with other writers acting between their statements.

 `world` is what the others do: before each of this transaction's statements the next batch of
 their writes happens.  Nothing is assumed of it unless a contract says so.
 */
module Reconciler {
  import opened Common
  import opened ConflictLog

  const MaxVersionRetry: nat := 5

  /** An active claim of the event, with its value in the normal form conflicts are judged by. */
  datatype Claim = Claim(id: ClaimId, field: Field, source: nat, norm: int)

  /** A field on which active claims of different sources differ. */
  datatype Potential = Potential(field: Field, ids: set<ClaimId>)

  /**
   Applied: the write was made.  Deferred: somebody else already moved the row, nothing to do.
   GaveUp: the retries ran out and the caller goes on.  Raised: they ran out and the
   transaction is abandoned.
   */
  datatype Outcome = Applied | Deferred | GaveUp | Raised

  predicate Agree(claims: seq<Claim>) {
    forall i, j :: 0 <= i < j < |claims| ==> claims[i].norm == claims[j].norm
  }

  predicate Unanimous(claims: seq<Claim>) {
    claims != [] && Agree(claims)
  }

  function Ids(claims: seq<Claim>): set<ClaimId> {
    set i | 0 <= i < |claims| :: claims[i].id
  }

  function OfField(claims: seq<Claim>, f: Field): (r: seq<Claim>)
    ensures forall c :: c in r <==> c in claims && c.field == f
  {
    if claims == [] then []
    else if claims[0].field == f then [claims[0]] + OfField(claims[1..], f)
    else OfField(claims[1..], f)
  }

  /** At least two normal forms and at least two sources: what ConflictDetector reports. */
  ghost predicate Disagrees(claims: seq<Claim>, f: Field) {
    && (exists c, d :: c in claims && d in claims && c.field == f && d.field == f && c.norm != d.norm)
    && (exists c, d :: c in claims && d in claims && c.field == f && d.field == f && c.source != d.source)
  }

  predicate SameSource(claims: seq<Claim>) {
    forall i, j :: 0 <= i < j < |claims| ==> claims[i].source == claims[j].source
  }

  /** `p` reports field `p.field` with all its claims. */
  ghost predicate Reports(claims: seq<Claim>, p: Potential) {
    Disagrees(claims, p.field) && forall x :: x in p.ids <==> exists c :: c in claims && c.field == p.field && c.id == x
  }

  ghost predicate Reported(found: seq<Potential>, f: Field) {
    exists p :: p in found && p.field == f
  }

  /** The fields visited so far, each reported if it must be, once. */
  ghost predicate Visited(claims: seq<Claim>, found: seq<Potential>, visited: set<Field>) {
    && (forall a, b :: 0 <= a < b < |found| ==> found[a].field != found[b].field)
    && (forall p :: p in found ==> p.field in visited && Reports(claims, p))
    && (forall g :: g in visited && Disagrees(claims, g) ==> Reported(found, g))
  }

  /** ConflictDetector.detect: one potential conflict for each field in disagreement. */
  method Detect(claims: seq<Claim>) returns (found: seq<Potential>)
    ensures forall i, j :: 0 <= i < j < |found| ==> found[i].field != found[j].field
    ensures forall p :: p in found ==> Reports(claims, p)
    ensures forall f :: Disagrees(claims, f) ==> Reported(found, f)
  {
    found := [];
    var visited: set<Field> := {};
    for i := 0 to |claims|
      invariant forall k :: 0 <= k < i ==> claims[k].field in visited
      invariant Visited(claims, found, visited)
    {
      var f := claims[i].field;
      if f !in visited {
        DetectNext(claims, found, visited, f);
        var own := OfField(claims, f);
        if !Agree(own) && !SameSource(own) { found := found + [Potential(f, Ids(own))]; }
        visited := visited + {f};
      }
    }
    VisitedAll(claims, found, visited);
  }

  lemma VisitedAll(claims: seq<Claim>, found: seq<Potential>, visited: set<Field>)
    requires Visited(claims, found, visited) && forall k :: 0 <= k < |claims| ==> claims[k].field in visited
    ensures forall f :: Disagrees(claims, f) ==> Reported(found, f)
  {
  }

  /** One more field visited. */
  lemma DetectNext(claims: seq<Claim>, found: seq<Potential>, visited: set<Field>, f: Field)
    requires f !in visited && Visited(claims, found, visited)
    ensures var own := OfField(claims, f);
      Visited(claims, if !Agree(own) && !SameSource(own) then found + [Potential(f, Ids(own))] else found,
              visited + {f})
  {
    DisagreesWhen(claims, f);
    if Disagrees(claims, f) { VisitedReported(claims, found, visited, Potential(f, Ids(OfField(claims, f)))); }
  }

  lemma VisitedReported(claims: seq<Claim>, found: seq<Potential>, visited: set<Field>, p: Potential)
    requires p.field !in visited && Visited(claims, found, visited) && Disagrees(claims, p.field)
    requires p.ids == Ids(OfField(claims, p.field))
    ensures Visited(claims, found + [p], visited + {p.field})
  {
    ReportsOwn(claims, p.field);
    var next := found + [p];
    assert next[|found|] in next;
    forall g | g in visited && Disagrees(claims, g) ensures Reported(next, g) { StillReported(found, [p], g); }
    forall a | 0 <= a < |found| ensures found[a].field != p.field { assert found[a] in found; }
  }

  lemma StillReported(found: seq<Potential>, more: seq<Potential>, f: Field)
    requires Reported(found, f)
    ensures Reported(found + more, f)
  {
    var p :| p in found && p.field == f;
    assert p in found + more;
  }

  lemma ReportsOwn(claims: seq<Claim>, f: Field)
    requires Disagrees(claims, f)
    ensures Reports(claims, Potential(f, Ids(OfField(claims, f))))
  {
    var own := OfField(claims, f);
    forall x ensures x in Ids(own) <==> exists c :: c in claims && c.field == f && c.id == x {
      if c :| c in claims && c.field == f && c.id == x {
        assert c in own;
        var j :| 0 <= j < |own| && own[j] == c;
      }
    }
  }

  lemma DisagreesWhen(claims: seq<Claim>, f: Field)
    ensures var own := OfField(claims, f); Disagrees(claims, f) <==> !Agree(own) && !SameSource(own)
  {
    var own := OfField(claims, f);
    if !Agree(own) && !SameSource(own) {
      var i, j :| 0 <= i < j < |own| && own[i].norm != own[j].norm;
      assert own[i] in own && own[j] in own;
      var m, n :| 0 <= m < n < |own| && own[m].source != own[n].source;
      assert own[m] in own && own[n] in own;
    }
  }

  // ---------------------------------------------------------------- what a writer sees and leaves

  ghost predicate OnSlot(l: Ledger, id: CaseId, e: EventId, f: Field) {
    id < |l.cases| && l.cases[id].event == e && l.cases[id].field == f && l.cases[id].past != []
  }

  /** The conflict is open and links all the claims. */
  predicate Linked(l: Ledger, id: CaseId, ids: set<ClaimId>) {
    id < |l.cases| && l.cases[id].past != [] && Now(l.cases[id]).status.Open? && ids <= l.cases[id].links
  }

  /** The conflict was open at some point since the given version, and is resolved now. */
  ghost predicate ResolvedSince(l: Ledger, id: CaseId, version: nat) {
    && id < |l.cases| && l.cases[id].past != [] && Now(l.cases[id]).status.Resolved?
    && exists row :: row in l.cases[id].past && row.status.Open? && row.version >= version
  }

  /** Resolved by somebody after the rows were read. */
  ghost predicate ResolvedAfter(snap: Ledger, l: Ledger, id: CaseId) {
    ResolvedSince(l, id, if id < |snap.cases| && snap.cases[id].past != [] then Now(snap.cases[id]).version else 1)
  }

  /** Open with all its claims, or resolved by somebody since it was read. */
  ghost predicate Met(snap: Ledger, l: Ledger, e: EventId, p: Potential) {
    exists id: CaseId :: OnSlot(l, id, e, p.field) && (Linked(l, id, p.ids) || ResolvedAfter(snap, l, id))
  }

  /** The potential conflict was met after some write at or beyond position `from`. */
  ghost predicate MetDuring(start: Ledger, trace: seq<Op>, from: nat, snap: Ledger, e: EventId, p: Potential) {
    exists i :: from <= i <= |trace| && Met(snap, Run(start, trace[..i]), e, p)
  }

  ghost predicate AllMet(start: Ledger, trace: seq<Op>, from: nat, snap: Ledger, e: EventId, found: seq<Potential>,
                         n: nat)
    requires n <= |found|
  {
    forall q :: 0 <= q < n ==> MetDuring(start, trace, from, snap, e, found[q])
  }

  ghost predicate SlotLinked(l: Ledger, e: EventId, p: Potential) {
    exists id: CaseId :: OnSlot(l, id, e, p.field) && Linked(l, id, p.ids)
  }

  /** The slot has one conflict, and that one is open and links all the claims. */
  ghost predicate Settled(l: Ledger, e: EventId, p: Potential) {
    exists id: CaseId ::
      && OnSlot(l, id, e, p.field) && Linked(l, id, p.ids)
      && forall j: CaseId :: OnSlot(l, j, e, p.field) ==> j == id
  }

  /** The conflicts of a field are as they were read. */
  ghost predicate SameField(snap: Ledger, l: Ledger, f: Field) {
    && |snap.cases| <= |l.cases|
    && forall i :: 0 <= i < |snap.cases| && snap.cases[i].field == f ==> l.cases[i] == snap.cases[i]
  }

  /** Undisturbed, after `n` rounds: those fields are linked, the others as they were read. */
  ghost predicate Progress(snap: Ledger, l: Ledger, e: EventId, found: seq<Potential>, n: nat)
    requires n <= |found|
  {
    && l.merged == snap.merged
    && (forall q :: 0 <= q < n ==> SlotLinked(l, e, found[q]))
    && (forall q :: n <= q < |found| ==> SameField(snap, l, found[q].field))
  }

  /** What an attempt to bring evidence into a resolved conflict can come to. */
  ghost predicate Reopened(r: Outcome, l: Ledger, id: CaseId, ids: set<ClaimId>, since: nat) {
    match r
    case Applied => Linked(l, id, ids)
    case Deferred => ResolvedSince(l, id, since)
    case GaveUp => false
    case Raised => id < |l.cases| && l.cases[id].past != [] && Now(l.cases[id]).version >= since + MaxVersionRetry
  }

  ghost predicate Won(l: Ledger, id: CaseId, winner: ClaimId) {
    && id < |l.cases| && l.cases[id].past != [] && Now(l.cases[id]).status.Resolved?
    && Now(l.cases[id]).winner == Some(winner) && winner in l.cases[id].links
  }

  /** The replacement is an active claim of the conflict's field. */
  ghost predicate Stands(replacement: Claim, active: seq<Claim>, f: Field) {
    replacement.field == f && exists c :: c in active && c.id == replacement.id
  }

  ghost predicate WonByAgreed(l: Ledger, id: CaseId, active: seq<seq<Claim>>) {
    exists k :: 0 <= k < |active| && Unanimous(active[k]) && Won(l, id, active[k][0].id)
  }

  /** While a detection holds an event's lock nobody else adds conflicts to it. */
  ghost predicate LockKept(l: Ledger, l': Ledger, e: EventId) {
    && e in l.busy && e in l'.busy && l'.busy[e] == l.busy[e] && |l.cases| <= |l'.cases|
    && forall i :: |l.cases| <= i < |l'.cases| ==> l'.cases[i].event != e
  }

  /** `find_open_by_event_field`. */
  function FindOpen(l: Ledger, e: EventId, f: Field, n: nat): (r: Option<CaseId>)
    requires n <= |l.cases|
    ensures r.Some? ==> OnSlot(l, r.value, e, f) && Now(l.cases[r.value]).status.Open?
    ensures r.None? ==> forall i :: 0 <= i < n && OnSlot(l, i, e, f) ==> Now(l.cases[i]).status.Resolved?
  {
    if n == 0 then None
    else
      var k := l.cases[n - 1];
      if k.event == e && k.field == f && k.past != [] && Now(k).status.Open? then Some(n - 1)
      else FindOpen(l, e, f, n - 1)
  }

  /** What a write that took effect leaves behind. */
  ghost predicate Effect(op: Op, l: Ledger)
    requires op.MergeEvidence? || op.AutoClose? || op.UpdateWinner? || op.ReopenForEvidence?
  {
    if op.MergeEvidence? || op.ReopenForEvidence? then Linked(l, op.id, op.ids) else Won(l, op.id, op.winner)
  }

  /** A write this transaction makes on a row it read with the given status. */
  predicate Writes(op: Op, id: CaseId, seen: Row, status: Status) {
    && ((op.MergeEvidence? && status.Open?) || (op.AutoClose? && status.Open?) ||
        (op.UpdateWinner? && status.Resolved?) || (op.ReopenForEvidence? && status.Resolved?))
    && op.id == id && op.seen == seen
  }

  /** The write found its row unchanged and was applied to it. */
  ghost predicate TookEffect(l: Ledger, op: Op, l': Ledger)
    requires op.MergeEvidence? || op.AutoClose? || op.UpdateWinner? || op.ReopenForEvidence?
  {
    && op.id < |l.cases| && l.cases[op.id].past != [] && Now(l.cases[op.id]) == op.seen
    && LedgerOk(l) && l' == Step(l, op)
  }

  /** Winners are stored claims. */
  ghost predicate WinnersKnown(l: Ledger, norms: map<ClaimId, int>) {
    forall i :: 0 <= i < |l.cases| && l.cases[i].past != [] && Now(l.cases[i]).winner.Some? ==>
      Now(l.cases[i]).winner.value in norms
  }

  /** Nothing but conflict `id` differs, and at most that one is new. */
  ghost predicate OthersSame(l: Ledger, l': Ledger, id: CaseId) {
    && l.merged == l'.merged && |l.cases| <= |l'.cases| <= |l.cases| + 1 && (|l'.cases| > |l.cases| ==> id == |l.cases|)
    && forall i :: 0 <= i < |l.cases| && i != id ==> l'.cases[i] == l.cases[i]
  }

  predicate Contradicted(claims: seq<Claim>, norm: int) {
    exists i :: 0 <= i < |claims| && claims[i].norm != norm
  }

  /** `latest_resolved_conflicts_by_field`: the resolved row of the field with the highest version. */
  function FindResolved(l: Ledger, e: EventId, f: Field, n: nat): (r: Option<CaseId>)
    requires n <= |l.cases|
    ensures r.Some? ==> OnSlot(l, r.value, e, f) && Now(l.cases[r.value]).status.Resolved?
    ensures r.Some? ==> forall i :: 0 <= i < n && OnSlot(l, i, e, f) && Now(l.cases[i]).status.Resolved? ==>
      Now(l.cases[i]).version <= Now(l.cases[r.value]).version
    ensures r.None? ==> forall i :: 0 <= i < n && OnSlot(l, i, e, f) ==> Now(l.cases[i]).status.Open?
  {
    if n == 0 then None
    else
      var before := FindResolved(l, e, f, n - 1);
      var k := l.cases[n - 1];
      if !(k.event == e && k.field == f && k.past != [] && Now(k).status.Resolved?) then before
      else if before.None? || Now(k).version > Now(l.cases[before.value]).version then Some(n - 1)
      else before
  }

  /** A detection has locked the event and recorded the fields in conflict. */
  ghost predicate Begun(l: Ledger, l': Ledger, e: EventId) {
    && Extends(l, l') && l'.cases == l.cases && l'.merged == l.merged
    && e in l'.busy && l'.busy[e] == FieldsInConflict(l, e)
  }

  lemma MetNow(start: Ledger, trace: seq<Op>, from: nat, snap: Ledger, e: EventId, p: Potential, id: CaseId)
    requires from <= |trace| && OnSlot(Run(start, trace), id, e, p.field)
    requires Linked(Run(start, trace), id, p.ids) || ResolvedAfter(snap, Run(start, trace), id)
    ensures MetDuring(start, trace, from, snap, e, p)
  {
    assert trace[..|trace|] == trace;
    assert Met(snap, Run(start, trace[..|trace|]), e, p);
  }

  lemma MetStays(start: Ledger, before: seq<Op>, trace: seq<Op>, from: nat, snap: Ledger, e: EventId, p: Potential)
    requires before <= trace && MetDuring(start, before, from, snap, e, p)
    ensures MetDuring(start, trace, from, snap, e, p)
  {
    var k :| from <= k <= |before| && Met(snap, Run(start, before[..k]), e, p);
    assert trace[..k] == before[..k];
  }

  lemma AllMetNext(start: Ledger, before: seq<Op>, trace: seq<Op>, from: nat, snap: Ledger, e: EventId,
                   found: seq<Potential>, n: nat, id: CaseId)
    requires n < |found| && before <= trace && from <= |before| && AllMet(start, before, from, snap, e, found, n)
    requires OnSlot(Run(start, trace), id, e, found[n].field)
    requires Linked(Run(start, trace), id, found[n].ids) || ResolvedAfter(snap, Run(start, trace), id)
    ensures AllMet(start, trace, from, snap, e, found, n + 1)
  {
    MetNow(start, trace, from, snap, e, found[n], id);
    forall q | 0 <= q < n ensures MetDuring(start, trace, from, snap, e, found[q]) {
      MetStays(start, before, trace, from, snap, e, found[q]);
    }
  }

  lemma StepProgress(snap: Ledger, l: Ledger, l': Ledger, e: EventId, found: seq<Potential>, n: nat, id: CaseId)
    requires n < |found| && forall i, j :: 0 <= i < j < |found| ==> found[i].field != found[j].field
    requires Extends(l, l') && Progress(snap, l, e, found, n)
    requires OthersSame(l, l', id) && OnSlot(l', id, e, found[n].field) && Linked(l', id, found[n].ids)
    ensures Progress(snap, l', e, found, n + 1)
  {
    forall q | 0 <= q < n ensures SlotLinked(l', e, found[q]) {
      var j: CaseId :| OnSlot(l, j, e, found[q].field) && Linked(l, j, found[q].ids);
      assert CaseExtends(l.cases[j], l'.cases[j]);
      assert j != id;
      assert OnSlot(l', j, e, found[q].field) && Linked(l', j, found[q].ids);
    }
    forall q | n + 1 <= q < |found| ensures SameField(snap, l', found[q].field) {
      forall i | 0 <= i < |snap.cases| && snap.cases[i].field == found[q].field ensures l'.cases[i] == snap.cases[i] {
        assert CaseExtends(l.cases[i], l'.cases[i]);
        assert i != id;
      }
    }
  }

  lemma OneOnSlot(l: Ledger, i: CaseId, j: CaseId, e: EventId, f: Field)
    requires OnePerSlot(l) && e !in l.merged && OnSlot(l, i, e, f) && OnSlot(l, j, e, f)
    ensures i == j
  {
  }

  lemma ProgressSettles(snap: Ledger, l: Ledger, e: EventId, found: seq<Potential>, q: nat)
    requires LedgerOk(l) && e !in snap.merged && q < |found| && Progress(snap, l, e, found, |found|)
    ensures Settled(l, e, found[q])
  {
    var id: CaseId :| OnSlot(l, id, e, found[q].field) && Linked(l, id, found[q].ids);
    forall j: CaseId | OnSlot(l, j, e, found[q].field) ensures j == id { OneOnSlot(l, j, id, e, found[q].field); }
  }

  lemma ProgressSettlesAll(snap: Ledger, l: Ledger, e: EventId, found: seq<Potential>)
    requires LedgerOk(l) && e !in snap.merged && Progress(snap, l, e, found, |found|)
    ensures forall p :: p in found ==> Settled(l, e, p)
  {
    forall p | p in found ensures Settled(l, e, p) {
      var q :| 0 <= q < |found| && found[q] == p;
      ProgressSettles(snap, l, e, found, q);
    }
  }

  lemma ResolvedEarlier(l: Ledger, id: CaseId, version: nat, earlier: nat)
    requires ResolvedSince(l, id, version) && earlier <= version
    ensures ResolvedSince(l, id, earlier)
  {
    var row :| row in l.cases[id].past && row.status.Open? && row.version >= version;
    assert row.version >= earlier;
  }

  lemma ReopenedEarlier(r: Outcome, l: Ledger, id: CaseId, ids: set<ClaimId>, since: nat, earlier: nat)
    requires Reopened(r, l, id, ids, since) && earlier <= since
    ensures Reopened(r, l, id, ids, earlier)
  {
    if r.Deferred? { ResolvedEarlier(l, id, since, earlier); }
  }

  lemma StepKeepsEvents(l: Ledger, op: Op)
    ensures |l.cases| <= |Step(l, op).cases|
    ensures forall i :: 0 <= i < |l.cases| ==> Step(l, op).cases[i].event == l.cases[i].event
  {
  }

  lemma StepKeepsLock(l: Ledger, op: Op, e: EventId)
    requires e in l.busy && !((op.Insert? || op.EndDetect?) && op.event == e)
    ensures LockKept(l, Step(l, op), e)
  {
  }

  lemma {:induction false} RunKeepsLock(l: Ledger, ops: seq<Op>, e: EventId)
    requires e in l.busy
    requires forall op :: op in ops ==> !((op.Insert? || op.EndDetect?) && op.event == e)
    ensures LockKept(l, Run(l, ops), e)
    decreases |ops|
  {
    if ops != [] {
      var before := Run(l, ops[..|ops| - 1]);
      RunKeepsLock(l, ops[..|ops| - 1], e);
      StepKeepsLock(before, ops[|ops| - 1], e);
      StepKeepsEvents(before, ops[|ops| - 1]);
      forall i | |l.cases| <= i < |Run(l, ops).cases| ensures Run(l, ops).cases[i].event != e {
        if i < |before.cases| { assert before.cases[i].event != e; }
      }
    }
  }

  lemma StillKnown(l: Ledger, l': Ledger, id: CaseId, row: Row)
    requires Extends(l, l') && id < |l.cases| && row in l.cases[id].past
    ensures id < |l'.cases| && row in l'.cases[id].past
  {
    assert CaseExtends(l.cases[id], l'.cases[id]);
  }

  lemma TookEffectHas(l: Ledger, op: Op)
    requires op.MergeEvidence? || op.AutoClose? || op.UpdateWinner? || op.ReopenForEvidence?
    requires Writes(op, op.id, op.seen, op.seen.status)
    requires LedgerOk(l) && op.id < |l.cases| && l.cases[op.id].past != [] && op.seen == Now(l.cases[op.id])
    ensures Effect(op, Step(l, op))
  {
  }

  /** The version of a read row is its position among the row's values. */
  lemma ReadsAreVersions(l: Ledger, id: CaseId, seen: Row)
    requires LedgerOk(l) && id < |l.cases| && seen in l.cases[id].past
    ensures l.cases[id].past != []
    ensures seen.version <= Now(l.cases[id]).version
    ensures seen.version == Now(l.cases[id]).version ==> seen == Now(l.cases[id])
  {
    assert CaseOk(l.cases[id], l.cases[id].event in l.merged);
    var i :| 0 <= i < |l.cases[id].past| && l.cases[id].past[i] == seen;
  }

  lemma VersionsGrow(l: Ledger, l': Ledger, id: CaseId)
    requires LedgerOk(l) && LedgerOk(l') && Extends(l, l') && id < |l.cases|
    ensures id < |l'.cases| && l.cases[id].past != [] && l'.cases[id].past != []
    ensures Now(l.cases[id]).version <= Now(l'.cases[id]).version
    ensures Now(l.cases[id]) in l'.cases[id].past
  {
    assert CaseOk(l.cases[id], l.cases[id].event in l.merged);
    assert CaseOk(l'.cases[id], l'.cases[id].event in l'.merged);
    assert CaseExtends(l.cases[id], l'.cases[id]);
    assert l'.cases[id].past[|l.cases[id].past| - 1] == Now(l.cases[id]);
  }

  lemma BegunOk(l: Ledger, e: EventId)
    requires LedgerOk(l) && e !in l.busy && e !in l.merged
    ensures LedgerOk(Step(l, BeginDetect(e))) && Begun(l, Step(l, BeginDetect(e)), e)
  {
    StepOk(l, BeginDetect(e));
  }

  lemma StaysOnSlot(l: Ledger, l': Ledger, id: CaseId, e: EventId, f: Field)
    requires OnSlot(l, id, e, f) && Extends(l, l')
    ensures OnSlot(l', id, e, f)
  {
    assert CaseExtends(l.cases[id], l'.cases[id]);
  }

  lemma ReadAgain(snap: Ledger, l: Ledger, id: CaseId)
    requires LedgerOk(snap) && LedgerOk(l) && Extends(snap, l) && id < |snap.cases|
    ensures snap.cases[id].past != [] && id < |l.cases| && Now(snap.cases[id]) in l.cases[id].past
  {
    VersionsGrow(snap, l, id);
  }

  lemma SomeClaimContradicts(claims: seq<Claim>, f: Field, norm: int)
    requires Disagrees(claims, f)
    ensures Contradicted(OfField(claims, f), norm)
  {
    var c, d :| c in claims && d in claims && c.field == f && d.field == f && c.norm != d.norm;
    var own := OfField(claims, f);
    assert c in own && d in own;
    var i :| 0 <= i < |own| && own[i] == c;
    var j :| 0 <= j < |own| && own[j] == d;
    assert own[i].norm != norm || own[j].norm != norm;
  }

  /** A resolved conflict of a field in disagreement has a winner, and some claim contradicts it. */
  lemma ResolvedIsContradicted(snap: Ledger, e: EventId, p: Potential, claims: seq<Claim>, norms: map<ClaimId, int>)
    requires LedgerOk(snap) && e !in snap.merged && Reports(claims, p) && WinnersKnown(snap, norms)
    ensures var r := FindResolved(snap, e, p.field, |snap.cases|);
      r.Some? ==>
        Now(snap.cases[r.value]).winner.Some? && Now(snap.cases[r.value]).winner.value in norms &&
        Contradicted(OfField(claims, p.field), norms[Now(snap.cases[r.value]).winner.value])
  {
    var r := FindResolved(snap, e, p.field, |snap.cases|);
    if r.Some? {
      var k := snap.cases[r.value];
      assert CaseOk(k, false);
      assert RowClean(k.past[|k.past| - 1], k.links, false);
      SomeClaimContradicts(claims, p.field, norms[Now(k).winner.value]);
    }
  }

  /** A field in disagreement with neither an open nor a contradicted conflict has no conflict at all. */
  lemma NoRowYet(snap: Ledger, e: EventId, p: Potential, claims: seq<Claim>, norms: map<ClaimId, int>)
    requires LedgerOk(snap) && e !in snap.merged && Reports(claims, p)
    requires FindOpen(snap, e, p.field, |snap.cases|).None?
    requires var r := FindResolved(snap, e, p.field, |snap.cases|);
      r.Some? && Now(snap.cases[r.value]).winner.Some? && Now(snap.cases[r.value]).winner.value in norms ==>
        !Contradicted(OfField(claims, p.field), norms[Now(snap.cases[r.value]).winner.value])
    requires WinnersKnown(snap, norms)
    ensures p.field !in FieldsInConflict(snap, e)
  {
    ResolvedIsContradicted(snap, e, p, claims, norms);
  }

  // ---------------------------------------------------------------- the reconciler

  class ConflictReconciler {
    /** The others' writes, one batch per statement of this transaction. */
    const world: seq<seq<Op>>
    var ledger: Ledger
    var clock: nat
    /** All writes since `start`, the others' and this transaction's (`own`). */
    ghost const start: Ledger
    ghost var trace: seq<Op>
    ghost var own: seq<Op>

    constructor (l: Ledger, others: seq<seq<Op>>)
      requires LedgerOk(l)
      ensures Valid() && ledger == start == l && world == others && clock == 0 && trace == [] && own == []
    {
      ledger, world, clock := l, others, 0;
      start, trace, own := l, [], [];
    }

    ghost predicate Valid()
      reads this
    {
      LedgerOk(start) && LedgerOk(ledger) && ledger == Run(start, trace)
    }

    function Others(i: nat): seq<Op> {
      if i < |world| then world[i] else []
    }

    /** Nobody else writes from now on. */
    ghost predicate Quiet(from: nat) {
      forall i: nat :: from <= i ==> Others(i) == []
    }

    /** A stored conflict, and a value its row has had. */
    predicate Known(id: CaseId, seen: Row)
      reads this
    {
      id < |ledger.cases| && seen in ledger.cases[id].past
    }

    /** The others leave the event locked by this transaction alone, apart from curator actions. */
    ghost predicate Respects(e: EventId) {
      forall i: nat, op :: op in Others(i) ==> !((op.Insert? || op.EndDetect?) && op.event == e)
    }

    ghost predicate Later(l: Ledger, l': Ledger) {
      Extends(l, l') && forall e :: e in l.busy && Respects(e) ==> LockKept(l, l', e)
    }

    lemma LaterTransitive(a: Ledger, b: Ledger, c: Ledger)
      requires Later(a, b) && Later(b, c)
      ensures Later(a, c)
    {
      ExtendsTransitive(a, b, c);
      forall e | e in a.busy && Respects(e) ensures LockKept(a, c, e) {
        assert LockKept(a, b, e) && LockKept(b, c, e);
        forall i | |a.cases| <= i < |c.cases| ensures c.cases[i].event != e {
          if i < |b.cases| { assert CaseExtends(b.cases[i], c.cases[i]); }
        }
      }
    }

    ghost predicate Grown(since: Ledger, sinceTrace: seq<Op>)
      reads this
    {
      Valid() && Later(since, ledger) && sinceTrace <= trace
    }

    lemma OthersLater(l: Ledger, i: nat)
      requires LedgerOk(l)
      ensures LedgerOk(Run(l, Others(i))) && Later(l, Run(l, Others(i)))
    {
      RunOk(l, Others(i));
      forall e | e in l.busy && Respects(e) ensures LockKept(l, Run(l, Others(i)), e) {
        RunKeepsLock(l, Others(i), e);
      }
    }

    method Meanwhile()
      requires Valid()
      modifies this
      ensures Grown(old(ledger), old(trace)) && own == old(own)
      ensures clock == old(clock) + 1 && ledger == Run(old(ledger), Others(old(clock)))
      ensures trace == old(trace) + Others(old(clock))
    {
      OthersLater(ledger, clock);
      RunAppend(start, trace, Others(clock));
      trace := trace + Others(clock);
      ledger := Run(ledger, Others(clock));
      clock := clock + 1;
    }

    /** One write of this transaction on a row: it takes effect exactly if `seen` is still the row. */
    method CompareAndSwap(op: Op, id: CaseId, seen: Row, status: Status) returns (ok: bool)
      requires Valid() && Known(id, seen) && seen.status == status
      requires Writes(op, id, seen, status)
      modifies this
      ensures Grown(old(ledger), old(trace)) && clock == old(clock)
      ensures ok <==> old(Now(ledger.cases[id])) == seen
      ensures ledger == if ok then Step(old(ledger), op) else old(ledger)
      ensures trace == old(trace) + (if ok then [op] else [])
      ensures own == old(own) + (if ok then [op] else [])
      ensures !ok ==> id < |ledger.cases| && seen.version < Now(ledger.cases[id]).version
    {
      var k := ledger.cases[id];
      ReadsAreVersions(ledger, id, seen);
      ok := Now(k).version == seen.version;
      if ok {
        StepOk(ledger, op);
        assert Later(ledger, Step(ledger, op));
        RunLast(start, trace, op);
        ledger := Step(ledger, op);
        trace := trace + [op];
        own := own + [op];
      }
    }

    /** One round of a retry loop: write if `seen` is still the row, otherwise reload the row. */
    method Attempt(op: Op, id: CaseId, seen: Row, status: Status) returns (ok: bool, reloaded: Row)
      requires Valid() && Known(id, seen) && seen.status == status && Writes(op, id, seen, status)
      modifies this
      ensures Grown(old(ledger), old(trace)) && clock > old(clock) && id < |ledger.cases|
      ensures own == old(own) + (if ok then [op] else [])
      ensures ok ==> Effect(op, ledger)
      ensures !ok ==> Known(id, reloaded) && reloaded == Now(ledger.cases[id]) && reloaded.version > seen.version
      ensures old(Now(ledger.cases[id])) == seen && Quiet(old(clock)) ==> ok && TookEffect(old(ledger), op, ledger)
    {
      reloaded := seen;
      Meanwhile();
      assert Known(id, seen) by { assert CaseExtends(old(ledger).cases[id], ledger.cases[id]); }
      ghost var l := ledger;
      ok := CompareAndSwap(op, id, seen, status);
      LaterTransitive(old(ledger), l, ledger);
      if ok {
        TookEffectHas(l, op);
      } else {
        l := ledger;
        Meanwhile();
        VersionsGrow(l, ledger, id);
        LaterTransitive(old(ledger), l, ledger);
        reloaded := Now(ledger.cases[id]);
      }
    }

    /** `_merge_evidence_into_open`. */
    method MergeEvidenceIntoOpen(id: CaseId, existing: Row, ids: set<ClaimId>) returns (r: Outcome)
      requires Valid() && Known(id, existing) && existing.status.Open?
      modifies this
      ensures Grown(old(ledger), old(trace)) && clock > old(clock) && id < |ledger.cases|
      ensures !r.GaveUp?
      ensures r.Applied? ==> Linked(ledger, id, ids) && |own| == |old(own)| + 1
      ensures r.Deferred? ==> ResolvedSince(ledger, id, existing.version) && own == old(own)
      ensures r.Raised? ==> Now(ledger.cases[id]).version >= existing.version + MaxVersionRetry && own == old(own)
      ensures old(Now(ledger.cases[id])) == existing && Quiet(old(clock)) ==>
        r.Applied? && TookEffect(old(ledger), MergeEvidence(id, existing, ids), ledger)
    {
      var seen := existing;
      for attempt := 0 to MaxVersionRetry
        invariant Grown(old(ledger), old(trace)) && own == old(own) && clock >= old(clock)
        invariant Known(id, seen) && seen.status.Open? && seen.version >= existing.version + attempt
        invariant attempt > 0 ==> seen == Now(ledger.cases[id]) && clock > old(clock)
        invariant attempt == 0 ==> ledger == old(ledger) && clock == old(clock) && seen == existing
        invariant old(Now(ledger.cases[id])) == existing && Quiet(old(clock)) ==> attempt == 0
      {
        ghost var l := ledger;
        var ok, reloaded := Attempt(MergeEvidence(id, seen, ids), id, seen, Open);
        LaterTransitive(old(ledger), l, ledger);
        if ok { return Applied; }
        if reloaded.status != Open {
          assert existing in ledger.cases[id].past by { StillKnown(old(ledger), ledger, id, existing); }
          return Deferred;
        }
        seen := reloaded;
      }
      return Raised;
    }

    /** The row to be reopened turned out to be open already. */
    method MergeInstead(id: CaseId, reloaded: Row, ghost since: nat, ids: set<ClaimId>) returns (r: Outcome)
      requires Valid() && Known(id, reloaded) && reloaded.status.Open? && reloaded.version >= since
      modifies this
      ensures Grown(old(ledger), old(trace)) && clock > old(clock) && id < |ledger.cases|
      ensures !r.GaveUp?
      ensures r.Applied? ==> Linked(ledger, id, ids) && |own| == |old(own)| + 1
      ensures r.Deferred? ==> ResolvedSince(ledger, id, since) && own == old(own)
      ensures r.Raised? ==> Now(ledger.cases[id]).version >= since + MaxVersionRetry && own == old(own)
    {
      r := MergeEvidenceIntoOpen(id, reloaded, ids);
      if r.Deferred? { ResolvedEarlier(ledger, id, reloaded.version, since); }
    }

    /** One round of the reopen loop; no outcome means go round again with the reloaded row. */
    method ReopenOnce(id: CaseId, seen: Row, ids: set<ClaimId>) returns (r: Option<Outcome>, next: Row)
      requires Valid() && Known(id, seen) && seen.status.Resolved?
      modifies this
      ensures Grown(old(ledger), old(trace)) && clock > old(clock) && id < |ledger.cases|
      ensures r.Some? ==> Reopened(r.value, ledger, id, ids, seen.version)
      ensures r.Some? ==> |own| == |old(own)| + (if r.value.Applied? then 1 else 0)
      ensures r.None? ==> own == old(own) && Known(id, next) && next == Now(ledger.cases[id])
      ensures r.None? ==> next.status.Resolved? && next.version > seen.version
      ensures old(Now(ledger.cases[id])) == seen && Quiet(old(clock)) ==>
        r == Some(Applied) && TookEffect(old(ledger), ReopenForEvidence(id, seen, ids), ledger)
    {
      var ok, reloaded := Attempt(ReopenForEvidence(id, seen, ids), id, seen, Resolved);
      next := reloaded;
      if ok { return Some(Applied), next; }
      if reloaded.status == Open {
        ghost var l := ledger;
        var merged := MergeInstead(id, reloaded, seen.version, ids);
        LaterTransitive(old(ledger), l, ledger);
        return Some(merged), next;
      }
      r := None;
    }

    /** `_reopen_resolved_for_evidence`. */
    method ReopenResolvedForEvidence(id: CaseId, existing: Row, ids: set<ClaimId>) returns (r: Outcome)
      requires Valid() && Known(id, existing) && existing.status.Resolved?
      modifies this
      ensures Grown(old(ledger), old(trace)) && clock > old(clock) && id < |ledger.cases|
      ensures Reopened(r, ledger, id, ids, existing.version)
      ensures |own| == |old(own)| + (if r.Applied? then 1 else 0)
      ensures old(Now(ledger.cases[id])) == existing && Quiet(old(clock)) ==>
        r.Applied? && TookEffect(old(ledger), ReopenForEvidence(id, existing, ids), ledger)
    {
      var seen := existing;
      for attempt := 0 to MaxVersionRetry
        invariant Grown(old(ledger), old(trace)) && own == old(own) && clock >= old(clock)
        invariant Known(id, seen) && seen.status.Resolved? && seen.version >= existing.version + attempt
        invariant attempt > 0 ==> seen == Now(ledger.cases[id]) && clock > old(clock)
        invariant attempt == 0 ==> ledger == old(ledger) && clock == old(clock) && seen == existing
        invariant old(Now(ledger.cases[id])) == existing && Quiet(old(clock)) ==> attempt == 0
      {
        ghost var l := ledger;
        var done, next := ReopenOnce(id, seen, ids);
        LaterTransitive(old(ledger), l, ledger);
        if done.Some? {
          ReopenedEarlier(done.value, ledger, id, ids, seen.version, existing.version);
          return done.value;
        }
        seen := next;
      }
      return Raised;
    }

    /** The winner-update loop of `_reconcile_resolved_winner`; it gives up without raising. */
    method ReplaceWinner(id: CaseId, existing: Row, winner: ClaimId) returns (r: Outcome)
      requires Valid() && Known(id, existing) && existing.status.Resolved?
      modifies this
      ensures Grown(old(ledger), old(trace)) && id < |ledger.cases| && !r.Raised?
      ensures r.Applied? ==> Won(ledger, id, winner) && |own| == |old(own)| + 1
      ensures r.Deferred? ==> Now(ledger.cases[id]).status.Open? && own == old(own)
      ensures r.GaveUp? ==> Now(ledger.cases[id]).version >= existing.version + MaxVersionRetry && own == old(own)
      ensures old(Now(ledger.cases[id])) == existing && Quiet(old(clock)) ==> r.Applied?
    {
      var seen := existing;
      for attempt := 0 to MaxVersionRetry
        invariant Grown(old(ledger), old(trace)) && own == old(own) && clock >= old(clock)
        invariant Known(id, seen) && seen.status.Resolved? && seen.version >= existing.version + attempt
        invariant attempt > 0 ==> seen == Now(ledger.cases[id])
        invariant attempt == 0 ==> ledger == old(ledger) && clock == old(clock) && seen == existing
        invariant old(Now(ledger.cases[id])) == existing && Quiet(old(clock)) ==> attempt == 0
      {
        ghost var l := ledger;
        var ok, reloaded := Attempt(UpdateWinner(id, seen, winner), id, seen, Resolved);
        LaterTransitive(old(ledger), l, ledger);
        if ok { return Applied; }
        if reloaded.status != Resolved { return Deferred; }
        seen := reloaded;
      }
      return GaveUp;
    }

    /** `_reconcile_resolved_winner`, for the active claims of the conflict's field. */
    method ReconcileResolvedWinner(id: CaseId, existing: Row, replacement: Claim, active: seq<Claim>)
        returns (r: Outcome)
      requires Valid() && Known(id, existing) && existing.status.Resolved?
      modifies this
      ensures Grown(old(ledger), old(trace)) && id < |ledger.cases|
      ensures active == [] ==> r.Deferred? && ledger == old(ledger) && own == old(own)
      ensures Unanimous(active) && r.Applied? ==>
        Won(ledger, id, if Stands(replacement, active, old(ledger.cases[id].field)) then replacement.id
                        else active[0].id)
      ensures Unanimous(active) ==> !r.Raised? && (r.Deferred? ==> Now(ledger.cases[id]).status.Open?)
      ensures Unanimous(active) && r.GaveUp? ==> Now(ledger.cases[id]).version >= existing.version + MaxVersionRetry
      ensures !Agree(active) ==> Reopened(r, ledger, id, Ids(active), existing.version)
      ensures |own| == |old(own)| + (if r.Applied? then 1 else 0)
      ensures old(Now(ledger.cases[id])) == existing && Quiet(old(clock)) && active != [] ==> r.Applied?
    {
      if active == [] { return Deferred; }
      if Agree(active) {
        var winner := active[0].id;
        if replacement.field == ledger.cases[id].field && replacement.id in Ids(active) { winner := replacement.id; }
        r := ReplaceWinner(id, existing, winner);
      } else {
        r := ReopenResolvedForEvidence(id, existing, Ids(active));
      }
    }

    /** The retry loop of `_auto_resolve_stale_open_conflict`; `active[k]` is what round k reads. */
    method CloseWhenAgreed(id: CaseId, existing: Row, active: seq<seq<Claim>>) returns (r: Outcome)
      requires Valid() && Known(id, existing) && existing.status.Open? && |active| == MaxVersionRetry
      modifies this
      ensures Grown(old(ledger), old(trace)) && id < |ledger.cases| && !r.GaveUp?
      ensures r.Applied? ==> WonByAgreed(ledger, id, active) && |own| == |old(own)| + 1
      ensures r.Deferred? ==> own == old(own)
      ensures r.Raised? ==> Now(ledger.cases[id]).version >= existing.version + MaxVersionRetry && own == old(own)
      ensures old(Now(ledger.cases[id])) == existing && Quiet(old(clock)) && Unanimous(active[0]) ==> r.Applied?
    {
      var seen := existing;
      for attempt := 0 to MaxVersionRetry
        invariant Grown(old(ledger), old(trace)) && own == old(own) && clock >= old(clock)
        invariant Known(id, seen) && seen.status.Open? && seen.version >= existing.version + attempt
        invariant attempt > 0 ==> seen == Now(ledger.cases[id])
        invariant attempt == 0 ==> ledger == old(ledger) && clock == old(clock) && seen == existing
        invariant old(Now(ledger.cases[id])) == existing && Quiet(old(clock)) && Unanimous(active[0]) ==> attempt == 0
      {
        if !Unanimous(active[attempt]) { return Deferred; }
        ghost var l := ledger;
        var winner := active[attempt][0].id;
        var ok, reloaded := Attempt(AutoClose(id, seen, winner, clock), id, seen, Open);
        LaterTransitive(old(ledger), l, ledger);
        if ok {
          assert Won(ledger, id, winner);
          return Applied;
        }
        if reloaded.status != Open { return Deferred; }
        seen := reloaded;
      }
      return Raised;
    }

    /** `_auto_resolve_stale_open_conflict`. */
    method AutoResolveStale(event: EventId, field: Field, active: seq<seq<Claim>>) returns (r: Outcome, id: CaseId)
      requires Valid() && |active| == MaxVersionRetry
      modifies this
      ensures Grown(old(ledger), old(trace)) && !r.GaveUp?
      ensures r.Applied? ==> OnSlot(ledger, id, event, field) && WonByAgreed(ledger, id, active)
      ensures |own| == |old(own)| + (if r.Applied? then 1 else 0)
      ensures r.Raised? ==> OnSlot(old(ledger), id, event, field) && id < |ledger.cases|
      ensures r.Raised? ==> Now(ledger.cases[id]).version >= old(Now(ledger.cases[id])).version + MaxVersionRetry
      ensures Quiet(old(clock)) && OpenRowExists(old(ledger), event, field) && Unanimous(active[0]) ==> r.Applied?
    {
      var found := FindOpen(ledger, event, field, |ledger.cases|);
      id := 0;
      if found.None? { return Deferred, id; }
      id := found.value;
      r := CloseWhenAgreed(id, Now(ledger.cases[id]), active);
      assert CaseExtends(old(ledger).cases[id], ledger.cases[id]);
    }

    /** Lock the event's conflicts for detection and read them. */
    method BeginDetection(event: EventId)
      requires Valid() && event !in ledger.busy && event !in ledger.merged
      modifies this
      ensures Valid() && old(trace) <= trace && clock == old(clock) && own == old(own)
      ensures Begun(old(ledger), ledger, event)
    {
      var op := BeginDetect(event);
      BegunOk(ledger, event);
      RunLast(start, trace, op);
      trace := trace + [op];
      ledger := Step(ledger, op);
    }

    /** Insert a brand-new conflict with its links and first log entry. */
    method InsertOpen(event: EventId, p: Potential) returns (id: CaseId)
      requires Valid() && Respects(event) && event in ledger.busy && p.field !in ledger.busy[event]
      modifies this
      ensures Valid() && Extends(old(ledger), ledger) && old(trace) <= trace && clock == old(clock) + 1
      ensures event in ledger.busy && ledger.busy[event] == old(ledger.busy[event]) + {p.field}
      ensures OnSlot(ledger, id, event, p.field) && Linked(ledger, id, p.ids)
      ensures |own| == |old(own)| + 1
      ensures Quiet(old(clock)) ==> OthersSame(old(ledger), ledger, id)
    {
      Meanwhile();
      ghost var l := ledger;
      assert LockKept(old(ledger), l, event);
      // The row is inserted ON CONFLICT DO NOTHING; with the event locked no other row can be there.
      assert !OpenRowExists(ledger, event, p.field);
      var op := Insert(event, p.field, p.ids);
      StepOk(ledger, op);
      RunLast(start, trace, op);
      id := |ledger.cases|;
      ledger := Step(ledger, op);
      trace := trace + [op];
      own := own + [op];
      ExtendsTransitive(old(ledger), l, ledger);
    }

    /** Cases 1 and 2: extend the open conflict that was read, or reopen the resolved one. */
    method ApplyToRow(event: EventId, p: Potential, id: CaseId, snap: Ledger) returns (r: Outcome)
      requires Valid() && LedgerOk(snap) && Extends(snap, ledger) && Respects(event) && event in ledger.busy
      requires OnSlot(snap, id, event, p.field)
      modifies this
      ensures Valid() && Extends(old(ledger), ledger) && old(trace) <= trace && clock > old(clock)
      ensures event in ledger.busy && ledger.busy[event] == old(ledger.busy[event])
      ensures r.Applied? || r.Deferred? || r.Raised?
      ensures OnSlot(ledger, id, event, p.field)
      ensures r.Applied? ==> Linked(ledger, id, p.ids)
      ensures r.Deferred? ==> ResolvedAfter(snap, ledger, id)
      ensures Quiet(old(clock)) && SameField(snap, old(ledger), p.field) ==>
        r.Applied? && OthersSame(old(ledger), ledger, id)
    {
      ReadAgain(snap, ledger, id);
      var seen := Now(snap.cases[id]);
      if seen.status == Open {
        r := MergeEvidenceIntoOpen(id, seen, p.ids);
      } else {
        r := ReopenResolvedForEvidence(id, seen, p.ids);
      }
      assert LockKept(old(ledger), ledger, event);
      StaysOnSlot(snap, old(ledger), id, event, p.field);
      StaysOnSlot(old(ledger), ledger, id, event, p.field);
    }

    /** One round of `detect_and_apply_new_conflicts`: `snap` is what the event's conflicts were when read. */
    method ApplyPotential(event: EventId, p: Potential, ghost claims: seq<Claim>, fieldClaims: seq<Claim>,
                          norms: map<ClaimId, int>, snap: Ledger)
        returns (r: Outcome, id: CaseId)
      requires Valid() && LedgerOk(snap) && Extends(snap, ledger) && Respects(event)
      requires event !in snap.merged && event in ledger.busy
      requires p.field in ledger.busy[event] ==> p.field in FieldsInConflict(snap, event)
      requires Reports(claims, p) && fieldClaims == OfField(claims, p.field) && p.ids == Ids(fieldClaims)
      requires WinnersKnown(snap, norms)
      modifies this
      ensures Valid() && Extends(old(ledger), ledger) && old(trace) <= trace && clock > old(clock)
      ensures event in ledger.busy && ledger.busy[event] <= old(ledger.busy[event]) + {p.field}
      ensures r.Applied? || r.Deferred? || r.Raised?
      ensures r.Applied? ==> OnSlot(ledger, id, event, p.field) && Linked(ledger, id, p.ids)
      ensures r.Deferred? ==> OnSlot(ledger, id, event, p.field) && ResolvedAfter(snap, ledger, id)
      ensures Quiet(old(clock)) && SameField(snap, old(ledger), p.field) ==>
        r.Applied? && OthersSame(old(ledger), ledger, id)
    {
      var open := FindOpen(snap, event, p.field, |snap.cases|);
      if open.Some? {
        r := ApplyToRow(event, p, open.value, snap);
        return r, open.value;
      }
      var resolved := FindResolved(snap, event, p.field, |snap.cases|);
      if resolved.Some? && Now(snap.cases[resolved.value]).winner.Some? &&
         Contradicted(fieldClaims, norms[Now(snap.cases[resolved.value]).winner.value]) {
        r := ApplyToRow(event, p, resolved.value, snap);
        return r, resolved.value;
      }
      NoRowYet(snap, event, p, claims, norms);
      id := InsertOpen(event, p);
      return Applied, id;
    }

    /** Between two rounds: fields still to come are known to have a conflict only if they had one when read. */
    ghost predicate Detecting(snap: Ledger, event: EventId, found: seq<Potential>, n: nat)
      reads this
      requires n <= |found|
    {
      && Valid() && Extends(snap, ledger) && event in ledger.busy
      && forall q :: n <= q < |found| && found[q].field in ledger.busy[event] ==>
           found[q].field in FieldsInConflict(snap, event)
    }

    /**
     `detect_and_apply_new_conflicts`.  Whatever the others do meanwhile, if the call completes,
     every field in disagreement was at some moment open with all the disagreeing claims linked,
     or somebody resolved it after it was read.  If nobody interferes the call completes and each
     such field ends with exactly one conflict, open, linking all of them.
     */
    method DetectAndApply(event: EventId, active: seq<Claim>, norms: map<ClaimId, int>)
        returns (r: Outcome, found: seq<Potential>)
      requires Valid() && event !in ledger.busy && event !in ledger.merged
      requires Respects(event) && WinnersKnown(ledger, norms)
      modifies this
      ensures Valid() && Extends(old(ledger), ledger) && old(trace) <= trace
      ensures forall f :: Disagrees(active, f) ==> Reported(found, f)
      ensures forall p :: p in found ==> Reports(active, p)
      ensures found == [] ==> ledger == old(ledger) && r.Applied?
      ensures r.Applied? || r.Raised?
      ensures r.Applied? ==> forall p :: p in found ==> MetDuring(start, trace, |old(trace)|, old(ledger), event, p)
      ensures Quiet(old(clock)) ==> r.Applied? && forall p :: p in found ==> Settled(ledger, event, p)
    {
      found := Detect(active);
      if found == [] { return Applied, found; }
      var snap := ledger;
      BeginDetection(event);
      for i := 0 to |found|
        invariant Detecting(snap, event, found, i) && old(trace) <= trace && clock >= old(clock)
        invariant AllMet(start, trace, |old(trace)|, snap, event, found, i)
        invariant Quiet(old(clock)) ==> Progress(snap, ledger, event, found, i)
      {
        ghost var l, before := ledger, trace;
        assert found[i] in found;
        var outcome, id := ApplyPotential(event, found[i], active, OfField(active, found[i].field), norms, snap);
        ExtendsTransitive(snap, l, ledger);
        if outcome.Raised? { return Raised, found; }
        AllMetNext(start, before, trace, |old(trace)|, snap, event, found, i, id);
        if Quiet(old(clock)) { StepProgress(snap, l, ledger, event, found, i, id); }
      }
      if Quiet(old(clock)) { ProgressSettlesAll(snap, ledger, event, found); }
      return Applied, found;
    }
  }
}
