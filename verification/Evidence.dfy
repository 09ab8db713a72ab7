/**
 The evidence of events: ingestion writes claims and supersedes the ones they correct, a merge
 copies an event's active claims to the surviving event and supersedes the originals.
 */
module Evidence {
  import opened Common
  import opened Claims
  import MG = MergeGraph

  /** A raw snapshot: one submission of a source, for one of the source's records if it names one. */
  datatype Snapshot = Snapshot(source: SourceId, record: Option<string>)

  /** Claim and snapshot ids are positions; snapshots are in the order they were taken. */
  datatype Store = Store(events: MG.Store, snapshots: seq<Snapshot>, claims: seq<Claim>)

  datatype Item = Item(field: string, value: int)

  datatype Error =
    | NoClaims
    | DuplicateField
    | RecordMismatch(owner: EventId)
    | Walk(error: MG.WalkError)
    | Refused(reason: MG.MergeError)

  const Empty := Store(map[], [], [])

  // ---------------------------------------------------------------- merging

  function CopyTo(c: Claim, target: EventId): Claim {
    c.(event := target, supersededBy := None)
  }

  /** `order` lists the active claims of an event, in any order. */
  ghost predicate Lists(claims: seq<Claim>, e: EventId, order: seq<ClaimId>) {
    && NoRepeats(order)
    && (forall k :: 0 <= k < |order| ==> order[k] < |claims|)
    && forall i: ClaimId :: i in order <==> i < |claims| && Active(claims[i]) && claims[i].event == e
  }

  /** Each active claim of the source is superseded by its own copy on the target; nothing else changes. */
  ghost predicate ClaimsMoved(claims: seq<Claim>, claims': seq<Claim>, source: EventId, target: EventId,
                              order: seq<ClaimId>) {
    && Lists(claims, source, order)
    && |claims'| == |claims| + |order|
    && (forall k :: 0 <= k < |order| ==>
          claims'[|claims| + k] == CopyTo(claims[order[k]], target) &&
          claims'[order[k]] == Superseding(claims[order[k]], |claims| + k))
    && (forall i :: 0 <= i < |claims| && i !in order ==> claims'[i] == claims[i])
  }

  /** One claim after `bulk_supersede`: untouched if it was superseded already. */
  function Demoted(c: Claim, winner: ClaimId): Claim {
    if Active(c) then Superseding(c, winner) else c
  }

  ghost predicate Merged(s: Store, s': Store, source: EventId, target: EventId, order: seq<ClaimId>) {
    && MG.MergePointers(s.events, source, target) == Ok(s'.events)
    && s'.snapshots == s.snapshots
    && ClaimsMoved(s.claims, s'.claims, source, target, order)
  }

  // ---------------------------------------------------------------- ingesting

  predicate OfRecord(s: Store, i: ClaimId, source: SourceId, record: string) {
    && i < |s.claims| && s.claims[i].source == source
    && s.claims[i].snapshot.Some? && s.claims[i].snapshot.value < |s.snapshots|
    && s.snapshots[s.claims[i].snapshot.value] == Snapshot(source, Some(record))
  }

  /** The active claims that a submission may correct: the record's, or the source's on the event. */
  predicate InScope(s: Store, i: ClaimId, e: EventId, source: SourceId, record: Option<string>) {
    && i < |s.claims| && Active(s.claims[i])
    && match record
       case Some(r) => OfRecord(s, i, source, r)
       case None => s.claims[i].event == e && s.claims[i].source == source
  }

  /** The claims that a new claim on field `f` supersedes. */
  predicate Corrects(s: Store, i: ClaimId, e: EventId, source: SourceId, record: Option<string>, f: string) {
    InScope(s, i, e, source, record) && s.claims[i].field == f
  }

  /** Where a submission mentions a field. */
  function Mention(items: seq<Item>, f: string): (r: Option<nat>)
    ensures r.Some? ==> r.value < |items| && items[r.value].field == f
    ensures r.None? ==> forall k :: 0 <= k < |items| ==> items[k].field != f
  {
    if items == [] then None
    else if items[|items| - 1].field == f then Some(|items| - 1)
    else Mention(items[..|items| - 1], f)
  }

  /** What becomes of claim `i` once the first `n` items are written. */
  function Afterwards(s: Store, i: ClaimId, e: EventId, source: SourceId, record: Option<string>, items: seq<Item>,
                      n: nat): Claim
    requires i < |s.claims|
  {
    var m := Mention(items, s.claims[i].field);
    if InScope(s, i, e, source, record) && m.Some? && m.value < n
    then Superseding(s.claims[i], |s.claims| + m.value) else s.claims[i]
  }

  ghost predicate DistinctFields(items: seq<Item>) {
    forall i, j :: 0 <= i < j < |items| ==> items[i].field != items[j].field
  }

  function Written(e: EventId, source: SourceId, snapshot: SnapshotId, item: Item, at: nat): Claim {
    Claim(e, source, Some(snapshot), item.field, item.value, Raw, None, at, None)
  }

  /** The first `n` items are written, and each has superseded exactly the claims it corrects. */
  ghost predicate ClaimsWritten(s: Store, claims': seq<Claim>, e: EventId, source: SourceId, record: Option<string>,
                                snapshot: SnapshotId, items: seq<Item>, at: nat, n: nat)
    requires n <= |items|
  {
    && |claims'| == |s.claims| + n
    && (forall k :: 0 <= k < n ==> claims'[|s.claims| + k] == Written(e, source, snapshot, items[k], at))
    && (forall i :: 0 <= i < |s.claims| ==> claims'[i] == Afterwards(s, i, e, source, record, items, n))
  }

  /** The order of the query: by snapshot, then by when the claim was made. */
  predicate NoLater(a: Claim, b: Claim)
    requires a.snapshot.Some? && b.snapshot.Some?
  {
    a.snapshot.value < b.snapshot.value || (a.snapshot == b.snapshot && a.at <= b.at)
  }

  /** The newest claim of the record's latest snapshot that has claims. */
  ghost predicate LatestOwner(s: Store, c: ClaimId, source: SourceId, record: string) {
    && OfRecord(s, c, source, record)
    && forall d: ClaimId :: OfRecord(s, d, source, record) ==>
         && s.claims[d].snapshot.value <= s.claims[c].snapshot.value
         && (s.claims[d].snapshot == s.claims[c].snapshot ==> s.claims[d].at <= s.claims[c].at)
  }

  ghost predicate Known(s: Store, source: SourceId, record: Option<string>) {
    record.Some? && exists c: ClaimId :: OfRecord(s, c, source, record.value)
  }

  /** The event of a new submission: the record's own event if the record is known, else any unmerged one. */
  ghost predicate RightEvent(s: Store, e: EventId, source: SourceId, record: Option<string>) {
    Known(s, source, record) ==>
      exists c: ClaimId ::
        LatestOwner(s, c, source, record.value) && MG.HasFate(s.events, s.claims[c].event, MG.Settles(e))
  }

  /** How a chain of merge pointers answers: its root, or the walkers' errors. */
  ghost predicate Walks(s: Store, id: EventId, r: Result<EventId, Error>) {
    match r
    case Ok(e) => MG.HasFate(s.events, id, MG.Settles(e))
    case Err(Walk(EventNotFound(m))) => MG.HasFate(s.events, id, MG.Dangles(m))
    case Err(Walk(EventAlreadyMerged)) => MG.HasFate(s.events, id, MG.Cycles)
    case Err(_) => false
  }

  /** A known record decides: its canonical event, unless the submission names another. */
  ghost predicate ChosenByRecord(s: Store, owner: EventId, explicit: Option<EventId>, r: Result<EventId, Error>) {
    match r
    case Err(RecordMismatch(home)) => explicit.Some? && explicit.value != home && Walks(s, owner, Ok(home))
    case Ok(e) => (explicit.Some? ==> explicit.value == e) && Walks(s, owner, r)
    case Err(_) => Walks(s, owner, r)
  }

  /** An identity match decides: its surviving event, or a new one if it is gone. */
  ghost predicate ChosenByMatch(s: Store, candidate: EventId, newId: EventId, r: Result<EventId, Error>) {
    (r == Ok(newId) && exists m :: MG.HasFate(s.events, candidate, MG.Dangles(m))) ||
    (Walks(s, candidate, r) && !exists m :: r == Err(Walk(MG.EventNotFound(m))))
  }

  /** The event a submission goes to, or why it is refused. */
  ghost predicate Chosen(s: Store, source: SourceId, record: Option<string>, explicit: Option<EventId>,
                         candidate: Option<EventId>, newId: EventId, r: Result<EventId, Error>) {
    if explicit.Some? && explicit.value !in s.events then r == Err(Walk(MG.EventNotFound(explicit.value)))
    else if explicit.Some? && s.events[explicit.value].Some? then r == Err(Walk(MG.EventAlreadyMerged))
    else if Known(s, source, record) then
      exists c: ClaimId :: LatestOwner(s, c, source, record.value) && ChosenByRecord(s, s.claims[c].event, explicit, r)
    else if explicit.Some? then r == Ok(explicit.value)
    else if candidate.Some? then ChosenByMatch(s, candidate.value, newId, r)
    else r == Ok(newId)
  }

  ghost predicate Ingested(s: Store, s': Store, e: EventId, source: SourceId, record: Option<string>,
                           items: seq<Item>, at: nat) {
    && items != [] && DistinctFields(items)
    && s'.events == MG.Apply(s.events, MG.Create(e)) && MG.Root(s'.events, e)
    && s'.snapshots == s.snapshots + [Snapshot(source, record)]
    && RightEvent(s, e, source, record)
    && ClaimsWritten(s, s'.claims, e, source, record, |s.snapshots|, items, at, |items|)
  }

  /** A curator's resolution as far as claims go: perhaps one override claim, and losers superseded. */
  ghost predicate Decided(s: Store, s': Store, extra: seq<Claim>, losers: set<ClaimId>, winner: ClaimId) {
    && s'.events == s.events && s'.snapshots == s.snapshots
    && |extra| <= 1
    && (forall c :: c in extra ==> c.kind == ManualOverride && c.snapshot == None && c.event in s.events)
    && s'.claims == BulkSupersede(s.claims + extra, losers, winner)
  }

  class EvidenceStore {
    var events: MG.Store
    var snapshots: seq<Snapshot>
    var claims: seq<Claim>

    constructor ()
      ensures Now() == Empty
    {
      events, snapshots, claims := map[], [], [];
    }

    function Now(): Store
      reads this
    {
      Store(events, snapshots, claims)
    }

    /** `find_active_by_event`. */
    method FindActiveByEvent(e: EventId) returns (order: seq<ClaimId>)
      ensures Lists(claims, e, order)
    {
      order := [];
      for i := 0 to |claims|
        invariant NoRepeats(order) && forall k :: 0 <= k < |order| ==> order[k] < i
        invariant forall c: ClaimId :: c in order <==> c < i && Active(claims[c]) && claims[c].event == e
      {
        if Active(claims[i]) && claims[i].event == e { order := order + [i]; }
      }
    }

    /** MergeDuplicateEvents on the events and their claims; a refused merge changes nothing. */
    method MergeEvents(source: EventId, target: EventId) returns (r: Result<seq<ClaimId>, Error>)
      modifies this
      ensures r.Err? ==> Now() == old(Now())
      ensures r.Ok? <==> source != target && old(MG.Root(events, source) && MG.Root(events, target))
      ensures r.Err? ==> r.error.Refused? && MG.RefusedFor(events, source, target, r.error.reason)
      ensures r.Ok? ==> Merged(old(Now()), Now(), source, target, r.value)
      ensures r.Ok? ==> forall e, x :: Conserved(old(claims), claims, source, target, e, x)
    {
      var pointers := MG.MergePointers(events, source, target);
      MG.MergeGoesThrough(events, source, target);
      if pointers.Err? { return Err(Refused(pointers.error)); }
      events := pointers.value;
      var order := MoveClaims(source, target);
      MergeConserves(old(claims), claims, source, target, order);
      return Ok(order);
    }

    /** Steps 1 and 2 of the merge. */
    method MoveClaims(source: EventId, target: EventId) returns (order: seq<ClaimId>)
      modifies this`claims
      ensures ClaimsMoved(old(claims), claims, source, target, order)
    {
      order := FindActiveByEvent(source);
      ghost var base := claims;
      assert forall k :: 0 <= k < |order| ==> order[k] in order;
      var oldToNew := CopyClaims(order, target);
      ghost var copied := claims;
      SupersedeCopied(order, oldToNew, |base|);
      MovedBy(base, copied, claims, source, target, order);
    }

    /** Step 1 of the merge: new claims on the target. */
    method CopyClaims(order: seq<ClaimId>, target: EventId) returns (oldToNew: map<ClaimId, ClaimId>)
      requires forall k :: 0 <= k < |order| ==> order[k] < |claims|
      requires NoRepeats(order)
      modifies this`claims
      ensures claims == old(claims) + Copies(old(claims), order, target)
      ensures forall k :: 0 <= k < |order| ==> order[k] in oldToNew && oldToNew[order[k]] == |old(claims)| + k
    {
      oldToNew := map[];
      for k := 0 to |order|
        invariant claims == old(claims) + Copies(old(claims), order[..k], target)
        invariant forall j :: 0 <= j < k ==> order[j] in oldToNew && oldToNew[order[j]] == |old(claims)| + j
      {
        oldToNew := oldToNew[order[k] := |claims|];
        var copy := CopyTo(claims[order[k]], target);
        assert Copies(old(claims), order[..k + 1], target) == Copies(old(claims), order[..k], target) + [copy];
        claims := claims + [copy];
      }
      assert order[..|order|] == order;
    }

    /** Step 2: each source claim that is still active is superseded by its copy. */
    method SupersedeCopied(order: seq<ClaimId>, oldToNew: map<ClaimId, ClaimId>, ghost first: ClaimId)
      requires NoRepeats(order) && forall k :: 0 <= k < |order| ==> order[k] < |claims|
      requires forall k :: 0 <= k < |order| ==> order[k] in oldToNew && oldToNew[order[k]] == first + k
      modifies this`claims
      ensures |claims| == |old(claims)| && forall i :: 0 <= i < |claims| && i !in order ==> claims[i] == old(claims)[i]
      ensures forall k :: 0 <= k < |order| ==> claims[order[k]] == Demoted(old(claims)[order[k]], first + k)
    {
      for k := 0 to |order|
        invariant |claims| == |old(claims)|
        invariant forall i :: 0 <= i < |claims| && i !in order[..k] ==> claims[i] == old(claims)[i]
        invariant forall j :: 0 <= j < k ==> claims[order[j]] == Demoted(old(claims)[order[j]], first + j)
      {
        assert order[k] !in order[..k];
        SupersedeOne(order[k], oldToNew[order[k]]);
        assert order[..k + 1] == order[..k] + [order[k]];
      }
      assert order[..|order|] == order;
    }

    method SupersedeOne(c: ClaimId, winner: ClaimId)
      requires c < |claims|
      modifies this`claims
      ensures claims == old(claims)[c := Demoted(old(claims)[c], winner)]
    {
      claims := BulkSupersede(claims, {c}, winner);
    }

    /** `_assert_no_duplicate_fields`. */
    method HasDuplicate(items: seq<Item>) returns (dup: bool)
      ensures dup <==> !DistinctFields(items)
    {
      var seen: set<string> := {};
      dup := false;
      for i := 0 to |items|
        invariant seen == set j | 0 <= j < i :: items[j].field
        invariant dup <==> !DistinctFields(items[..i])
      {
        if items[i].field in seen { dup := true; }
        seen := seen + {items[i].field};
        assert items[..i + 1] == items[..i] + [items[i]];
      }
      assert items[..|items|] == items;
    }

    /** The prior claims of one field: the submission's scope, narrowed to the field. */
    function PriorIds(s: Store, e: EventId, source: SourceId, record: Option<string>, f: string): set<ClaimId> {
      set i | 0 <= i < |s.claims| && Corrects(s, i, e, source, record, f)
    }

    /** ClaimWriter.write_normalised, once the snapshot is stored; returns the fields that had prior claims. */
    method WriteNormalised(e: EventId, source: SourceId, snapshot: SnapshotId, items: seq<Item>,
                           record: Option<string>, at: nat)
        returns (affected: set<string>)
      requires DistinctFields(items)
      modifies this`claims
      ensures ClaimsWritten(old(Now()), claims, e, source, record, snapshot, items, at, |items|)
      ensures forall f :: f in affected <==>
        Mention(items, f).Some? && old(PriorIds(Now(), e, source, record, f)) != {}
      ensures forall on, x :: Accounted(old(Now()), claims, e, source, record, snapshot, items, at, on, x)
    {
      var base := Now();
      affected := {};
      for n := 0 to |items|
        invariant ClaimsWritten(base, claims, e, source, record, snapshot, items, at, n)
        invariant forall f :: f in affected <==>
          Mention(items, f).Some? && Mention(items, f).value < n && PriorIds(base, e, source, record, f) != {}
      {
        label round:
        var prior := PriorIds(base, e, source, record, items[n].field);
        WriteOne(prior, Written(e, source, snapshot, items[n], at));
        if prior != {} { affected := affected + {items[n].field}; }
        MentionsAgree(items, n);
        WrittenNext(base, old@round(claims), claims, prior, e, source, record, snapshot, items, at, n);
      }
      WritingAccounts(base, claims, e, source, record, snapshot, items, at);
    }

    /** Add a claim and supersede the ones it corrects. */
    method WriteOne(prior: set<ClaimId>, claim: Claim)
      requires forall i :: i in prior ==> i < |claims|
      modifies this`claims
      ensures |claims| == |old(claims)| + 1 && claims[|old(claims)|] == claim
      ensures forall i :: 0 <= i < |old(claims)| ==>
        claims[i] == if i in prior then Demoted(old(claims)[i], |old(claims)|) else old(claims)[i]
    {
      var id := |claims|;
      claims := claims + [claim];
      claims := BulkSupersede(claims, prior, id);
    }

    /** `find_latest_event_id_by_source_record_id`, as the claim that decides it. */
    method FindLatestOwner(source: SourceId, record: string) returns (owner: Option<ClaimId>)
      ensures owner.Some? ==> LatestOwner(Now(), owner.value, source, record)
      ensures owner.None? <==> !Known(Now(), source, Some(record))
    {
      owner := None;
      for i := 0 to |claims|
        invariant owner.Some? ==> OfRecord(Now(), owner.value, source, record) && owner.value < i
        invariant forall d: ClaimId :: d < i && OfRecord(Now(), d, source, record) ==>
          owner.Some? && NoLater(claims[d], claims[owner.value])
      {
        if OfRecord(Now(), i, source, record) && (owner.None? || NoLater(claims[owner.value], claims[i])) {
          owner := Some(i);
        }
      }
    }

    /**
     The event a submission goes to: an explicit event, else the record's event, else the event an
     identity match stands for, else a new one.
     */
    method ChooseEvent(source: SourceId, record: Option<string>, explicit: Option<EventId>,
                       candidate: Option<EventId>, newId: EventId) returns (r: Result<EventId, Error>)
      requires newId !in events
      ensures Chosen(Now(), source, record, explicit, candidate, newId, r)
      ensures r.Ok? ==> RightEvent(Now(), r.value, source, record)
      ensures r.Ok? ==> MG.Root(MG.Apply(events, MG.Create(r.value)), r.value)
    {
      if explicit.Some? {
        if explicit.value !in events { return Err(Walk(MG.EventNotFound(explicit.value))); }
        if events[explicit.value].Some? { return Err(Walk(MG.EventAlreadyMerged)); }
      }
      if record.Some? {
        var owner := FindLatestOwner(source, record.value);
        if owner.Some? {
          r := ChooseByRecord(claims[owner.value].event, explicit);
          return r;
        }
      }
      if explicit.Some? { return Ok(explicit.value); }
      if candidate.Some? {
        r := ChooseByMatch(candidate.value, newId);
        return r;
      }
      return Ok(newId);
    }

    method ChooseByRecord(owner: EventId, explicit: Option<EventId>) returns (r: Result<EventId, Error>)
      ensures ChosenByRecord(Now(), owner, explicit, r)
      ensures r.Ok? ==> MG.Root(events, r.value)
    {
      var home := MG.ContinuityTarget(events, owner);
      if home.Err? { return Err(Walk(home.error)); }
      if explicit.Some? && explicit.value != home.value { return Err(RecordMismatch(home.value)); }
      return Ok(home.value);
    }

    method ChooseByMatch(candidate: EventId, newId: EventId) returns (r: Result<EventId, Error>)
      ensures ChosenByMatch(Now(), candidate, newId, r)
      ensures r.Ok? && r.value != newId ==> MG.Root(events, r.value)
    {
      var found := MG.ResolutionTarget(events, candidate);
      if found.Err? { return Err(Walk(found.error)); }
      if found.value.Some? { return Ok(found.value.value); }
      return Ok(newId);
    }

    /** IngestSourceData on the evidence; a refused submission changes nothing. */
    method Ingest(source: SourceId, record: Option<string>, explicit: Option<EventId>, candidate: Option<EventId>,
                  newId: EventId, items: seq<Item>, at: nat) returns (r: Result<EventId, Error>)
      requires newId !in events && SnapshotsKnown(Now())
      modifies this
      ensures r.Err? ==> Now() == old(Now())
      ensures r.Ok? ==> Ingested(old(Now()), Now(), r.value, source, record, items, at)
      ensures r.Ok? ==> forall on, x ::
        Accounted(old(Now()), claims, r.value, source, record, |old(snapshots)|, items, at, on, x)
      ensures r.Ok? ==> forall i :: 0 <= i < |old(claims)| ==>
        CorrectedBy(old(Now()), claims, r.value, source, record, items, i)
      ensures items == [] ==> r == Err(NoClaims)
      ensures items != [] && !DistinctFields(items) ==> r == Err(DuplicateField)
      ensures items != [] && DistinctFields(items) ==>
        Chosen(old(Now()), source, record, explicit, candidate, newId, r)
    {
      if items == [] { return Err(NoClaims); }
      var dup := HasDuplicate(items);
      if dup { return Err(DuplicateField); }
      r := ChooseEvent(source, record, explicit, candidate, newId);
      if r.Err? { return; }
      ghost var before := Now();
      var snapshot := |snapshots|;
      snapshots := snapshots + [Snapshot(source, record)];
      events := MG.Apply(events, MG.Create(r.value));
      ghost var during := Now();
      var affected := WriteNormalised(r.value, source, snapshot, items, record, at);
      ScopeStable(before, during, claims, r.value, source, record, items);
      WritingAccounts(before, claims, r.value, source, record, snapshot, items, at);
      WritingCorrects(before, claims, r.value, source, record, snapshot, items, at);
    }
  }

  lemma MovedBy(base: seq<Claim>, copied: seq<Claim>, claims: seq<Claim>, source: EventId, target: EventId,
                order: seq<ClaimId>)
    requires Lists(base, source, order) && copied == base + Copies(base, order, target) && |claims| == |copied|
    requires forall i :: 0 <= i < |claims| && i !in order ==> claims[i] == copied[i]
    requires forall k :: 0 <= k < |order| ==> claims[order[k]] == Demoted(copied[order[k]], |base| + k)
    ensures ClaimsMoved(base, claims, source, target, order)
  {
    forall k | 0 <= k < |order| ensures claims[|base| + k] == CopyTo(base[order[k]], target) {
      assert |base| + k !in order;
    }
    forall k | 0 <= k < |order| ensures claims[order[k]] == Superseding(base[order[k]], |base| + k) {
      assert order[k] in order && copied[order[k]] == base[order[k]];
    }
  }

  /** Snapshot references are valid and agree with the claim's source. */
  ghost predicate SnapshotsKnown(s: Store) {
    forall i :: 0 <= i < |s.claims| && s.claims[i].snapshot.Some? ==>
      s.claims[i].snapshot.value < |s.snapshots| && s.snapshots[s.claims[i].snapshot.value].source == s.claims[i].source
  }

  /** The new snapshot row and the event row do not change what the submission corrects. */
  lemma ScopeStable(s: Store, t: Store, claims': seq<Claim>, e: EventId, source: SourceId, record: Option<string>,
                    items: seq<Item>)
    requires SnapshotsKnown(s) && t.claims == s.claims && s.snapshots <= t.snapshots
    ensures forall i, n :: 0 <= i < |s.claims| && 0 <= n <= |items| ==>
      Afterwards(t, i, e, source, record, items, n) == Afterwards(s, i, e, source, record, items, n)
  {
  }

  lemma {:induction false} MentionsAgree(items: seq<Item>, n: nat)
    requires DistinctFields(items) && n < |items|
    ensures Mention(items, items[n].field) == Some(n)
  {
  }

  /** One more claim written: its priors were untouched until now, because their field is its own. */
  lemma WrittenNext(s: Store, was: seq<Claim>, next: seq<Claim>, prior: set<ClaimId>, e: EventId, source: SourceId,
                    record: Option<string>, snapshot: SnapshotId, items: seq<Item>, at: nat, n: nat)
    requires n < |items| && DistinctFields(items)
    requires ClaimsWritten(s, was, e, source, record, snapshot, items, at, n)
    requires forall i: ClaimId :: i in prior <==> Corrects(s, i, e, source, record, items[n].field)
    requires |next| == |was| + 1 && next[|was|] == Written(e, source, snapshot, items[n], at)
    requires forall i :: 0 <= i < |was| ==>
      next[i] == if i in prior && Active(was[i]) then Superseding(was[i], |was|) else was[i]
    ensures ClaimsWritten(s, next, e, source, record, snapshot, items, at, n + 1)
  {
    forall i | 0 <= i < |s.claims| ensures next[i] == Afterwards(s, i, e, source, record, items, n + 1) {
      AfterwardsNext(s, i, e, source, record, items, n);
    }
    forall k | 0 <= k < n ensures next[|s.claims| + k] == Written(e, source, snapshot, items[k], at) {
      assert |s.claims| + k !in prior;
    }
  }

  lemma AfterwardsNext(s: Store, i: ClaimId, e: EventId, source: SourceId, record: Option<string>, items: seq<Item>,
                       n: nat)
    requires i < |s.claims| && n < |items| && DistinctFields(items)
    ensures Afterwards(s, i, e, source, record, items, n + 1) ==
      if Corrects(s, i, e, source, record, items[n].field) then Superseding(s.claims[i], |s.claims| + n)
      else Afterwards(s, i, e, source, record, items, n)
    ensures Corrects(s, i, e, source, record, items[n].field) ==>
      Afterwards(s, i, e, source, record, items, n) == s.claims[i] && Active(s.claims[i])
  {
    MentionsAgree(items, n);
  }

  // ---------------------------------------------------------------- what a merge conserves

  datatype Content = Content(source: SourceId, snapshot: Option<SnapshotId>, field: string, value: int,
                             kind: Kind, author: Option<UserId>, at: nat)

  function ContentOf(c: Claim): Content {
    Content(c.source, c.snapshot, c.field, c.value, c.kind, c.author, c.at)
  }

  /** How many active claims of an event say `x`: its multiset of active contents. */
  function Said(claims: seq<Claim>, e: EventId, x: Content): nat {
    SaidTo(claims, |claims|, e, x)
  }

  function SaidTo(claims: seq<Claim>, n: nat, e: EventId, x: Content): nat
    requires n <= |claims|
  {
    if n == 0 then 0 else SaidTo(claims, n - 1, e, x) + (if Says(claims[n - 1], e, x) then 1 else 0)
  }

  predicate Says(c: Claim, e: EventId, x: Content) {
    Active(c) && c.event == e && ContentOf(c) == x
  }

  lemma {:induction false} SaidSame(a: seq<Claim>, b: seq<Claim>, n: nat, e: EventId, x: Content)
    requires n <= |a| && n <= |b| && forall i :: 0 <= i < n ==> Says(a[i], e, x) == Says(b[i], e, x)
    ensures SaidTo(a, n, e, x) == SaidTo(b, n, e, x)
  {
    if n > 0 { SaidSame(a, b, n - 1, e, x); }
  }

  lemma {:induction false} SaidAppend(a: seq<Claim>, b: seq<Claim>, n: nat, e: EventId, x: Content)
    requires n <= |b|
    ensures SaidTo(a + b, |a| + n, e, x) == Said(a, e, x) + SaidTo(b, n, e, x)
  {
    if n == 0 {
      SaidSame(a + b, a, |a|, e, x);
    } else {
      SaidAppend(a, b, n - 1, e, x);
      assert (a + b)[|a| + n - 1] == b[n - 1];
    }
  }

  lemma {:induction false} SaidUpdate(claims: seq<Claim>, i: ClaimId, c: Claim, n: nat, e: EventId, x: Content)
    requires i < n <= |claims|
    ensures SaidTo(claims[i := c], n, e, x) + (if Says(claims[i], e, x) then 1 else 0) ==
            SaidTo(claims, n, e, x) + (if Says(c, e, x) then 1 else 0)
  {
    if i == n - 1 {
      SaidSame(claims[i := c], claims, n - 1, e, x);
    } else {
      SaidUpdate(claims, i, c, n - 1, e, x);
    }
  }

  lemma {:induction false} SaidNever(claims: seq<Claim>, n: nat, e: EventId, x: Content)
    requires n <= |claims| && forall i :: 0 <= i < n ==> !(Active(claims[i]) && claims[i].event == e)
    ensures SaidTo(claims, n, e, x) == 0
  {
    if n > 0 { SaidNever(claims, n - 1, e, x); }
  }

  function Copies(claims: seq<Claim>, order: seq<ClaimId>, target: EventId): (r: seq<Claim>)
    requires forall k :: 0 <= k < |order| ==> order[k] < |claims|
    ensures |r| == |order| && forall k :: 0 <= k < |order| ==> r[k] == CopyTo(claims[order[k]], target)
  {
    seq(|order|, k requires 0 <= k < |order| => CopyTo(claims[order[k]], target))
  }

  /** Copying any listing of an event's active claims copies exactly its contents. */
  lemma {:induction false} CopiesConserve(claims: seq<Claim>, e: EventId, order: seq<ClaimId>, target: EventId,
                                          x: Content)
    requires Lists(claims, e, order)
    ensures Said(Copies(claims, order, target), target, x) == Said(claims, e, x)
    decreases |order|
  {
    if order == [] {
      forall i | 0 <= i < |claims| ensures !(Active(claims[i]) && claims[i].event == e) { assert i !in order; }
      SaidNever(claims, |claims|, e, x);
    } else {
      var n, last := |order| - 1, order[|order| - 1];
      assert last in order;
      var dead := Superseding(claims[last], last);
      var without := claims[last := dead];
      ListsRest(claims, e, order);
      CopiesConserve(without, e, order[..n], target, x);
      SaidUpdate(claims, last, dead, |claims|, e, x);
      SaidSame(Copies(claims, order, target), Copies(without, order[..n], target), n, target, x);
    }
  }

  lemma ListsRest(claims: seq<Claim>, e: EventId, order: seq<ClaimId>)
    requires Lists(claims, e, order) && order != []
    ensures var last := order[|order| - 1];
      Lists(claims[last := Superseding(claims[last], last)], e, order[..|order| - 1])
  {
    var rest, last := order[..|order| - 1], order[|order| - 1];
    assert order == rest + [last];
    assert last !in rest;
    assert forall i :: i in order <==> i in rest || i == last;
  }

  /**
   A merge conserves evidence: the target's active contents become the sum of both, the source
   keeps none, and other events are unaffected.
   */
  lemma MovedConserves(claims: seq<Claim>, claims': seq<Claim>, source: EventId, target: EventId, order: seq<ClaimId>,
                       e: EventId, x: Content)
    requires source != target && ClaimsMoved(claims, claims', source, target, order)
    ensures Conserved(claims, claims', source, target, e, x)
  {
    var front, back := claims'[..|claims|], claims'[|claims|..];
    assert claims' == front + back;
    SaidAppend(front, back, |back|, e, x);
    if e == source { MovedSource(claims, claims', source, target, order, x); } else {
      MovedFront(claims, claims', source, target, order, e, x);
    }
    MovedBack(claims, claims', source, target, order, e, x);
  }

  lemma MovedBack(claims: seq<Claim>, claims': seq<Claim>, source: EventId, target: EventId, order: seq<ClaimId>,
                  e: EventId, x: Content)
    requires ClaimsMoved(claims, claims', source, target, order)
    ensures Said(claims'[|claims|..], e, x) == if e == target then Said(claims, source, x) else 0
  {
    var copies, back := Copies(claims, order, target), claims'[|claims|..];
    SaidSame(back, copies, |copies|, e, x);
    if e == target {
      CopiesConserve(claims, source, order, target, x);
    } else {
      SaidNever(copies, |copies|, e, x);
    }
  }

  lemma MergeConserves(claims: seq<Claim>, claims': seq<Claim>, source: EventId, target: EventId, order: seq<ClaimId>)
    requires source != target && ClaimsMoved(claims, claims', source, target, order)
    ensures forall e, x :: Conserved(claims, claims', source, target, e, x)
  {
    forall e, x ensures Conserved(claims, claims', source, target, e, x) {
      MovedConserves(claims, claims', source, target, order, e, x);
    }
  }

  /** The target says what both said, the source nothing, every other event what it said. */
  ghost predicate Conserved(claims: seq<Claim>, claims': seq<Claim>, source: EventId, target: EventId, e: EventId,
                            x: Content) {
    Said(claims', e, x) ==
      if e == target then Said(claims, target, x) + Said(claims, source, x)
      else if e == source then 0 else Said(claims, e, x)
  }

  lemma MovedFront(claims: seq<Claim>, claims': seq<Claim>, source: EventId, target: EventId, order: seq<ClaimId>,
                   e: EventId, x: Content)
    requires ClaimsMoved(claims, claims', source, target, order) && e != source
    ensures Said(claims'[..|claims|], e, x) == Said(claims, e, x)
  {
    var front := claims'[..|claims|];
    forall i | 0 <= i < |claims| ensures Says(front[i], e, x) == Says(claims[i], e, x) {
      if i in order { var k :| 0 <= k < |order| && order[k] == i; }
    }
    SaidSame(front, claims, |claims|, e, x);
  }

  lemma MovedSource(claims: seq<Claim>, claims': seq<Claim>, source: EventId, target: EventId, order: seq<ClaimId>,
                    x: Content)
    requires ClaimsMoved(claims, claims', source, target, order)
    ensures Said(claims'[..|claims|], source, x) == 0
  {
    var front := claims'[..|claims|];
    forall i | 0 <= i < |front| ensures !(Active(front[i]) && front[i].event == source) {
      if i in order { var k :| 0 <= k < |order| && order[k] == i; }
    }
    SaidNever(front, |front|, source, x);
  }

  /** Each superseded source claim points to its own copy: different claims to different ones. */
  lemma OwnCopies(s: Store, s': Store, source: EventId, target: EventId, order: seq<ClaimId>, i: ClaimId, j: ClaimId)
    requires Merged(s, s', source, target, order) && i in order && j in order
    ensures i < |s.claims| && i < |s'.claims| && j < |s'.claims| && !Active(s'.claims[i])
    ensures s'.claims[i].supersededBy.Some? && s'.claims[j].supersededBy.Some?
    ensures var copy := s'.claims[i].supersededBy.value;
      && |s.claims| <= copy < |s'.claims| && s'.claims[copy].event == target
      && ContentOf(s'.claims[copy]) == ContentOf(s.claims[i])
      && (i != j ==> copy != s'.claims[j].supersededBy.value)
  {
    var k :| 0 <= k < |order| && order[k] == i;
    var m :| 0 <= m < |order| && order[m] == j;
  }

  // ---------------------------------------------------------------- what a submission adds and takes away

  /** The submission's own content: item by item, under the new snapshot. */
  ghost predicate Submits(items: seq<Item>, source: SourceId, snapshot: SnapshotId, at: nat, x: Content) {
    exists k :: 0 <= k < |items| &&
      x == Content(source, Some(snapshot), items[k].field, items[k].value, Raw, None, at)
  }

  /** The submission mentions the claim's field and the claim is its record's, or else its source's on the event. */
  ghost predicate Outdated(s: Store, i: ClaimId, e: EventId, source: SourceId, record: Option<string>,
                           items: seq<Item>)
    requires i < |s.claims|
  {
    var c := s.claims[i];
    && c.kind != Superseded && c.source == source && (exists k :: 0 <= k < |items| && items[k].field == c.field)
    && match record
       case Some(r) =>
         && c.snapshot.Some? && c.snapshot.value < |s.snapshots|
         && s.snapshots[c.snapshot.value] == Snapshot(source, Some(r))
       case None => c.event == e
  }

  /** How many of the first `n` claims said `x` and are outdated. */
  ghost function OutdatedTo(s: Store, n: nat, e: EventId, source: SourceId, record: Option<string>, items: seq<Item>,
                            on: EventId, x: Content): nat
    requires n <= |s.claims|
  {
    if n == 0 then 0
    else
      OutdatedTo(s, n - 1, e, source, record, items, on, x) +
      (if Says(s.claims[n - 1], on, x) && Outdated(s, n - 1, e, source, record, items) then 1 else 0)
  }

  /**
   The account of a submission: what an event says is what it said before without the outdated
   claims, and on the submission's event each submitted content once more.
   */
  ghost predicate Accounted(s: Store, claims': seq<Claim>, e: EventId, source: SourceId, record: Option<string>,
                            snapshot: SnapshotId, items: seq<Item>, at: nat, on: EventId, x: Content) {
    Said(claims', on, x) + OutdatedTo(s, |s.claims|, e, source, record, items, on, x) ==
      Said(s.claims, on, x) + (if on == e && Submits(items, source, snapshot, at, x) then 1 else 0)
  }

  /** An outdated claim is superseded by the new claim on its field; any other stays as it was. */
  ghost predicate CorrectedBy(s: Store, claims': seq<Claim>, e: EventId, source: SourceId, record: Option<string>,
                              items: seq<Item>, i: ClaimId)
    requires i < |s.claims|
  {
    && i < |claims'|
    && if !Outdated(s, i, e, source, record, items) then claims'[i] == s.claims[i]
       else
         && claims'[i].kind == Superseded && claims'[i].supersededBy.Some?
         && |s.claims| <= claims'[i].supersededBy.value < |claims'|
         && claims'[claims'[i].supersededBy.value].field == s.claims[i].field
         && claims'[i].(kind := s.claims[i].kind, supersededBy := s.claims[i].supersededBy) == s.claims[i]
  }

  lemma OutdatedIs(s: Store, i: ClaimId, e: EventId, source: SourceId, record: Option<string>, items: seq<Item>)
    requires i < |s.claims|
    ensures Outdated(s, i, e, source, record, items) <==>
      InScope(s, i, e, source, record) && Mention(items, s.claims[i].field).Some?
  {
  }

  lemma WritingCorrects(s: Store, claims': seq<Claim>, e: EventId, source: SourceId, record: Option<string>,
                        snapshot: SnapshotId, items: seq<Item>, at: nat)
    requires ClaimsWritten(s, claims', e, source, record, snapshot, items, at, |items|)
    ensures forall i :: 0 <= i < |s.claims| ==> CorrectedBy(s, claims', e, source, record, items, i)
  {
    forall i | 0 <= i < |s.claims| ensures CorrectedBy(s, claims', e, source, record, items, i) {
      OutdatedIs(s, i, e, source, record, items);
      assert claims'[i] == Afterwards(s, i, e, source, record, items, |items|);
      var m := Mention(items, s.claims[i].field);
      if m.Some? { assert claims'[|s.claims| + m.value] == Written(e, source, snapshot, items[m.value], at); }
    }
  }

  lemma {:induction false} RemainsSaid(s: Store, claims': seq<Claim>, n: nat, e: EventId, source: SourceId,
                                       record: Option<string>, items: seq<Item>, on: EventId, x: Content)
    requires n <= |s.claims| <= |claims'|
    requires forall i :: 0 <= i < |s.claims| ==> CorrectedBy(s, claims', e, source, record, items, i)
    ensures SaidTo(claims', n, on, x) + OutdatedTo(s, n, e, source, record, items, on, x) == SaidTo(s.claims, n, on, x)
  {
    if n > 0 {
      RemainsSaid(s, claims', n - 1, e, source, record, items, on, x);
      assert CorrectedBy(s, claims', e, source, record, items, n - 1);
    }
  }

  /** The new claims say each submitted content once. */
  lemma {:induction false} NewlySaid(base: nat, claims': seq<Claim>, e: EventId, source: SourceId,
                                     snapshot: SnapshotId, items: seq<Item>, at: nat, n: nat, on: EventId, x: Content)
    requires n <= |items| && DistinctFields(items) && |claims'| == base + |items|
    requires forall k :: 0 <= k < |items| ==> claims'[base + k] == Written(e, source, snapshot, items[k], at)
    ensures SaidTo(claims', base + n, on, x) ==
      SaidTo(claims', base, on, x) + (if on == e && Submits(items[..n], source, snapshot, at, x) then 1 else 0)
  {
    if n > 0 {
      NewlySaid(base, claims', e, source, snapshot, items, at, n - 1, on, x);
      SubmitsNext(items, n, source, snapshot, at, x);
      assert claims'[base + (n - 1)] == Written(e, source, snapshot, items[n - 1], at);
    }
  }

  lemma SubmitsNext(items: seq<Item>, n: nat, source: SourceId, snapshot: SnapshotId, at: nat, x: Content)
    requires 0 < n <= |items| && DistinctFields(items)
    ensures var last := Content(source, Some(snapshot), items[n - 1].field, items[n - 1].value, Raw, None, at);
      && (Submits(items[..n], source, snapshot, at, x) <==>
          Submits(items[..n - 1], source, snapshot, at, x) || x == last)
      && (x == last ==> !Submits(items[..n - 1], source, snapshot, at, x))
  {
    var all, before := items[..n], items[..n - 1];
    assert forall k :: 0 <= k < n - 1 ==> all[k] == before[k];
    if Submits(before, source, snapshot, at, x) {
      var k :| 0 <= k < n - 1 && x == Content(source, Some(snapshot), before[k].field, before[k].value, Raw, None, at);
      assert all[k] == before[k];
    }
    assert all[n - 1] == items[n - 1];
  }

  lemma WritingAccounts(s: Store, claims': seq<Claim>, e: EventId, source: SourceId, record: Option<string>,
                        snapshot: SnapshotId, items: seq<Item>, at: nat)
    requires DistinctFields(items) && ClaimsWritten(s, claims', e, source, record, snapshot, items, at, |items|)
    ensures forall on, x :: Accounted(s, claims', e, source, record, snapshot, items, at, on, x)
  {
    WritingCorrects(s, claims', e, source, record, snapshot, items, at);
    assert items[..|items|] == items;
    forall on, x ensures Accounted(s, claims', e, source, record, snapshot, items, at, on, x) {
      RemainsSaid(s, claims', |s.claims|, e, source, record, items, on, x);
      NewlySaid(|s.claims|, claims', e, source, snapshot, items, at, |items|, on, x);
    }
  }

  /** Nothing can have said what a new snapshot says: right after, the event says it exactly once. */
  lemma SubmittedOnce(s: Store, claims': seq<Claim>, e: EventId, source: SourceId, record: Option<string>,
                      items: seq<Item>, at: nat, x: Content)
    requires SnapshotsKnown(s) && Accounted(s, claims', e, source, record, |s.snapshots|, items, at, e, x)
    requires Submits(items, source, |s.snapshots|, at, x)
    ensures Said(claims', e, x) == 1
  {
    NeverSaid(s, |s.claims|, e, source, record, items, x);
  }

  lemma {:induction false} NeverSaid(s: Store, n: nat, e: EventId, source: SourceId, record: Option<string>,
                                     items: seq<Item>, x: Content)
    requires n <= |s.claims| && SnapshotsKnown(s) && x.snapshot == Some(|s.snapshots|)
    ensures SaidTo(s.claims, n, e, x) == 0 && OutdatedTo(s, n, e, source, record, items, e, x) == 0
  {
    if n > 0 { NeverSaid(s, n - 1, e, source, record, items, x); }
  }
}
