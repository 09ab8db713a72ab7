/**
 Whole runs of ingestions, merges, reprojections, curator resolutions and curator reopens: when the
 active claims of one source record stay together on one unmerged event, one claim a field.
 */
module Records {
  import opened Common
  import opened Claims
  import opened Evidence
  import MG = MergeGraph
  import RR = ResolveReopen
  import P = Projection

  /** The store, and the projected record of each event that has one. */
  datatype State = State(store: Store, records: map<EventId, P.State>)

  datatype Act =
    | Merging(source: EventId, target: EventId, order: seq<ClaimId>)
    | Ingesting(event: EventId, origin: SourceId, record: Option<string>, items: seq<Item>, at: nat)
    | Deciding(event: EventId, extra: seq<Claim>, losers: set<ClaimId>, winner: ClaimId, built: P.Content)
    | Undoing(conflict: RR.State, reopened: RR.State, built: P.Content)
    | Reprojecting(event: EventId, rebuild: P.Act)

  const Nothing := State(Empty, map[])

  /** An event id as text. */
  function Text(e: EventId): string {
    (if e < 10 then "" else Text(e / 10)) + ["0123456789"[e % 10]]
  }

  function Kind(s: Store, e: EventId): P.Event {
    if e !in s.events then P.Missing
    else match s.events[e]
      case None => P.Unmerged
      case Some(target) => P.Absorbed(Text(target))
  }

  function RecordOf(st: State, e: EventId): P.State {
    if e in st.records then st.records[e] else P.State(None, [])
  }

  /** A missing event has no claims. */
  function Reprojected(st: State, e: EventId, a: P.Act): Result<P.State, P.Error> {
    P.Reprojected(RecordOf(st, e), Kind(st.store, e), a.built, false, a.outbox, a.force)
  }

  /** How a curator's request ends: no outbox event causes the reprojection, and nothing forces it. */
  function AtTheEnd(built: P.Content): P.Act {
    P.Act(built, None, false)
  }

  /** The reprojection at the end of a curator's request is refused, and all of it with it. */
  predicate RolledBack(st: State, e: EventId, built: P.Content) {
    Reprojected(st, e, AtTheEnd(built)).Err?
  }

  /** The outcome of a request that would leave the store as `s`. */
  function Ended(st: State, s: Store, e: EventId, a: P.Act): State {
    match Reprojected(st, e, a)
    case Ok(p) => State(s, st.records[e := p])
    case Err(_) => st
  }

  /** A curator reopens a conflict over the stored claims. */
  ghost predicate Undone(s: Store, s': Store, r: RR.State, r': RR.State) {
    RR.Reopening(r, r') && r.claims == s.claims && s' == s.(claims := r'.claims)
  }

  ghost predicate StepOf(st: State, a: Act, st': State) {
    match a
    case Merging(source, target, order) =>
      && Merged(st.store, st'.store, source, target, order)
      && st'.records == st.records[source := P.AbsorbedState(RecordOf(st, source))]
    case Ingesting(e, source, record, items, at) =>
      Ingested(st.store, st'.store, e, source, record, items, at) && st'.records == st.records
    case Deciding(e, extra, losers, winner, built) =>
      exists s :: Decided(st.store, s, extra, losers, winner) && st' == Ended(st, s, e, AtTheEnd(built))
    case Undoing(r, r', built) =>
      exists s :: Undone(st.store, s, r, r') && st' == Ended(st, s, r.conflict.event, AtTheEnd(built))
    case Reprojecting(e, rebuild) =>
      st' == Ended(st, st.store, e, rebuild)
  }

  ghost predicate IsRun(states: seq<State>, acts: seq<Act>) {
    && |states| == |acts| + 1 && states[0] == Nothing
    && forall k :: 0 <= k < |acts| ==> StepAt(states, acts, k)
  }

  ghost predicate StepAt(states: seq<State>, acts: seq<Act>, k: nat)
    requires k < |acts| < |states|
  {
    StepOf(states[k], acts[k], states[k + 1])
  }

  // ---------------------------------------------------------------- the invariant

  ghost predicate AtHome(s: Store) {
    MG.Forest(s.events) && forall i :: 0 <= i < |s.claims| ==> s.claims[i].event in s.events
  }

  /** The surviving event of a claim. */
  ghost function Home(s: Store, i: ClaimId): EventId
    requires AtHome(s) && i < |s.claims|
  {
    MG.Canon(s.events, s.claims[i].event)
  }

  /** All claims of a record, superseded ones included, belong to one surviving event. */
  ghost predicate Together(s: Store)
    requires AtHome(s)
  {
    forall i: ClaimId, j: ClaimId, source, record ::
      OfRecord(s, i, source, record) && OfRecord(s, j, source, record) ==> Home(s, i) == Home(s, j)
  }

  ghost predicate OnRoots(s: Store) {
    forall i: ClaimId, source, record :: OfRecord(s, i, source, record) && Active(s.claims[i]) ==>
      MG.Root(s.events, s.claims[i].event)
  }

  ghost predicate OnePerField(s: Store) {
    forall i: ClaimId, j: ClaimId, source, record ::
      OfRecord(s, i, source, record) && OfRecord(s, j, source, record) && Rivals(s, i, j) ==> i == j
  }

  /** Two active claims about the same field. */
  predicate Rivals(s: Store, i: ClaimId, j: ClaimId)
    requires i < |s.claims| && j < |s.claims|
  {
    Active(s.claims[i]) && Active(s.claims[j]) && s.claims[i].field == s.claims[j].field
  }

  ghost predicate Sound(s: Store) {
    AtHome(s) && SnapshotsKnown(s) && Together(s) && OnRoots(s) && OnePerField(s)
  }

  // ---------------------------------------------------------------- merges

  /** The claim that claim `i` was before the merge, or is a copy of. */
  function Origin(s: Store, order: seq<ClaimId>, i: ClaimId): ClaimId
    requires i < |s.claims| + |order|
  {
    if i < |s.claims| then i else order[i - |s.claims|]
  }

  lemma MergedOrigin(s: Store, s': Store, source: EventId, target: EventId, order: seq<ClaimId>, i: ClaimId)
    requires Merged(s, s', source, target, order) && i < |s'.claims|
    ensures var o := Origin(s, order, i);
      && o < |s.claims|
      && s'.claims[i].source == s.claims[o].source && s'.claims[i].snapshot == s.claims[o].snapshot
      && s'.claims[i].field == s.claims[o].field
      && (Active(s'.claims[i]) ==> Active(s.claims[o]))
      && s'.claims[i].event == (if i < |s.claims| then s.claims[o].event else target)
      && (i >= |s.claims| ==> s.claims[o].event == source)
      && (i < |s.claims| && Active(s'.claims[i]) ==> i !in order && s.claims[i].event != source)
  {
    var o := Origin(s, order, i);
    if i < |s.claims| {
      if i in order { var k :| 0 <= k < |order| && order[k] == i; }
    } else {
      assert s'.claims[|s.claims| + (i - |s.claims|)] == CopyTo(s.claims[o], target);
      assert o in order;
    }
  }

  /** A claim whose origin survived on the source now survives on the target. */
  ghost predicate HomeMoved(s: Store, s': Store, source: EventId, target: EventId, order: seq<ClaimId>, i: ClaimId)
    requires AtHome(s) && AtHome(s') && i < |s'.claims|
  {
    && i < |s.claims| + |order| && Origin(s, order, i) < |s.claims|
    && Home(s', i) == var home := Home(s, Origin(s, order, i)); if home == source then target else home
  }

  lemma MergedHome(s: Store, s': Store, source: EventId, target: EventId, order: seq<ClaimId>)
    requires AtHome(s) && Merged(s, s', source, target, order)
    ensures AtHome(s')
    ensures forall i: ClaimId :: i < |s'.claims| ==> HomeMoved(s, s', source, target, order, i)
  {
    MG.ApplyKeepsForest(s.events, MG.Merge(source, target));
    forall i: ClaimId | i < |s'.claims| ensures s'.claims[i].event in s'.events {
      MergedOrigin(s, s', source, target, order, i);
    }
    forall i: ClaimId | i < |s'.claims| ensures HomeMoved(s, s', source, target, order, i) {
      MergedOrigin(s, s', source, target, order, i);
      if i < |s.claims| {
        MG.MergeMovesCanon(s.events, source, target, s.claims[i].event);
      } else {
        MG.RootIsCanon(s.events, source);
        MG.RootIsCanon(s'.events, target);
      }
    }
  }

  lemma MergedRecords(s: Store, s': Store, source: EventId, target: EventId, order: seq<ClaimId>)
    requires SnapshotsKnown(s) && Merged(s, s', source, target, order)
    ensures SnapshotsKnown(s')
    ensures |s'.claims| == |s.claims| + |order|
    ensures forall i: ClaimId, origin, record :: i < |s'.claims| ==>
      (OfRecord(s', i, origin, record) <==> OfRecord(s, Origin(s, order, i), origin, record))
  {
    forall i: ClaimId | i < |s'.claims|
      ensures Origin(s, order, i) < |s.claims|
      ensures s'.claims[i].source == s.claims[Origin(s, order, i)].source
      ensures s'.claims[i].snapshot == s.claims[Origin(s, order, i)].snapshot
    {
      MergedOrigin(s, s', source, target, order, i);
    }
  }

  lemma MergedOnRoots(s: Store, s': Store, source: EventId, target: EventId, order: seq<ClaimId>)
    requires Sound(s) && Merged(s, s', source, target, order)
    ensures OnRoots(s')
  {
    MergedRecords(s, s', source, target, order);
    forall i: ClaimId, origin, record | OfRecord(s', i, origin, record) && Active(s'.claims[i])
      ensures MG.Root(s'.events, s'.claims[i].event)
    {
      MergedOrigin(s, s', source, target, order, i);
    }
  }

  lemma MergedOnePerField(s: Store, s': Store, source: EventId, target: EventId, order: seq<ClaimId>)
    requires Sound(s) && Merged(s, s', source, target, order)
    ensures OnePerField(s')
  {
    MergedRecords(s, s', source, target, order);
    forall i: ClaimId, j: ClaimId, origin, record |
      OfRecord(s', i, origin, record) && OfRecord(s', j, origin, record) && Rivals(s', i, j)
      ensures i == j
    {
      MergedOrigin(s, s', source, target, order, i);
      MergedOrigin(s, s', source, target, order, j);
      assert Rivals(s, Origin(s, order, i), Origin(s, order, j));
      OriginInjective(s, s', source, target, order, i, j);
    }
  }

  lemma OriginInjective(s: Store, s': Store, source: EventId, target: EventId, order: seq<ClaimId>, i: ClaimId,
                        j: ClaimId)
    requires Merged(s, s', source, target, order) && i < |s'.claims| && j < |s'.claims|
    requires Active(s'.claims[i]) && Active(s'.claims[j]) && Origin(s, order, i) == Origin(s, order, j)
    ensures i == j
  {
    MergedOrigin(s, s', source, target, order, i);
    MergedOrigin(s, s', source, target, order, j);
  }

  lemma MergedSound(s: Store, s': Store, source: EventId, target: EventId, order: seq<ClaimId>)
    requires Sound(s) && Merged(s, s', source, target, order)
    ensures Sound(s')
  {
    MergedHome(s, s', source, target, order);
    MergedRecords(s, s', source, target, order);
    MergedOnRoots(s, s', source, target, order);
    MergedOnePerField(s, s', source, target, order);
    forall i: ClaimId, j: ClaimId, origin, record | OfRecord(s', i, origin, record) && OfRecord(s', j, origin, record)
      ensures Home(s', i) == Home(s', j)
    {
      assert HomeMoved(s, s', source, target, order, i) && HomeMoved(s, s', source, target, order, j);
      assert Home(s, Origin(s, order, i)) == Home(s, Origin(s, order, j));
    }
  }

  // ---------------------------------------------------------------- ingestion

  /** Old claims keep source, snapshot and field; only active ones can stop being active. */
  lemma IngestedOld(s: Store, s': Store, e: EventId, source: SourceId, record: Option<string>, items: seq<Item>,
                    at: nat, i: ClaimId)
    requires Ingested(s, s', e, source, record, items, at) && i < |s.claims|
    ensures i < |s'.claims| && s'.claims[i].event == s.claims[i].event
    ensures s'.claims[i].source == s.claims[i].source && s'.claims[i].snapshot == s.claims[i].snapshot
    ensures s'.claims[i].field == s.claims[i].field && (Active(s'.claims[i]) ==> s'.claims[i] == s.claims[i])
    ensures Active(s'.claims[i]) && InScope(s, i, e, source, record) ==> Mention(items, s.claims[i].field).None?
  {
    assert s'.claims[i] == Afterwards(s, i, e, source, record, items, |items|);
  }

  lemma IngestedNew(s: Store, s': Store, e: EventId, source: SourceId, record: Option<string>, items: seq<Item>,
                    at: nat, i: ClaimId)
    requires Ingested(s, s', e, source, record, items, at) && |s.claims| <= i < |s'.claims|
    ensures i - |s.claims| < |items|
    ensures s'.claims[i] == Written(e, source, |s.snapshots|, items[i - |s.claims|], at)
  {
    assert s'.claims[|s.claims| + (i - |s.claims|)] == Written(e, source, |s.snapshots|, items[i - |s.claims|], at);
  }

  lemma IngestedRecords(s: Store, s': Store, e: EventId, source: SourceId, record: Option<string>, items: seq<Item>,
                        at: nat)
    requires SnapshotsKnown(s) && Ingested(s, s', e, source, record, items, at)
    ensures SnapshotsKnown(s')
    ensures forall i: ClaimId, origin, r :: i < |s'.claims| ==>
      (OfRecord(s', i, origin, r) <==>
       if i < |s.claims| then OfRecord(s, i, origin, r) else origin == source && record == Some(r))
  {
    forall i: ClaimId | i < |s.claims|
      ensures s'.claims[i].source == s.claims[i].source && s'.claims[i].snapshot == s.claims[i].snapshot
    {
      IngestedOld(s, s', e, source, record, items, at, i);
    }
    forall i: ClaimId | |s.claims| <= i < |s'.claims|
      ensures s'.claims[i].source == source && s'.claims[i].snapshot == Some(|s.snapshots|)
    {
      IngestedNew(s, s', e, source, record, items, at, i);
    }
  }

  lemma IngestedHome(s: Store, s': Store, e: EventId, source: SourceId, record: Option<string>, items: seq<Item>,
                     at: nat)
    requires AtHome(s) && Ingested(s, s', e, source, record, items, at)
    ensures AtHome(s')
    ensures forall i: ClaimId :: i < |s'.claims| ==> Home(s', i) == if i < |s.claims| then Home(s, i) else e
  {
    MG.ApplyKeepsForest(s.events, MG.Create(e));
    forall i: ClaimId | i < |s'.claims|
      ensures s'.claims[i].event in s'.events
      ensures MG.Canon(s'.events, s'.claims[i].event) == if i < |s.claims| then Home(s, i) else e
    {
      if i < |s.claims| {
        IngestedOld(s, s', e, source, record, items, at, i);
        MG.CreateKeepsCanon(s.events, e, s.claims[i].event);
      } else {
        IngestedNew(s, s', e, source, record, items, at, i);
        MG.RootIsCanon(s'.events, e);
      }
    }
  }

  /** The record's claims already belong to the event the new ones are written to. */
  lemma RightHome(s: Store, e: EventId, source: SourceId, record: string, i: ClaimId)
    requires AtHome(s) && Together(s) && RightEvent(s, e, source, Some(record)) && OfRecord(s, i, source, record)
    ensures Home(s, i) == e
  {
    var c: ClaimId :| LatestOwner(s, c, source, record) && MG.HasFate(s.events, s.claims[c].event, MG.Settles(e));
    MG.CanonUnique(s.events, s.claims[c].event, e);
    assert Home(s, i) == Home(s, c);
  }

  lemma IngestedTogether(s: Store, s': Store, e: EventId, source: SourceId, record: Option<string>, items: seq<Item>,
                         at: nat)
    requires Sound(s) && Ingested(s, s', e, source, record, items, at)
    ensures AtHome(s') && Together(s')
  {
    IngestedHome(s, s', e, source, record, items, at);
    IngestedRecords(s, s', e, source, record, items, at);
    if record.Some? {
      forall i: ClaimId | OfRecord(s, i, source, record.value) ensures Home(s, i) == e {
        RightHome(s, e, source, record.value, i);
      }
    }
    forall i: ClaimId, j: ClaimId, origin, r | OfRecord(s', i, origin, r) && OfRecord(s', j, origin, r)
      ensures Home(s', i) == Home(s', j)
    {
      assert i < |s.claims| && j < |s.claims| ==> Home(s, i) == Home(s, j);
    }
  }

  lemma IngestedOnRoots(s: Store, s': Store, e: EventId, source: SourceId, record: Option<string>, items: seq<Item>,
                        at: nat)
    requires Sound(s) && Ingested(s, s', e, source, record, items, at)
    ensures OnRoots(s')
  {
    IngestedRecords(s, s', e, source, record, items, at);
    forall i: ClaimId, origin, r | OfRecord(s', i, origin, r) && Active(s'.claims[i])
      ensures MG.Root(s'.events, s'.claims[i].event)
    {
      if i < |s.claims| {
        IngestedOld(s, s', e, source, record, items, at, i);
      } else {
        IngestedNew(s, s', e, source, record, items, at, i);
      }
    }
  }

  /** A new claim of the record and an old one still active are about different fields. */
  lemma OldNewFields(s: Store, s': Store, e: EventId, source: SourceId, record: string, items: seq<Item>, at: nat,
                     i: ClaimId, j: ClaimId)
    requires SnapshotsKnown(s) && Ingested(s, s', e, source, Some(record), items, at)
    requires i < |s.claims| <= j < |s'.claims| && OfRecord(s, i, source, record) && Active(s'.claims[i])
    ensures s'.claims[i].field != s'.claims[j].field
  {
    IngestedOld(s, s', e, source, Some(record), items, at, i);
    IngestedNew(s, s', e, source, Some(record), items, at, j);
    assert InScope(s, i, e, source, Some(record));
  }

  lemma IngestedOnePerField(s: Store, s': Store, e: EventId, source: SourceId, record: Option<string>,
                            items: seq<Item>, at: nat)
    requires Sound(s) && Ingested(s, s', e, source, record, items, at)
    ensures OnePerField(s')
  {
    IngestedRecords(s, s', e, source, record, items, at);
    forall i: ClaimId, j: ClaimId, origin, r |
      OfRecord(s', i, origin, r) && OfRecord(s', j, origin, r) && Rivals(s', i, j)
      ensures i == j
    {
      if i < |s.claims| && j < |s.claims| {
        IngestedOld(s, s', e, source, record, items, at, i);
        IngestedOld(s, s', e, source, record, items, at, j);
        assert Rivals(s, i, j);
      } else if i >= |s.claims| && j >= |s.claims| {
        IngestedNew(s, s', e, source, record, items, at, i);
        IngestedNew(s, s', e, source, record, items, at, j);
      } else {
        if i < |s.claims| { OldNewFields(s, s', e, source, r, items, at, i, j); }
        if j < |s.claims| { OldNewFields(s, s', e, source, r, items, at, j, i); }
      }
    }
  }

  lemma IngestedSound(s: Store, s': Store, e: EventId, source: SourceId, record: Option<string>, items: seq<Item>,
                      at: nat)
    requires Sound(s) && Ingested(s, s', e, source, record, items, at)
    ensures Sound(s')
  {
    IngestedRecords(s, s', e, source, record, items, at);
    IngestedTogether(s, s', e, source, record, items, at);
    IngestedOnRoots(s, s', e, source, record, items, at);
    IngestedOnePerField(s, s', e, source, record, items, at);
  }

  // ---------------------------------------------------------------- curator resolutions

  lemma DecidedOld(s: Store, s': Store, extra: seq<Claim>, losers: set<ClaimId>, winner: ClaimId, i: ClaimId)
    requires Decided(s, s', extra, losers, winner) && i < |s'.claims|
    ensures |s'.claims| == |s.claims| + |extra|
    ensures i < |s.claims| ==> SameBut(s.claims[i], s'.claims[i])
    ensures i >= |s.claims| ==> s'.claims[i].event in s.events && s'.claims[i].snapshot.None?
  {
    var all := s.claims + extra;
    if i >= |s.claims| { assert all[i] in extra; }
  }

  /** The same claim, perhaps superseded meanwhile. */
  predicate SameBut(c: Claim, c': Claim) {
    && c'.event == c.event && c'.source == c.source && c'.snapshot == c.snapshot && c'.field == c.field
    && (Active(c') ==> Active(c))
  }

  lemma DecidedRecords(s: Store, s': Store, extra: seq<Claim>, losers: set<ClaimId>, winner: ClaimId)
    requires SnapshotsKnown(s) && Decided(s, s', extra, losers, winner)
    ensures SnapshotsKnown(s') && |s'.claims| == |s.claims| + |extra|
    ensures forall i: ClaimId, origin, r :: OfRecord(s', i, origin, r) <==> OfRecord(s, i, origin, r)
    ensures forall i: ClaimId :: i < |s.claims| ==> SameBut(s.claims[i], s'.claims[i])
    ensures forall i: ClaimId :: |s.claims| <= i < |s'.claims| ==> s'.claims[i].event in s.events
  {
    forall i: ClaimId | i < |s'.claims|
      ensures i < |s.claims| ==> SameBut(s.claims[i], s'.claims[i])
      ensures i >= |s.claims| ==> s'.claims[i].event in s.events && s'.claims[i].snapshot.None?
    {
      DecidedOld(s, s', extra, losers, winner, i);
    }
  }

  lemma DecidedSound(s: Store, s': Store, extra: seq<Claim>, losers: set<ClaimId>, winner: ClaimId)
    requires Sound(s) && Decided(s, s', extra, losers, winner)
    ensures Sound(s')
  {
    DecidedRecords(s, s', extra, losers, winner);
    assert AtHome(s');
    forall i: ClaimId, j: ClaimId, origin, r | OfRecord(s', i, origin, r) && OfRecord(s', j, origin, r)
      ensures Home(s', i) == Home(s', j)
    {
      assert Home(s, i) == Home(s, j);
    }
    forall i: ClaimId, j: ClaimId, origin, r |
      OfRecord(s', i, origin, r) && OfRecord(s', j, origin, r) && Rivals(s', i, j)
      ensures i == j
    {
      assert Rivals(s, i, j);
    }
  }

  /** A curator's resolution of a conflict that its reprojection lets through is such a step. */
  lemma ResolutionDecides(r: RR.State, r': RR.State, choice: RR.Choice, user: UserId, source: SourceId, at: nat,
                          st: State, built: P.Content)
      returns (extra: seq<Claim>, losers: set<ClaimId>)
    requires RR.Resolving(r, r', choice, user, source, at)
    requires st.store.claims == r.claims && r.conflict.event in st.store.events
    ensures var s' := st.store.(claims := r'.claims);
      var e := r.conflict.event;
      && Decided(st.store, s', extra, losers, RR.WinnerOf(r, choice))
      && StepOf(st, Deciding(e, extra, losers, RR.WinnerOf(r, choice), built), Ended(st, s', e, AtTheEnd(built)))
  {
    var w := RR.WithWinner(r, choice, user, source, at);
    extra := w.claims[|r.claims|..];
    assert w.claims == st.store.claims + extra;
    losers := RR.Losers(w, RR.WinnerOf(r, choice));
    assert Decided(st.store, st.store.(claims := r'.claims), extra, losers, RR.WinnerOf(r, choice));
  }

  // ---------------------------------------------------------------- curator reopens

  /** Every claim of a record that would come back is on an unmerged event. */
  ghost predicate ReturnsToRoots(s: Store, r: RR.State)
    requires r.claims == s.claims
  {
    forall i: ClaimId, source, record :: i in RR.Revivable(r) && OfRecord(s, i, source, record) ==>
      MG.Root(s.events, s.claims[i].event)
  }

  /** Another claim of the record on the same field is active, or would come back too. */
  ghost predicate Taken(s: Store, r: RR.State, i: ClaimId, j: ClaimId, source: SourceId, record: string)
    requires r.claims == s.claims
  {
    && j != i && OfRecord(s, i, source, record) && OfRecord(s, j, source, record)
    && s.claims[j].field == s.claims[i].field && (Active(s.claims[j]) || j in RR.Revivable(r))
  }

  ghost predicate ReturnsToFree(s: Store, r: RR.State)
    requires r.claims == s.claims
  {
    forall i: ClaimId, j: ClaimId, source, record :: i in RR.Revivable(r) ==> !Taken(s, r, i, j, source, record)
  }

  /** What can be seen before a reopen: whether the claims it brings back have their places free. */
  ghost predicate Harmless(s: Store, r: RR.State)
    requires r.claims == s.claims
  {
    ReturnsToRoots(s, r) && ReturnsToFree(s, r)
  }

  lemma UndoneClaims(s: Store, s': Store, r: RR.State, r': RR.State, i: ClaimId)
    requires Undone(s, s', r, r') && i < |s.claims|
    ensures |s'.claims| == |s.claims|
    ensures s'.claims[i].event == s.claims[i].event && s'.claims[i].field == s.claims[i].field
    ensures s'.claims[i].source == s.claims[i].source && s'.claims[i].snapshot == s.claims[i].snapshot
    ensures Active(s'.claims[i]) <==> Active(s.claims[i]) || i in RR.Revivable(r)
  {
    assert s'.claims[i] == RR.Revived(r, i);
  }

  lemma UndoneRecords(s: Store, s': Store, r: RR.State, r': RR.State)
    requires Undone(s, s', r, r')
    ensures SnapshotsKnown(s) ==> SnapshotsKnown(s')
    ensures forall i: ClaimId, origin, record :: OfRecord(s', i, origin, record) <==> OfRecord(s, i, origin, record)
  {
    forall i: ClaimId | i < |s.claims|
      ensures s'.claims[i].source == s.claims[i].source && s'.claims[i].snapshot == s.claims[i].snapshot
    {
      UndoneClaims(s, s', r, r', i);
    }
  }

  lemma UndoneTogether(s: Store, s': Store, r: RR.State, r': RR.State)
    requires Sound(s) && Undone(s, s', r, r')
    ensures AtHome(s') && SnapshotsKnown(s') && Together(s')
  {
    UndoneRecords(s, s', r, r');
    forall i: ClaimId | i < |s.claims| ensures s'.claims[i].event == s.claims[i].event {
      UndoneClaims(s, s', r, r', i);
    }
    forall i: ClaimId, j: ClaimId, origin, record | OfRecord(s', i, origin, record) && OfRecord(s', j, origin, record)
      ensures Home(s', i) == Home(s', j)
    {
      assert Home(s, i) == Home(s, j);
    }
  }

  lemma UndoneOnRoots(s: Store, s': Store, r: RR.State, r': RR.State)
    requires Sound(s) && Undone(s, s', r, r')
    ensures OnRoots(s') <==> ReturnsToRoots(s, r)
  {
    UndoneRecords(s, s', r, r');
    forall i: ClaimId | i < |s.claims|
      ensures s'.claims[i].event == s.claims[i].event
      ensures Active(s'.claims[i]) <==> Active(s.claims[i]) || i in RR.Revivable(r)
    {
      UndoneClaims(s, s', r, r', i);
    }
    if OnRoots(s') {
      forall i: ClaimId, origin, record | i in RR.Revivable(r) && OfRecord(s, i, origin, record)
        ensures MG.Root(s.events, s.claims[i].event)
      {
        assert OfRecord(s', i, origin, record) && Active(s'.claims[i]);
      }
    }
  }

  lemma UndoneRivals(s: Store, s': Store, r: RR.State, r': RR.State, i: ClaimId, j: ClaimId, origin: SourceId,
                     record: string)
    requires OnePerField(s) && Undone(s, s', r, r') && i != j
    requires OfRecord(s, i, origin, record) && OfRecord(s, j, origin, record)
    ensures |s'.claims| == |s.claims|
    ensures Rivals(s', i, j) <==>
      (i in RR.Revivable(r) && Taken(s, r, i, j, origin, record)) ||
      (j in RR.Revivable(r) && Taken(s, r, j, i, origin, record))
  {
    UndoneClaims(s, s', r, r', i);
    UndoneClaims(s, s', r, r', j);
    assert !Rivals(s, i, j);
  }

  lemma UndoneOnePerField(s: Store, s': Store, r: RR.State, r': RR.State)
    requires OnePerField(s) && Undone(s, s', r, r')
    ensures OnePerField(s') <==> ReturnsToFree(s, r)
  {
    UndoneRecords(s, s', r, r');
    if ReturnsToFree(s, r) {
      forall i: ClaimId, j: ClaimId, origin, record |
        OfRecord(s', i, origin, record) && OfRecord(s', j, origin, record) && Rivals(s', i, j)
        ensures i == j
      {
        if i != j { UndoneRivals(s, s', r, r', i, j, origin, record); }
      }
    }
    if OnePerField(s') {
      forall i: ClaimId, j: ClaimId, origin, record | i in RR.Revivable(r) ensures !Taken(s, r, i, j, origin, record) {
        if OfRecord(s, i, origin, record) && OfRecord(s, j, origin, record) && i != j {
          UndoneRivals(s, s', r, r', i, j, origin, record);
          assert OfRecord(s', i, origin, record) && OfRecord(s', j, origin, record);
        }
      }
    }
  }

  /**
   A reopen that takes effect keeps the record invariant exactly when every claim of a record that it
   brings back is on an unmerged event, and no other claim of that record on that field is active or
   comes back.
   */
  lemma UndoneSoundExactly(s: Store, s': Store, r: RR.State, r': RR.State)
    requires Sound(s) && Undone(s, s', r, r')
    ensures Sound(s') <==> Harmless(s, r)
  {
    UndoneTogether(s, s', r, r');
    UndoneOnRoots(s, s', r, r');
    UndoneOnePerField(s, s', r, r');
  }

  /** A request to reopen keeps the record invariant exactly when it is refused or harmless. */
  lemma ReopenSoundExactly(st: State, st': State, r: RR.State, r': RR.State, built: P.Content)
    requires Sound(st.store) && StepOf(st, Undoing(r, r', built), st')
    ensures r.claims == st.store.claims
    ensures Sound(st'.store) <==> RolledBack(st, r.conflict.event, built) || Harmless(st.store, r)
  {
    var s :| Undone(st.store, s, r, r') && st' == Ended(st, s, r.conflict.event, AtTheEnd(built));
    UndoneSoundExactly(st.store, s, r, r');
  }

  // ---------------------------------------------------------------- whole runs

  lemma EmptySound()
    ensures Sound(Empty)
  {
  }

  /** A reopen that goes through and breaks the record invariant. */
  ghost predicate HarmfulAt(states: seq<State>, acts: seq<Act>, k: nat)
    requires IsRun(states, acts) && k < |acts|
  {
    assert StepAt(states, acts, k);
    && acts[k].Undoing? && !RolledBack(states[k], acts[k].conflict.conflict.event, acts[k].built)
    && !Harmless(states[k].store, acts[k].conflict)
  }

  lemma StepSoundExactly(states: seq<State>, acts: seq<Act>, k: nat)
    requires IsRun(states, acts) && k < |acts| && Sound(states[k].store)
    ensures Sound(states[k + 1].store) <==> !HarmfulAt(states, acts, k)
  {
    var st, st' := states[k], states[k + 1];
    assert StepAt(states, acts, k);
    match acts[k]
    case Merging(source, target, order) => MergedSound(st.store, st'.store, source, target, order);
    case Ingesting(e, source, record, items, at) =>
      IngestedSound(st.store, st'.store, e, source, record, items, at);
    case Deciding(e, extra, losers, winner, built) =>
      var s :| Decided(st.store, s, extra, losers, winner) && st' == Ended(st, s, e, AtTheEnd(built));
      DecidedSound(st.store, s, extra, losers, winner);
    case Undoing(r, r', built) => ReopenSoundExactly(st, st', r, r', built);
    case Reprojecting(_, _) =>
  }

  lemma {:induction false} RunSound(states: seq<State>, acts: seq<Act>, n: nat)
    requires IsRun(states, acts) && n <= |acts| && forall k :: 0 <= k < n ==> !HarmfulAt(states, acts, k)
    ensures Sound(states[n].store)
  {
    if n == 0 {
      EmptySound();
    } else {
      RunSound(states, acts, n - 1);
      StepSoundExactly(states, acts, n - 1);
    }
  }

  /** The record invariant holds all along a run exactly when none of its reopens was harmful. */
  lemma RunSoundExactly(states: seq<State>, acts: seq<Act>)
    requires IsRun(states, acts)
    ensures (forall n :: 0 <= n <= |acts| ==> Sound(states[n].store)) <==>
            (forall k :: 0 <= k < |acts| ==> !HarmfulAt(states, acts, k))
  {
    if forall k :: 0 <= k < |acts| ==> !HarmfulAt(states, acts, k) {
      forall n | 0 <= n <= |acts| ensures Sound(states[n].store) { RunSound(states, acts, n); }
    }
    if forall n :: 0 <= n <= |acts| ==> Sound(states[n].store) {
      forall k | 0 <= k < |acts| ensures !HarmfulAt(states, acts, k) {
        assert Sound(states[k].store) && Sound(states[k + 1].store);
        StepSoundExactly(states, acts, k);
      }
    }
  }

  /**
   In every state of every run without a harmful reopen, any two active claims of one source record
   are on the same event, that event is not merged, and they are about different fields unless they
   are the same claim.
   */
  lemma RecordsStayTogether(states: seq<State>, acts: seq<Act>, n: nat, i: ClaimId, j: ClaimId, source: SourceId,
                            record: string)
    requires IsRun(states, acts) && n <= |acts| && forall k :: 0 <= k < n ==> !HarmfulAt(states, acts, k)
    requires OfRecord(states[n].store, i, source, record) && OfRecord(states[n].store, j, source, record)
    requires Active(states[n].store.claims[i]) && Active(states[n].store.claims[j])
    ensures var s := states[n].store;
      && s.claims[i].event == s.claims[j].event && MG.Root(s.events, s.claims[i].event)
      && (s.claims[i].field == s.claims[j].field ==> i == j)
  {
    RunSound(states, acts, n);
    var s := states[n].store;
    assert s.claims[i].field == s.claims[j].field ==> Rivals(s, i, j);
    MG.RootIsCanon(s.events, s.claims[i].event);
    MG.RootIsCanon(s.events, s.claims[j].event);
    assert Home(s, i) == Home(s, j);
  }

  // ---------------------------------------------------------------- which requests are refused

  /** Act `k` reprojects the event while it is unmerged, on its own or at the end of a request. */
  ghost predicate ProjectsAt(states: seq<State>, acts: seq<Act>, k: nat, e: EventId)
    requires IsRun(states, acts) && k < |acts|
  {
    && MG.Root(states[k].store.events, e)
    && match acts[k]
       case Deciding(event, _, _, _, _) => event == e
       case Undoing(r, _, _) => r.conflict.event == e
       case Reprojecting(event, _) => event == e
       case _ => false
  }

  ghost predicate Projected(states: seq<State>, acts: seq<Act>, n: nat, e: EventId)
    requires IsRun(states, acts) && n <= |acts|
  {
    exists k :: 0 <= k < n && ProjectsAt(states, acts, k, e)
  }

  /** What an event's record looks like, given whether it was reprojected while unmerged. */
  ghost predicate RecordRight(st: State, e: EventId, projected: bool) {
    var p := RecordOf(st, e);
    match Kind(st.store, e)
    case Missing => p == P.State(None, []) && !projected
    case Unmerged => P.Current(p) && (p.row.Some? <==> projected)
    case Absorbed(_) => P.Buried(p, projected)
  }

  lemma RebuildRight(st: State, s: Store, e: EventId, a: P.Act, id: EventId, projected: bool)
    requires RecordRight(st, id, projected) && s.events == st.store.events
    ensures RecordRight(Ended(st, s, e, a), id, projected || (id == e && MG.Root(st.store.events, e)))
  {
    if id == e {
      var p := RecordOf(st, e);
      match Kind(st.store, e)
      case Missing =>
      case Unmerged => P.CurrentStep(p, P.Unmerged, a);
      case Absorbed(target) =>
        if projected { P.StuckStep(p, target, a); } else { P.CurrentStep(p, P.Absorbed(target), a); }
    }
  }

  lemma StepRight(states: seq<State>, acts: seq<Act>, k: nat, id: EventId, projected: bool)
    requires IsRun(states, acts) && k < |acts| && RecordRight(states[k], id, projected)
    ensures RecordRight(states[k + 1], id, projected || ProjectsAt(states, acts, k, id))
  {
    var st, st' := states[k], states[k + 1];
    assert StepAt(states, acts, k);
    match acts[k]
    case Merging(source, target, order) =>
    case Ingesting(e, source, record, items, at) =>
    case Deciding(e, extra, losers, winner, built) =>
      var s :| Decided(st.store, s, extra, losers, winner) && st' == Ended(st, s, e, AtTheEnd(built));
      RebuildRight(st, s, e, AtTheEnd(built), id, projected);
    case Undoing(r, r', built) =>
      var s :| Undone(st.store, s, r, r') && st' == Ended(st, s, r.conflict.event, AtTheEnd(built));
      RebuildRight(st, s, r.conflict.event, AtTheEnd(built), id, projected);
    case Reprojecting(e, rebuild) => RebuildRight(st, st.store, e, rebuild, id, projected);
  }

  lemma ProjectedSoFar(states: seq<State>, acts: seq<Act>, n: nat, e: EventId)
    requires IsRun(states, acts) && 0 < n <= |acts|
    ensures Projected(states, acts, n, e) <==> Projected(states, acts, n - 1, e) || ProjectsAt(states, acts, n - 1, e)
  {
  }

  lemma SameRight(st: State, e: EventId, a: bool, b: bool)
    requires RecordRight(st, e, a) && a == b
    ensures RecordRight(st, e, b)
  {
  }

  lemma {:induction false} RunRight(states: seq<State>, acts: seq<Act>, n: nat, e: EventId)
    requires IsRun(states, acts) && n <= |acts|
    ensures RecordRight(states[n], e, Projected(states, acts, n, e))
  {
    if n > 0 {
      var was, now := Projected(states, acts, n - 1, e), ProjectsAt(states, acts, n - 1, e);
      RunRight(states, acts, n - 1, e);
      StepRight(states, acts, n - 1, e, was);
      ProjectedSoFar(states, acts, n, e);
      SameRight(states[n], e, was || now, Projected(states, acts, n, e));
    }
  }

  /**
   In every state of every run a curator's request on an event is refused by its reprojection exactly
   if the event is absorbed and had been reprojected before.
   */
  lemma RolledBackExactly(states: seq<State>, acts: seq<Act>, n: nat, e: EventId, built: P.Content)
    requires IsRun(states, acts) && n <= |acts| && e in states[n].store.events
    ensures RolledBack(states[n], e, built) <==>
            !MG.Root(states[n].store.events, e) && Projected(states, acts, n, e)
  {
    RunRight(states, acts, n, e);
    RebuildRight(states[n], states[n].store, e, AtTheEnd(built), e, Projected(states, acts, n, e));
    RolledBackRecord(states[n], e, built, Projected(states, acts, n, e));
  }

  lemma RolledBackRecord(st: State, e: EventId, built: P.Content, projected: bool)
    requires RecordRight(st, e, projected) && e in st.store.events
    ensures RolledBack(st, e, built) <==> Kind(st.store, e).Absorbed? && projected
  {
    var p := RecordOf(st, e);
    match Kind(st.store, e)
    case Unmerged => P.CurrentStep(p, P.Unmerged, AtTheEnd(built));
    case Absorbed(target) =>
      if projected {
        P.StuckStep(p, target, AtTheEnd(built));
      } else {
        P.CurrentStep(p, P.Absorbed(target), AtTheEnd(built));
      }
  }
}
