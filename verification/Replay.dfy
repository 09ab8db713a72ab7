/**
 Idempotent ingestion: the material a submission is recognised by, the stored result of a
 completed ingestion, and its replay when the same submission comes again.
 */
module Replay {
  import opened Common
  import MG = MergeGraph

  type EventId = nat
  type ReviewId = nat

  // ---------------------------------------------------------------- order of claims

  /** A submitted claim: its field name and its value as canonical JSON text. */
  datatype Item = Item(field: string, json: string)

  /** Python's order on strings: by code point, a prefix first. */
  predicate TextLeq(a: string, b: string) {
    a == [] || (b != [] && (a[0] < b[0] || (a[0] == b[0] && TextLeq(a[1..], b[1..]))))
  }

  predicate ItemLeq(a: Item, b: Item) {
    if a.field == b.field then TextLeq(a.json, b.json) else TextLeq(a.field, b.field)
  }

  lemma {:induction false} TextTotal(a: string, b: string)
    ensures TextLeq(a, b) || TextLeq(b, a)
    ensures TextLeq(a, b) && TextLeq(b, a) ==> a == b
  {
    if a != [] && b != [] {
      TextTotal(a[1..], b[1..]);
      if TextLeq(a, b) && TextLeq(b, a) { assert a == [a[0]] + a[1..] && b == [b[0]] + b[1..]; }
    }
  }

  lemma {:induction false} TextTransitive(a: string, b: string, c: string)
    requires TextLeq(a, b) && TextLeq(b, c)
    ensures TextLeq(a, c)
  {
    if a != [] && a[0] == b[0] && b[0] == c[0] { TextTransitive(a[1..], b[1..], c[1..]); }
  }

  lemma ItemTotal(a: Item, b: Item)
    ensures ItemLeq(a, b) || ItemLeq(b, a)
    ensures ItemLeq(a, b) && ItemLeq(b, a) ==> a == b
  {
    TextTotal(a.field, b.field);
    TextTotal(a.json, b.json);
  }

  lemma ItemTransitive(a: Item, b: Item, c: Item)
    requires ItemLeq(a, b) && ItemLeq(b, c)
    ensures ItemLeq(a, c)
  {
    TextTotal(a.field, b.field);
    TextTotal(b.field, c.field);
    if a.field == b.field == c.field {
      TextTransitive(a.json, b.json, c.json);
    } else {
      TextTransitive(a.field, b.field, c.field);
    }
  }

  ghost predicate Ordered(s: seq<Item>) {
    forall i, j :: 0 <= i < j < |s| ==> ItemLeq(s[i], s[j])
  }

  /** Sorting by field name and then by canonical value, as `list.sort` with that key. */
  function Insert(x: Item, s: seq<Item>): (r: seq<Item>)
    ensures multiset(r) == multiset(s) + multiset{x}
  {
    if s == [] then [x]
    else if ItemLeq(x, s[0]) then assert s == [s[0]] + s[1..]; [x] + s
    else assert s == [s[0]] + s[1..]; [s[0]] + Insert(x, s[1..])
  }

  function Sort(s: seq<Item>): (r: seq<Item>)
    ensures multiset(r) == multiset(s)
  {
    if s == [] then [] else assert s == [s[0]] + s[1..]; Insert(s[0], Sort(s[1..]))
  }

  lemma {:induction false} InsertOrdered(x: Item, s: seq<Item>)
    requires Ordered(s)
    ensures Ordered(Insert(x, s))
  {
    if s != [] {
      ItemTotal(x, s[0]);
      if ItemLeq(x, s[0]) {
        forall j | 0 <= j < |s| ensures ItemLeq(x, s[j]) { if j > 0 { ItemTransitive(x, s[0], s[j]); } }
      } else {
        InsertOrdered(x, s[1..]);
        var r := Insert(x, s[1..]);
        forall j | 0 <= j < |r| ensures ItemLeq(s[0], r[j]) {
          assert r[j] in multiset(r);
          assert r[j] == x || r[j] in s[1..];
        }
      }
    }
  }

  lemma {:induction false} SortOrdered(s: seq<Item>)
    ensures Ordered(Sort(s))
  {
    if s != [] {
      SortOrdered(s[1..]);
      InsertOrdered(s[0], Sort(s[1..]));
    }
  }

  lemma SameHead(a: seq<Item>, b: seq<Item>)
    requires Ordered(a) && Ordered(b) && multiset(a) == multiset(b) && a != [] && b != []
    ensures a[0] == b[0]
  {
    assert a[0] in multiset(b);
    var i :| 0 <= i < |b| && b[i] == a[0];
    assert b[0] in multiset(a);
    var j :| 0 <= j < |a| && a[j] == b[0];
    ItemTotal(a[0], b[0]);
  }

  lemma TailMultiset(a: seq<Item>)
    requires a != []
    ensures multiset(a[1..]) == multiset(a) - multiset{a[0]}
  {
    assert a == [a[0]] + a[1..];
  }

  /** There is only one way to order the same items. */
  lemma {:induction false} OrderedUnique(a: seq<Item>, b: seq<Item>)
    requires Ordered(a) && Ordered(b) && multiset(a) == multiset(b)
    ensures a == b
  {
    assert |a| == |multiset(a)| == |multiset(b)| == |b|;
    if a != [] {
      SameHead(a, b);
      TailMultiset(a);
      TailMultiset(b);
      OrderedUnique(a[1..], b[1..]);
      assert a == [a[0]] + a[1..] && b == [b[0]] + b[1..];
    }
  }

  // ---------------------------------------------------------------- what identifies a submission

  datatype Submission = Submission(
    payload: string,
    claims: seq<Item>,
    record: Option<string>,
    event: Option<EventId>,
    capturedAt: Option<string>)

  /** The hash material; hashing is taken to be injective, so the material stands for its hash. */
  datatype Material = Material(
    payload: string,
    claims: seq<Item>,
    record: Option<string>,
    event: Option<EventId>,
    capturedAt: Option<string>)

  function TrimLeft(s: string): string {
    if s != [] && IsSpace(s[0]) then TrimLeft(s[1..]) else s
  }

  function TrimRight(s: string): string {
    if s != [] && IsSpace(s[|s| - 1]) then TrimRight(s[..|s| - 1]) else s
  }

  /** Record ids are trimmed; a blank one is none. */
  function CleanRecord(record: Option<string>): Option<string> {
    if record.None? then None
    else
      var cleaned := TrimRight(TrimLeft(record.value));
      if cleaned == [] then None else Some(cleaned)
  }

  ghost predicate Blank(s: string) {
    forall i :: 0 <= i < |s| ==> IsSpace(s[i])
  }

  lemma {:induction false} TrimsLeft(s: string) returns (before: string)
    ensures Blank(before) && s == before + TrimLeft(s)
    ensures TrimLeft(s) != [] ==> !IsSpace(TrimLeft(s)[0])
  {
    before := [];
    if s != [] && IsSpace(s[0]) {
      var rest := TrimsLeft(s[1..]);
      before := [s[0]] + rest;
    }
  }

  lemma {:induction false} TrimsRight(s: string) returns (after: string)
    ensures Blank(after) && s == TrimRight(s) + after
    ensures TrimRight(s) != [] ==> !IsSpace(TrimRight(s)[|TrimRight(s)| - 1])
  {
    after := [];
    if s != [] && IsSpace(s[|s| - 1]) {
      var rest := TrimsRight(s[..|s| - 1]);
      after := rest + [s[|s| - 1]];
    }
  }

  /** A cleaned record id is the given one without the blanks around it; there is none exactly for a blank one. */
  lemma RecordCleaned(record: string) returns (before: string, after: string)
    ensures CleanRecord(None).None? && (CleanRecord(Some(record)).None? <==> Blank(record))
    ensures CleanRecord(Some(record)).Some? ==>
      var r := CleanRecord(Some(record)).value;
      && Blank(before) && Blank(after) && record == before + r + after
      && r != [] && !IsSpace(r[0]) && !IsSpace(r[|r| - 1])
  {
    before := TrimsLeft(record);
    after := TrimsRight(TrimLeft(record));
    var left, r := TrimLeft(record), TrimRight(TrimLeft(record));
    assert record == before + (r + after);
    if r == [] {
      assert left == after;
    } else {
      assert left[0] == r[0] && record[|before|] == r[0];
    }
  }

  function MaterialOf(s: Submission): Material {
    Material(s.payload, Sort(s.claims), CleanRecord(s.record), s.event, s.capturedAt)
  }

  /** Same submission up to the order of its claims and the blanks around its record id. */
  ghost predicate SameSubmission(a: Submission, b: Submission) {
    && a.payload == b.payload && multiset(a.claims) == multiset(b.claims)
    && CleanRecord(a.record) == CleanRecord(b.record) && a.event == b.event && a.capturedAt == b.capturedAt
  }

  lemma MaterialIdentifies(a: Submission, b: Submission)
    ensures MaterialOf(a) == MaterialOf(b) <==> SameSubmission(a, b)
  {
    SortOrdered(a.claims);
    SortOrdered(b.claims);
    if multiset(a.claims) == multiset(b.claims) { OrderedUnique(Sort(a.claims), Sort(b.claims)); }
  }

  // ---------------------------------------------------------------- results

  datatype Outcome = Outcome(
    event: EventId,
    eventCreated: bool,
    snapshotCreated: bool,
    replayed: bool,
    review: Option<ReviewId>,
    reviews: seq<ReviewId>,
    attachedBy: string)

  /** `dict.fromkeys`: each id at its first place. */
  function Distinct(ids: seq<ReviewId>): seq<ReviewId> {
    if ids == [] then []
    else
      var rest, last := Distinct(ids[..|ids| - 1]), ids[|ids| - 1];
      if last in ids[..|ids| - 1] then rest else rest + [last]
  }

  function Without(ids: seq<ReviewId>, x: ReviewId): seq<ReviewId> {
    if ids == [] then []
    else
      var rest, last := Without(ids[..|ids| - 1], x), ids[|ids| - 1];
      if last == x then rest else rest + [last]
  }

  /** `IngestionResult.__post_init__`: the single id and the list agree, the primary first. */
  function Normal(o: Outcome): Outcome {
    var ids := Distinct(o.reviews);
    var primary := if o.review.None? && ids != [] then Some(ids[0]) else o.review;
    if primary.None? then o.(review := None, reviews := ids)
    else o.(review := primary, reviews := [primary.value] + Without(ids, primary.value))
  }

  ghost predicate IsNormal(o: Outcome) {
    && NoRepeats(o.reviews)
    && (o.review.None? <==> o.reviews == [])
    && (o.review.Some? ==> o.reviews != [] && o.reviews[0] == o.review.value)
  }

  lemma {:induction false} DistinctIs(ids: seq<ReviewId>)
    ensures NoRepeats(Distinct(ids)) && forall x :: x in Distinct(ids) <==> x in ids
    ensures NoRepeats(ids) ==> Distinct(ids) == ids
  {
    if ids != [] {
      var n := |ids| - 1;
      DistinctIs(ids[..n]);
      assert ids == ids[..n] + [ids[n]];
      if ids[n] in ids[..n] {
        var i :| 0 <= i < n && ids[i] == ids[n];
      }
    }
  }

  lemma {:induction false} WithoutIs(ids: seq<ReviewId>, x: ReviewId)
    requires NoRepeats(ids)
    ensures NoRepeats(Without(ids, x)) && forall y :: y in Without(ids, x) <==> y in ids && y != x
    ensures x !in ids ==> Without(ids, x) == ids
  {
    if ids != [] {
      var n := |ids| - 1;
      WithoutIs(ids[..n], x);
      assert ids == ids[..n] + [ids[n]];
      assert forall y :: y in ids <==> y in ids[..n] || y == ids[n];
      assert ids[n] !in ids[..n];
    }
  }

  lemma {:induction false} WithoutHead(ids: seq<ReviewId>)
    requires ids != [] && NoRepeats(ids)
    ensures Without(ids, ids[0]) == ids[1..]
  {
    var n := |ids| - 1;
    if n > 0 {
      WithoutHead(ids[..n]);
      assert ids[1..] == ids[..n][1..] + [ids[n]];
    } else {
      assert Without(ids[..0], ids[0]) == [];
    }
  }

  lemma PrimaryFirst(ids: seq<ReviewId>, primary: ReviewId)
    requires NoRepeats(ids)
    ensures NoRepeats([primary] + Without(ids, primary))
    ensures forall x :: x in [primary] + Without(ids, primary) <==> x in ids || x == primary
  {
    WithoutIs(ids, primary);
  }

  lemma NormalForm(o: Outcome)
    ensures IsNormal(Normal(o))
    ensures forall x :: x in Normal(o).reviews <==> x in o.reviews || o.review == Some(x)
  {
    var ids := Distinct(o.reviews);
    DistinctIs(o.reviews);
    if o.review.Some? { PrimaryFirst(ids, o.review.value); } else if ids != [] { PrimaryFirst(ids, ids[0]); }
  }

  lemma NormalStays(o: Outcome)
    requires IsNormal(o)
    ensures Normal(o) == o
  {
    DistinctIs(o.reviews);
    if o.review.Some? {
      WithoutHead(o.reviews);
      assert [o.reviews[0]] + o.reviews[1..] == o.reviews;
    }
  }

  /** Every result is in normal form, names the same reviews, and a normal one is left alone. */
  lemma NormalIsNormal(o: Outcome)
    ensures IsNormal(Normal(o))
    ensures forall x :: x in Normal(o).reviews <==> x in o.reviews || o.review == Some(x)
    ensures IsNormal(o) <==> Normal(o) == o
  {
    NormalForm(o);
    if IsNormal(o) { NormalStays(o); }
  }

  // ---------------------------------------------------------------- storing and replaying

  /** A stored result as JSON; older rows lack some parts. */
  datatype Stored = Stored(
    schemaVersion: int,
    eventAtCompletion: Option<EventId>,
    event: Option<EventId>,
    eventCreated: bool,
    review: Option<ReviewId>,
    reviews: seq<ReviewId>,
    attachedBy: string)

  /** `_ingestion_result_json`. */
  function ResultJson(o: Outcome): Stored {
    Stored(1, Some(o.event), Some(o.event), o.eventCreated, o.review, o.reviews, o.attachedBy)
  }

  datatype Error = Corrupt | Walk(error: MG.WalkError) | PayloadMismatch | InProgress

  /** What a replay must return for a stored result, given where its event now stands. */
  function Replayed(s: Stored, event: EventId): Outcome {
    var ids := Distinct(s.reviews);
    Normal(Outcome(event, s.eventCreated, false, true, s.review,
                   if s.review.Some? && s.review.value !in ids then [s.review.value] + ids else ids,
                   if s.attachedBy == "" then "idempotent_replay" else s.attachedBy))
  }

  /** A chain that settles gives no walker an error. */
  lemma SettledAnswers(events: MG.Store, id: EventId, root: EventId, error: MG.WalkError)
    requires MG.HasFate(events, id, MG.Settles(root))
    ensures !MG.Answers(events, id, Err(error))
  {
    match error
    case EventNotFound(m) =>
      if MG.HasFate(events, id, MG.Dangles(m)) { MG.FateUnique(events, id, MG.Settles(root), MG.Dangles(m)); }
    case _ => if MG.HasFate(events, id, MG.Cycles) { MG.FateUnique(events, id, MG.Settles(root), MG.Cycles); }
  }

  /** The answer to a stored result: corrupt, its replay on the event's root, or the walk's error. */
  ghost predicate StoredAnswer(events: MG.Store, data: Stored, r: Result<Outcome, Error>) {
    if data.schemaVersion != 1 || (data.eventAtCompletion.None? && data.event.None?) then r == Err(Corrupt)
    else
      var seed := if data.eventAtCompletion.Some? then data.eventAtCompletion.value else data.event.value;
      match r
      case Ok(o) => o == Replayed(data, o.event) && MG.HasFate(events, seed, MG.Settles(o.event))
      case Err(Walk(e)) => MG.Answers(events, seed, Err(e))
      case Err(_) => false
  }

  /** `_result_from_json`. */
  method ResultFromJson(events: MG.Store, data: Stored) returns (r: Result<Outcome, Error>)
    ensures StoredAnswer(events, data, r)
  {
    if data.schemaVersion != 1 { return Err(Corrupt); }
    var seed := if data.eventAtCompletion.Some? then data.eventAtCompletion else data.event;
    if seed.None? { return Err(Corrupt); }
    var found := MG.ReplayTarget(events, seed.value);
    if found.Err? { return Err(Walk(found.error)); }
    var ids := Distinct(data.reviews);
    if data.review.Some? && data.review.value !in ids { ids := [data.review.value] + ids; }
    r := Ok(Normal(Outcome(found.value, data.eventCreated, false, true, data.review, ids,
                           if data.attachedBy == "" then "idempotent_replay" else data.attachedBy)));
  }

  /** A replay returns what the original returned, apart from where its event has gone since. */
  lemma ReplayReturnsOriginal(o: Outcome, event: EventId)
    requires IsNormal(o)
    ensures ResultJson(o).eventAtCompletion == ResultJson(o).event == Some(o.event) && ResultJson(o).schemaVersion == 1
    ensures var r := Replayed(ResultJson(o), event);
      && r.eventCreated == o.eventCreated && r.review == o.review && r.reviews == o.reviews
      && r.attachedBy == (if o.attachedBy == "" then "idempotent_replay" else o.attachedBy)
      && r.event == event && r.replayed && !r.snapshotCreated
  {
    DistinctIs(o.reviews);
    if o.review.Some? { assert o.reviews[0] in o.reviews; }
    var back := Outcome(event, o.eventCreated, false, true, o.review, o.reviews,
                        if o.attachedBy == "" then "idempotent_replay" else o.attachedBy);
    NormalIsNormal(back);
  }

  /** A replay of any stored result, of older rows too, names exactly the stored reviews, the primary one first. */
  lemma ReplayNamesReviews(s: Stored, event: EventId)
    ensures var r := Replayed(s, event);
      && (forall x :: x in r.reviews <==> x in s.reviews || s.review == Some(x)) && NoRepeats(r.reviews)
      && (s.review.Some? ==> r.review == s.review) && (r.review.None? <==> r.reviews == [])
      && (r.review.Some? ==> r.reviews[0] == r.review.value)
      && (s.review.None? && s.reviews != [] ==> r.review == Some(s.reviews[0]))
      && r.event == event && r.eventCreated == s.eventCreated && r.replayed && !r.snapshotCreated
      && r.attachedBy == (if s.attachedBy == "" then "idempotent_replay" else s.attachedBy)
  {
    var ids := Distinct(s.reviews);
    DistinctIs(s.reviews);
    var all := if s.review.Some? && s.review.value !in ids then [s.review.value] + ids else ids;
    var o := Outcome(event, s.eventCreated, false, true, s.review, all,
                     if s.attachedBy == "" then "idempotent_replay" else s.attachedBy);
    NormalIsNormal(o);
    DistinctIs(all);
    FirstStays(s.reviews);
  }

  lemma {:induction false} FirstStays(ids: seq<ReviewId>)
    ensures ids != [] ==> Distinct(ids) != [] && Distinct(ids)[0] == ids[0]
  {
    if |ids| > 1 { FirstStays(ids[..|ids| - 1]); }
  }

  // ---------------------------------------------------------------- recognising a submission

  /** A stored snapshot, with the event its claims point to for rows from before results were stored. */
  datatype Snapshot = Snapshot(
    payloadHash: Material,
    submissionHash: Option<Material>,
    rawPayloadHash: Option<Material>,
    hasFingerprint: bool,
    result: Option<Stored>,
    claimEvent: Option<EventId>)

  function SnapshotMatches(s: Snapshot, submission: Material, rawPayload: Material): bool {
    var stored := if s.submissionHash.Some? then s.submissionHash.value else s.payloadHash;
    stored == submission || (!s.hasFingerprint && s.rawPayloadHash.None? && stored == rawPayload)
  }

  /**
   Which submissions a row answers for: the one it was made from; a row from before fingerprints
   also for one whose payload alone has the stored hash.
   */
  ghost predicate Recognises(s: Snapshot, submission: Material, rawPayload: Material) {
    || s.submissionHash == Some(submission)
    || (s.submissionHash.None? && s.payloadHash == submission)
    || (!s.hasFingerprint && s.rawPayloadHash.None? &&
        (s.submissionHash == Some(rawPayload) || (s.submissionHash.None? && s.payloadHash == rawPayload)))
  }

  /** All that a row from before results were stored can tell: where its claims' event is now. */
  ghost predicate LegacyAnswer(events: MG.Store, claimEvent: EventId, r: Result<Outcome, Error>) {
    match r
    case Ok(o) =>
      && MG.HasFate(events, claimEvent, MG.Settles(o.event))
      && !o.eventCreated && !o.snapshotCreated && o.replayed && o.review == None && o.reviews == []
      && o.attachedBy == "idempotent_replay_legacy_claim_lookup"
    case Err(Walk(e)) => MG.Answers(events, claimEvent, Err(e))
    case Err(_) => false
  }

  /** The answer for a run's snapshot, case by case. */
  ghost predicate Answered(events: MG.Store, s: Snapshot, submission: Material, rawPayload: Material,
                           r: Result<Outcome, Error>) {
    if !Recognises(s, submission, rawPayload) then r == Err(PayloadMismatch)
    else if s.result.Some? then StoredAnswer(events, s.result.value, r)
    else if s.claimEvent.Some? then LegacyAnswer(events, s.claimEvent.value, r)
    else r == Err(InProgress)
  }

  /** `IngestionIdempotencyService.check`, for the run's snapshot if there is one. */
  method Check(events: MG.Store, existing: Option<Snapshot>, submission: Material, rawPayload: Material)
      returns (r: Result<Option<Outcome>, Error>)
    ensures r == Ok(None) <==> existing.None?
    ensures existing.Some? ==>
      Answered(events, existing.value, submission, rawPayload, if r.Ok? then Ok(r.value.value) else Err(r.error))
  {
    if existing.None? { return Ok(None); }
    var s := existing.value;
    if !SnapshotMatches(s, submission, rawPayload) { return Err(PayloadMismatch); }
    var replay := ResultFromSnapshot(events, s);
    if replay.Err? { return Err(replay.error); }
    return Ok(Some(replay.value));
  }

  /** `_result_from_snapshot`. */
  method ResultFromSnapshot(events: MG.Store, s: Snapshot) returns (r: Result<Outcome, Error>)
    ensures if s.result.Some? then StoredAnswer(events, s.result.value, r)
            else if s.claimEvent.Some? then LegacyAnswer(events, s.claimEvent.value, r)
            else r == Err(InProgress)
  {
    if s.result.Some? {
      r := ResultFromJson(events, s.result.value);
      return;
    }
    if s.claimEvent.None? { return Err(InProgress); }
    var found := MG.ReplayTarget(events, s.claimEvent.value);
    if found.Err? { return Err(Walk(found.error)); }
    var o := Outcome(found.value, false, false, true, None, [], "idempotent_replay_legacy_claim_lookup");
    NormalStays(o);
    return Ok(Normal(o));
  }

  /** The snapshot a completed ingestion leaves behind. */
  function CompletedSnapshot(s: Submission, rawPayload: Material, o: Outcome): Snapshot {
    Snapshot(MaterialOf(s), Some(MaterialOf(s)), Some(rawPayload), true, Some(ResultJson(o)), None)
  }

  /** Creations and merges that follow keep a stored event resolvable. */
  lemma {:induction false} LaterChangesSettle(g: MG.Store, changes: seq<MG.Change>, event: EventId)
    requires MG.Forest(g) && event in g
    ensures MG.Forest(MG.Run(g, changes)) && event in MG.Run(g, changes)
    decreases |changes|
  {
    if changes != [] {
      LaterChangesSettle(g, changes[..|changes| - 1], event);
      MG.ApplyKeepsForest(MG.Run(g, changes[..|changes| - 1]), changes[|changes| - 1]);
    }
  }

  /**
   End to end: an ingestion completed on a sound store; after any later creations and merges a
   second submission under the same run is replayed exactly if it is the same up to claim order,
   and the replay is the original result on the event's current canonical event.
   */
  method Resubmit(g: MG.Store, changes: seq<MG.Change>, first: Submission, rawPayload: Material, o: Outcome,
                  second: Submission, secondRaw: Material) returns (r: Result<Option<Outcome>, Error>)
    requires MG.Forest(g) && o.event in g && IsNormal(o)
    ensures !SameSubmission(first, second) ==> r == Err(PayloadMismatch)
    ensures SameSubmission(first, second) ==> r.Ok? && r.value.Some? && SameButReplayed(o, r.value.value)
    ensures SameSubmission(first, second) ==> MG.HasFate(MG.Run(g, changes), o.event, MG.Settles(r.value.value.event))
  {
    var now := MG.Run(g, changes);
    MaterialIdentifies(first, second);
    LaterChangesSettle(g, changes, o.event);
    forall e ensures !MG.Answers(now, o.event, Err(e)) { SettledAnswers(now, o.event, MG.Canon(now, o.event), e); }
    r := Check(now, Some(CompletedSnapshot(first, rawPayload, o)), MaterialOf(second), secondRaw);
    if r.Ok? && r.value.Some? { ReplayReturnsOriginal(o, r.value.value.event); }
  }

  ghost predicate SameButReplayed(o: Outcome, r: Outcome) {
    && r.eventCreated == o.eventCreated && r.review == o.review && r.reviews == o.reviews
    && r.attachedBy == (if o.attachedBy == "" then "idempotent_replay" else o.attachedBy)
    && r.replayed && !r.snapshotCreated
  }
}
