/**
 The projected record of one event: its current row, its version history, and the consistency
 check that recomputes it.  What the builder makes of the claims is an input here.
 */
module Projection {
  import opened Common

  type OutboxId = nat

  /** A field is disputed in memory by a sentinel object; in JSON the sentinel is a marker string. */
  datatype Value = Plain(text: string) | Disputed

  const Marker := "__DISPUTED__"

  datatype Content = Content(fields: map<string, Value>, unresolved: set<string>, completeness: real)

  datatype Event = Missing | Unmerged | Absorbed(target: string)

  datatype Row = Row(version: nat, content: Content)

  datatype Changed = Changed(fields: set<string>, unresolved: bool, completeness: bool)

  datatype Entry = Entry(version: nat, content: Content, outbox: Option<OutboxId>, changed: Changed)

  datatype State = State(row: Option<Row>, history: seq<Entry>)

  datatype Error = EventNotFound | VersionTaken

  function MarkValue(v: Value): Value {
    if v.Disputed? then Plain(Marker) else v
  }

  /** What is stored and hashed: every sentinel replaced by its marker. */
  function Mark(c: Content): Content {
    c.(fields := map f | f in c.fields :: MarkValue(c.fields[f]))
  }

  function Get(fields: map<string, Value>, f: string): Option<Value> {
    if f in fields then Some(fields[f]) else None
  }

  function Differing(a: map<string, Value>, b: map<string, Value>): set<string> {
    set f | f in a.Keys + b.Keys && Get(a, f) != Get(b, f)
  }

  /** `_changed_fields`: the stored row against the projection as built. */
  function ChangedFields(row: Option<Row>, built: Content): Changed {
    match row
    case None => Changed(built.fields.Keys, false, false)
    case Some(r) =>
      Changed(Differing(r.content.fields, built.fields),
              r.content.unresolved != built.unresolved, r.content.completeness != built.completeness)
  }

  function Tombstone(target: string): Content {
    Content(map["is_merged" := Plain("true"), "merged_into_event_id" := Plain(target)], {}, 0.0)
  }

  /** `find_by_outbox_event`. */
  function FindByOutbox(history: seq<Entry>, id: OutboxId): (r: Option<Entry>)
    ensures r.Some? ==> r.value in history && r.value.outbox == Some(id)
    ensures r.None? ==> forall e :: e in history ==> e.outbox != Some(id)
  {
    if history == [] then None
    else if history[|history| - 1].outbox == Some(id) then Some(history[|history| - 1])
    else FindByOutbox(history[..|history| - 1], id)
  }

  predicate Redelivered(s: State, event: Event, outbox: Option<OutboxId>) {
    outbox.Some? && FindByOutbox(s.history, outbox.value).Some? && !event.Absorbed?
  }

  predicate VersionUsed(history: seq<Entry>, v: nat) {
    exists i :: 0 <= i < |history| && history[i].version == v
  }

  function NextVersion(row: Option<Row>): nat {
    if row.Some? then row.value.version + 1 else 1
  }

  /** `_persist_projection`; the unique index refuses a second history row of a version. */
  function Persisted(s: State, built: Content, outbox: Option<OutboxId>, force: bool): Result<State, Error> {
    if s.row.Some? && !force && Mark(built) == s.row.value.content then Ok(s)
    else
      var v := NextVersion(s.row);
      if VersionUsed(s.history, v) then Err(VersionTaken)
      else Ok(State(Some(Row(v, Mark(built))),
                    s.history + [Entry(v, Mark(built), outbox, ChangedFields(s.row, built))]))
  }

  /** ReProjectEvent.execute. */
  function Reprojected(s: State, event: Event, built: Content, hasClaims: bool, outbox: Option<OutboxId>, force: bool)
      : Result<State, Error> {
    if Redelivered(s, event, outbox) then
      var e := FindByOutbox(s.history, outbox.value).value;
      Ok(if s.row.None? then s.(row := Some(Row(e.version, e.content))) else s)
    else if event.Absorbed? then
      var used := outbox.Some? && FindByOutbox(s.history, outbox.value).Some?;
      Persisted(s, Tombstone(event.target), if used then None else outbox, force)
    else if event.Missing? && !hasClaims then Err(EventNotFound)
    else Persisted(s, built, outbox, force)
  }

  class EventProjection {
    var row: Option<Row>
    var history: seq<Entry>

    constructor ()
      ensures Now() == State(None, [])
    {
      row, history := None, [];
    }

    function Now(): State
      reads this
    {
      State(row, history)
    }

    /** A refused reprojection changes nothing; otherwise the stored row is returned. */
    method Reproject(event: Event, built: Content, hasClaims: bool, outbox: Option<OutboxId>, force: bool)
        returns (r: Result<Row, Error>)
      modifies this
      ensures match Reprojected(old(Now()), event, built, hasClaims, outbox, force)
        case Ok(s) => Now() == s && s.row.Some? && r == Ok(s.row.value)
        case Err(e) => Now() == old(Now()) && r == Err(e)
    {
      var cause := outbox;
      if outbox.Some? {
        var existing := FindByOutbox(history, outbox.value);
        if existing.Some? && !event.Absorbed? {
          if row.None? { row := Some(Row(existing.value.version, existing.value.content)); }
          return Ok(row.value);
        }
        if existing.Some? { cause := None; }
      }
      if event.Absorbed? {
        r := Persist(Tombstone(event.target), cause, force);
        return;
      }
      if event.Missing? && !hasClaims { return Err(EventNotFound); }
      r := Persist(built, cause, force);
    }

    method Persist(built: Content, outbox: Option<OutboxId>, force: bool) returns (r: Result<Row, Error>)
      modifies this
      ensures match Persisted(old(Now()), built, outbox, force)
        case Ok(s) => Now() == s && s.row.Some? && r == Ok(s.row.value)
        case Err(e) => Now() == old(Now()) && r == Err(e)
    {
      if row.Some? && !force && Mark(built) == row.value.content { return Ok(row.value); }
      var version := if row.Some? then row.value.version + 1 else 1;
      if VersionUsed(history, version) { return Err(VersionTaken); }
      var changed := ChangedFields(row, built);
      row := Some(Row(version, Mark(built)));
      history := history + [Entry(version, Mark(built), outbox, changed)];
      return Ok(row.value);
    }
  }

  // ---------------------------------------------------------------- runs of an event that is never absorbed

  datatype Act = Act(built: Content, outbox: Option<OutboxId>, force: bool)

  /** `forced[i]` says whether history row `i` was written under `force_history`. */
  datatype World = World(state: State, forced: seq<bool>)

  function Step(w: World, a: Act): World {
    var r := Reprojected(w.state, Unmerged, a.built, true, a.outbox, a.force);
    if r.Err? then w
    else World(r.value, if |r.value.history| > |w.state.history| then w.forced + [a.force] else w.forced)
  }

  function Run(acts: seq<Act>): World {
    if acts == [] then World(State(None, []), [])
    else Step(Run(acts[..|acts| - 1]), acts[|acts| - 1])
  }

  /** Rows 1, 2, 3 in order, one an outbox id, each different from the one before unless forced; the last is current. */
  ghost predicate Audited(w: World) {
    var h := w.state.history;
    && |w.forced| == |h|
    && (forall i :: 0 <= i < |h| ==> h[i].version == i + 1)
    && (forall i, j :: 0 <= i < j < |h| && h[i].outbox.Some? ==> h[i].outbox != h[j].outbox)
    && (forall i :: 0 < i < |h| ==> w.forced[i] || h[i].content != h[i - 1].content)
    && w.state.row == if h == [] then None else Some(Row(|h|, h[|h| - 1].content))
  }

  /** Row `i` lists what it changes: each part that differs from the row before, and besides only disputed fields. */
  ghost predicate TellsChanges(h: seq<Entry>, i: nat)
    requires i < |h|
  {
    if i == 0 then h[i].changed == Changed(h[i].content.fields.Keys, false, false)
    else
      var was, now := h[i - 1].content, h[i].content;
      && (h[i].changed.unresolved <==> now.unresolved != was.unresolved)
      && (h[i].changed.completeness <==> now.completeness != was.completeness)
      && forall f ::
           && (Get(was.fields, f) != Get(now.fields, f) ==> f in h[i].changed.fields)
           && (f in h[i].changed.fields ==>
                 Get(was.fields, f) != Get(now.fields, f) || Get(now.fields, f) == Some(Plain("__DISPUTED__")))
  }

  ghost predicate ChangesTold(h: seq<Entry>) {
    forall i :: 0 <= i < |h| ==> NothingDisputed(h[i].content) && TellsChanges(h, i)
  }

  predicate Refused(w: World, a: Act) {
    Reprojected(w.state, Unmerged, a.built, true, a.outbox, a.force).Err?
  }

  /** One more history row. */
  lemma AppendAudited(w: World, built: Content, outbox: Option<OutboxId>, force: bool)
    requires Audited(w)
    requires outbox.Some? ==> forall e :: e in w.state.history ==> e.outbox != outbox
    requires force || w.state.row.None? || Mark(built) != w.state.row.value.content
    ensures !VersionUsed(w.state.history, NextVersion(w.state.row))
    ensures var v := NextVersion(w.state.row);
      Audited(World(State(Some(Row(v, Mark(built))),
                          w.state.history + [Entry(v, Mark(built), outbox, ChangedFields(w.state.row, built))]),
                    w.forced + [force]))
  {
    var h := w.state.history;
    forall i | 0 <= i < |h| ensures h[i] in h {}
  }

  lemma AppendTells(h: seq<Entry>, row: Option<Row>, v: nat, built: Content, outbox: Option<OutboxId>)
    requires ChangesTold(h)
    requires if h == [] then row.None? else row.Some? && row.value.content == h[|h| - 1].content
    ensures ChangesTold(h + [Entry(v, Mark(built), outbox, ChangedFields(row, built))])
  {
    var h' := h + [Entry(v, Mark(built), outbox, ChangedFields(row, built))];
    if h != [] { assert NothingDisputed(h[|h| - 1].content); }
    AppendedTells(h, row, v, built, outbox);
    forall i | 0 <= i < |h'| ensures NothingDisputed(h'[i].content) && TellsChanges(h', i) {
      if i < |h| { assert TellsChanges(h, i) && NothingDisputed(h[i].content); }
    }
  }

  lemma AppendedTells(h: seq<Entry>, row: Option<Row>, v: nat, built: Content, outbox: Option<OutboxId>)
    requires if h == [] then row.None? else row.Some? && row.value.content == h[|h| - 1].content
    requires row.Some? ==> NothingDisputed(row.value.content)
    ensures TellsChanges(h + [Entry(v, Mark(built), outbox, ChangedFields(row, built))], |h|)
  {
    var h' := h + [Entry(v, Mark(built), outbox, ChangedFields(row, built))];
    assert Mark(built).fields.Keys == built.fields.Keys;
    if h != [] {
      var was, now := h'[|h| - 1].content, h'[|h|].content;
      assert was == row.value.content;
      forall f ensures Get(now.fields, f) != Get(built.fields, f) ==> Get(now.fields, f) == Some(Plain("__DISPUTED__"))
        ensures Get(was.fields, f) == Get(built.fields, f) ==> Get(now.fields, f) == Get(built.fields, f)
        ensures Get(was.fields, f) != Get(built.fields, f) <==> f in h'[|h|].changed.fields
      {
      }
    }
  }

  lemma StepAudited(w: World, a: Act)
    requires Audited(w)
    ensures Audited(Step(w, a)) && !Refused(w, a)
  {
    var row := w.state.row;
    if !Redelivered(w.state, Unmerged, a.outbox) &&
       !(row.Some? && !a.force && Mark(a.built) == row.value.content) {
      AppendAudited(w, a.built, a.outbox, a.force);
    }
  }

  /** Every run of reprojections keeps the history an exact audit of the row, and none is ever refused. */
  lemma {:induction false} RunAudited(acts: seq<Act>)
    ensures Audited(Run(acts))
    ensures forall a: Act :: !Refused(Run(acts), a)
    decreases |acts|
  {
    if acts != [] {
      RunAudited(acts[..|acts| - 1]);
      StepAudited(Run(acts[..|acts| - 1]), acts[|acts| - 1]);
    }
    forall a: Act ensures !Refused(Run(acts), a) { StepAudited(Run(acts), a); }
  }

  lemma StepTells(w: World, a: Act)
    requires Audited(w) && ChangesTold(w.state.history)
    ensures ChangesTold(Step(w, a).state.history)
  {
    var row := w.state.row;
    if !Redelivered(w.state, Unmerged, a.outbox) &&
       !(row.Some? && !a.force && Mark(a.built) == row.value.content) {
      AppendTells(w.state.history, row, NextVersion(row), a.built, a.outbox);
    }
  }

  /** Over every run: each history row tells truly what it changed. */
  lemma {:induction false} RunTellsChanges(acts: seq<Act>)
    ensures ChangesTold(Run(acts).state.history)
    decreases |acts|
  {
    if acts != [] {
      RunAudited(acts[..|acts| - 1]);
      RunTellsChanges(acts[..|acts| - 1]);
      StepTells(Run(acts[..|acts| - 1]), acts[|acts| - 1]);
    }
  }

  /**
   A reprojection that is no redelivery adds a history row exactly if it is forced, is the first, or
   changes what is stored; the row names its cause and holds what was built.
   */
  lemma HistoryGrowsExactly(acts: seq<Act>, a: Act)
    requires !Redelivered(Run(acts).state, Unmerged, a.outbox)
    ensures var s, s' := Run(acts).state, Step(Run(acts), a).state;
      && s.history <= s'.history
      && (if a.force || s.row.None? || !Stores(s.row.value.content, a.built)
          then |s'.history| == |s.history| + 1 && Causes(s'.history[|s.history|], a)
          else s' == s)
  {
    RunAudited(acts);
    assert !Refused(Run(acts), a);
    var row := Run(acts).state.row;
    if row.Some? { StoresMarked(row.value.content, a.built); }
    StoresMarked(Mark(a.built), a.built);
  }

  ghost predicate Causes(e: Entry, a: Act) {
    e.outbox == a.outbox && Stores(e.content, a.built)
  }

  lemma StoresMarked(c: Content, built: Content)
    ensures Stores(c, built) <==> c == Mark(built)
  {
    if Stores(c, built) { assert c.fields == Mark(built).fields; }
  }

  /** A redelivery of a recorded outbox event changes nothing. */
  lemma RedeliveryIsIdle(acts: seq<Act>, a: Act)
    requires Redelivered(Run(acts).state, Unmerged, a.outbox)
    ensures Step(Run(acts), a) == Run(acts)
  {
    RunAudited(acts);
  }

  // ---------------------------------------------------------------- the consistency check

  datatype Verdict = Verdict(consistent: bool, fieldDiff: set<string>, conflictsDiffer: bool, completenessDiffers: bool)

  const Tolerance: real := 0.000000001

  function Abs(x: real): real {
    if x < 0.0 then -x else x
  }

  /** VerifyProjectionConsistency for a stored row: the recomputed projection is compared as built. */
  function Compare(stored: Content, recomputed: Content): Verdict {
    var fields := recomputed.fields == stored.fields;
    var conflicts := recomputed.unresolved == stored.unresolved;
    var completeness := Abs(recomputed.completeness - stored.completeness) < Tolerance;
    Verdict(fields && conflicts && completeness,
            if fields then {}
            else Differing(stored.fields, recomputed.fields),
            !conflicts, !completeness)
  }

  /** VerifyProjectionConsistency.execute; no verdict if there is nothing stored and that is no surprise. */
  function Verify(s: State, event: Event, recomputed: Content): Option<Verdict> {
    if s.row.None? then
      (if event.Absorbed? then Some(Verdict(true, {}, false, false)) else None)
    else Some(Compare(s.row.value.content, if event.Absorbed? then Tombstone(event.target) else recomputed))
  }

  predicate NothingDisputed(c: Content) {
    forall f :: f in c.fields ==> !c.fields[f].Disputed?
  }

  function DisputedFields(c: Content): set<string> {
    set f | f in c.fields && c.fields[f].Disputed?
  }

  lemma MarkFixes(c: Content)
    ensures Mark(c).fields == c.fields <==> NothingDisputed(c)
    ensures Mark(Mark(c)) == Mark(c)
  {
    if Mark(c).fields == c.fields {
      forall f | f in c.fields ensures !c.fields[f].Disputed? { assert Mark(c).fields[f] == c.fields[f]; }
    }
    if NothingDisputed(c) {
      assert forall f :: f in c.fields ==> Mark(c).fields[f] == c.fields[f];
    }
  }

  /** After a rebuild that was not a recorded redelivery the stored content is the built one, marked. */
  lemma RebuildStores(s: State, built: Content, outbox: Option<OutboxId>, force: bool, s': State)
    requires !Redelivered(s, Unmerged, outbox) && Reprojected(s, Unmerged, built, true, outbox, force) == Ok(s')
    ensures s'.row.Some? && Stores(s'.row.value.content, built)
  {
  }

  /** What is stored of a projection: everything as built, but a text for each disputed field. */
  ghost predicate Stores(stored: Content, built: Content) {
    && stored.fields.Keys == built.fields.Keys
    && stored.unresolved == built.unresolved && stored.completeness == built.completeness
    && forall f :: f in built.fields ==>
         stored.fields[f] == if built.fields[f].Disputed? then Plain("__DISPUTED__") else built.fields[f]
  }

  /**
   What the check says of any stored row and any recomputed projection: consistent exactly if the
   fields and the unresolved sets are equal and the completeness differs by less than a billionth;
   it reports exactly the fields that differ, and each other part by its own flag.
   */
  lemma VerifyExactly(s: State, recomputed: Content)
    requires s.row.Some?
    ensures var stored, v := s.row.value.content, Verify(s, Unmerged, recomputed);
      && v.Some?
      && (v.value.consistent <==>
            stored.fields == recomputed.fields && stored.unresolved == recomputed.unresolved &&
            -0.000000001 < recomputed.completeness - stored.completeness < 0.000000001)
      && (forall f :: f in v.value.fieldDiff <==> Get(stored.fields, f) != Get(recomputed.fields, f))
      && (v.value.conflictsDiffer <==> stored.unresolved != recomputed.unresolved)
      && (v.value.completenessDiffers <==>
            !(-0.000000001 < recomputed.completeness - stored.completeness < 0.000000001))
  {
  }

  /** An absorbed event is checked against its tombstone; without a row there is a verdict only for it. */
  lemma VerifyAbsorbed(s: State, target: string, recomputed: Content)
    ensures s.row.None? ==>
      Verify(s, Absorbed(target), recomputed) == Some(Verdict(true, {}, false, false)) &&
      Verify(s, Unmerged, recomputed) == None
    ensures s.row.Some? ==>
      var grave := Content(map["is_merged" := Plain("true"), "merged_into_event_id" := Plain(target)], {}, 0.0);
      Verify(s, Absorbed(target), recomputed) == Verify(s, Unmerged, grave)
  {
  }

  /**
   Drift is found: after any run that ends in a rebuild, a check that recomputes something else
   says inconsistent exactly if what was stored differs from it, and names the fields that differ.
   */
  lemma DriftFound(acts: seq<Act>, a: Act, recomputed: Content)
    requires !Redelivered(Run(acts).state, Unmerged, a.outbox)
    ensures var v := Verify(Step(Run(acts), a).state, Unmerged, recomputed);
      && v.Some?
      && (v.value.consistent <==>
            SameStored(a.built, recomputed) && a.built.unresolved == recomputed.unresolved &&
            -0.000000001 < recomputed.completeness - a.built.completeness < 0.000000001)
      && forall f :: f in v.value.fieldDiff <==> !SameField(a.built, recomputed, f)
  {
    RunAudited(acts);
    var s := Step(Run(acts), a).state;
    assert !Refused(Run(acts), a);
    RebuildStores(Run(acts).state, a.built, a.outbox, a.force, s);
    VerifyExactly(s, recomputed);
    StoredSame(s.row.value.content, a.built, recomputed);
  }

  /** The recomputed field is what was stored: the built value, or the marker text in place of a dispute. */
  ghost predicate SameField(built: Content, recomputed: Content, f: string) {
    && (f in built.fields <==> f in recomputed.fields)
    && (f in built.fields ==>
          recomputed.fields[f] == if built.fields[f].Disputed? then Plain("__DISPUTED__") else built.fields[f])
  }

  ghost predicate SameStored(built: Content, recomputed: Content) {
    forall f :: SameField(built, recomputed, f)
  }

  lemma StoredSame(stored: Content, built: Content, recomputed: Content)
    requires Stores(stored, built)
    ensures forall f :: SameField(built, recomputed, f) <==> Get(stored.fields, f) == Get(recomputed.fields, f)
    ensures SameStored(built, recomputed) <==> stored.fields == recomputed.fields
  {
    if SameStored(built, recomputed) {
      forall f ensures f in stored.fields <==> f in recomputed.fields
        ensures f in stored.fields ==> stored.fields[f] == recomputed.fields[f]
      {
        assert SameField(built, recomputed, f);
      }
      assert stored.fields == recomputed.fields;
    }
  }

  /** A missing event is projected only if it still has claims, or from its history. */
  lemma MissingEvent(s: State, built: Content, hasClaims: bool, outbox: Option<OutboxId>, force: bool)
    requires forall e :: e in s.history && outbox.Some? ==> e.outbox != outbox
    ensures var r := Reprojected(s, Missing, built, hasClaims, outbox, force);
      r == if hasClaims then Reprojected(s, Unmerged, built, true, outbox, force) else Err(EventNotFound)
  {
  }

  /** A row lost from outside comes back from the history row of a redelivered outbox event, as it was. */
  lemma RestoredFromHistory(s: State, event: Event, built: Content, hasClaims: bool, e: Entry, force: bool)
    requires !event.Absorbed? && s.row.None? && e in s.history && e.outbox.Some?
    requires forall d :: d in s.history && d.outbox == e.outbox ==> d == e
    ensures Reprojected(s, event, built, hasClaims, e.outbox, force) ==
            Ok(State(Some(Row(e.version, e.content)), s.history))
  {
  }

  /**
   Right after a rebuild the check says consistent exactly if no field is disputed: the stored
   marker is compared with the sentinel.  The fields it reports are then exactly the disputed
   ones.  Comparing markers on both sides it would always say consistent.
   */
  lemma CheckAfterRebuild(s: State, built: Content, outbox: Option<OutboxId>, force: bool, s': State)
    requires !Redelivered(s, Unmerged, outbox) && Reprojected(s, Unmerged, built, true, outbox, force) == Ok(s')
    ensures var v := Verify(s', Unmerged, built);
      && v.Some? && (v.value.consistent <==> NothingDisputed(built))
      && v.value.fieldDiff == DisputedFields(built) && !v.value.conflictsDiffer && !v.value.completenessDiffers
    ensures Verify(s', Unmerged, Mark(built)) == Some(Verdict(true, {}, false, false))
  {
    RebuildStores(s, built, outbox, force, s');
    MarkFixes(built);
    var stored := Mark(built).fields;
    forall f ensures f in Differing(stored, built.fields) <==> f in DisputedFields(built) {}
    if NothingDisputed(built) { assert DisputedFields(built) == {}; }
  }

  /** A freshly rebuilt record with one disputed field is reported inconsistent. */
  lemma DisputeReportedInconsistent() returns (built: Content)
    ensures var s := State(None, []);
      var r := Reprojected(s, Unmerged, built, true, None, false);
      r.Ok? && Verify(r.value, Unmerged, built).Some? && !Verify(r.value, Unmerged, built).value.consistent
  {
    built := Content(map["operator" := Disputed], {"operator"}, 0.0);
    var r := Reprojected(State(None, []), Unmerged, built, true, None, false);
    CheckAfterRebuild(State(None, []), built, None, false, r.value);
    assert built.fields["operator"].Disputed?;
  }

  /**
   The list of changed fields names every field whose stored value changes, and besides those
   exactly the fields that were disputed and still are.
   */
  lemma ChangedFieldsExactly(row: Row, built: Content, f: string)
    requires exists was: Content :: row.content == Mark(was)
    ensures f in ChangedFields(Some(row), built).fields <==>
            Get(row.content.fields, f) != Get(Mark(built).fields, f) || f in DisputedFields(built)
  {
    var was: Content :| row.content == Mark(was);
    if f in DisputedFields(built) && f in row.content.fields {
      assert row.content.fields[f] == MarkValue(was.fields[f]);
    }
  }

  // ---------------------------------------------------------------- absorbed events

  /** A merge deletes the absorbed event's row but not its history. */
  function AbsorbedState(s: State): State {
    s.(row := None)
  }

  /** All that is left to say about an absorbed event is where it went. */
  ghost predicate IsGrave(c: Content, target: string) {
    && c.fields == map["is_merged" := Plain("true"), "merged_into_event_id" := Plain(target)]
    && c.unresolved == {} && c.completeness == 0.0
  }

  /**
   The first tombstone of an absorbed event starts again at version 1, so the version index lets
   it in exactly if the event had never been projected.
   */
  lemma TombstoneRestarts(acts: seq<Act>, target: string, outbox: Option<OutboxId>, force: bool, built: Content)
    ensures var s := AbsorbedState(Run(acts).state);
      var r := Reprojected(s, Absorbed(target), built, true, outbox, force);
      && (r.Ok? <==> s.history == [])
      && (r.Ok? ==> r.value.row.Some? && r.value.row.value.version == 1 && IsGrave(r.value.row.value.content, target))
  {
    RunAudited(acts);
    var s := AbsorbedState(Run(acts).state);
    if s.history != [] { assert s.history[0].version == 1; }
  }

  /** The history is empty exactly if nothing was ever reprojected. */
  lemma HistoryStarts(acts: seq<Act>)
    ensures Run(acts).state.history == [] <==> acts == []
    decreases |acts|
  {
    if acts != [] {
      RunAudited(acts[..|acts| - 1]);
      if |acts| > 1 { HistoryStarts(acts[..|acts| - 1]); }
      KeepsHistory(Run(acts[..|acts| - 1]), acts[|acts| - 1]);
    }
  }

  lemma KeepsHistory(w: World, a: Act)
    requires Audited(w)
    ensures w.state.history <= Step(w, a).state.history && Step(w, a).state.history != []
  {
    StepAudited(w, a);
  }

  /** The tombstones of an absorbed event; a refused one leaves everything as it is. */
  function Entombed(s: State, target: string, acts: seq<Act>): State
    decreases |acts|
  {
    if acts == [] then s
    else
      var before := Entombed(s, target, acts[..|acts| - 1]);
      var a := acts[|acts| - 1];
      var r := Reprojected(before, Absorbed(target), a.built, true, a.outbox, a.force);
      if r.Ok? then r.value else before
  }

  /** The row is the newest version; there is none if and only if nothing was recorded. */
  ghost predicate Current(s: State) {
    if s.row.None? then s.history == []
    else
      && VersionUsed(s.history, 1)
      && forall i :: 0 <= i < |s.history| ==> s.history[i].version <= s.row.value.version
  }

  /** There is a history, but no row to count on from: every reprojection would start again. */
  predicate Stuck(s: State) {
    s.row.None? && VersionUsed(s.history, 1)
  }

  lemma CurrentStep(s: State, event: Event, a: Act)
    requires Current(s) && !event.Missing?
    ensures var r := Reprojected(s, event, a.built, false, a.outbox, a.force);
      r.Ok? && Current(r.value) && r.value.row.Some?
  {
    var r := Reprojected(s, event, a.built, false, a.outbox, a.force);
    if r.Ok? && r.value != s {
      var h := r.value.history;
      var i := if s.history == [] then 0 else var j :| 0 <= j < |s.history| && s.history[j].version == 1; j;
      assert h[i].version == 1;
    }
  }

  lemma StuckStep(s: State, target: string, a: Act)
    requires Stuck(s)
    ensures Reprojected(s, Absorbed(target), a.built, false, a.outbox, a.force) == Err(VersionTaken)
  {
  }

  /** Either every reprojection is refused, or the rows so far are in order. */
  ghost predicate Buried(s: State, projected: bool) {
    if projected then Stuck(s) else Current(s)
  }

  lemma BuriedStep(s: State, projected: bool, target: string, a: Act)
    requires Buried(s, projected)
    ensures var r := Reprojected(s, Absorbed(target), a.built, true, a.outbox, a.force);
      (r.Ok? <==> !projected) && (r.Ok? ==> Buried(r.value, projected))
  {
    if projected { StuckStep(s, target, a); } else { CurrentStep(s, Absorbed(target), a); }
  }

  lemma {:induction false} StaysBuried(s: State, projected: bool, target: string, acts: seq<Act>)
    requires Buried(s, projected)
    ensures Buried(Entombed(s, target, acts), projected)
    decreases |acts|
  {
    if acts != [] {
      StaysBuried(s, projected, target, acts[..|acts| - 1]);
      BuriedStep(Entombed(s, target, acts[..|acts| - 1]), projected, target, acts[|acts| - 1]);
    }
  }

  /**
   Over the whole life of an event: once it is absorbed, a reprojection is refused exactly if one
   took place before, whatever was tried in between.
   */
  lemma AbsorbedRefusedExactly(life: seq<Act>, target: string, after: seq<Act>, a: Act)
    ensures var s := Entombed(AbsorbedState(Run(life).state), target, after);
      Reprojected(s, Absorbed(target), a.built, true, a.outbox, a.force).Err? <==> life != []
  {
    RunAudited(life);
    HistoryStarts(life);
    var s := AbsorbedState(Run(life).state);
    if life != [] { assert s.history[0].version == 1; }
    StaysBuried(s, life != [], target, after);
    BuriedStep(Entombed(s, target, after), life != [], target, a);
  }

  /** Rows 1 to n, all tombstones, no outbox id twice, the last one current. */
  ghost predicate Graves(s: State, target: string) {
    && (forall i :: 0 <= i < |s.history| ==> s.history[i].version == i + 1 && IsGrave(s.history[i].content, target))
    && (forall i, j :: 0 <= i < j < |s.history| && s.history[i].outbox.Some? ==>
          s.history[i].outbox != s.history[j].outbox)
    && s.row == if s.history == [] then None else Some(Row(|s.history|, s.history[|s.history| - 1].content))
  }

  lemma GraveStep(s: State, target: string, a: Act)
    requires Graves(s, target)
    ensures var r := Reprojected(s, Absorbed(target), a.built, true, a.outbox, a.force);
      r.Ok? && Graves(r.value, target)
  {
    assert forall i :: 0 <= i < |s.history| ==> s.history[i] in s.history;
  }

  /** An event absorbed before it was ever projected keeps an audited history of tombstones. */
  lemma {:induction false} TombstonesAudited(target: string, acts: seq<Act>)
    ensures Graves(Entombed(State(None, []), target, acts), target)
    decreases |acts|
  {
    if acts != [] {
      TombstonesAudited(target, acts[..|acts| - 1]);
      GraveStep(Entombed(State(None, []), target, acts[..|acts| - 1]), target, acts[|acts| - 1]);
    }
  }
}
