/**
 Editorial pages: the publication workflow, its revisions, and the two public indexes that
 every committed step must leave equal to the set of published pages.
 */
module Publication {
  import opened Common

  type PageId = nat
  type EventId = nat
  type Time = nat

  datatype Status = Draft | InReview | Approved | Published | Archived | Retracted

  /** The transition table; RETRACTED is terminal. */
  function NextStates(s: Status): set<Status> {
    match s
    case Draft => {InReview}
    case InReview => {Approved, Draft}
    case Approved => {Published, Draft}
    case Published => {Archived, Retracted}
    case Archived => {Published, Draft}
    case Retracted => {}
  }

  datatype Page = Page(
    event: EventId,
    slug: string,
    title: string,
    summary: Option<string>,
    narrative: Option<string>,
    status: Status,
    version: nat,
    firstPublished: Option<Time>,
    lastPublished: Option<Time>,
    retractedAt: Option<Time>,
    note: Option<string>,
    updatedAt: Time)

  datatype Revision = Revision(
    version: nat,
    fromStatus: Option<Status>,
    toStatus: Status,
    title: string,
    summary: Option<string>,
    narrative: Option<string>)

  /** A page: every value its row has had (the last is current) and its revisions. */
  datatype Case = Case(past: seq<Page>, revisions: seq<Revision>)

  // ---------------------------------------------------------------- index entries

  type Date = nat

  /**
   What a projection field may hold.  `shown` is what Python's `str` writes for a number or a nested
   value; a text comes with what `float`, `int` and the date parsers make of it.
   */
  datatype Value =
    | Null
    | Flag(b: bool)
    | Number(r: real, shown: string)
    | Text(s: string, float: Parsed, whole: Option<int>, date: Option<Date>)
    | Nested(shown: string)

  datatype Parsed = NotFloat | Finite(r: real) | NotFinite

  datatype Projection = Projection(fields: map<string, Value>, completeness: real)

  datatype Coords = Coords(latitude: real, longitude: real)

  function CoerceFloat(v: Value): Parsed {
    match v
    case Number(r, _) => Finite(r)
    case Text(_, f, _, _) => f
    case _ => NotFloat
  }

  const LatKeys: seq<string> := ["latitude", "lat"]
  const LngKeys: seq<string> := ["longitude", "lng", "lon"]

  /** The first of the keys whose value is a number. */
  function FirstFloat(fields: map<string, Value>, keys: seq<string>): Parsed {
    if keys == [] then NotFloat
    else if keys[0] in fields && CoerceFloat(fields[keys[0]]) != NotFloat then CoerceFloat(fields[keys[0]])
    else FirstFloat(fields, keys[1..])
  }

  predicate Within(p: Parsed, bound: real) {
    p.Finite? && -bound <= p.r <= bound
  }

  /** Coordinates the map can show. */
  function CoordsOf(fields: map<string, Value>): (c: Option<Coords>)
    ensures c.Some? ==> -90.0 <= c.value.latitude <= 90.0 && -180.0 <= c.value.longitude <= 180.0
  {
    var lat, lng := FirstFloat(fields, LatKeys), FirstFloat(fields, LngKeys);
    if Within(lat, 90.0) && Within(lng, 180.0) then Some(Coords(lat.r, lng.r)) else None
  }

  method FindFloat(fields: map<string, Value>, keys: seq<string>) returns (p: Parsed)
    ensures p == FirstFloat(fields, keys)
  {
    p := NotFloat;
    for i := 0 to |keys|
      invariant p == NotFloat && FirstFloat(fields, keys) == FirstFloat(fields, keys[i..])
    {
      if keys[i] in fields {
        p := CoerceFloat(fields[keys[i]]);
        if p != NotFloat { return; }
      }
    }
  }

  /** `_extract_coords`. */
  method ExtractCoords(fields: map<string, Value>) returns (c: Option<Coords>)
    ensures c == CoordsOf(fields)
  {
    var lat := FindFloat(fields, LatKeys);
    var lng := FindFloat(fields, LngKeys);
    if lat == NotFloat || lng == NotFloat { return None; }
    if lat.NotFinite? || !(-90.0 <= lat.r <= 90.0) { return None; }
    if lng.NotFinite? || !(-180.0 <= lng.r <= 180.0) { return None; }
    return Some(Coords(lat.r, lng.r));
  }

  datatype Band = High | Medium | Low | Unknown

  function BandOf(p: Option<Projection>): Band {
    if p.None? then Unknown
    else if p.value.completeness >= 0.85 then High
    else if p.value.completeness >= 0.5 then Medium
    else if p.value.completeness > 0.0 then Low
    else Unknown
  }

  /** `_str_or_none`: an empty text is none. */
  function CoerceText(v: Value): Option<string> {
    match v
    case Null => None
    case Flag(b) => Some(if b then "True" else "False")
    case Number(_, shown) => Some(shown)
    case Text(s, _, _, _) => if s == "" then None else Some(s)
    case Nested(shown) => Some(shown)
  }

  function TowardZero(r: real): int {
    if r >= 0.0 then r.Floor else -(-r).Floor
  }

  /** `_coerce_int`: `int` counts flags as 0 and 1 and cuts fractions off. */
  function CoerceInt(v: Value): Option<int> {
    match v
    case Flag(b) => Some(if b then 1 else 0)
    case Number(r, _) => Some(TowardZero(r))
    case Text(_, _, whole, _) => whole
    case _ => None
  }

  /** `_parse_event_date`: stored dates are texts. */
  function CoerceDate(v: Value): Option<Date> {
    if v.Text? then v.date else None
  }

  /** The five facts both indexes take from a projection. */
  datatype Facts = Facts(
    operator: Option<string>,
    aircraftType: Option<string>,
    country: Option<string>,
    eventDate: Option<Date>,
    fatalities: Option<int>)

  function Get(fields: map<string, Value>, f: string): Value {
    if f in fields then fields[f] else Null
  }

  function FactsOf(fields: map<string, Value>): Facts {
    Facts(CoerceText(Get(fields, "operator")), CoerceText(Get(fields, "aircraft_type")),
          CoerceText(Get(fields, "country")), CoerceDate(Get(fields, "event_date")),
          CoerceInt(Get(fields, "fatalities_total")))
  }

  /** All that the indexes see of a projection. */
  datatype Look = Look(facts: Facts, band: Band, coords: Option<Coords>)

  function FieldsOf(p: Option<Projection>): map<string, Value> {
    if p.Some? then p.value.fields else map[]
  }

  function LookOf(p: Option<Projection>): Look {
    Look(FactsOf(FieldsOf(p)), BandOf(p), CoordsOf(FieldsOf(p)))
  }

  const IndexedFields: set<string> :=
    {"operator", "aircraft_type", "country", "event_date", "fatalities_total",
     "latitude", "lat", "longitude", "lng", "lon"}

  lemma {:induction false} SameFloat(a: map<string, Value>, b: map<string, Value>, keys: seq<string>)
    requires forall k :: k in keys ==> Get(a, k) == Get(b, k)
    ensures FirstFloat(a, keys) == FirstFloat(b, keys)
  {
    if keys != [] {
      assert Get(a, keys[0]) == Get(b, keys[0]);
      SameFloat(a, b, keys[1..]);
    }
  }

  /** A projection that changes in other fields only, and stays in its band, looks the same. */
  lemma OtherFieldsUnseen(p: Projection, p': Projection)
    requires forall f :: f in IndexedFields ==> Get(p.fields, f) == Get(p'.fields, f)
    requires BandOf(Some(p)) == BandOf(Some(p'))
    ensures LookOf(Some(p)) == LookOf(Some(p'))
  {
    SameFloat(p.fields, p'.fields, LatKeys);
    SameFloat(p.fields, p'.fields, LngKeys);
  }

  datatype SearchEntry = SearchEntry(
    slug: string,
    title: string,
    summary: Option<string>,
    facts: Facts,
    band: Band,
    at: Time)

  datatype MapEntry = MapEntry(
    slug: string,
    title: string,
    coords: Coords,
    facts: Facts,
    band: Band,
    at: Time)

  function ShownAt(p: Page): Time {
    if p.lastPublished.Some? then p.lastPublished.value else p.updatedAt
  }

  /** `_entry_from`. */
  function SearchEntryOf(p: Page, look: Look): SearchEntry {
    SearchEntry(p.slug, p.title, p.summary, look.facts, look.band, ShownAt(p))
  }

  /** `_map_entry_from`. */
  function MapEntryOf(p: Page, look: Look): Option<MapEntry> {
    if look.coords.None? then None
    else Some(MapEntry(p.slug, p.title, look.coords.value, look.facts, look.band, ShownAt(p)))
  }

  // ---------------------------------------------------------------- steps

  datatype State = State(
    pages: map<PageId, Case>,
    search: map<PageId, SearchEntry>,
    maps: map<PageId, MapEntry>,
    projections: map<EventId, Projection>)

  const Empty := State(map[], map[], map[], map[])

  /**
   `seen` is the row the use case loaded, perhaps not the latest any more; `expected` is the
   version the client sent along.
   */
  datatype Act =
    | CreatePage(id: PageId, event: EventId, slug: string, title: string, summary: Option<string>,
                 narrative: Option<string>, at: Time)
    | EditPage(id: PageId, seen: Page, expected: nat, newTitle: Option<string>, newSummary: Option<string>,
               newNarrative: Option<string>, newSlug: Option<string>, at: Time)
    | Move(id: PageId, seen: Page, expected: nat, to: Status, note: Option<string>, at: Time)
    | Project(event: EventId, projection: Option<Projection>)
    | Rebuild

  function Now(k: Case): Page
    requires k.past != []
  {
    k.past[|k.past| - 1]
  }

  function RevisionOf(p: Page, from: Option<Status>): Revision {
    Revision(p.version, from, p.status, p.title, p.summary, p.narrative)
  }

  function OrElse<T>(o: Option<T>, t: T): T {
    if o.Some? then o.value else t
  }

  /** An empty text clears a nullable field, `None` leaves it alone. */
  function Edited(stored: Option<string>, input: Option<string>): Option<string> {
    if input.None? then stored else if input.value == "" then None else input
  }

  function EditedPage(a: Act): Page
    requires a.EditPage?
  {
    a.seen.(title := OrElse(a.newTitle, a.seen.title), summary := Edited(a.seen.summary, a.newSummary),
            narrative := Edited(a.seen.narrative, a.newNarrative), slug := OrElse(a.newSlug, a.seen.slug),
            version := a.seen.version + 1, updatedAt := a.at)
  }

  const MaxNote: nat := 1000

  function CutNote(note: Option<string>): Option<string> {
    if note.None? || note.value == "" then None
    else Some(if |note.value| > MaxNote then note.value[..MaxNote] else note.value)
  }

  function MovedPage(a: Act): Page
    requires a.Move?
  {
    var p := a.seen.(status := a.to, version := a.seen.version + 1, updatedAt := a.at);
    match a.to
    case Published => p.(firstPublished := Some(OrElse(a.seen.firstPublished, a.at)), lastPublished := Some(a.at))
    case Retracted => p.(retractedAt := Some(a.at), note := CutNote(a.note))
    case _ => p
  }

  predicate SlugTaken(s: State, slug: string, id: PageId) {
    exists q :: q in s.pages && q != id && s.pages[q].past != [] && Now(s.pages[q]).slug == slug
  }

  predicate EventTaken(s: State, e: EventId) {
    exists q :: q in s.pages && s.pages[q].past != [] && Now(s.pages[q]).event == e
  }

  /** No other page has the slug now. */
  ghost predicate SlugFree(s: State, slug: string, id: PageId) {
    forall q :: q in s.pages && q != id && s.pages[q].past != [] ==> Now(s.pages[q]).slug != slug
  }

  ghost predicate EventFree(s: State, e: EventId) {
    forall q :: q in s.pages && s.pages[q].past != [] ==> Now(s.pages[q]).event != e
  }

  /** The versioned update and its revision; nothing happens when the version is not the expected one. */
  function Update(s: State, id: PageId, seen: Page, expected: nat, next: Page): State {
    if id !in s.pages || seen !in s.pages[id].past || Now(s.pages[id]).version != expected then s
    else if SlugTaken(s, next.slug, id) then s
    else
      var k := s.pages[id];
      s.(pages := s.pages[id := Case(k.past + [next], k.revisions + [RevisionOf(next, Some(seen.status))])])
  }

  function ProjectionFor(s: State, p: Page): Option<Projection> {
    if p.event in s.projections then Some(s.projections[p.event]) else None
  }

  /** What the page's projection looks like to the indexes now. */
  function LookNow(s: State, p: Page): Look {
    LookOf(ProjectionFor(s, p))
  }

  /** The hook of the publication steps. */
  function Reindexed(s: State, id: PageId, p: Page): State {
    match p.status
    case Published =>
      var entry := MapEntryOf(p, LookNow(s, p));
      s.(search := s.search[id := SearchEntryOf(p, LookNow(s, p))],
         maps := if entry.Some? then s.maps[id := entry.value] else s.maps - {id})
    case Archived => s.(search := s.search - {id}, maps := s.maps - {id})
    case Retracted => s.(search := s.search - {id}, maps := s.maps - {id})
    case _ => s
  }

  function Step(s: State, a: Act): State {
    match a
    case CreatePage(id, e, slug, title, summary, narrative, at) =>
      if id in s.pages || SlugTaken(s, slug, id) || EventTaken(s, e) then s
      else
        var p := Page(e, slug, title, summary, narrative, Draft, 1, None, None, None, None, at);
        s.(pages := s.pages[id := Case([p], [RevisionOf(p, None)])])
    case EditPage(id, seen, expected, _, _, _, _, _) =>
      if seen.status != Draft then s else Update(s, id, seen, expected, EditedPage(a))
    case Move(id, seen, expected, to, _, _) =>
      if to !in NextStates(seen.status) then s
      else
        var s' := Update(s, id, seen, expected, MovedPage(a));
        if s' == s then s else Reindexed(s', id, MovedPage(a))
    case Project(e, p) =>
      s.(projections := if p.Some? then s.projections[e := p.value] else s.projections - {e})
    case Rebuild => if |PublishedPages(s)| >= MaxReindexPages then s else Rebuilt(s)
  }

  const MaxReindexPages: nat := 50000

  function PublishedPages(s: State): set<PageId> {
    set id | id in s.pages && s.pages[id].past != [] && Now(s.pages[id]).status == Published
  }

  /** What a page's entries would be if they were made now. */
  function FreshSearch(s: State, id: PageId): SearchEntry
    requires id in PublishedPages(s)
  {
    SearchEntryOf(Now(s.pages[id]), LookNow(s, Now(s.pages[id])))
  }

  function FreshMap(s: State, id: PageId): Option<MapEntry>
    requires id in PublishedPages(s)
  {
    MapEntryOf(Now(s.pages[id]), LookNow(s, Now(s.pages[id])))
  }

  function RebuiltSearch(s: State): map<PageId, SearchEntry> {
    map id | id in PublishedPages(s) :: FreshSearch(s, id)
  }

  function RebuiltMaps(s: State): map<PageId, MapEntry> {
    map id | id in PublishedPages(s) && FreshMap(s, id).Some? :: FreshMap(s, id).value
  }

  /** Both indexes replaced by what pages and projections now say. */
  function Rebuilt(s: State): State {
    s.(search := RebuiltSearch(s), maps := RebuiltMaps(s))
  }

  function Run(s: State, acts: seq<Act>): State
    decreases |acts|
  {
    if acts == [] then s else Step(Run(s, acts[..|acts| - 1]), acts[|acts| - 1])
  }

  /** A client cannot know a version newer than the one its own request loads. */
  predicate Honest(a: Act) {
    (a.EditPage? || a.Move?) ==> a.expected <= a.seen.version
  }

  predicate AllHonest(acts: seq<Act>) {
    forall i :: 0 <= i < |acts| ==> Honest(acts[i])
  }

  // ---------------------------------------------------------------- what holds

  /** Revisions are numbered 1 to the version, chain in status, follow the workflow and record the row. */
  ghost predicate Chronicled(k: Case) {
    && |k.past| == |k.revisions| > 0
    && (forall i :: 0 <= i < |k.past| ==> k.past[i].version == i + 1)
    && (forall i :: 0 <= i < |k.past| ==> Recorded(k.past, k.revisions[i], i))
    && (forall i :: 0 < i < |k.past| ==> Follows(k.past, i))
    && Begun(k.past[0])
  }

  ghost predicate Begun(p: Page) {
    p.status == Draft && p.firstPublished.None? && p.lastPublished.None? && p.retractedAt.None? && p.note.None?
  }

  /** The revision of value `i`: its text, and the statuses before and after. */
  ghost predicate Recorded(past: seq<Page>, r: Revision, i: nat)
    requires i < |past|
  {
    && r.version == past[i].version && r.fromStatus == Before(past, i) && r.toStatus == past[i].status
    && r.title == past[i].title && r.summary == past[i].summary && r.narrative == past[i].narrative
  }

  /** The status before value `i` was written. */
  function Before(past: seq<Page>, i: nat): Option<Status>
    requires i <= |past|
  {
    if i == 0 then None else Some(past[i - 1].status)
  }

  ghost predicate Follows(past: seq<Page>, i: nat)
    requires 0 < i < |past|
  {
    Succeeds(past[i - 1], past[i])
  }

  /** The transitions of the editorial workflow. */
  ghost predicate Permitted(from: Status, to: Status) {
    || (to.InReview? && from.Draft?)
    || (to.Approved? && from.InReview?)
    || (to.Published? && (from.Approved? || from.Archived?))
    || ((to.Archived? || to.Retracted?) && from.Published?)
    || (to.Draft? && (from.InReview? || from.Approved? || from.Archived?))
  }

  ghost predicate SameText(a: Page, b: Page) {
    a.slug == b.slug && a.title == b.title && a.summary == b.summary && a.narrative == b.narrative
  }

  /** The next value of a page: a workflow transition that leaves the text alone, or an edit of a draft. */
  ghost predicate Succeeds(a: Page, b: Page) {
    && b.event == a.event
    && ((Permitted(a.status, b.status) && SameText(a, b)) || (a.status.Draft? && b.status.Draft?))
    && (if b.status.Published? then
          && b.lastPublished == Some(b.updatedAt)
          && b.firstPublished == if a.firstPublished.Some? then a.firstPublished else Some(b.updatedAt)
        else b.lastPublished == a.lastPublished && b.firstPublished == a.firstPublished)
    && (if b.status.Retracted? then b.retractedAt == Some(b.updatedAt)
        else b.retractedAt == a.retractedAt && b.note == a.note)
  }

  /** A note is kept up to its first thousand characters; an empty one is none. */
  ghost predicate Noted(given: Option<string>, stored: Option<string>) {
    if given.None? || given.value == "" then stored.None?
    else
      && stored.Some? && stored.value <= given.value
      && |stored.value| == if |given.value| <= 1000 then |given.value| else 1000
  }

  /** No input leaves a field alone, an empty one clears it, any other replaces it. */
  ghost predicate Cleared(stored: Option<string>, input: Option<string>, next: Option<string>) {
    && (input.None? ==> next == stored)
    && (input == Some("") ==> next.None?)
    && (input.Some? && input != Some("") ==> next == input)
  }

  /** Every entry is the one its page has for one look, the same in both indexes. */
  ghost predicate Indexed(s: State) {
    && (forall id :: id in s.pages ==> s.pages[id].past != [])
    && (forall id :: id in s.search <==> id in s.pages && Now(s.pages[id]).status == Published)
    && (forall id :: id in s.maps ==> id in s.search)
    && (forall id :: id in s.search ==> Shows(s, id, Now(s.pages[id])))
  }

  /** What the indexes hold of a page's projection. */
  function Shown(s: State, id: PageId): Look
    requires id in s.search
  {
    Look(s.search[id].facts, s.search[id].band, if id in s.maps then Some(s.maps[id].coords) else None)
  }

  function MapAt(s: State, id: PageId): Option<MapEntry> {
    if id in s.maps then Some(s.maps[id]) else None
  }

  ghost predicate Shows(s: State, id: PageId, p: Page)
    requires id in s.search
  {
    s.search[id] == SearchEntryOf(p, Shown(s, id)) && MapAt(s, id) == MapEntryOf(p, Shown(s, id))
  }

  ghost predicate Sound(s: State) {
    (forall id :: id in s.pages ==> Chronicled(s.pages[id])) && Indexed(s)
  }

  /** With an honest version the row loaded is the row updated. */
  lemma SeenIsNow(k: Case, seen: Page, expected: nat)
    requires Chronicled(k) && seen in k.past && expected <= seen.version && Now(k).version == expected
    ensures seen == Now(k)
  {
    var i :| 0 <= i < |k.past| && k.past[i] == seen;
  }

  lemma UpdateChronicled(k: Case, next: Page)
    requires Chronicled(k) && next.version == Now(k).version + 1 && Succeeds(Now(k), next)
    ensures Chronicled(Case(k.past + [next], k.revisions + [RevisionOf(next, Some(Now(k).status))]))
  {
    UpdateFollows(k, next);
    UpdateRecorded(k, next);
  }

  lemma UpdateFollows(k: Case, next: Page)
    requires k.past != [] && (forall i :: 0 < i < |k.past| ==> Follows(k.past, i)) && Succeeds(Now(k), next)
    ensures forall i :: 0 < i < |k.past| + 1 ==> Follows(k.past + [next], i)
  {
    forall i | 0 < i < |k.past| + 1 ensures Follows(k.past + [next], i) {
      if i < |k.past| { assert Follows(k.past, i); }
    }
  }

  lemma UpdateRecorded(k: Case, next: Page)
    requires |k.past| == |k.revisions| > 0
    requires forall i :: 0 <= i < |k.past| ==> Recorded(k.past, k.revisions[i], i)
    ensures var revisions := k.revisions + [RevisionOf(next, Some(Now(k).status))];
      forall i :: 0 <= i < |k.past| + 1 ==> Recorded(k.past + [next], revisions[i], i)
  {
    var past, revisions := k.past + [next], k.revisions + [RevisionOf(next, Some(Now(k).status))];
    forall i | 0 <= i < |k.past| + 1 ensures Recorded(past, revisions[i], i) {
      if i < |k.past| { assert Recorded(k.past, k.revisions[i], i) && revisions[i] == k.revisions[i]; }
    }
  }

  /** A step that neither enters nor leaves PUBLISHED leaves both indexes right. */
  lemma UpdateIndexed(s: State, id: PageId, k: Case)
    requires Indexed(s) && k.past != [] && Now(k).status != Published
    requires id !in s.search
    ensures Indexed(s.(pages := s.pages[id := k]))
  {
  }

  /** Entries that were not touched still show their pages. */
  lemma ShowsKept(s: State, s': State, id: PageId, p: Page)
    requires id in s.search && id in s'.search && s'.search[id] == s.search[id] && MapAt(s', id) == MapAt(s, id)
    ensures Shows(s', id, p) <==> Shows(s, id, p)
  {
    assert Shown(s', id) == Shown(s, id);
  }

  /** Storing one page with its index hook leaves every other page as it was shown. */
  lemma HookKeepsOther(s: State, id: PageId, k: Case, q: PageId)
    requires k.past != [] && q != id
    ensures var s' := Reindexed(s.(pages := s.pages[id := k]), id, Now(k));
      && (q in s'.search <==> q in s.search) && (q in s.search ==> s'.search[q] == s.search[q])
      && MapAt(s', q) == MapAt(s, q) && s'.projections == s.projections
      && (q in s'.pages <==> q in s.pages) && (q in s.pages ==> s'.pages[q] == s.pages[q])
  {
  }

  /** The entries of one page are as they should be. */
  ghost predicate EntryRight(s: State, q: PageId) {
    && (q in s.pages ==> s.pages[q].past != [])
    && (q in s.maps ==> q in s.search)
    && (q in s.search <==> q in s.pages && Now(s.pages[q]).status == Published)
    && (q in s.search ==> Shows(s, q, Now(s.pages[q])))
  }

  lemma IndexedWhen(s: State)
    requires forall q :: EntryRight(s, q)
    ensures Indexed(s)
  {
    forall q ensures q in s.pages ==> s.pages[q].past != []
      ensures q in s.maps ==> q in s.search
    {
      assert EntryRight(s, q);
    }
    forall q ensures q in s.search <==> q in s.pages && Now(s.pages[q]).status == Published
      ensures q in s.search ==> Shows(s, q, Now(s.pages[q]))
    {
      assert EntryRight(s, q);
    }
  }

  lemma HookEntry(s: State, id: PageId, k: Case, q: PageId)
    requires Indexed(s) && k.past != []
    requires Now(k).status == Published || Now(k).status == Archived || Now(k).status == Retracted
    ensures EntryRight(Reindexed(s.(pages := s.pages[id := k]), id, Now(k)), q)
  {
    var s' := Reindexed(s.(pages := s.pages[id := k]), id, Now(k));
    if q != id {
      HookKeepsOther(s, id, k, q);
      if q in s.search { ShowsKept(s, s', q, Now(s.pages[q])); }
    }
  }

  lemma HookIndexed(s: State, id: PageId, k: Case)
    requires Indexed(s) && k.past != []
    requires Now(k).status == Published || Now(k).status == Archived || Now(k).status == Retracted
    ensures Indexed(Reindexed(s.(pages := s.pages[id := k]), id, Now(k)))
  {
    var s' := Reindexed(s.(pages := s.pages[id := k]), id, Now(k));
    forall q ensures EntryRight(s', q) { HookEntry(s, id, k, q); }
    IndexedWhen(s');
  }

  lemma RebuiltIndexed(s: State)
    requires Indexed(s)
    ensures Indexed(Rebuilt(s))
  {
    var s' := Rebuilt(s);
    forall q | q in s'.search ensures Shows(s', q, Now(s'.pages[q])) { RebuiltShows(s, q); }
  }

  /** A rebuild shows every published page as its projection looks now. */
  lemma RebuiltShows(s: State, id: PageId)
    requires id in PublishedPages(s)
    ensures var s' := Rebuilt(s);
      && id in s'.search && Shown(s', id) == LookNow(s, Now(s.pages[id])) && Shows(s', id, Now(s.pages[id]))
      && s'.search[id] == FreshSearch(s, id) && MapAt(s', id) == FreshMap(s, id)
  {
  }

  /** The page after a step that took effect. */
  function NextCase(k: Case, next: Page, from: Status): Case {
    Case(k.past + [next], k.revisions + [RevisionOf(next, Some(from))])
  }

  lemma MoveIndexed(s: State, id: PageId, k: Case)
    requires Indexed(s) && k.past != [] && (id in s.search ==> Now(k).status == Archived || Now(k).status == Retracted)
    ensures Indexed(Reindexed(s.(pages := s.pages[id := k]), id, Now(k)))
  {
    match Now(k).status
    case Published => HookIndexed(s, id, k);
    case Archived => HookIndexed(s, id, k);
    case Retracted => HookIndexed(s, id, k);
    case _ => UpdateIndexed(s, id, k);
  }

  /** What a transition that took effect did. */
  lemma MoveStep(s: State, a: Act)
    requires a.Move? && Step(s, a) != s
    ensures a.id in s.pages && a.seen in s.pages[a.id].past && Now(s.pages[a.id]).version == a.expected
    ensures a.to in NextStates(a.seen.status)
    ensures var k' := NextCase(s.pages[a.id], MovedPage(a), a.seen.status);
      && Now(k') == MovedPage(a)
      && Step(s, a) == Reindexed(s.(pages := s.pages[a.id := k']), a.id, MovedPage(a))
      && Step(s, a).pages == s.pages[a.id := k']
  {
  }

  lemma MoveChronicled(k: Case, a: Act)
    requires Chronicled(k) && a.Move? && Honest(a)
    requires a.seen in k.past && Now(k).version == a.expected && a.to in NextStates(a.seen.status)
    ensures a.seen == Now(k) && Chronicled(NextCase(k, MovedPage(a), a.seen.status))
  {
    SeenIsNow(k, a.seen, a.expected);
    UpdateChronicled(k, MovedPage(a));
  }

  lemma MovedSound(s: State, id: PageId, k: Case, s': State)
    requires Sound(s) && Chronicled(k) && (id in s.search ==> Now(k).status == Archived || Now(k).status == Retracted)
    requires s' == Reindexed(s.(pages := s.pages[id := k]), id, Now(k))
    ensures Sound(s')
  {
    MoveIndexed(s, id, k);
    ReindexedPages(s.(pages := s.pages[id := k]), id, Now(k));
    SoundAgain(s, id, k, s');
  }

  lemma ReindexedPages(s: State, id: PageId, p: Page)
    ensures Reindexed(s, id, p).pages == s.pages
  {
  }

  lemma SoundAgain(s: State, id: PageId, k: Case, s': State)
    requires Sound(s) && Chronicled(k) && Indexed(s') && s'.pages == s.pages[id := k]
    ensures Sound(s')
  {
  }

  /** Only a page leaving PUBLISHED is in the search index, and it leaves for ARCHIVED or RETRACTED. */
  lemma LeavingPublished(s: State, id: PageId, to: Status)
    requires Indexed(s) && id in s.pages && s.pages[id].past != [] && to in NextStates(Now(s.pages[id]).status)
    ensures id in s.search ==> to == Archived || to == Retracted
  {
  }

  lemma MoveSound(s: State, a: Act)
    requires Sound(s) && a.Move? && Honest(a) && Step(s, a) != s
    ensures Sound(Step(s, a))
  {
    MoveStep(s, a);
    var k' := NextCase(s.pages[a.id], MovedPage(a), a.seen.status);
    MoveCaseSound(s, a, k');
    MovedSound(s, a.id, k', Step(s, a));
  }

  lemma MoveCaseSound(s: State, a: Act, k': Case)
    requires Sound(s) && a.Move? && Honest(a)
    requires a.id in s.pages && a.seen in s.pages[a.id].past && Now(s.pages[a.id]).version == a.expected
    requires a.to in NextStates(a.seen.status) && k' == NextCase(s.pages[a.id], MovedPage(a), a.seen.status)
    ensures Chronicled(k') && Now(k').status == a.to
    ensures a.id in s.search ==> a.to == Archived || a.to == Retracted
  {
    MoveChronicled(s.pages[a.id], a);
    LeavingPublished(s, a.id, a.to);
  }

  lemma EditedWasDraft(s: State, a: Act)
    requires Sound(s) && a.EditPage? && Honest(a) && Step(s, a) != s
    ensures a.id in s.pages && s.pages[a.id].past != [] && Now(s.pages[a.id]).status == Draft
  {
    SeenIsNow(s.pages[a.id], a.seen, a.expected);
  }

  lemma MovedWasNotRetracted(s: State, a: Act)
    requires Sound(s) && a.Move? && Honest(a) && Step(s, a) != s
    ensures a.id in s.pages && s.pages[a.id].past != [] && Now(s.pages[a.id]).status != Retracted
  {
    MoveStep(s, a);
    SeenIsNow(s.pages[a.id], a.seen, a.expected);
  }

  lemma EditSound(s: State, a: Act)
    requires Sound(s) && a.EditPage? && Honest(a) && Step(s, a) != s
    ensures Sound(Step(s, a))
  {
    var k, next := s.pages[a.id], EditedPage(a);
    var k' := NextCase(k, next, a.seen.status);
    SeenIsNow(k, a.seen, a.expected);
    UpdateChronicled(k, next);
    assert Now(k') == next;
    UpdateIndexed(s, a.id, k');
  }

  lemma CreateSound(s: State, a: Act)
    requires Sound(s) && a.CreatePage? && Step(s, a) != s
    ensures Sound(Step(s, a))
  {
    var p := Page(a.event, a.slug, a.title, a.summary, a.narrative, Draft, 1, None, None, None, None, a.at);
    UpdateIndexed(s, a.id, Case([p], [RevisionOf(p, None)]));
  }

  /** A change of projection touches neither pages nor indexes. */
  lemma ProjectSound(s: State, a: Act)
    requires Sound(s) && a.Project?
    ensures Sound(Step(s, a))
  {
    SameSound(s, Step(s, a));
  }

  lemma SameSound(s: State, s': State)
    requires Sound(s) && s'.pages == s.pages && s'.search == s.search && s'.maps == s.maps
    ensures Sound(s')
  {
    forall id | id in s'.search ensures Shows(s', id, Now(s'.pages[id])) { ShowsKept(s, s', id, Now(s.pages[id])); }
  }

  lemma StepSound(s: State, a: Act)
    requires Sound(s) && Honest(a)
    ensures Sound(Step(s, a))
  {
    var s' := Step(s, a);
    if s' != s {
      match a
      case CreatePage(_, _, _, _, _, _, _) => CreateSound(s, a);
      case EditPage(_, _, _, _, _, _, _, _) => EditSound(s, a);
      case Move(_, _, _, _, _, _) => MoveSound(s, a);
      case Project(_, _) => ProjectSound(s, a);
      case Rebuild => RebuiltIndexed(s);
    }
  }

  lemma {:induction false} RunSound(acts: seq<Act>)
    requires AllHonest(acts)
    ensures Sound(Run(Empty, acts))
    decreases |acts|
  {
    if acts != [] {
      RunSound(acts[..|acts| - 1]);
      StepSound(Run(Empty, acts[..|acts| - 1]), acts[|acts| - 1]);
    }
  }

  /**
   After every run the search index holds exactly the published pages and the map index only
   published ones, and every page's last revision describes its current row.
   */
  lemma IndexesHoldPublished(acts: seq<Act>, id: PageId)
    requires AllHonest(acts)
    ensures var s := Run(Empty, acts);
      && (id in s.search <==> id in PublishedPages(s)) && (id in s.maps ==> id in PublishedPages(s))
      && (id in s.pages ==> Described(s.pages[id]))
  {
    RunSound(acts);
    SoundDescribes(Run(Empty, acts), id);
  }

  lemma SoundDescribes(s: State, id: PageId)
    requires Sound(s)
    ensures (id in s.search <==> id in PublishedPages(s)) && (id in s.maps ==> id in PublishedPages(s))
    ensures id in s.pages ==> Described(s.pages[id])
  {
    if id in s.pages { ChronicledDescribes(s.pages[id]); }
  }

  lemma ChronicledDescribes(k: Case)
    requires Chronicled(k)
    ensures Described(k)
  {
    var n := |k.past| - 1;
    assert Recorded(k.past, k.revisions[n], n);
  }

  /** The newest revision has the row's version, status and texts, and is as many as the version. */
  ghost predicate Described(k: Case) {
    && k.past != [] && |k.revisions| == Now(k).version > 0
    && var last := k.revisions[|k.revisions| - 1];
       last.version == Now(k).version && last.toStatus == Now(k).status &&
       last.title == Now(k).title && last.summary == Now(k).summary && last.narrative == Now(k).narrative
  }

  lemma RetractedStays(s: State, a: Act, id: PageId)
    requires Sound(s) && Honest(a) && id in s.pages && Now(s.pages[id]).status == Retracted
    ensures id in Step(s, a).pages && Step(s, a).pages[id] == s.pages[id]
  {
    if Step(s, a) != s {
      match a
      case Move(_, _, _, _, _, _) =>
        MoveStep(s, a);
        MovedWasNotRetracted(s, a);
      case EditPage(_, _, _, _, _, _, _, _) => EditedWasDraft(s, a);
      case _ =>
    }
  }

  /** A retracted page stays as it is, whatever is tried on it. */
  lemma {:induction false} RetractedIsForever(s: State, acts: seq<Act>, id: PageId)
    requires Sound(s) && id in s.pages && Now(s.pages[id]).status == Retracted && AllHonest(acts)
    ensures Sound(Run(s, acts)) && id in Run(s, acts).pages && Run(s, acts).pages[id] == s.pages[id]
    decreases |acts|
  {
    if acts != [] {
      var before, a := Run(s, acts[..|acts| - 1]), acts[|acts| - 1];
      RetractedIsForever(s, acts[..|acts| - 1], id);
      StepSound(before, a);
      RetractedStays(before, a, id);
    }
  }

  /** A row written over a newer one repeats a version. */
  lemma StaleRowBreaksCase(k: Case, next: Page, from: Status)
    requires Chronicled(k) && next.version <= Now(k).version
    ensures !Chronicled(NextCase(k, next, from))
  {
    assert NextCase(k, next, from).past[|k.past|] == next;
  }

  /** The page a step updated, and the row it wrote. */
  lemma UpdateStep(s: State, a: Act)
    requires (a.EditPage? || a.Move?) && Step(s, a) != s
    ensures a.id in s.pages && a.seen in s.pages[a.id].past && Now(s.pages[a.id]).version == a.expected
    ensures var next := if a.EditPage? then EditedPage(a) else MovedPage(a);
      && next.version == a.seen.version + 1
      && a.id in Step(s, a).pages && Step(s, a).pages[a.id] == NextCase(s.pages[a.id], next, a.seen.status)
  {
    if a.Move? { MoveStep(s, a); }
  }

  /**
   The version check compares the client's number with the row, not with the row that was loaded.
   A step that takes effect on a sound store keeps it sound exactly when the client's version is
   no newer than the row its request loaded.
   */
  lemma SoundExactlyWhenHonest(s: State, a: Act)
    requires Sound(s) && Step(s, a) != s
    ensures Sound(Step(s, a)) <==> Honest(a)
  {
    if Honest(a) {
      StepSound(s, a);
    } else {
      UpdateStep(s, a);
      StaleRowBreaksCase(s.pages[a.id], if a.EditPage? then EditedPage(a) else MovedPage(a), a.seen.status);
    }
  }

  /** Step `n` of a run changed something although its client guessed the version. */
  ghost predicate GuessedAt(acts: seq<Act>, n: nat)
    requires n < |acts|
  {
    !Honest(acts[n]) && Step(Run(Empty, acts[..n]), acts[n]) != Run(Empty, acts[..n])
  }

  /** Over whole runs: every state is sound exactly when no guessed version ever took effect. */
  lemma {:induction false} RunSoundExactly(acts: seq<Act>)
    ensures (forall n :: 0 <= n <= |acts| ==> Sound(Run(Empty, acts[..n]))) <==>
            (forall n :: 0 <= n < |acts| ==> !GuessedAt(acts, n))
  {
    forall n | 0 <= n < |acts| && Sound(Run(Empty, acts[..n]))
      ensures Sound(Run(Empty, acts[..n + 1])) <==> !GuessedAt(acts, n)
    {
      assert acts[..n + 1][..n] == acts[..n] && acts[..n + 1][n] == acts[n];
      var s := Run(Empty, acts[..n]);
      if Step(s, acts[n]) != s { SoundExactlyWhenHonest(s, acts[n]); }
    }
    if forall n :: 0 <= n < |acts| ==> !GuessedAt(acts, n) {
      forall n | 0 <= n <= |acts| ensures Sound(Run(Empty, acts[..n])) { UnguessedSound(acts, n); }
    } else {
      var n :| 0 <= n < |acts| && GuessedAt(acts, n);
      assert !(Sound(Run(Empty, acts[..n])) && Sound(Run(Empty, acts[..n + 1])));
    }
  }

  lemma {:induction false} UnguessedSound(acts: seq<Act>, n: nat)
    requires n <= |acts| && forall k :: 0 <= k < n ==> !GuessedAt(acts, k)
    ensures Sound(Run(Empty, acts[..n]))
    decreases n
  {
    if n > 0 {
      UnguessedSound(acts, n - 1);
      assert acts[..n][..n - 1] == acts[..n - 1] && acts[..n][n - 1] == acts[n - 1];
      assert !GuessedAt(acts, n - 1);
      var s := Run(Empty, acts[..n - 1]);
      if Step(s, acts[n - 1]) != s { SoundExactlyWhenHonest(s, acts[n - 1]); }
    }
  }

  /** It happens: two edits from the same loaded draft, the second with a guessed version. */
  lemma GuessedVersionBreaksRevisions() returns (acts: seq<Act>)
    ensures |acts| == 3 && AllHonest(acts[..2]) && !Honest(acts[2])
    ensures Sound(Run(Empty, acts[..2])) && !Sound(Run(Empty, acts))
  {
    var create := CreatePage(0, 0, "s", "first", None, None, 0);
    var p1 := Page(0, "s", "first", None, None, Draft, 1, None, None, None, None, 0);
    var edit := EditPage(0, p1, 1, Some("second"), None, None, None, 1);
    var guess := EditPage(0, p1, 2, Some("third"), None, None, None, 2);
    acts := [create, edit, guess];
    RunOne(create);
    RunOn([create], edit);
    RunOn([create, edit], guess);
    assert acts[..2] == [create, edit] && acts == [create, edit] + [guess];
    var s1 := Step(Empty, create);
    assert s1.pages == map[0 := Case([p1], [RevisionOf(p1, None)])];
    var s2 := Step(s1, edit);
    assert s2.pages[0].past == [p1, EditedPage(edit)];
    RunSound([create, edit]);
    assert s2.pages[0].past[0] == p1 && Now(s2.pages[0]).version == 2;
    assert Step(s2, guess).pages[0] == NextCase(s2.pages[0], EditedPage(guess), Draft);
    SoundExactlyWhenHonest(s2, guess);
  }

  lemma RunOne(a: Act)
    ensures Run(Empty, [a]) == Step(Empty, a)
  {
    assert [a][..0] == [];
  }

  lemma RunOn(before: seq<Act>, a: Act)
    ensures Run(Empty, before + [a]) == Step(Run(Empty, before), a)
  {
    assert (before + [a])[..|before|] == before;
  }

  // ---------------------------------------------------------------- the full rebuild

  const BatchSize: nat := 100

  datatype ReindexError = TooManyPages

  ghost predicate Lists(s: State, order: seq<PageId>) {
    && NoRepeats(order)
    && forall id :: id in order <==> id in PublishedPages(s)
  }

  /** A keyset page of a listing: what comes after the cursor, and the next cursor if there is more. */
  function ListAfter(order: seq<PageId>, after: Option<PageId>): (r: (seq<PageId>, Option<PageId>)) {
    var at := if after.Some? && after.value in order then Position(order, after.value) + 1 else 0;
    if |order| - at > BatchSize then (order[at..at + BatchSize], Some(order[at + BatchSize - 1]))
    else (order[at..], None)
  }

  function Position(order: seq<PageId>, id: PageId): (i: nat)
    requires id in order
    ensures i < |order| && order[i] == id
  {
    if order[|order| - 1] == id then |order| - 1 else Position(order[..|order| - 1], id)
  }

  class Newsroom {
    var state: State

    constructor ()
      ensures state == Empty
    {
      state := Empty;
    }

    /** CreatePublicEventPage.execute; refused when the event or the slug has a page. */
    method Create(id: PageId, event: EventId, slug: string, title: string, summary: Option<string>,
                  narrative: Option<string>, at: Time) returns (ok: bool)
      requires id !in state.pages
      modifies this
      ensures state == Step(old(state), CreatePage(id, event, slug, title, summary, narrative, at))
      ensures ok <==> SlugFree(old(state), slug, id) && EventFree(old(state), event)
      ensures ok ==> id in state.pages && |state.pages[id].past| == 1
      ensures ok ==>
        var p := Now(state.pages[id]);
        && Begun(p) && p.event == event && p.slug == slug && p.title == title && p.summary == summary
        && p.narrative == narrative && p.version == 1 && p.updatedAt == at
    {
      ok := !SlugTaken(state, slug, id) && !EventTaken(state, event);
      if ok {
        var p := Page(event, slug, title, summary, narrative, Draft, 1, None, None, None, None, at);
        state := state.(pages := state.pages[id := Case([p], [RevisionOf(p, None)])]);
      }
    }

    /** `_TransitionUseCase.execute` for the row it loaded; a refused transition changes nothing. */
    method Transition(id: PageId, seen: Page, expected: nat, to: Status, note: Option<string>, at: Time)
        returns (ok: bool)
      requires id in state.pages && seen in state.pages[id].past
      modifies this
      ensures state == Step(old(state), Move(id, seen, expected, to, note, at))
      ensures ok <==> Permitted(seen.status, to) && old(Now(state.pages[id]).version) == expected &&
                      SlugFree(old(state), seen.slug, id)
      ensures ok ==> id in state.pages && |state.pages[id].past| == |old(state.pages[id].past)| + 1
      ensures ok ==>
        var p := Now(state.pages[id]);
        && Succeeds(seen, p) && SameText(seen, p) && p.status == to && p.version == seen.version + 1
        && p.updatedAt == at && (to.Retracted? ==> Noted(note, p.note))
    {
      if to !in NextStates(seen.status) { return false; }
      var next := MovedPage(Move(id, seen, expected, to, note, at));
      var k := state.pages[id];
      if Now(k).version != expected || SlugTaken(state, next.slug, id) { return false; }
      state := state.(pages := state.pages[id := NextCase(k, next, seen.status)]);
      assert |state.pages[id].past| > |old(state).pages[id].past|;
      if to == Published {
        IndexPublished(id, next);
      } else if to == Archived || to == Retracted {
        state := state.(search := state.search - {id}, maps := state.maps - {id});
      }
      return true;
    }

    /** UpdatePublicEventPage.execute for the row it loaded: only drafts are edited. */
    method Edit(id: PageId, seen: Page, expected: nat, title: Option<string>, summary: Option<string>,
                narrative: Option<string>, slug: Option<string>, at: Time) returns (ok: bool)
      requires id in state.pages && seen in state.pages[id].past
      modifies this
      ensures state == Step(old(state), EditPage(id, seen, expected, title, summary, narrative, slug, at))
      ensures ok <==> seen.status == Draft && old(Now(state.pages[id]).version) == expected &&
                      SlugFree(old(state), if slug.Some? then slug.value else seen.slug, id)
      ensures ok ==> id in state.pages && |state.pages[id].past| == |old(state.pages[id].past)| + 1
      ensures ok ==>
        var p := Now(state.pages[id]);
        && Succeeds(seen, p) && p.status.Draft? && p.version == seen.version + 1 && p.updatedAt == at
        && p.title == (if title.Some? then title.value else seen.title)
        && p.slug == (if slug.Some? then slug.value else seen.slug)
        && Cleared(seen.summary, summary, p.summary) && Cleared(seen.narrative, narrative, p.narrative)
    {
      if seen.status != Draft { return false; }
      var next := EditedPage(EditPage(id, seen, expected, title, summary, narrative, slug, at));
      if Now(state.pages[id]).version != expected || SlugTaken(state, next.slug, id) { return false; }
      state := state.(pages := state.pages[id := NextCase(state.pages[id], next, seen.status)]);
      return true;
    }

    /** `index_published_page` and `index_published_page_in_map`. */
    method IndexPublished(id: PageId, page: Page)
      requires page.status == Published
      modifies this
      ensures state == Reindexed(old(state), id, page)
    {
      var look := LookNow(state, page);
      var entry := MapEntryOf(page, look);
      state := state.(search := state.search[id := SearchEntryOf(page, look)]);
      if entry.None? {
        state := state.(maps := state.maps - {id});
      } else {
        state := state.(maps := state.maps[id := entry.value]);
      }
    }

    /**
     ReindexPublicEvents.execute, over the published pages in the order the listing gives them:
     both indexes are replaced by what the pages and projections now say, unless there are too
     many pages, and then nothing changes.
     */
    method Reindex(order: seq<PageId>) returns (r: Result<(nat, nat), ReindexError>)
      requires Lists(state, order)
      modifies this
      ensures r.Err? <==> |order| >= 50000
      ensures r.Err? ==> state == old(state)
      ensures r.Ok? ==> state == Rebuilt(old(state)) && r.value == (|order|, |state.maps|)
      ensures state == Step(old(state), Rebuild)
    {
      ListedCount(state, order);
      var w := Walk(map[], map[], 0);
      var after: Option<PageId> := None;
      while true
        invariant state == old(state) && Walked(state, order, w) && w.count < MaxReindexPages
        invariant after == if w.count == 0 then None else Some(order[w.count - 1])
        invariant w.count == 0 || w.count < |order|
        decreases |order| - w.count
      {
        var next: Option<PageId>;
        w, next := WalkBatch(state, order, after, w);
        if w.count >= MaxReindexPages { return Err(TooManyPages); }
        if next.None? { break; }
        after := next;
      }
      WalkedAll(state, order, w);
      state := state.(search := w.search, maps := w.maps);
      return Ok((w.count, |w.maps|));
    }
  }

  /** A listing has as many pages as are published. */
  lemma {:induction false} ListedCount(s: State, order: seq<PageId>)
    requires Lists(s, order)
    ensures |order| == |PublishedPages(s)|
  {
    DistinctCount(order, PublishedPages(s));
  }

  lemma {:induction false} DistinctCount(order: seq<PageId>, ids: set<PageId>)
    requires NoRepeats(order)
    requires forall id :: id in order <==> id in ids
    ensures |order| == |ids|
  {
    if order == [] {
      assert ids == {};
    } else {
      var last := order[|order| - 1];
      assert forall id :: id in order <==> id in order[..|order| - 1] || id == last;
      DistinctCount(order[..|order| - 1], ids - {last});
    }
  }

  /** The entry lists while the walk goes on, as maps by page, and how many pages have been visited. */
  datatype Walk = Walk(search: map<PageId, SearchEntry>, maps: map<PageId, MapEntry>, count: nat)

  function Visited(s: State, w: Walk, id: PageId): Walk
    requires id in PublishedPages(s)
  {
    var page := Now(s.pages[id]);
    var look := LookNow(s, page);
    var entry := MapEntryOf(page, look);
    Walk(w.search[id := SearchEntryOf(page, look)],
         if entry.Some? then w.maps[id := entry.value] else w.maps, w.count + 1)
  }

  /** Fetch the next batch and visit it; without a next cursor the walk is complete. */
  method WalkBatch(s: State, order: seq<PageId>, after: Option<PageId>, before: Walk)
      returns (w: Walk, next: Option<PageId>)
    requires Lists(s, order) && Walked(s, order, before) && before.count < MaxReindexPages
    requires after == if before.count == 0 then None else Some(order[before.count - 1])
    ensures Walked(s, order, w) && w.count <= MaxReindexPages
    ensures w.count < MaxReindexPages ==>
      (if next.None? then w.count == |order|
       else before.count < w.count < |order| && next == Some(order[w.count - 1]))
  {
    var batch;
    batch, next := FetchBatch(order, after, before.count);
    w := VisitBatch(s, order, batch, before);
  }

  /** `list_editorial` for the published pages: what follows the `n` pages already seen. */
  method FetchBatch(order: seq<PageId>, after: Option<PageId>, ghost n: nat)
      returns (batch: seq<PageId>, next: Option<PageId>)
    requires NoRepeats(order)
    requires n <= |order| && after == if n == 0 then None else Some(order[n - 1])
    ensures NextBatch(order, n, batch, next)
  {
    CursorFound(order, after, n);
    var page := ListAfter(order, after);
    batch, next := page.0, page.1;
  }

  /** One batch of the walk; it stops as soon as the ceiling is reached. */
  method VisitBatch(s: State, ghost order: seq<PageId>, batch: seq<PageId>, before: Walk) returns (w: Walk)
    requires Lists(s, order) && Walked(s, order, before) && before.count < MaxReindexPages
    requires before.count + |batch| <= |order| && batch == order[before.count..before.count + |batch|]
    ensures Walked(s, order, w) && w.count <= MaxReindexPages
    ensures w.count == before.count + |batch| || w.count == MaxReindexPages
  {
    w := before;
    for i := 0 to |batch|
      invariant Walked(s, order, w) && w.count == before.count + i && w.count < MaxReindexPages
    {
      assert batch[i] == order[before.count + i];
      VisitOne(s, order, w);
      w := Visited(s, w, batch[i]);
      if w.count >= MaxReindexPages { return; }
    }
  }

  /** The first `count` pages have been visited, and each entry is the one a rebuild gives its page. */
  ghost predicate Walked(s: State, order: seq<PageId>, w: Walk) {
    w.count <= |order| && SearchWalked(s, order[..w.count], w.search) && MapsWalked(s, order[..w.count], w.maps)
  }

  ghost predicate SearchWalked(s: State, ids: seq<PageId>, search: map<PageId, SearchEntry>) {
    && (forall id :: id in search <==> id in ids)
    && (forall id :: id in search ==> id in PublishedPages(s) && search[id] == FreshSearch(s, id))
  }

  ghost predicate MapsWalked(s: State, ids: seq<PageId>, maps: map<PageId, MapEntry>) {
    && (forall id :: id in maps <==> id in ids && id in PublishedPages(s) && FreshMap(s, id).Some?)
    && (forall id :: id in maps ==> FreshMap(s, id) == Some(maps[id]))
  }

  lemma VisitOne(s: State, order: seq<PageId>, w: Walk)
    requires Lists(s, order) && w.count < |order| && Walked(s, order, w)
    ensures order[w.count] in PublishedPages(s) && Walked(s, order, Visited(s, w, order[w.count]))
  {
    assert order[..w.count + 1] == order[..w.count] + [order[w.count]];
    assert order[w.count] in order;
  }

  lemma WalkedAll(s: State, order: seq<PageId>, w: Walk)
    requires Lists(s, order) && w.count == |order| && Walked(s, order, w)
    ensures w.search == RebuiltSearch(s) && w.maps == RebuiltMaps(s)
  {
    assert order[..|order|] == order;
    SameMaps(w.search, RebuiltSearch(s));
    SameMaps(w.maps, RebuiltMaps(s));
  }

  /** The batch follows the `n` pages already seen, and the cursor says whether more follow. */
  ghost predicate NextBatch(order: seq<PageId>, n: nat, batch: seq<PageId>, next: Option<PageId>) {
    && n + |batch| <= |order| && batch == order[n..n + |batch|]
    && (next.None? <==> n + |batch| == |order|)
    && (next.Some? ==> |batch| > 0 && next.value == order[n + |batch| - 1])
  }

  lemma CursorFound(order: seq<PageId>, after: Option<PageId>, n: nat)
    requires NoRepeats(order)
    requires n <= |order| && after == if n == 0 then None else Some(order[n - 1])
    ensures NextBatch(order, n, ListAfter(order, after).0, ListAfter(order, after).1)
  {
    if n > 0 { assert order[n - 1] in order; }
  }

  /** Every published page is shown as its projection looks now. */
  ghost predicate LooksCurrent(s: State) {
    forall id :: id in s.search && id in PublishedPages(s) ==> Shown(s, id) == LookNow(s, Now(s.pages[id]))
  }

  lemma RebuiltEntrySame(s: State, id: PageId)
    requires Indexed(s) && LooksCurrent(s)
    ensures id in RebuiltSearch(s) <==> id in s.search
    ensures id in s.search ==> RebuiltSearch(s)[id] == s.search[id]
    ensures MapAt(Rebuilt(s), id) == MapAt(s, id)
  {
    if id in s.search { RebuiltShows(s, id); }
  }

  lemma RebuiltWhenCurrent(s: State)
    requires Indexed(s) && LooksCurrent(s)
    ensures Rebuilt(s) == s
  {
    var s' := Rebuilt(s);
    forall id ensures id in s'.search <==> id in s.search
      ensures id in s.search ==> s'.search[id] == s.search[id]
      ensures id in s'.maps <==> id in s.maps
      ensures id in s.maps ==> s'.maps[id] == s.maps[id]
    {
      RebuiltEntrySame(s, id);
    }
    SameMaps(s'.search, s.search);
    SameMaps(s'.maps, s.maps);
  }

  lemma SameMaps<T>(a: map<PageId, T>, b: map<PageId, T>)
    requires forall id :: id in a <==> id in b
    requires forall id :: id in a && id in b ==> a[id] == b[id]
    ensures a == b
  {
  }

  lemma CurrentWhenRebuilt(s: State)
    requires Indexed(s) && Rebuilt(s) == s
    ensures LooksCurrent(s)
  {
    forall id | id in s.search && id in PublishedPages(s) ensures Shown(s, id) == LookNow(s, Now(s.pages[id])) {
      RebuiltShows(s, id);
    }
  }

  /**
   In every reachable state a full rebuild gives the indexes the steps have kept exactly when the
   facts, band and coordinates of every published page are those it was indexed with.
   */
  lemma RebuildEqualsIncremental(acts: seq<Act>)
    requires AllHonest(acts)
    ensures Rebuilt(Run(Empty, acts)) == Run(Empty, acts) <==> LooksCurrent(Run(Empty, acts))
  {
    RunSound(acts);
    var s := Run(Empty, acts);
    if LooksCurrent(s) { RebuiltWhenCurrent(s); }
    if Rebuilt(s) == s { CurrentWhenRebuilt(s); }
  }

  /** A reprojection that no published page can show: the event has none, or its projection looks the same. */
  ghost predicate Unseen(s: State, a: Act) {
    a.Project? ==> forall id :: id in PublishedPages(s) && Now(s.pages[id]).event == a.event ==>
      LookNow(s, Now(s.pages[id])) == LookOf(a.projection)
  }

  /** A page that was not touched is shown as before, and its projection looks as before. */
  lemma CurrentKept(s: State, s': State, id: PageId)
    requires Indexed(s) && LooksCurrent(s) && id in PublishedPages(s) && id in s'.search
    requires s'.search[id] == s.search[id] && MapAt(s', id) == MapAt(s, id)
    requires LookNow(s', Now(s.pages[id])) == LookNow(s, Now(s.pages[id]))
    ensures Shown(s', id) == LookNow(s', Now(s.pages[id]))
  {
  }

  /** A page that is in the search index after its hook was just indexed. */
  lemma HookShowsOwn(s: State, id: PageId, k: Case)
    requires Indexed(s) && k.past != [] && (id in s.search ==> Now(k).status == Archived || Now(k).status == Retracted)
    ensures var s' := Reindexed(s.(pages := s.pages[id := k]), id, Now(k));
      id in s'.search ==> Shown(s', id) == LookNow(s', Now(k))
  {
  }

  lemma HookKeepsCurrent(s: State, id: PageId, k: Case, s': State)
    requires Indexed(s) && LooksCurrent(s) && k.past != []
    requires id in s.search ==> Now(k).status == Archived || Now(k).status == Retracted
    requires s' == Reindexed(s.(pages := s.pages[id := k]), id, Now(k)) && s'.pages == s.pages[id := k]
    ensures LooksCurrent(s')
  {
    HookShowsOwn(s, id, k);
    forall q | q in s'.search && q in PublishedPages(s') ensures Shown(s', q) == LookNow(s', Now(s'.pages[q])) {
      if q != id {
        HookKeepsOther(s, id, k, q);
        CurrentKept(s, s', q);
      }
    }
  }

  lemma MoveKeepsCurrent(s: State, a: Act)
    requires Sound(s) && LooksCurrent(s) && a.Move? && Honest(a) && Step(s, a) != s
    ensures LooksCurrent(Step(s, a))
  {
    MoveStep(s, a);
    var k' := NextCase(s.pages[a.id], MovedPage(a), a.seen.status);
    MoveCaseSound(s, a, k');
    HookKeepsCurrent(s, a.id, k', Step(s, a));
  }

  /** A step that leaves the indexes and projections alone, and touches only pages that are not published. */
  lemma QuietKeepsCurrent(s: State, id: PageId, k: Case)
    requires Indexed(s) && LooksCurrent(s) && id !in s.search && k.past != []
    ensures LooksCurrent(s.(pages := s.pages[id := k]))
  {
    var s' := s.(pages := s.pages[id := k]);
    forall q | q in s'.search && q in PublishedPages(s') ensures Shown(s', q) == LookNow(s', Now(s'.pages[q])) {
      CurrentKept(s, s', q);
    }
  }

  lemma UnseenLooksSame(s: State, a: Act, id: PageId)
    requires a.Project? && Unseen(s, a) && id in PublishedPages(s)
    ensures LookNow(Step(s, a), Now(s.pages[id])) == LookNow(s, Now(s.pages[id]))
  {
  }

  lemma ProjectKeepsCurrent(s: State, a: Act)
    requires Indexed(s) && LooksCurrent(s) && a.Project? && Unseen(s, a)
    ensures LooksCurrent(Step(s, a))
  {
    var s' := Step(s, a);
    forall id | id in s'.search && id in PublishedPages(s') ensures Shown(s', id) == LookNow(s', Now(s'.pages[id])) {
      assert id in PublishedPages(s);
      UnseenLooksSame(s, a, id);
    }
  }

  lemma RebuildMakesCurrent(s: State)
    ensures LooksCurrent(Rebuilt(s))
  {
    forall id | id in PublishedPages(s) ensures Shown(Rebuilt(s), id) == LookNow(s, Now(s.pages[id])) {
      RebuiltShows(s, id);
    }
  }

  lemma EditKeepsCurrent(s: State, a: Act)
    requires Sound(s) && LooksCurrent(s) && a.EditPage? && Honest(a) && Step(s, a) != s
    ensures LooksCurrent(Step(s, a))
  {
    EditedWasDraft(s, a);
    QuietKeepsCurrent(s, a.id, NextCase(s.pages[a.id], EditedPage(a), a.seen.status));
  }

  lemma CreateKeepsCurrent(s: State, a: Act)
    requires Sound(s) && LooksCurrent(s) && a.CreatePage? && Step(s, a) != s
    ensures LooksCurrent(Step(s, a))
  {
    QuietKeepsCurrent(s, a.id, Step(s, a).pages[a.id]);
  }

  lemma StepKeepsCurrent(s: State, a: Act)
    requires Sound(s) && LooksCurrent(s) && Honest(a) && Unseen(s, a)
    ensures LooksCurrent(Step(s, a))
  {
    if Step(s, a) != s {
      match a
      case CreatePage(_, _, _, _, _, _, _) => CreateKeepsCurrent(s, a);
      case EditPage(_, _, _, _, _, _, _, _) => EditKeepsCurrent(s, a);
      case Move(_, _, _, _, _, _) => MoveKeepsCurrent(s, a);
      case Project(_, _) => ProjectKeepsCurrent(s, a);
      case Rebuild => RebuildMakesCurrent(s);
    }
  }

  /** As long as no reprojection changes what a published page shows, a full rebuild changes nothing. */
  lemma {:induction false} RebuildIdleWhileUnseen(acts: seq<Act>)
    requires AllHonest(acts) && forall n :: 0 <= n < |acts| ==> Unseen(Run(Empty, acts[..n]), acts[n])
    ensures LooksCurrent(Run(Empty, acts)) && Rebuilt(Run(Empty, acts)) == Run(Empty, acts)
    decreases |acts|
  {
    if acts != [] {
      var n := |acts| - 1;
      var before := acts[..n];
      forall k | 0 <= k < n ensures Unseen(Run(Empty, before[..k]), before[k]) { assert before[..k] == acts[..k]; }
      RebuildIdleWhileUnseen(before);
      RunSound(before);
      StepKeepsCurrent(Run(Empty, before), acts[n]);
    }
    RebuildEqualsIncremental(acts);
  }
}
