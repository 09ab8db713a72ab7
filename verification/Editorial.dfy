/**
 What the public can rely on: over whole honest runs, pages reach the indexes only through review,
 show the text that was approved, and carry the times and projected facts they should.
 */
module Editorial {
  import opened Common
  import opened Publication

  // ---------------------------------------------------------------- through review

  /** Every revision of every page in every run is a step of the workflow, or an edit of a draft. */
  lemma RevisionsFollowWorkflow(acts: seq<Act>, id: PageId, i: nat)
    requires AllHonest(acts) && id in Run(Empty, acts).pages && i < |Run(Empty, acts).pages[id].revisions|
    ensures var r := Run(Empty, acts).pages[id].revisions[i];
      match r.toStatus
      case InReview => r.fromStatus == Some(Draft)
      case Approved => r.fromStatus == Some(InReview)
      case Published => r.fromStatus == Some(Approved) || r.fromStatus == Some(Archived)
      case Archived => r.fromStatus == Some(Published)
      case Retracted => r.fromStatus == Some(Published)
      case Draft => if i == 0 then r.fromStatus == None
                    else r.fromStatus in {Some(Draft), Some(InReview), Some(Approved), Some(Archived)}
  {
    RunSound(acts);
    var k := Run(Empty, acts).pages[id];
    assert Recorded(k.past, k.revisions[i], i);
    if i > 0 { assert Follows(k.past, i); }
  }

  /** Value `j` was the approval of a reviewed page, and the text has not changed from the review to value `n`. */
  ghost predicate ApprovedAs(past: seq<Page>, j: nat, n: nat) {
    && 0 < j < n < |past| && past[j - 1].status == InReview && past[j].status == Approved
    && forall m :: j - 1 <= m <= n ==> SameText(past[m], past[n])
  }

  lemma {:induction false} ApprovedBefore(k: Case, n: nat) returns (j: nat)
    requires Chronicled(k) && n < |k.past| && (k.past[n].status.Published? || k.past[n].status.Archived?)
    ensures ApprovedAs(k.past, j, n)
    decreases n
  {
    assert n > 0 && Follows(k.past, n);
    if k.past[n - 1].status.Approved? {
      assert n > 1 && Follows(k.past, n - 1);
      j := n - 1;
    } else {
      j := ApprovedBefore(k, n - 1);
    }
  }

  /** A page in the search index was reviewed and then approved, with the very text it has now. */
  lemma PublishedAsApproved(acts: seq<Act>, id: PageId) returns (j: nat)
    requires AllHonest(acts) && id in Run(Empty, acts).search
    ensures id in Run(Empty, acts).pages
    ensures var past := Run(Empty, acts).pages[id].past; past != [] && ApprovedAs(past, j, |past| - 1)
  {
    RunSound(acts);
    var k := Run(Empty, acts).pages[id];
    j := ApprovedBefore(k, |k.past| - 1);
  }

  // ---------------------------------------------------------------- times

  ghost predicate FirstShown(past: seq<Page>, j: nat, n: nat) {
    j <= n < |past| && past[j].status.Published? && forall i :: 0 <= i < j ==> !past[i].status.Published?
  }

  ghost predicate LastShown(past: seq<Page>, j: nat, n: nat) {
    j <= n < |past| && past[j].status.Published? && forall i :: j < i <= n ==> !past[i].status.Published?
  }

  /** The times of value `n` are those of the first and the last publication and of the retraction. */
  ghost predicate TimesTold(past: seq<Page>, n: nat)
    requires n < |past|
  {
    var p := past[n];
    && (p.firstPublished.None? <==> forall i :: 0 <= i <= n ==> !past[i].status.Published?)
    && (p.lastPublished.None? <==> p.firstPublished.None?)
    && (forall j: nat :: FirstShown(past, j, n) ==> p.firstPublished == Some(past[j].updatedAt))
    && (forall j: nat :: LastShown(past, j, n) ==> p.lastPublished == Some(past[j].updatedAt))
    && p.retractedAt == (if p.status.Retracted? then Some(p.updatedAt) else None)
    && (p.note.Some? ==> p.status.Retracted?)
  }

  lemma {:induction false} TimesAt(k: Case, n: nat)
    requires Chronicled(k) && n < |k.past|
    ensures TimesTold(k.past, n)
  {
    if n > 0 {
      TimesAt(k, n - 1);
      assert Follows(k.past, n);
      TimesNext(k.past, n);
    }
  }

  lemma TimesNext(past: seq<Page>, n: nat)
    requires 0 < n < |past| && TimesTold(past, n - 1) && Succeeds(past[n - 1], past[n])
    ensures TimesTold(past, n)
  {
    forall j: nat | FirstShown(past, j, n) ensures past[n].firstPublished == Some(past[j].updatedAt) {
      if j < n { assert FirstShown(past, j, n - 1); }
    }
    forall j: nat | LastShown(past, j, n) ensures past[n].lastPublished == Some(past[j].updatedAt) {
      if j < n { assert LastShown(past, j, n - 1); }
    }
  }

  /** In every honest run every page tells when it was first and last published, and when it was retracted. */
  lemma PublicationTimes(acts: seq<Act>, id: PageId)
    requires AllHonest(acts) && id in Run(Empty, acts).pages
    ensures var past := Run(Empty, acts).pages[id].past; past != [] && TimesTold(past, |past| - 1)
  {
    RunSound(acts);
    var k := Run(Empty, acts).pages[id];
    TimesAt(k, |k.past| - 1);
  }

  // ---------------------------------------------------------------- one page a slug, one page an event

  ghost predicate Distinct(s: State) {
    forall p, q :: p in s.pages && q in s.pages && p != q && s.pages[p].past != [] && s.pages[q].past != [] ==>
      Now(s.pages[p]).slug != Now(s.pages[q]).slug && Now(s.pages[p]).event != Now(s.pages[q]).event
  }

  /** A page whose new value keeps its event and takes a free slug. */
  lemma DistinctPut(s: State, s': State, id: PageId)
    requires Distinct(s) && id in s'.pages && s'.pages == s.pages[id := s'.pages[id]] && s'.pages[id].past != []
    requires SlugFree(s, Now(s'.pages[id]).slug, id)
    requires if id in s.pages then s.pages[id].past != [] && Now(s.pages[id]).event == Now(s'.pages[id]).event
             else EventFree(s, Now(s'.pages[id]).event)
    ensures Distinct(s')
  {
  }

  lemma UpdateDistinct(s: State, a: Act)
    requires Sound(s) && Distinct(s) && (a.EditPage? || a.Move?) && Honest(a) && Step(s, a) != s
    ensures Distinct(Step(s, a))
  {
    var next := if a.EditPage? then EditedPage(a) else MovedPage(a);
    UpdateStep(s, a);
    SeenIsNow(s.pages[a.id], a.seen, a.expected);
    if a.Move? { MoveStep(s, a); }
    assert Now(Step(s, a).pages[a.id]) == next;
    DistinctPut(s, Step(s, a), a.id);
  }

  lemma CreateDistinct(s: State, a: Act)
    requires Distinct(s) && a.CreatePage? && Step(s, a) != s
    ensures Distinct(Step(s, a))
  {
    DistinctPut(s, Step(s, a), a.id);
  }

  /** In every honest run no two pages have the same slug or the same event. */
  lemma {:induction false} PagesDistinct(acts: seq<Act>)
    requires AllHonest(acts)
    ensures Distinct(Run(Empty, acts))
    decreases |acts|
  {
    if acts != [] {
      var before, a := acts[..|acts| - 1], acts[|acts| - 1];
      PagesDistinct(before);
      RunSound(before);
      var s := Run(Empty, before);
      if Step(s, a) != s {
        match a
        case CreatePage(_, _, _, _, _, _, _) => CreateDistinct(s, a);
        case EditPage(_, _, _, _, _, _, _, _) => UpdateDistinct(s, a);
        case Move(_, _, _, _, _, _) => UpdateDistinct(s, a);
        case _ =>
      }
    }
  }

  // ---------------------------------------------------------------- what the entries show

  /** Both entries show the page's own slug, title and time of publication, and the same facts. */
  ghost predicate Displays(s: State, id: PageId, p: Page)
    requires id in s.search
  {
    var e := s.search[id];
    && e.slug == p.slug && e.title == p.title && e.summary == p.summary && Some(e.at) == p.lastPublished
    && (id in s.maps ==>
          var m := s.maps[id];
          m.slug == p.slug && m.title == p.title && m.at == e.at && m.facts == e.facts && m.band == e.band)
  }

  lemma EntriesDisplay(acts: seq<Act>, id: PageId)
    requires AllHonest(acts) && id in Run(Empty, acts).search
    ensures var s := Run(Empty, acts);
      id in s.pages && s.pages[id].past != [] && Displays(s, id, Now(s.pages[id]))
  {
    RunSound(acts);
    PublicationTimes(acts, id);
    var s := Run(Empty, acts);
    assert Shows(s, id, Now(s.pages[id]));
  }

  /** Whether the step makes the page's entry anew. */
  ghost predicate Makes(s: State, a: Act, id: PageId) {
    Step(s, a) != s && (a.Rebuild? || (a.Move? && a.id == id))
  }

  lemma MoveKeepsEntry(s: State, a: Act, id: PageId)
    requires Sound(s) && a.Move? && a.id != id && Step(s, a) != s && id in Step(s, a).search
    ensures id in s.search && id in s.pages && id in Step(s, a).pages
    ensures Step(s, a).pages[id] == s.pages[id] && Shown(Step(s, a), id) == Shown(s, id)
  {
    MoveStep(s, a);
    HookKeepsOther(s, a.id, NextCase(s.pages[a.id], MovedPage(a), a.seen.status), id);
  }

  lemma QuietKeepsEntry(s: State, a: Act, id: PageId)
    requires Sound(s) && Honest(a) && !a.Move? && !a.Rebuild? && Step(s, a) != s && id in Step(s, a).search
    ensures id in s.search && id in s.pages && id in Step(s, a).pages
    ensures Step(s, a).pages[id] == s.pages[id] && Shown(Step(s, a), id) == Shown(s, id)
  {
    if a.EditPage? { EditedWasDraft(s, a); }
  }

  /** An entry the step did not make was there before, for the same page. */
  lemma EntryKept(s: State, a: Act, id: PageId)
    requires Sound(s) && Honest(a) && id in Step(s, a).search && !Makes(s, a, id)
    ensures id in s.search && id in s.pages && id in Step(s, a).pages && s.pages[id].past != []
    ensures Step(s, a).pages[id] == s.pages[id] && Shown(Step(s, a), id) == Shown(s, id)
  {
    if Step(s, a) != s {
      if a.Move? { MoveKeepsEntry(s, a, id); } else { QuietKeepsEntry(s, a, id); }
    }
  }

  lemma EntryMade(s: State, a: Act, id: PageId)
    requires Sound(s) && Honest(a) && id in Step(s, a).search && Makes(s, a, id)
    ensures var s' := Step(s, a);
      id in s'.pages && s'.pages[id].past != [] && Shown(s', id) == LookNow(s', Now(s'.pages[id]))
  {
    if a.Rebuild? {
      RebuiltShows(s, id);
    } else {
      MoveStep(s, a);
      MoveCaseSound(s, a, NextCase(s.pages[id], MovedPage(a), a.seen.status));
      HookShowsOwn(s, id, NextCase(s.pages[id], MovedPage(a), a.seen.status));
    }
  }

  /** The entry shows the present page as its projection looked in another state. */
  ghost predicate ShownAs(s: State, other: State, id: PageId) {
    && id in s.search && id in s.pages && s.pages[id].past != []
    && id in other.pages && other.pages[id] == s.pages[id]
    && Shown(s, id) == LookNow(other, Now(s.pages[id]))
  }

  lemma StillShown(s: State, s': State, other: State, id: PageId)
    requires ShownAs(s, other, id) && id in s'.search && id in s'.pages
    requires s'.pages[id] == s.pages[id] && Shown(s', id) == Shown(s, id)
    ensures ShownAs(s', other, id)
  {
  }

  /** An entry shows what the page's projection looked like in some state of the run, for its present text. */
  lemma {:induction false} ShownFromProjection(acts: seq<Act>, id: PageId) returns (n: nat)
    requires AllHonest(acts) && id in Run(Empty, acts).search
    ensures n <= |acts| && ShownAs(Run(Empty, acts), Run(Empty, acts[..n]), id)
    decreases |acts|
  {
    var before, a := acts[..|acts| - 1], acts[|acts| - 1];
    var s, s' := Run(Empty, before), Run(Empty, acts);
    RunSound(before);
    if Makes(s, a, id) {
      EntryMade(s, a, id);
      n := |acts|;
      assert acts[..n] == acts && ShownAs(s', s', id);
    } else {
      EntryKept(s, a, id);
      n := ShownFromProjection(before, id);
      StillShown(s, s', Run(Empty, before[..n]), id);
      assert before[..n] == acts[..n];
    }
  }

  // ---------------------------------------------------------------- what the indexes read of a projection

  /** Numbers, and texts that read as one, infinite ones included. */
  ghost predicate IsNumber(v: Value) {
    v.Number? || (v.Text? && v.float != NotFloat)
  }

  /** `p` is the number under the first of the keys that holds one. */
  ghost predicate FirstNumber(fields: map<string, Value>, keys: seq<string>, i: nat, p: Parsed) {
    && i < |keys| && keys[i] in fields && IsNumber(fields[keys[i]])
    && p == (if fields[keys[i]].Number? then Finite(fields[keys[i]].r) else fields[keys[i]].float)
    && forall j :: 0 <= j < i && keys[j] in fields ==> !IsNumber(fields[keys[j]])
  }

  ghost predicate HasNumber(fields: map<string, Value>, keys: seq<string>) {
    exists k :: k in keys && k in fields && IsNumber(fields[k])
  }

  lemma {:induction false} FirstFloatIs(fields: map<string, Value>, keys: seq<string>) returns (i: nat)
    ensures HasNumber(fields, keys) ==> FirstNumber(fields, keys, i, FirstFloat(fields, keys))
    ensures FirstFloat(fields, keys) == NotFloat <==> !HasNumber(fields, keys)
  {
    i := 0;
    if keys != [] {
      var k := FirstFloatIs(fields, keys[1..]);
      assert forall x :: x in keys <==> x == keys[0] || x in keys[1..];
      if !(keys[0] in fields && IsNumber(fields[keys[0]])) { i := k + 1; }
    }
  }

  lemma FirstNumberUnique(fields: map<string, Value>, keys: seq<string>, i: nat, j: nat, p: Parsed, q: Parsed)
    requires FirstNumber(fields, keys, i, p) && FirstNumber(fields, keys, j, q)
    ensures i == j && p == q && HasNumber(fields, keys)
  {
  }

  /**
   The map shows a page exactly if both lists of keys hold a number and the first ones are within
   bounds, and it shows it there.
   */
  lemma CoordsExactly(fields: map<string, Value>)
    ensures var lats, lngs := ["latitude", "lat"], ["longitude", "lng", "lon"];
      && (CoordsOf(fields).Some? ==> HasNumber(fields, lats) && HasNumber(fields, lngs))
      && forall i, j, lat, lng :: FirstNumber(fields, lats, i, lat) && FirstNumber(fields, lngs, j, lng) ==>
           CoordsOf(fields) == Placed(lat, lng)
  {
    var lats, lngs := ["latitude", "lat"], ["longitude", "lng", "lon"];
    var m := FirstFloatIs(fields, lats);
    var n := FirstFloatIs(fields, lngs);
    forall i, j, lat, lng | FirstNumber(fields, lats, i, lat) && FirstNumber(fields, lngs, j, lng)
      ensures CoordsOf(fields) == Placed(lat, lng)
    {
      FirstNumberHas(fields, lats, i, lat);
      FirstNumberHas(fields, lngs, j, lng);
      FirstNumberUnique(fields, lats, i, m, lat, FirstFloat(fields, lats));
      FirstNumberUnique(fields, lngs, j, n, lng, FirstFloat(fields, lngs));
    }
  }

  lemma FirstNumberHas(fields: map<string, Value>, keys: seq<string>, i: nat, p: Parsed)
    requires FirstNumber(fields, keys, i, p)
    ensures HasNumber(fields, keys)
  {
  }

  ghost function Placed(lat: Parsed, lng: Parsed): Option<Coords> {
    if lat.Finite? && lng.Finite? && -90.0 <= lat.r <= 90.0 && -180.0 <= lng.r <= 180.0
    then Some(Coords(lat.r, lng.r)) else None
  }

  /** A value of one field changes the fact of that name only, and changes it to what the value says. */
  lemma FactsByName(fields: map<string, Value>, s: string, p: Parsed, whole: Option<int>, date: Option<Date>)
    ensures var v := Text(s, p, whole, date);
      var shown := if s == "" then None else Some(s);
      var facts := FactsOf(fields);
      && FactsOf(fields["operator" := v]) == facts.(operator := shown)
      && FactsOf(fields["aircraft_type" := v]) == facts.(aircraftType := shown)
      && FactsOf(fields["country" := v]) == facts.(country := shown)
      && FactsOf(fields["event_date" := v]) == facts.(eventDate := date)
      && FactsOf(fields["fatalities_total" := v]) == facts.(fatalities := whole)
  {
  }

  /** Values that are not texts: flags count, numbers lose their fraction, nested values only show. */
  lemma FactsOfOthers(fields: map<string, Value>, b: bool, r: real, shown: string)
    ensures FactsOf(fields["operator" := Flag(b)]).operator == Some(if b then "True" else "False")
    ensures FactsOf(fields["operator" := Number(r, shown)]).operator == Some(shown)
    ensures FactsOf(fields["operator" := Nested(shown)]).operator == Some(shown)
    ensures FactsOf(fields["fatalities_total" := Flag(b)]).fatalities == Some(if b then 1 else 0)
    ensures FactsOf(fields["fatalities_total" := Nested(shown)]).fatalities == None
    ensures var n := FactsOf(fields["fatalities_total" := Number(r, shown)]).fatalities;
      n.Some? && (if r >= 0.0 then n.value as real <= r < n.value as real + 1.0
                  else n.value as real - 1.0 < r <= n.value as real)
    ensures var none := fields - {"operator", "aircraft_type", "country", "event_date", "fatalities_total"};
      FactsOf(none) == Facts(None, None, None, None, None)
  {
  }

  /** Bands rise with completeness and change at 0, at 0.5 and at 0.85; no projection counts as nothing known. */
  lemma BandsRise(p: Projection, q: Projection)
    requires p.completeness <= q.completeness
    ensures BandOf(Some(p)) == High ==> BandOf(Some(q)) == High
    ensures BandOf(Some(p)) == Medium ==> BandOf(Some(q)) == Medium || BandOf(Some(q)) == High
    ensures BandOf(Some(q)) == Unknown ==> BandOf(Some(p)) == Unknown
    ensures BandOf(Some(p)) == Unknown <==> p.completeness <= 0.0
    ensures BandOf(Some(p)) == High <==> p.completeness >= 0.85
    ensures BandOf(Some(p)) == Low <==> 0.0 < p.completeness < 0.5
    ensures BandOf(None) == Unknown
  {
  }
}
