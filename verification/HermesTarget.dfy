/** What Hermes records about one crawl target: its documents, its changes and its last content. */
module HermesTarget {
  import opened Common

  type Sha = nat
  type DocId = nat

  datatype Kind = FirstSeen | ContentChanged | ContentUnchanged | FetchFailed

  datatype Change = Change(
    kind: Kind,
    previousDoc: Option<DocId>,
    newDoc: Option<DocId>,
    previousSha: Option<Sha>,
    newSha: Option<Sha>)

  /** Documents are kept in the order they were fetched; a document's id is its position. */
  datatype Target = Target(docs: seq<Sha>, changes: seq<Change>, lastDoc: Option<DocId>, lastSha: Option<Sha>)

  const Unfetched := Target([], [], None, None)

  /** `find_by_target_and_hash`. */
  function FindByHash(docs: seq<Sha>, sha: Sha): (r: Option<DocId>)
    ensures r.Some? <==> sha in docs
    ensures r.Some? ==> r.value < |docs| && docs[r.value] == sha
  {
    if docs == [] then None
    else if docs[|docs| - 1] == sha then Some(|docs| - 1)
    else FindByHash(docs[..|docs| - 1], sha)
  }

  /** `get_latest_for_target`. */
  function Latest(docs: seq<Sha>): Option<DocId> {
    if docs == [] then None else Some(|docs| - 1)
  }

  /** A finalized successful fetch of content `sha`. */
  function Fetched(t: Target, sha: Sha): Target {
    var found := FindByHash(t.docs, sha);
    if found.Some? then
      t.(changes := t.changes + [Change(ContentUnchanged, found, found, Some(sha), Some(sha))],
         lastDoc := found, lastSha := Some(sha))
    else
      var id := |t.docs|;
      var kind := if Latest(t.docs).None? && t.lastSha.None? then FirstSeen else ContentChanged;
      Target(t.docs + [sha], t.changes + [Change(kind, Latest(t.docs), Some(id), t.lastSha, Some(sha))],
             Some(id), Some(sha))
  }

  /** A finalized failed fetch. */
  function FailedFetch(t: Target): Target {
    t.(changes := t.changes + [Change(FetchFailed, None, None, None, None)])
  }

  class CrawlTarget {
    var docs: seq<Sha>
    var changes: seq<Change>
    var lastDoc: Option<DocId>
    var lastSha: Option<Sha>

    constructor ()
      ensures Now() == Unfetched
    {
      docs, changes, lastDoc, lastSha := [], [], None, None;
    }

    function Now(): Target
      reads this
    {
      Target(docs, changes, lastDoc, lastSha)
    }

    /** The document and change part of `_finalize_success`. */
    method RecordFetch(sha: Sha) returns (kind: Kind, doc: DocId)
      modifies this
      ensures Now() == Fetched(old(Now()), sha)
      ensures kind == changes[|changes| - 1].kind && lastDoc == Some(doc) && doc < |docs| && docs[doc] == sha
    {
      var previous := Latest(docs);
      var existing := FindByHash(docs, sha);
      if existing.Some? {
        doc, kind := existing.value, ContentUnchanged;
        changes := changes + [Change(kind, existing, existing, Some(sha), Some(sha))];
      } else {
        doc := |docs|;
        docs := docs + [sha];
        kind := if previous.None? && lastSha.None? then FirstSeen else ContentChanged;
        changes := changes + [Change(kind, previous, Some(doc), lastSha, Some(sha))];
      }
      lastDoc, lastSha := Some(doc), Some(sha);
    }

    /** The change part of `_finalize_failure`. */
    method RecordFailure()
      modifies this
      ensures Now() == FailedFetch(old(Now()))
    {
      changes := changes + [Change(FetchFailed, None, None, None, None)];
    }
  }

  /** All finalized fetches of a target in order; `None` is a failed one. */
  function Run(fetches: seq<Option<Sha>>): Target {
    if fetches == [] then Unfetched
    else
      var t := Run(fetches[..|fetches| - 1]);
      var last := fetches[|fetches| - 1];
      if last.Some? then Fetched(t, last.value) else FailedFetch(t)
  }

  function CountKind(cs: seq<Change>, k: Kind): nat {
    if cs == [] then 0 else CountKind(cs[..|cs| - 1], k) + (if cs[|cs| - 1].kind == k then 1 else 0)
  }

  lemma CountAppend(cs: seq<Change>, c: Change, k: Kind)
    ensures CountKind(cs + [c], k) == CountKind(cs, k) + (if c.kind == k then 1 else 0)
  {
    assert (cs + [c])[..|cs|] == cs;
  }

  /** What fetch `i` must be reported as, from the fetches alone. */
  function KindOf(fetches: seq<Option<Sha>>, i: nat): Kind
    requires i < |fetches|
  {
    if fetches[i].None? then FetchFailed
    else if fetches[i] in fetches[..i] then ContentUnchanged
    else if forall j :: 0 <= j < i ==> fetches[j].None? then FirstSeen
    else ContentChanged
  }

  ghost predicate Consistent(t: Target) {
    && NoRepeats(t.docs)
    && |t.docs| == CountKind(t.changes, FirstSeen) + CountKind(t.changes, ContentChanged)
    && (t.docs == [] <==> t.lastDoc.None?) && (t.docs == [] <==> t.lastSha.None?)
    && (t.lastDoc.Some? ==> t.lastDoc.value < |t.docs| && t.lastSha == Some(t.docs[t.lastDoc.value]))
    && CountKind(t.changes, FirstSeen) == (if t.docs == [] then 0 else 1)
  }

  lemma FetchedConsistent(t: Target, sha: Sha)
    requires Consistent(t)
    ensures Consistent(Fetched(t, sha))
  {
    var t' := Fetched(t, sha);
    CountAppend(t.changes, t'.changes[|t.changes|], FirstSeen);
    CountAppend(t.changes, t'.changes[|t.changes|], ContentChanged);
  }

  lemma FailureConsistent(t: Target)
    requires Consistent(t)
    ensures Consistent(FailedFetch(t))
  {
    CountAppend(t.changes, Change(FetchFailed, None, None, None, None), FirstSeen);
    CountAppend(t.changes, Change(FetchFailed, None, None, None, None), ContentChanged);
  }

  /**
   For any sequence of finalized fetches the documents have different contents, there is one for
   every FIRST_SEEN and CONTENT_CHANGED row, and the target's last hash is its last document's.
   */
  lemma {:induction false} AccountsBalance(fetches: seq<Option<Sha>>)
    ensures Consistent(Run(fetches)) && |Run(fetches).changes| == |fetches|
    ensures forall sha :: sha in Run(fetches).docs <==> Some(sha) in fetches
    decreases |fetches|
  {
    if fetches != [] {
      var before, last := fetches[..|fetches| - 1], fetches[|fetches| - 1];
      AccountsBalance(before);
      assert fetches == before + [last];
      if last.Some? { FetchedConsistent(Run(before), last.value); } else { FailureConsistent(Run(before)); }
    }
  }

  lemma LastKind(before: seq<Option<Sha>>, last: Option<Sha>)
    ensures |Run(before + [last]).changes| == |before| + 1
    ensures Run(before + [last]).changes[|before|].kind == KindOf(before + [last], |before|)
  {
    var all := before + [last];
    AccountsBalance(before);
    assert all[..|before|] == before;
    var nothing := forall j :: 0 <= j < |before| ==> before[j].None?;
    assert nothing <==> Run(before).docs == [] by {
      if Run(before).docs != [] { assert Run(before).docs[0] in Run(before).docs; }
      if j :| 0 <= j < |before| && before[j].Some? { assert before[j].value in Run(before).docs; }
    }
    assert (forall j :: 0 <= j < |before| ==> all[j].None?) <==> nothing;
  }

  /**
   Every fetch is reported by its history alone: unchanged exactly if its content was ever fetched
   before, and first seen exactly if nothing was.
   */
  lemma {:induction false} KindsReported(fetches: seq<Option<Sha>>, i: nat)
    requires i < |fetches|
    ensures |Run(fetches).changes| == |fetches| && Run(fetches).changes[i].kind == KindOf(fetches, i)
    decreases |fetches|
  {
    var n := |fetches| - 1;
    assert fetches == fetches[..n] + [fetches[n]];
    LastKind(fetches[..n], fetches[n]);
    if i < n {
      KindsReported(fetches[..n], i);
      KindOfPrefix(fetches, i, n);
      EarlierChangesStay(fetches[..n], fetches[n], i);
    }
  }

  /** The last content fetched before position `i`. */
  function LastBefore(fetches: seq<Option<Sha>>, i: nat): Option<Sha>
    requires i <= |fetches|
  {
    if i == 0 then None else if fetches[i - 1].Some? then fetches[i - 1] else LastBefore(fetches, i - 1)
  }

  /**
   What change row `i` must hold, from the fetches and the documents alone: nothing for a failure;
   twice the same document and hash for a content that was there; otherwise from the newest
   document and the last content to the new ones.
   */
  ghost predicate RowOf(c: Change, fetches: seq<Option<Sha>>, i: nat, docs: seq<Sha>)
    requires i < |fetches|
  {
    var newest := |Run(fetches[..i]).docs|;
    match fetches[i]
    case None => c.previousDoc.None? && c.newDoc.None? && c.previousSha.None? && c.newSha.None?
    case Some(sha) =>
      && c.newSha == Some(sha) && c.newDoc.Some? && c.newDoc.value < |docs| && docs[c.newDoc.value] == sha
      && if Some(sha) in fetches[..i] then c.previousDoc == c.newDoc && c.previousSha == Some(sha)
         else
           && c.newDoc.value == newest && c.previousSha == LastBefore(fetches, i)
           && c.previousDoc == if newest == 0 then None else Some(newest - 1)
  }

  lemma {:induction false} HeldIsLast(fetches: seq<Option<Sha>>, i: nat)
    requires i <= |fetches|
    ensures Run(fetches[..i]).lastSha == LastBefore(fetches, i)
    decreases i
  {
    if i > 0 {
      HeldIsLast(fetches, i - 1);
      assert fetches[..i][..i - 1] == fetches[..i - 1];
    }
  }

  /** Documents are only ever added. */
  lemma {:induction false} DocsGrow(fetches: seq<Option<Sha>>, i: nat)
    requires i <= |fetches|
    ensures Run(fetches[..i]).docs <= Run(fetches).docs
    decreases |fetches|
  {
    if i < |fetches| {
      DocsGrow(fetches[..|fetches| - 1], i);
      assert fetches[..|fetches| - 1][..i] == fetches[..i];
    } else {
      assert fetches[..i] == fetches;
    }
  }

  lemma LastRow(fetches: seq<Option<Sha>>, n: nat)
    requires |fetches| == n + 1
    ensures |Run(fetches).changes| == n + 1 && RowOf(Run(fetches).changes[n], fetches, n, Run(fetches).docs)
  {
    AccountsBalance(fetches[..n]);
    AccountsBalance(fetches);
    HeldIsLast(fetches, n);
  }

  /** Every change row is determined by the fetches: its documents, its hashes and which came before. */
  lemma {:induction false} RowsReported(fetches: seq<Option<Sha>>, i: nat)
    requires i < |fetches|
    ensures |Run(fetches).changes| == |fetches| && RowOf(Run(fetches).changes[i], fetches, i, Run(fetches).docs)
    decreases |fetches|
  {
    var n := |fetches| - 1;
    var before := fetches[..n];
    LastRow(fetches, n);
    if i < n {
      RowsReported(before, i);
      RowKept(fetches, n, i);
    }
  }

  lemma RowKept(fetches: seq<Option<Sha>>, n: nat, i: nat)
    requires i < n == |fetches| - 1 && |Run(fetches[..n]).changes| == n
    requires RowOf(Run(fetches[..n]).changes[i], fetches[..n], i, Run(fetches[..n]).docs)
    ensures |Run(fetches).changes| > i && RowOf(Run(fetches).changes[i], fetches, i, Run(fetches).docs)
  {
    var before := fetches[..n];
    assert fetches == before + [fetches[n]];
    EarlierChangesStay(before, fetches[n], i);
    DocsGrow(fetches, n);
    LastBeforePrefix(fetches, n, i);
    SameRow(Run(before).changes[i], before, fetches, i, Run(before).docs, Run(fetches).docs);
  }

  lemma SameRow(c: Change, a: seq<Option<Sha>>, b: seq<Option<Sha>>, i: nat, docs: seq<Sha>, more: seq<Sha>)
    requires i < |a| && a <= b && docs <= more && LastBefore(a, i) == LastBefore(b, i) && RowOf(c, a, i, docs)
    ensures RowOf(c, b, i, more)
  {
    assert a[..i] == b[..i] && a[i] == b[i];
  }

  lemma {:induction false} LastBeforePrefix(fetches: seq<Option<Sha>>, n: nat, i: nat)
    requires i <= n <= |fetches|
    ensures LastBefore(fetches[..n], i) == LastBefore(fetches, i)
  {
    if i > 0 { LastBeforePrefix(fetches, n, i - 1); }
  }

  lemma KindOfPrefix(fetches: seq<Option<Sha>>, i: nat, n: nat)
    requires i < n <= |fetches|
    ensures KindOf(fetches[..n], i) == KindOf(fetches, i)
  {
    assert fetches[..n][..i] == fetches[..i];
  }

  lemma EarlierChangesStay(before: seq<Option<Sha>>, last: Option<Sha>, i: nat)
    requires i < |Run(before).changes|
    ensures i < |Run(before + [last]).changes| && Run(before + [last]).changes[i] == Run(before).changes[i]
  {
    assert (before + [last])[..|before|] == before;
  }

  /** FIRST_SEEN comes at most once, and before every other row that is not a failure. */
  lemma FirstSeenIsFirst(fetches: seq<Option<Sha>>, i: nat, j: nat)
    requires i < |fetches| && j < |fetches| && i != j && |Run(fetches).changes| == |fetches|
    requires Run(fetches).changes[i].kind == FirstSeen && Run(fetches).changes[j].kind != FetchFailed
    ensures i < j && Run(fetches).changes[j].kind != FirstSeen
  {
    KindsReported(fetches, i);
    KindsReported(fetches, j);
  }

  /** After a success the target holds the fetched content. */
  lemma {:induction false} LastContentHeld(fetches: seq<Option<Sha>>, i: nat)
    requires i < |fetches| && fetches[i].Some? && forall j :: i < j < |fetches| ==> fetches[j].None?
    ensures Run(fetches).lastSha == fetches[i]
    decreases |fetches|
  {
    if i < |fetches| - 1 {
      LastContentHeld(fetches[..|fetches| - 1], i);
      assert fetches[|fetches| - 1].None?;
    }
  }

  /**
   "Unchanged" is not "as last time": of the contents that differ from the target's last one,
   exactly those fetched at some earlier time are reported unchanged.
   */
  lemma UnchangedYetDifferent(fetches: seq<Option<Sha>>, sha: Sha)
    requires Run(fetches).lastSha != Some(sha)
    ensures |Run(fetches + [Some(sha)]).changes| == |fetches| + 1
    ensures Run(fetches + [Some(sha)]).changes[|fetches|].kind == ContentUnchanged <==> Some(sha) in fetches
  {
    LastKind(fetches, Some(sha));
    assert (fetches + [Some(sha)])[..|fetches|] == fetches;
  }

  /** Contents A, B, A: the return of A is reported as unchanged. */
  lemma ReturnReportedUnchanged(a: Sha, b: Sha)
    requires a != b
    ensures |Run([Some(a), Some(b), Some(a)]).changes| == 3
    ensures Run([Some(a), Some(b), Some(a)]).changes[2].kind == ContentUnchanged
    ensures Run([Some(a), Some(b)]).lastSha == Some(b)
  {
    var all := [Some(a), Some(b), Some(a)];
    assert all == [Some(a), Some(b)] + [Some(a)];
    LastKind([Some(a), Some(b)], Some(a));
    assert all[..2][0] == Some(a);
    LastContentHeld([Some(a), Some(b)], 1);
  }
}
