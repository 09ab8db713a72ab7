/**
 Curator resolution and curator reopen of one conflict, on its claims, links and claim history,
 each ending in a reprojection of the event.  Reopening is meant to undo resolving; here is
 exactly when it does.
 */
module ResolveReopen {
  import opened Common
  import opened Claims
  import P = Projection

  datatype Status = Open | Resolved

  datatype Conflict = Conflict(event: EventId, field: string, status: Status, winner: Option<ClaimId>, version: nat)

  /** A claim history row, in the order they were written. */
  datatype Change = Change(claim: ClaimId, fromKind: Option<Kind>, toKind: Kind)

  datatype State = State(claims: seq<Claim>, history: seq<Change>, conflict: Conflict, links: set<ClaimId>)

  /** The curator names a linked claim, or a value of their own. */
  datatype Choice = Pick(claim: ClaimId) | Override(value: int)

  datatype Error =
    | NeedOneChoice
    | AlreadyResolved
    | NotResolved
    | Modified
    | NotInConflict
    | ClaimNotFound
    | NotEligible
    | ProjectionRefused(reason: P.Error)

  predicate OnSlot(s: State, i: ClaimId) {
    i < |s.claims| && s.claims[i].event == s.conflict.event && s.claims[i].field == s.conflict.field
  }

  /** Kinds and pointers agree, and pointers lead to stored claims. */
  ghost predicate WellFormed(s: State) {
    && (forall i :: 0 <= i < |s.claims| ==> (Active(s.claims[i]) <==> s.claims[i].supersededBy.None?))
    && (forall i :: 0 <= i < |s.claims| && s.claims[i].supersededBy.Some? ==>
          s.claims[i].supersededBy.value < |s.claims|)
    && (forall c :: c in s.links ==> c < |s.claims|)
  }

  /** The kind a claim had before it was last superseded, as its history tells; RAW if it does not. */
  function KindBefore(history: seq<Change>, i: ClaimId): (k: Kind)
    ensures k != Superseded
  {
    if history == [] then Raw
    else
      var last := history[|history| - 1];
      if last.claim == i && last.toKind == Superseded then
        (if last.fromKind.Some? && last.fromKind.value != Superseded then last.fromKind.value else Raw)
      else KindBefore(history[..|history| - 1], i)
  }

  /** Linked claims other than the winner that are still in play. */
  function Losers(s: State, winner: ClaimId): set<ClaimId> {
    set c | c in s.links && c != winner && c < |s.claims| && Active(s.claims[c])
  }

  ghost predicate HasRow(rows: seq<Change>, c: ClaimId) {
    exists r :: r in rows && r.claim == c
  }

  /** One row for each of the claims, and exactly the row expected of it. */
  ghost predicate OneRowEach(rows: seq<Change>, expected: map<ClaimId, Change>) {
    && (forall r :: r in rows ==> r.claim in expected && r == expected[r.claim])
    && (forall c :: c in expected ==> HasRow(rows, c))
    && (forall i, j :: 0 <= i < j < |rows| ==> rows[i].claim != rows[j].claim)
  }

  lemma AddRow(rows: seq<Change>, expected: map<ClaimId, Change>, row: Change)
    requires OneRowEach(rows, expected) && row.claim !in expected
    ensures OneRowEach(rows + [row], expected[row.claim := row])
  {
    var rows' := rows + [row];
    forall d: ClaimId | d in expected || d == row.claim ensures HasRow(rows', d) {
      if d == row.claim {
        assert rows'[|rows|] in rows';
      } else {
        var r :| r in rows && r.claim == d;
        assert r in rows';
      }
    }
    assert forall i :: 0 <= i < |rows| ==> rows[i] in rows;
  }

  lemma RowOf(rows: seq<Change>, expected: map<ClaimId, Change>, c: ClaimId) returns (k: nat)
    requires OneRowEach(rows, expected) && c in expected
    ensures k < |rows| && rows[k].claim == c && rows[k] == expected[c]
  {
    var r :| r in rows && r.claim == c;
    k :| 0 <= k < |rows| && rows[k] == r;
  }

  /** The history row of a claim that loses. */
  function LossOf(claims: seq<Claim>, i: ClaimId): Change
    requires i < |claims|
  {
    Change(i, Some(claims[i].kind), Superseded)
  }

  /** One history row per superseded loser, each with the loser's own kind. */
  ghost predicate LoserRows(rows: seq<Change>, claims: seq<Claim>, losers: set<ClaimId>) {
    (forall c :: c in losers ==> c < |claims|) && OneRowEach(rows, LossesOf(claims, losers))
  }

  function LossesOf(claims: seq<Claim>, losers: set<ClaimId>): (m: map<ClaimId, Change>)
    requires forall c :: c in losers ==> c < |claims|
    ensures forall c :: c in m <==> c in losers
    ensures forall c :: c in losers ==> m[c] == LossOf(claims, c)
  {
    map c | c in losers :: LossOf(claims, c)
  }

  /** With an override the claim is created, linked and logged before it wins. */
  function WithWinner(s: State, choice: Choice, user: UserId, source: SourceId, at: nat): State {
    match choice
    case Pick(_) => s
    case Override(v) =>
      var id := |s.claims|;
      var claim := Claim(s.conflict.event, source, None, s.conflict.field, v, ManualOverride, Some(user), at, None);
      s.(claims := s.claims + [claim],
         history := s.history + [Change(id, None, ManualOverride)],
         links := s.links + {id})
  }

  function WinnerOf(s: State, choice: Choice): ClaimId {
    match choice case Pick(c) => c case Override(_) => |s.claims|
  }

  ghost predicate Resolving(s: State, s': State, choice: Choice, user: UserId, source: SourceId, at: nat) {
    var w := WithWinner(s, choice, user, source, at);
    var winner := WinnerOf(s, choice);
    && s.conflict.status.Open? && winner in w.links && winner < |w.claims| && Active(w.claims[winner])
    && s'.claims == BulkSupersede(w.claims, Losers(w, winner), winner)
    && s'.links == w.links
    && s'.conflict == s.conflict.(status := Resolved, winner := Some(winner), version := s.conflict.version + 1)
    && w.history <= s'.history && LoserRows(s'.history[|w.history|..], w.claims, Losers(w, winner))
  }

  /** The claims a reopen brings back: linked, on the slot, superseded by the winner. */
  function Revivable(s: State): set<ClaimId> {
    set c | c in s.links && OnSlot(s, c) && s.conflict.winner.Some? && s.claims[c].supersededBy == s.conflict.winner
  }

  function Revived(s: State, i: ClaimId): Claim
    requires i < |s.claims|
  {
    if i in Revivable(s) then s.claims[i].(kind := KindBefore(s.history, i), supersededBy := None) else s.claims[i]
  }

  /** The history row of a claim that comes back. */
  function ReturnOf(s: State, i: ClaimId): Change {
    Change(i, Some(Superseded), KindBefore(s.history, i))
  }

  /** One history row per revived claim, with the kind it is restored to. */
  ghost predicate ReturnRows(rows: seq<Change>, s: State) {
    OneRowEach(rows, ReturnsOf(s))
  }

  function ReturnsOf(s: State): (m: map<ClaimId, Change>)
    ensures forall c :: c in m <==> c in Revivable(s)
    ensures forall c :: c in m ==> m[c] == ReturnOf(s, c)
  {
    map c | c in Revivable(s) :: ReturnOf(s, c)
  }

  ghost predicate Reopening(s: State, s': State) {
    && s.conflict.status.Resolved?
    && |s'.claims| == |s.claims| && (forall i :: 0 <= i < |s.claims| ==> s'.claims[i] == Revived(s, i))
    && s'.links == s.links
    && s.history <= s'.history && ReturnRows(s'.history[|s.history|..], s)
    && s'.conflict == s.conflict.(status := Open, winner := None, version := s.conflict.version + 1)
  }

  class CuratorDesk {
    var claims: seq<Claim>
    var history: seq<Change>
    var conflict: Conflict
    var links: set<ClaimId>
    var record: P.State

    constructor (s: State, p: P.State)
      ensures Now() == s && record == p
    {
      claims, history, conflict, links, record := s.claims, s.history, s.conflict, s.links, p;
    }

    function Now(): State
      reads this
    {
      State(claims, history, conflict, links)
    }

    /**
     ResolveConflict.execute; a refused request changes nothing.  `event` and `built` are what the
     reprojection at its end finds.
     */
    method Resolve(expected: nat, winning: Option<ClaimId>, manual: Option<int>, user: UserId, source: SourceId,
                   at: nat, event: P.Event, built: P.Content, hasClaims: bool)
        returns (r: Result<ClaimId, Error>)
      modifies this
      ensures r.Err? ==> Now() == old(Now()) && record == old(record)
      ensures r.Ok? <==>
        old(CanResolve(Now(), expected, winning, manual)) && Rebuilt(old(record), event, built, hasClaims).Ok?
      ensures r.Ok? ==> Resolving(old(Now()), Now(), ChoiceOf(winning, manual), user, source, at)
      ensures r.Ok? ==> Rebuilt(old(record), event, built, hasClaims) == Ok(record)
      ensures r.Ok? ==> r.value == if winning.Some? then winning.value else |old(claims)|
      ensures r.Ok? ==> r.value in links && OnlyWinnerSpeaks(Now(), r.value)
      ensures r.Ok? && manual.Some? ==>
        Overrides(old(Now()), Now(), manual.value, user, source, at) && |history| > |old(history)|
      ensures r.Ok? && manual.Some? ==> history[|old(history)|] == Change(r.value, None, ManualOverride)
    {
      var saved := Now();
      if winning.Some? == manual.Some? { return Err(NeedOneChoice); }
      if conflict.status != Open { return Err(AlreadyResolved); }
      if conflict.version != expected { return Err(Modified); }
      var winner: ClaimId;
      if manual.Some? {
        winner := |claims|;
        claims := claims +
          [Claim(conflict.event, source, None, conflict.field, manual.value, ManualOverride, Some(user), at, None)];
        history := history + [Change(winner, None, ManualOverride)];
        links := links + {winner};
      } else {
        winner := winning.value;
        if winner !in links { return Err(NotInConflict); }
        if winner >= |claims| { return Err(ClaimNotFound); }
        if !Active(claims[winner]) { return Err(NotEligible); }
      }
      conflict := conflict.(status := Resolved, winner := Some(winner), version := conflict.version + 1);
      SupersedeLosers(winner);
      var projected := Project(event, built, hasClaims);
      if projected.Err? {
        Restore(saved);
        return Err(ProjectionRefused(projected.error));
      }
      return Ok(winner);
    }

    /** The reprojection that ends both use cases. */
    method Project(event: P.Event, built: P.Content, hasClaims: bool) returns (r: Result<P.State, P.Error>)
      modifies this`record
      ensures r == Rebuilt(old(record), event, built, hasClaims)
      ensures record == if r.Ok? then r.value else old(record)
    {
      r := Rebuilt(record, event, built, hasClaims);
      if r.Ok? { record := r.value; }
    }

    /** The transaction rolls back. */
    method Restore(s: State)
      modifies this`claims, this`history, this`conflict, this`links
      ensures Now() == s
    {
      claims, history, conflict, links := s.claims, s.history, s.conflict, s.links;
    }

    /** The loop over the losing claims. */
    method SupersedeLosers(winner: ClaimId)
      modifies this`claims, this`history
      ensures claims == BulkSupersede(old(claims), old(Losers(Now(), winner)), winner)
      ensures old(history) <= history
      ensures LoserRows(history[|old(history)|..], old(claims), old(Losers(Now(), winner)))
    {
      var losers := Losers(Now(), winner);
      var candidates := claims;
      claims := BulkSupersede(claims, losers, winner);
      var rows := LogLosses(candidates, losers);
      history := history + rows;
      assert history[|old(history)|..] == rows;
    }

    method LogLosses(candidates: seq<Claim>, losers: set<ClaimId>) returns (rows: seq<Change>)
      requires forall c :: c in losers ==> c < |candidates|
      ensures LoserRows(rows, candidates, losers)
    {
      rows := [];
      ghost var logged: map<ClaimId, Change> := map[];
      for i := 0 to |candidates|
        invariant forall c: ClaimId :: c in logged <==> c in losers && c < i
        invariant forall c :: c in logged ==> logged[c] == LossOf(candidates, c)
        invariant OneRowEach(rows, logged)
      {
        if i in losers {
          AddRow(rows, logged, LossOf(candidates, i));
          rows := rows + [LossOf(candidates, i)];
          logged := logged[i := LossOf(candidates, i)];
        }
      }
      assert logged == LossesOf(candidates, losers);
    }

    /** ReopenConflict.execute; a refused request changes nothing. */
    method Reopen(expected: nat, event: P.Event, built: P.Content, hasClaims: bool)
        returns (r: Result<set<ClaimId>, Error>)
      modifies this
      ensures r.Err? ==> Now() == old(Now()) && record == old(record)
      ensures r.Ok? <==>
        old(conflict.status.Resolved? && conflict.version == expected) &&
        Rebuilt(old(record), event, built, hasClaims).Ok?
      ensures r.Ok? ==> r.value == old(Revivable(Now())) && Reopening(old(Now()), Now())
      ensures r.Ok? ==> forall k :: |old(history)| <= k < |history| ==> ReturnsTo(Now(), history[k], r.value)
      ensures r.Ok? ==> Rebuilt(old(record), event, built, hasClaims) == Ok(record)
    {
      if conflict.status != Resolved { return Err(NotResolved); }
      if conflict.version != expected { return Err(Modified); }
      var saved := Now();
      var ids := Revivable(Now());
      Unsupersede(ids);
      LogReturns(ids, saved);
      conflict := conflict.(status := Open, winner := None, version := conflict.version + 1);
      ReturnsTold(saved, Now());
      var projected := Project(event, built, hasClaims);
      if projected.Err? {
        Restore(saved);
        return Err(ProjectionRefused(projected.error));
      }
      return Ok(ids);
    }

    /** `bulk_unsupersede`: each claim returns in the kind its history holds. */
    method Unsupersede(ids: set<ClaimId>)
      requires ids == Revivable(Now())
      modifies this`claims
      ensures |claims| == |old(claims)| && forall i :: 0 <= i < |claims| ==> claims[i] == Revived(old(Now()), i)
    {
      ghost var before := Now();
      for i := 0 to |claims|
        invariant |claims| == |before.claims|
        invariant forall j :: 0 <= j < i ==> claims[j] == Revived(before, j)
        invariant forall j :: i <= j < |claims| ==> claims[j] == before.claims[j]
      {
        if i in ids { claims := claims[i := claims[i].(kind := KindBefore(history, i), supersededBy := None)]; }
      }
    }

    /** One "reactivated" row per claim. */
    method LogReturns(ids: set<ClaimId>, ghost before: State)
      requires ids == Revivable(before) && history == before.history && |claims| == |before.claims|
      requires forall i :: i in ids ==> claims[i] == Revived(before, i)
      modifies this`history
      ensures old(history) <= history && ReturnRows(history[|old(history)|..], before)
    {
      var rows: seq<Change> := [];
      ghost var logged: map<ClaimId, Change> := map[];
      for i := 0 to |claims|
        invariant history == before.history
        invariant forall c: ClaimId :: c in logged <==> c in ids && c < i
        invariant forall c :: c in logged ==> logged[c] == ReturnOf(before, c)
        invariant OneRowEach(rows, logged)
      {
        if i in ids {
          var row := Change(i, Some(Superseded), claims[i].kind);
          AddRow(rows, logged, row);
          rows := rows + [row];
          logged := logged[i := row];
        }
      }
      assert logged == ReturnsOf(before);
      history := history + rows;
      assert history[|old(history)|..] == rows;
    }
  }

  /** A history row of a claim that came back, into the kind it has now. */
  ghost predicate ReturnsTo(s: State, row: Change, ids: set<ClaimId>) {
    && row.claim in ids && row.claim < |s.claims|
    && row.fromKind == Some(Superseded) && row.toKind == s.claims[row.claim].kind
  }

  lemma ReturnsTold(s: State, s': State)
    requires Reopening(s, s')
    ensures forall k :: |s.history| <= k < |s'.history| ==> ReturnsTo(s', s'.history[k], Revivable(s))
  {
    var rows := s'.history[|s.history|..];
    forall k | |s.history| <= k < |s'.history| ensures ReturnsTo(s', s'.history[k], Revivable(s)) {
      assert rows[k - |s.history|] in rows;
      assert s'.claims[s'.history[k].claim] == Revived(s, s'.history[k].claim);
    }
  }

  /** Of the linked claims exactly the winner is still in play. */
  ghost predicate OnlyWinnerSpeaks(s: State, winner: ClaimId) {
    winner < |s.claims| && forall c :: c in s.links && c < |s.claims| ==> (Active(s.claims[c]) <==> c == winner)
  }

  /** The curator's own value stands on the conflict's slot, under their name, and supersedes nothing by itself. */
  ghost predicate Overrides(s: State, s': State, value: int, user: UserId, source: SourceId, at: nat) {
    && |s'.claims| == |s.claims| + 1
    && var c := s'.claims[|s.claims|];
    && c.value == value && c.kind == ManualOverride && c.author == Some(user) && c.source == source && c.at == at
    && c.event == s.conflict.event && c.field == s.conflict.field && c.snapshot.None? && c.supersededBy.None?
  }

  /** The event's record after a curator's request: no outbox event causes it, and nothing forces it. */
  function Rebuilt(record: P.State, event: P.Event, built: P.Content, hasClaims: bool): Result<P.State, P.Error> {
    P.Reprojected(record, event, built, hasClaims, None, false)
  }

  function ChoiceOf(winning: Option<ClaimId>, manual: Option<int>): Choice
    requires winning.Some? != manual.Some?
  {
    if winning.Some? then Pick(winning.value) else Override(manual.value)
  }

  /** What a resolve request must meet. */
  predicate CanResolve(s: State, expected: nat, winning: Option<ClaimId>, manual: Option<int>) {
    && winning.Some? != manual.Some?
    && s.conflict.status.Open? && s.conflict.version == expected
    && (winning.Some? ==> winning.value in s.links && winning.value < |s.claims| && Active(s.claims[winning.value]))
  }

  // ---------------------------------------------------------------- undoing

  /** Row `k` is the last one that supersedes the claim. */
  ghost predicate LastLoss(history: seq<Change>, i: ClaimId, k: nat) {
    && k < |history| && history[k].claim == i && history[k].toKind == Superseded
    && forall j :: k < j < |history| ==> !(history[j].claim == i && history[j].toKind == Superseded)
  }

  /** The kind before the last loss, if its row holds one that is not itself a loss; otherwise RAW. */
  lemma {:induction false} KindTold(history: seq<Change>, i: ClaimId)
    ensures forall k: nat :: LastLoss(history, i, k) ==>
      KindBefore(history, i) ==
      if history[k].fromKind.Some? && history[k].fromKind != Some(Superseded) then history[k].fromKind.value else Raw
    ensures (forall k: nat :: !LastLoss(history, i, k)) ==> KindBefore(history, i) == Raw
  {
    if history != [] {
      var n := |history| - 1;
      var before := history[..n];
      KindTold(before, i);
      if history[n].claim == i && history[n].toKind == Superseded {
        assert LastLoss(history, i, n);
      } else {
        forall k: nat ensures LastLoss(history, i, k) <==> LastLoss(before, i, k) {
          if LastLoss(before, i, k) { assert history[k] == before[k]; }
        }
      }
    }
  }

  /** The newest row about a claim decides its kind. */
  lemma {:induction false} KindFromRows(history: seq<Change>, rows: seq<Change>, n: nat, claims: seq<Claim>,
                                        losers: set<ClaimId>, c: ClaimId)
    requires LoserRows(rows, claims, losers) && n <= |rows|
    requires exists k :: 0 <= k < n && rows[k].claim == c
    requires c < |claims| && Active(claims[c])
    ensures KindBefore(history + rows[..n], c) == claims[c].kind
  {
    var h := history + rows[..n];
    var last := rows[n - 1];
    assert last in rows;
    assert h[|h| - 1] == last && h[..|h| - 1] == history + rows[..n - 1];
    if last.claim != c { KindFromRows(history, rows, n - 1, claims, losers, c); }
  }

  lemma ResolvedKinds(s: State, s': State, choice: Choice, user: UserId, source: SourceId, at: nat, c: ClaimId)
    requires Resolving(s, s', choice, user, source, at)
    requires var w := WithWinner(s, choice, user, source, at); c in Losers(w, WinnerOf(s, choice))
    ensures var w := WithWinner(s, choice, user, source, at); KindBefore(s'.history, c) == w.claims[c].kind
  {
    var w := WithWinner(s, choice, user, source, at);
    var rows := s'.history[|w.history|..];
    assert s'.history == w.history + rows && rows[..|rows|] == rows;
    var k := RowOf(rows, LossesOf(w.claims, Losers(w, WinnerOf(s, choice))), c);
    KindFromRows(w.history, rows, |rows|, w.claims, Losers(w, WinnerOf(s, choice)), c);
  }

  /** No linked claim of the slot was superseded by the winner before, and all that lose are on the slot. */
  ghost predicate Undoable(s: State, choice: Choice) {
    && (forall c :: c in s.links && OnSlot(s, c) ==> s.claims[c].supersededBy != Some(WinnerOf(s, choice)))
    && (forall c :: c in Losers(s, WinnerOf(s, choice)) ==> OnSlot(s, c))
  }

  /** What one claim is after resolving and reopening. */
  lemma UndoneClaim(s: State, s': State, s'': State, choice: Choice, user: UserId, source: SourceId, at: nat,
                    i: ClaimId)
    requires WellFormed(s) && Resolving(s, s', choice, user, source, at) && Reopening(s', s'') && i < |s.claims|
    ensures |s''.claims| == |s.claims| + (if choice.Override? then 1 else 0)
    ensures s''.claims[i] == s.claims[i] <==>
      !(i in s.links && OnSlot(s, i) && s.claims[i].supersededBy == Some(WinnerOf(s, choice))) &&
      !(i in Losers(s, WinnerOf(s, choice)) && !OnSlot(s, i))
  {
    var w, winner := WithWinner(s, choice, user, source, at), WinnerOf(s, choice);
    assert w.claims[i] == s.claims[i];
    assert i in Losers(w, winner) <==> i in Losers(s, winner);
    assert i in s'.links <==> i in s.links;
    assert OnSlot(s', i) <==> OnSlot(s, i);
    if i in Losers(w, winner) { ResolvedKinds(s, s', choice, user, source, at, i); }
    assert s''.claims[i] == Revived(s', i);
  }

  /**
   Reopening undoes resolving, claim by claim, exactly when no linked claim of the slot had been
   superseded by the chosen winner before; an override claim stays behind as the only addition.
   */
  lemma ReopenUndoesResolve(s: State, s': State, s'': State, choice: Choice, user: UserId, source: SourceId, at: nat)
    requires WellFormed(s) && Resolving(s, s', choice, user, source, at) && Reopening(s', s'')
    ensures s''.claims == WithWinner(s, choice, user, source, at).claims <==> Undoable(s, choice)
    ensures s''.conflict == s.conflict.(winner := None, version := s.conflict.version + 2)
    ensures s''.links == WithWinner(s, choice, user, source, at).links
  {
    var w := WithWinner(s, choice, user, source, at);
    forall i: ClaimId | i < |s.claims|
      ensures s''.claims[i] == w.claims[i] <==>
        !(i in s.links && OnSlot(s, i) && s.claims[i].supersededBy == Some(WinnerOf(s, choice))) &&
        !(i in Losers(s, WinnerOf(s, choice)) && !OnSlot(s, i))
    {
      UndoneClaim(s, s', s'', choice, user, source, at, i);
    }
    if choice.Override? { OverrideStays(s, s', s'', choice, user, source, at); }
    if Undoable(s, choice) {
      assert |s''.claims| == |w.claims|;
      assert forall i :: 0 <= i < |w.claims| ==> s''.claims[i] == w.claims[i];
    }
  }

  lemma OverrideStays(s: State, s': State, s'': State, choice: Choice, user: UserId, source: SourceId, at: nat)
    requires WellFormed(s) && Resolving(s, s', choice, user, source, at) && Reopening(s', s'') && choice.Override?
    ensures |s''.claims| == |s.claims| + 1
    ensures s''.claims[|s.claims|] == WithWinner(s, choice, user, source, at).claims[|s.claims|]
  {
    assert s''.claims[|s.claims|] == Revived(s', |s.claims|);
  }

  /** A new override never meets the exception: nothing can have been superseded by it before. */
  lemma OverrideAlwaysUndoable(s: State, value: int)
    requires WellFormed(s) && s.conflict.winner.None? && forall c :: c in s.links ==> OnSlot(s, c)
    ensures Undoable(s, Override(value))
  {
  }

  /** Claim 0 was corrected by its own source with claim 1; claim 2 contradicts both. */
  const Corrected: State :=
    State([Claim(7, 5, Some(0), "operator", 1, Superseded, None, 0, Some(1)),
           Claim(7, 5, Some(1), "operator", 2, Raw, None, 1, None),
           Claim(7, 6, Some(2), "operator", 3, Confirmed, None, 2, None)],
          [Change(0, Some(Raw), Superseded)], Conflict(7, "operator", Open, None, 3), {0, 1, 2})

  /** The exception happens: a claim its own source corrected earlier comes back when that correction wins. */
  lemma CorrectedClaimComesBack() returns (s': State, s'': State)
    ensures WellFormed(Corrected) && Resolving(Corrected, s', Pick(1), 9, 9, 0) && Reopening(s', s'')
    ensures |s''.claims| == 3 && !Active(Corrected.claims[0]) && Active(s''.claims[0])
  {
    s' := ResolvedExample(Corrected);
    RevivableExample(s');
    s'' := ReopenedExample(s');
  }

  lemma RevivableExample(s: State)
    requires |s.claims| == 3 && s.links == {0, 1, 2} && s.conflict.winner == Some(1)
    requires forall i :: 0 <= i < 3 ==> OnSlot(s, i) && (s.claims[i].supersededBy == Some(1) <==> i != 1)
    ensures Revivable(s) == {0, 2}
  {
  }

  lemma ReopenedExample(s: State) returns (s': State)
    requires |s.claims| == 3 && s.conflict.status.Resolved? && Revivable(s) == {0, 2}
    ensures Reopening(s, s') && s'.claims == [Revived(s, 0), Revived(s, 1), Revived(s, 2)]
  {
    var rows := [ReturnOf(s, 0), ReturnOf(s, 2)];
    s' := State([Revived(s, 0), Revived(s, 1), Revived(s, 2)], s.history + rows,
                s.conflict.(status := Open, winner := None, version := s.conflict.version + 1), s.links);
    assert rows[0] in rows && rows[1] in rows;
    assert s'.history[|s.history|..] == rows;
  }

  lemma ResolvedExample(s: State) returns (s': State)
    requires |s.claims| == 3 && s.links == {0, 1, 2} && s.conflict.status.Open?
    requires !Active(s.claims[0]) && Active(s.claims[1]) && Active(s.claims[2])
    ensures Resolving(s, s', Pick(1), 9, 9, 0)
    ensures s'.history == s.history + [LossOf(s.claims, 2)] && s'.links == s.links
    ensures s'.conflict == s.conflict.(status := Resolved, winner := Some(1), version := s.conflict.version + 1)
    ensures s'.claims == [s.claims[0], s.claims[1], Superseding(s.claims[2], 1)]
  {
    var row := LossOf(s.claims, 2);
    s' := State([s.claims[0], s.claims[1], Superseding(s.claims[2], 1)], s.history + [row],
                s.conflict.(status := Resolved, winner := Some(1), version := s.conflict.version + 1), s.links);
    var rows := s'.history[|s.history|..];
    assert rows == [row] && rows[0] in rows;
    assert Losers(s, 1) == {2};
    assert s'.claims == BulkSupersede(s.claims, {2}, 1);
  }
}
