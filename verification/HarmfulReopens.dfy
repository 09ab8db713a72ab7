/**
 Reopens that break the record invariant happen: one run for each half of the condition, from the
 empty store, in which every step is one the use cases take.
 */
module HarmfulReopens {
  import opened Common
  import opened Claims
  import opened Evidence
  import opened Records
  import MG = MergeGraph
  import RR = ResolveReopen
  import P = Projection
  import CL = ConflictLog

  /** The store after a submission of one item that corrects at most the claim `prior`. */
  function Submitted(s: Store, e: EventId, source: SourceId, record: Option<string>, item: Item, at: nat,
                     prior: Option<ClaimId>): Store
    requires prior.Some? ==> prior.value < |s.claims|
  {
    var claims :=
      if prior.Some? then s.claims[prior.value := Superseding(s.claims[prior.value], |s.claims|)] else s.claims;
    Store(MG.Apply(s.events, MG.Create(e)), s.snapshots + [Snapshot(source, record)],
          claims + [Written(e, source, |s.snapshots|, item, at)])
  }

  lemma SubmittedIngests(s: Store, e: EventId, source: SourceId, record: Option<string>, item: Item, at: nat,
                         prior: Option<ClaimId>)
    requires MG.Root(MG.Apply(s.events, MG.Create(e)), e) && RightEvent(s, e, source, record)
    requires prior.Some? ==> prior.value < |s.claims|
    requires forall i: ClaimId :: Corrects(s, i, e, source, record, item.field) <==> prior == Some(i)
    ensures Ingested(s, Submitted(s, e, source, record, item, at, prior), e, source, record, [item], at)
  {
    assert Mention([item], item.field) == Some(0) by { MentionsAgree([item], 0); }
    var s' := Submitted(s, e, source, record, item, at, prior);
    forall i | 0 <= i < |s.claims| ensures s'.claims[i] == Afterwards(s, i, e, source, record, [item], 1) {
      assert Corrects(s, i, e, source, record, item.field) <==> prior == Some(i);
    }
  }

  /** A known record whose latest claim `c` is on an unmerged event. */
  lemma OwnEvent(s: Store, c: ClaimId, source: SourceId, record: string)
    requires LatestOwner(s, c, source, record) && MG.Root(s.events, s.claims[c].event)
    ensures RightEvent(s, s.claims[c].event, source, Some(record))
  {
    assert MG.Hop(s.events, s.claims[c].event, 0) == s.claims[c].event;
    assert MG.HasFate(s.events, s.claims[c].event, MG.Settles(s.claims[c].event));
  }

  const Reported: Item := Item("operator", 1)
  const Rival: Item := Item("operator", 2)

  function Shown(value: string): P.Content {
    P.Content(map["operator" := P.Plain(value)], {}, 0.5)
  }

  const InDispute: P.Content := P.Content(map["operator" := P.Disputed], {"operator"}, 0.5)

  // ---------------------------------------------------------------- two active claims of one record

  const First: Store := Submitted(Empty, 7, 5, Some("r"), Reported, 0, None)
  const Second: Store := Submitted(First, 7, 6, None, Rival, 1, None)

  /** The conflict of the two sources, before and after the second one's claim wins. */
  const Disputed: RR.State :=
    RR.State(Second.claims, [], RR.Conflict(7, "operator", RR.Open, None, 1), {0, 1})

  const Settled: Store := Second.(claims := [Superseding(Second.claims[0], 1), Second.claims[1]])

  function Decision(claims: seq<Claim>): RR.State {
    RR.State(claims, [RR.Change(0, Some(Raw), Superseded)], RR.Conflict(7, "operator", RR.Resolved, Some(1), 2), {0, 1})
  }

  /** The first source corrects itself to the winner's value while its claim is superseded. */
  const Corrected: Store := Submitted(Settled, 7, 5, Some("r"), Rival, 3, None)

  function Reopened(r: RR.State): RR.State
    requires |r.claims| > 0
  {
    RR.State(r.claims[0 := r.claims[0].(kind := Raw, supersededBy := None)],
             r.history + [RR.Change(0, Some(Superseded), Raw)],
             r.conflict.(status := RR.Open, winner := None, version := r.conflict.version + 1), r.links)
  }

  lemma FirstReports()
    ensures Ingested(Empty, First, 7, 5, Some("r"), [Reported], 0)
  {
    SubmittedIngests(Empty, 7, 5, Some("r"), Reported, 0, None);
  }

  /** Both sources report, and a curator decides for the second one. */
  lemma ReportedAndDecided()
    ensures Ingested(Empty, First, 7, 5, Some("r"), [Reported], 0)
    ensures Ingested(First, Second, 7, 6, None, [Rival], 1)
    ensures Decided(Second, Settled, [], {0}, 1)
  {
    FirstReports();
    SubmittedIngests(First, 7, 6, None, Rival, 1, None);
    assert Second.claims + [] == Second.claims;
    assert Settled.claims == BulkSupersede(Second.claims, {0}, 1);
  }

  lemma DecisionResolves()
    ensures RR.Resolving(Disputed, Decision(Settled.claims), RR.Pick(1), 9, 9, 2)
  {
    var row := RR.LossOf(Second.claims, 0);
    var rows := Decision(Settled.claims).history[0..];
    assert rows == [row] && rows[0] in rows;
    assert RR.Losers(Disputed, 1) == {0};
    assert Settled.claims == BulkSupersede(Second.claims, {0}, 1);
  }

  /** Reopening a conflict that can only bring back claim 0. */
  lemma DecisionReopens(r: RR.State)
    requires |r.claims| > 0 && RR.Revivable(r) == {0} && RR.KindBefore(r.history, 0) == Raw
    requires r.conflict.status.Resolved?
    ensures RR.Reopening(r, Reopened(r))
  {
    var r' := Reopened(r);
    var rows := r'.history[|r.history|..];
    assert rows == [RR.ReturnOf(r, 0)] && rows[0] in rows;
  }

  lemma FirstComesBack()
    ensures RR.Revivable(Decision(Corrected.claims)) == {0}
    ensures RR.Reopening(Decision(Corrected.claims), Reopened(Decision(Corrected.claims)))
  {
    var r := Decision(Corrected.claims);
    assert RR.Revivable(r) == {0};
    assert RR.KindBefore(r.history, 0) == Raw by { assert r.history[|r.history| - 1].claim == 0; }
    DecisionReopens(r);
  }

  lemma AgreeingCorrection()
    ensures Ingested(Settled, Corrected, 7, 5, Some("r"), [Rival], 3)
  {
    assert LatestOwner(Settled, 0, 5, "r");
    OwnEvent(Settled, 0, 5, "r");
    SubmittedIngests(Settled, 7, 5, Some("r"), Rival, 3, None);
  }

  const AsDecided: State := Ended(State(Second, map[]), Settled, 7, AtTheEnd(Shown("2")))
  const AsCorrected: State := AsDecided.(store := Corrected)
  const Undo: Act := Undoing(Decision(Corrected.claims), Reopened(Decision(Corrected.claims)), InDispute)
  const AsReopened: State :=
    Ended(AsCorrected, Corrected.(claims := Reopened(Decision(Corrected.claims)).claims), 7, AtTheEnd(InDispute))

  const CorrectedRun: seq<State> :=
    [Nothing, State(First, map[]), State(Second, map[]), AsDecided, AsCorrected, AsReopened]

  const CorrectedActs: seq<Act> :=
    [Ingesting(7, 5, Some("r"), [Reported], 0), Ingesting(7, 6, None, [Rival], 1),
     Deciding(7, [], {0}, 1, Shown("2")), Ingesting(7, 5, Some("r"), [Rival], 3), Undo]

  /** Neither request is refused: the event is not merged. */
  lemma BothGoThrough()
    ensures AsDecided.store == Settled && AsReopened.store.claims == Reopened(Decision(Corrected.claims)).claims
    ensures !RolledBack(AsCorrected, 7, InDispute)
  {
    assert P.Current(RecordOf(State(Second, map[]), 7));
    P.CurrentStep(RecordOf(State(Second, map[]), 7), P.Unmerged, AtTheEnd(Shown("2")));
    P.CurrentStep(RecordOf(AsCorrected, 7), P.Unmerged, AtTheEnd(InDispute));
  }

  lemma CorrectedDecides()
    ensures StepAt(CorrectedRun, CorrectedActs, 2)
  {
    ReportedAndDecided();
    assert StepOf(State(Second, map[]), CorrectedActs[2], AsDecided);
  }

  lemma CorrectedReopens()
    ensures StepAt(CorrectedRun, CorrectedActs, 4)
  {
    FirstComesBack();
    assert Undone(Corrected, Corrected.(claims := Reopened(Decision(Corrected.claims)).claims),
                  Decision(Corrected.claims), Reopened(Decision(Corrected.claims)));
    assert StepOf(AsCorrected, Undo, AsReopened);
  }

  lemma CorrectedReports()
    ensures StepAt(CorrectedRun, CorrectedActs, 0) && StepAt(CorrectedRun, CorrectedActs, 1)
  {
    ReportedAndDecided();
  }

  lemma CorrectedAgrees()
    ensures StepAt(CorrectedRun, CorrectedActs, 3)
  {
    BothGoThrough();
    AgreeingCorrection();
  }

  lemma CorrectedIsRun()
    ensures IsRun(CorrectedRun, CorrectedActs)
  {
    CorrectedReports();
    CorrectedDecides();
    CorrectedAgrees();
    CorrectedReopens();
  }

  lemma CorrectedSound()
    ensures Sound(Corrected)
  {
    CorrectedIsRun();
    RunSound(CorrectedRun, CorrectedActs, 4);
  }

  lemma CorrectedTaken()
    ensures ReturnsToRoots(Corrected, Decision(Corrected.claims))
    ensures !ReturnsToFree(Corrected, Decision(Corrected.claims))
  {
    FirstComesBack();
    assert Taken(Corrected, Decision(Corrected.claims), 0, 2, 5, "r");
  }

  /**
   A run ends in two active claims of one record on one field: both sources report, a curator
   decides for the second, the first source then agrees, and the curator reopens the decision.
   */
  lemma ReopenBreaksOnePerField()
    ensures IsRun(CorrectedRun, CorrectedActs)
    ensures RR.Resolving(Disputed, Decision(Settled.claims), RR.Pick(1), 9, 9, 2)
    ensures ReturnsToRoots(Corrected, Decision(Corrected.claims)) && HarmfulAt(CorrectedRun, CorrectedActs, 4)
    ensures Sound(AsCorrected.store) && !OnePerField(AsReopened.store)
  {
    CorrectedIsRun();
    DecisionResolves();
    CorrectedSound();
    CorrectedTaken();
    BothGoThrough();
    FirstComesBack();
    UndoneOnePerField(Corrected, AsReopened.store, Decision(Corrected.claims), Reopened(Decision(Corrected.claims)));
  }

  // ---------------------------------------------------------------- an active claim on a merged event

  /**
   Two records disagree; the second one corrects itself, so the conflict closes by itself for the
   first one's claim; the first record is submitted again, so the win moves to its new claim.
   */
  const Other: Store := Submitted(First, 7, 6, Some("q"), Rival, 1, None)
  const Agreed: Store := Submitted(Other, 7, 6, Some("q"), Reported, 2, Some(1))
  const Again: Store := Submitted(Agreed, 7, 5, Some("r"), Reported, 3, Some(0))
  const Elsewhere: Store := Submitted(Again, 8, 9, None, Reported, 4, None)

  const Absorbed: Store :=
    Store(Elsewhere.events[7 := Some(8)], Elsewhere.snapshots,
          [Elsewhere.claims[0], Elsewhere.claims[1], Superseding(Elsewhere.claims[2], 5),
           Superseding(Elsewhere.claims[3], 6), Elsewhere.claims[4],
           CopyTo(Elsewhere.claims[2], 8), CopyTo(Elsewhere.claims[3], 8)])

  /** The closed conflict after the merge, with the claim history rows of the four supersessions. */
  const Closed: RR.State :=
    RR.State(Absorbed.claims,
             [RR.Change(1, Some(Raw), Superseded), RR.Change(0, Some(Raw), Superseded),
              RR.Change(2, Some(Raw), Superseded), RR.Change(3, Some(Raw), Superseded)],
             RR.Conflict(7, "operator", RR.Resolved, Some(3), 3), {0, 1, 3})

  const AsAbsorbed: State := State(Absorbed, map[7 := P.State(None, [])])

  const AsStranded: State :=
    Ended(AsAbsorbed, Absorbed.(claims := Reopened(Closed).claims), 7, AtTheEnd(InDispute))

  const AbsorbedRun: seq<State> :=
    [Nothing, State(First, map[]), State(Other, map[]), State(Agreed, map[]), State(Again, map[]),
     State(Elsewhere, map[]), AsAbsorbed, AsStranded]

  const AbsorbedActs: seq<Act> :=
    [Ingesting(7, 5, Some("r"), [Reported], 0), Ingesting(7, 6, Some("q"), [Rival], 1),
     Ingesting(7, 6, Some("q"), [Reported], 2), Ingesting(7, 5, Some("r"), [Reported], 3),
     Ingesting(8, 9, None, [Reported], 4), Merging(7, 8, [2, 3]), Undoing(Closed, Reopened(Closed), InDispute)]

  lemma OtherReports()
    ensures Ingested(First, Other, 7, 6, Some("q"), [Rival], 1)
  {
    SubmittedIngests(First, 7, 6, Some("q"), Rival, 1, None);
  }

  lemma OtherAgrees()
    ensures Ingested(Other, Agreed, 7, 6, Some("q"), [Reported], 2)
  {
    assert LatestOwner(Other, 1, 6, "q");
    OwnEvent(Other, 1, 6, "q");
    SubmittedIngests(Other, 7, 6, Some("q"), Reported, 2, Some(1));
  }

  lemma FirstRepeats()
    ensures Ingested(Agreed, Again, 7, 5, Some("r"), [Reported], 3)
  {
    assert LatestOwner(Agreed, 0, 5, "r");
    OwnEvent(Agreed, 0, 5, "r");
    SubmittedIngests(Agreed, 7, 5, Some("r"), Reported, 3, Some(0));
  }

  lemma ThirdReports()
    ensures Ingested(Again, Elsewhere, 8, 9, None, [Reported], 4)
  {
    SubmittedIngests(Again, 8, 9, None, Reported, 4, None);
  }

  lemma AbsorbedMerges()
    ensures Merged(Elsewhere, Absorbed, 7, 8, [2, 3])
  {
    TwoActive();
    assert Elsewhere.events == map[7 := None, 8 := None];
  }

  lemma TwoActive()
    ensures |Elsewhere.claims| == 5 && Lists(Elsewhere.claims, 7, [2, 3])
  {
  }

  lemma ClosedReopens()
    ensures RR.Revivable(Closed) == {0} && RR.Reopening(Closed, Reopened(Closed))
    ensures !RolledBack(AsAbsorbed, 7, InDispute)
  {
    assert RR.Revivable(Closed) == {0};
    ClosedKind();
    DecisionReopens(Closed);
  }

  lemma ClosedKind()
    ensures RR.KindBefore(Closed.history, 0) == Raw
  {
    var h := Closed.history;
    assert h[..3][..2][|h[..3][..2]| - 1].claim == 0;
  }

  lemma ClosedIsUndone()
    ensures StepOf(AsAbsorbed, AbsorbedActs[6], AsStranded)
  {
    ClosedReopens();
    assert Undone(Absorbed, Absorbed.(claims := Reopened(Closed).claims), Closed, Reopened(Closed));
  }

  lemma AllReport()
    ensures forall k :: 0 <= k < 5 ==> StepAt(AbsorbedRun, AbsorbedActs, k)
  {
    FirstReports();
    OtherReports();
    OtherAgrees();
    FirstRepeats();
    ThirdReports();
  }

  lemma MergesThen()
    ensures StepOf(State(Elsewhere, map[]), AbsorbedActs[5], AsAbsorbed)
  {
    AbsorbedMerges();
  }

  lemma AbsorbedIsRun()
    ensures IsRun(AbsorbedRun, AbsorbedActs)
  {
    AllReport();
    MergesThen();
    ClosedIsUndone();
  }

  lemma AbsorbedSound()
    ensures Sound(Absorbed)
  {
    AbsorbedIsRun();
    RunSound(AbsorbedRun, AbsorbedActs, 6);
  }

  lemma AbsorbedStranded()
    ensures !ReturnsToRoots(Absorbed, Closed)
  {
    ClosedReopens();
    assert 0 in RR.Revivable(Closed) && OfRecord(Absorbed, 0, 5, "r");
  }

  /** What the conflict's row goes through on the way. */
  const RowActs: seq<CL.Op> :=
    [CL.BeginDetect(7), CL.Insert(7, "operator", {0, 1}), CL.EndDetect(7),
     CL.AutoClose(0, CL.NewRow, 0, 2), CL.UpdateWinner(0, ClosedRow(0, 2), 3), CL.Tombstone(7, 5)]

  function ClosedRow(winner: ClaimId, version: nat): CL.Row {
    CL.Row(CL.Resolved, Some(winner), None, Some(2), CL.SystemAutoClosed, version)
  }

  /** Both sources' claims are found in conflict. */
  const AfterDetection: CL.Ledger := CL.Ledger([CL.NewCase(7, "operator", {0, 1})], {}, map[])

  lemma Detected()
    ensures CL.Run(CL.Empty, RowActs[..3]) == AfterDetection
  {
    var l1 := CL.Step(CL.Empty, RowActs[0]);
    var l2 := CL.Step(l1, RowActs[1]);
    RunIs(RowActs[..3], [CL.Empty, l1, l2, CL.Step(l2, RowActs[2])], CL.Empty);
  }

  lemma ThenClosed()
    ensures var l := CL.Run(AfterDetection, RowActs[3..]);
      && |l.cases| == 1 && l.cases[0].past != [] && l.cases[0].links == Closed.links
      && CL.Now(l.cases[0]) == ClosedRow(3, 3)
  {
    var l4 := CL.Step(AfterDetection, RowActs[3]);
    var l5 := CL.Step(l4, RowActs[4]);
    var l6 := CL.Step(l5, RowActs[5]);
    RunIs(RowActs[3..], [AfterDetection, l4, l5, l6], AfterDetection);
    assert l4.cases[0].past == [CL.NewRow, ClosedRow(0, 2)];
    assert l5.cases[0].past == [CL.NewRow, ClosedRow(0, 2), ClosedRow(3, 3)];
    assert l6.cases[0] == l5.cases[0];
  }

  /** The conflict log writes exactly the row, with the links, that the curator reopens. */
  lemma RowGetsThere()
    ensures var l := CL.Run(CL.Run(CL.Empty, RowActs[..3]), RowActs[3..]);
      && |l.cases| == 1 && l.cases[0].past != [] && l.cases[0].links == Closed.links
      && CL.Now(l.cases[0]) == ClosedRow(3, 3)
  {
    Detected();
    ThenClosed();
  }

  lemma {:induction false} RunIs(ops: seq<CL.Op>, ledgers: seq<CL.Ledger>, first: CL.Ledger)
    requires |ledgers| == |ops| + 1 && ledgers[0] == first
    requires forall k :: 0 <= k < |ops| ==> ledgers[k + 1] == CL.Step(ledgers[k], ops[k])
    ensures CL.Run(first, ops) == ledgers[|ops|]
  {
    if ops != [] { RunIs(ops[..|ops| - 1], ledgers[..|ops|], first); }
  }

  /**
   A run ends in an active claim of a record on a merged event: the event of a conflict that closed
   by itself is absorbed before it was ever projected, and the curator reopens the conflict.
   */
  lemma ReopenBreaksOnRoots()
    ensures IsRun(AbsorbedRun, AbsorbedActs) && HarmfulAt(AbsorbedRun, AbsorbedActs, 6)
    ensures Sound(AsAbsorbed.store) && !ReturnsToRoots(Absorbed, Closed) && !OnRoots(AsStranded.store)
    ensures var l := CL.Run(CL.Run(CL.Empty, RowActs[..3]), RowActs[3..]);
      |l.cases| == 1 && l.cases[0].links == Closed.links && l.cases[0].past != [] &&
      CL.Now(l.cases[0]).winner == Closed.conflict.winner && CL.Now(l.cases[0]).version == Closed.conflict.version
  {
    AbsorbedIsRun();
    AbsorbedSound();
    AbsorbedStranded();
    ClosedReopens();
    RowGetsThere();
    UndoneOnRoots(Absorbed, AsStranded.store, Closed, Reopened(Closed));
  }
}
