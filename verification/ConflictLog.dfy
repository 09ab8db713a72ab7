/**
 Conflict rows, their evidence links and their activity log, over whole runs.

 Every writer reads a row, decides, and then updates it only if the version is still the one
 it read.  Reads may be stale: a writer's row is any value the row ever had.  The log entries
 are written with hard-coded statuses; that they tell the truth is a property of all runs.
 */
module ConflictLog {
  import opened Common

  type EventId = nat
  type ClaimId = nat
  type CaseId = nat
  type UserId = nat
  type Field = string

  datatype Status = Open | Resolved

  datatype Reason = Initial | NewEvidence | UserResolved | UserReopened | SystemAutoClosed

  datatype Row = Row(
    status: Status,
    winner: Option<ClaimId>,
    resolvedBy: Option<UserId>,
    resolvedAt: Option<nat>,
    reason: Reason,
    version: nat)

  /** A conflict activity log row. */
  datatype Entry = Entry(sequence: nat, fromStatus: Option<Status>, toStatus: Status, versionAtMoment: nat)

  /** A conflict: every value its row has had (the last is current), its links and its log. */
  datatype Case = Case(event: EventId, field: Field, past: seq<Row>, links: set<ClaimId>, log: seq<Entry>)

  /**
   All conflicts; conflict ids are positions.  `merged` are the absorbed events.  `busy` are the
   events whose row lock a detection holds, each with the fields it found in conflict when it
   read the event's rows, and those it has inserted since.
   */
  datatype Ledger = Ledger(cases: seq<Case>, merged: set<EventId>, busy: map<EventId, set<Field>>)

  datatype Op =
    | MergeEvidence(id: CaseId, seen: Row, ids: set<ClaimId>)
    | AutoClose(id: CaseId, seen: Row, winner: ClaimId, at: nat)
    | UpdateWinner(id: CaseId, seen: Row, winner: ClaimId)
    | ReopenForEvidence(id: CaseId, seen: Row, ids: set<ClaimId>)
    | UserResolve(id: CaseId, seen: Row, winner: ClaimId, manual: bool, user: UserId, at: nat)
    | UserReopen(id: CaseId, seen: Row)
    | Tombstone(event: EventId, at: nat)
    | BeginDetect(event: EventId)
    | Insert(event: EventId, field: Field, ids: set<ClaimId>)
    | EndDetect(event: EventId)

  const NewRow := Row(Open, None, None, None, Initial, 1)

  const Empty := Ledger([], {}, map[])

  function Now(k: Case): Row
    requires k.past != []
  {
    k.past[|k.past| - 1]
  }

  function MaxSequence(log: seq<Entry>): nat {
    if log == [] then 0
    else
      var m := MaxSequence(log[..|log| - 1]);
      if log[|log| - 1].sequence > m then log[|log| - 1].sequence else m
  }

  /** `update_with_version_check`, the new links and the log entry of one writer that read `seen`. */
  function Write(k: Case, next: Row, ids: set<ClaimId>, from: Status, to: Status, version: nat): Case
    requires k.past != []
  {
    k.(past := k.past + [next.(version := Now(k).version + 1)],
       links := k.links + ids,
       log := k.log + [Entry(MaxSequence(k.log) + 1, Some(from), to, version)])
  }

  /** A writer can have read `seen`, accepted its status, and still find its version. */
  predicate Fresh(k: Case, seen: Row, status: Status) {
    k.past != [] && seen in k.past && seen.status == status && Now(k).version == seen.version
  }

  function Opened(row: Row, reason: Reason): Row {
    row.(status := Open, winner := None, resolvedBy := None, resolvedAt := None, reason := reason)
  }

  function WriteCase(k: Case, op: Op): Case {
    match op
    case MergeEvidence(_, seen, ids) =>
      if Fresh(k, seen, Open)
      then Write(k, Now(k).(reason := NewEvidence), ids, Open, Open, Now(k).version + 1) else k
    case AutoClose(_, seen, w, at) =>
      if Fresh(k, seen, Open)
      then Write(k, Now(k).(status := Resolved, winner := Some(w), resolvedBy := None, resolvedAt := Some(at),
                            reason := SystemAutoClosed), {w}, Open, Resolved, Now(k).version + 1)
      else k
    case UpdateWinner(_, seen, w) =>
      if Fresh(k, seen, Resolved)
      then Write(k, Now(k).(winner := Some(w)), {w}, Resolved, Resolved, Now(k).version + 1) else k
    case ReopenForEvidence(_, seen, ids) =>
      if Fresh(k, seen, Resolved)
      then Write(k, Opened(Now(k), NewEvidence), ids, Resolved, Open, Now(k).version + 1) else k
    case UserResolve(_, seen, w, manual, user, at) =>
      if Fresh(k, seen, Open) && (manual || w in k.links)
      then Write(k, Now(k).(status := Resolved, winner := Some(w), resolvedBy := Some(user), resolvedAt := Some(at),
                            reason := UserResolved), {w}, Open, Resolved, seen.version + 1)
      else k
    case UserReopen(_, seen) =>
      if Fresh(k, seen, Resolved)
      then Write(k, Opened(Now(k), UserReopened), {}, Resolved, Open, seen.version + 1) else k
    case Tombstone(e, at) =>
      if k.event == e && k.past != [] && Now(k).status.Open?
      then Write(k, Now(k).(status := Resolved, winner := None, resolvedAt := Some(at),
                            reason := SystemAutoClosed), {}, Open, Resolved, Now(k).version + 1)
      else k
    case _ => k
  }

  /** The fields of an event that a detection finds in conflict: open, or resolved with a winner. */
  function FieldsInConflict(l: Ledger, e: EventId): set<Field> {
    set i | 0 <= i < |l.cases| && l.cases[i].event == e && l.cases[i].past != [] &&
      (Now(l.cases[i]).status.Open? || Now(l.cases[i]).winner.Some?) :: l.cases[i].field
  }

  /** The partial unique index refuses a second OPEN row of a slot. */
  predicate OpenRowExists(l: Ledger, e: EventId, f: Field) {
    exists i :: 0 <= i < |l.cases| && l.cases[i].event == e && l.cases[i].field == f &&
      l.cases[i].past != [] && Now(l.cases[i]).status.Open?
  }

  function NewCase(e: EventId, f: Field, ids: set<ClaimId>): Case {
    Case(e, f, [NewRow], ids, [Entry(1, None, Open, 1)])
  }

  function Step(l: Ledger, op: Op): Ledger {
    match op
    case Tombstone(e, _) =>
      if e in l.busy || e in l.merged then l
      else Ledger(seq(|l.cases|, i requires 0 <= i < |l.cases| => WriteCase(l.cases[i], op)), l.merged + {e}, l.busy)
    case BeginDetect(e) =>
      if e in l.busy || e in l.merged then l else l.(busy := l.busy[e := FieldsInConflict(l, e)])
    case EndDetect(e) => l.(busy := l.busy - {e})
    case Insert(e, f, ids) =>
      if e !in l.busy || f in l.busy[e] || OpenRowExists(l, e, f) then l
      else l.(cases := l.cases + [NewCase(e, f, ids)], busy := l.busy[e := l.busy[e] + {f}])
    case _ => if op.id < |l.cases| then l.(cases := l.cases[op.id := WriteCase(l.cases[op.id], op)]) else l
  }

  function Run(l: Ledger, ops: seq<Op>): Ledger
    decreases |ops|
  {
    if ops == [] then l else Step(Run(l, ops[..|ops| - 1]), ops[|ops| - 1])
  }

  // ---------------------------------------------------------------- what holds of every case

  /** The n-th value has version n, and the n-th log entry records exactly that change. */
  ghost predicate Truthful(k: Case) {
    && |k.past| == |k.log| > 0
    && (forall i :: 0 <= i < |k.past| ==> k.past[i].version == i + 1)
    && (forall i :: 0 <= i < |k.log| ==>
          k.log[i].sequence == i + 1 && k.log[i].versionAtMoment == i + 1 && k.log[i].toStatus == k.past[i].status)
    && k.log[0].fromStatus == None
    && (forall i :: 1 <= i < |k.log| ==> k.log[i].fromStatus == Some(k.past[i - 1].status))
  }

  /** Open rows carry no resolution; a resolved one has a linked winner or was closed by a merge. */
  ghost predicate RowClean(row: Row, links: set<ClaimId>, merged: bool) {
    match row.status
    case Open =>
      && row.winner == None && row.resolvedBy == None && row.resolvedAt == None
      && (row.reason.Initial? || row.reason.NewEvidence? || row.reason.UserReopened?)
    case Resolved =>
      && row.resolvedAt.Some?
      && (if row.resolvedBy.Some? then row.reason.UserResolved? && row.winner.Some? else row.reason.SystemAutoClosed?)
      && match row.winner
         case Some(w) => w in links
         case None => merged && row.reason == SystemAutoClosed
  }

  ghost predicate CaseOk(k: Case, merged: bool) {
    Truthful(k) && forall i :: 0 <= i < |k.past| ==> RowClean(k.past[i], k.links, merged)
  }

  ghost predicate CasesOk(l: Ledger) {
    forall i :: 0 <= i < |l.cases| ==> CaseOk(l.cases[i], l.cases[i].event in l.merged)
  }

  /** One conflict per event and field, as long as the event is not absorbed. */
  ghost predicate OnePerSlot(l: Ledger) {
    forall i, j :: 0 <= i < j < |l.cases| && l.cases[i].event !in l.merged ==>
      (l.cases[i].event, l.cases[i].field) != (l.cases[j].event, l.cases[j].field)
  }

  /** A detection under way knows every field of its event that has a conflict. */
  ghost predicate BusyKnow(l: Ledger) {
    && l.busy.Keys !! l.merged
    && forall i :: 0 <= i < |l.cases| && l.cases[i].event in l.busy ==> l.cases[i].field in l.busy[l.cases[i].event]
  }

  ghost predicate LedgerOk(l: Ledger) {
    CasesOk(l) && OnePerSlot(l) && BusyKnow(l)
  }

  lemma {:induction false} MaxSequenceIsLength(log: seq<Entry>)
    requires forall i :: 0 <= i < |log| ==> log[i].sequence == i + 1
    ensures MaxSequence(log) == |log|
  {
    if log != [] { MaxSequenceIsLength(log[..|log| - 1]); }
  }

  /** A row read with the current version is the current row. */
  lemma FreshIsNow(k: Case, seen: Row, status: Status)
    requires Truthful(k) && Fresh(k, seen, status)
    ensures seen == Now(k) && Now(k).status == status
  {
    var i :| 0 <= i < |k.past| && k.past[i] == seen;
  }

  lemma WriteTruthful(k: Case, next: Row, ids: set<ClaimId>, from: Status, to: Status, version: nat)
    requires Truthful(k) && Now(k).status == from && next.status == to && version == Now(k).version + 1
    ensures Truthful(Write(k, next, ids, from, to, version))
  {
    MaxSequenceIsLength(k.log);
  }

  lemma WriteOk(k: Case, next: Row, ids: set<ClaimId>, from: Status, to: Status, version: nat, merged: bool)
    requires CaseOk(k, merged) && Now(k).status == from && next.status == to && version == Now(k).version + 1
    requires RowClean(next, k.links + ids, merged)
    ensures CaseOk(Write(k, next, ids, from, to, version), merged)
  {
    WriteTruthful(k, next, ids, from, to, version);
    var k' := Write(k, next, ids, from, to, version);
    forall i | 0 <= i < |k'.past| ensures RowClean(k'.past[i], k'.links, merged) {
      if i < |k.past| { assert RowClean(k.past[i], k.links, merged); }
    }
  }

  /** What a write that takes effect makes of the row and the links, whoever wrote last before it. */
  ghost predicate Made(was: Row, now: Row, op: Op) {
    match op
    case MergeEvidence(_, _, _) => now.status == Open && now.winner == None && now.reason == NewEvidence
    case AutoClose(_, _, w, at) =>
      && now.status == Resolved && now.winner == Some(w) && now.resolvedBy == None && now.resolvedAt == Some(at)
      && now.reason == SystemAutoClosed
    case UpdateWinner(_, _, w) =>
      && now.status == Resolved && now.winner == Some(w) && now.resolvedBy == was.resolvedBy
      && now.resolvedAt == was.resolvedAt && now.reason == was.reason
    case ReopenForEvidence(_, _, _) => now.status == Open && now.winner == None && now.reason == NewEvidence
    case UserResolve(_, _, w, _, user, at) =>
      && now.status == Resolved && now.winner == Some(w) && now.resolvedBy == Some(user) && now.resolvedAt == Some(at)
      && now.reason == UserResolved
    case UserReopen(_, _) => now.status == Open && now.winner == None && now.reason == UserReopened
    case Tombstone(_, at) =>
      && now.status == Resolved && now.winner == None && now.resolvedBy == None && now.resolvedAt == Some(at)
      && now.reason == SystemAutoClosed
    case _ => false
  }

  /** The links a write needs: its evidence or its winner; a curator's reopen and a merge need none. */
  function Needs(op: Op): set<ClaimId> {
    match op
    case MergeEvidence(_, _, ids) => ids
    case ReopenForEvidence(_, _, ids) => ids
    case AutoClose(_, _, w, _) => {w}
    case UpdateWinner(_, _, w) => {w}
    case UserResolve(_, _, w, _, _, _) => {w}
    case _ => {}
  }

  /** A write leaves everything alone, or makes exactly what its use case promises, one version higher. */
  lemma WriteMakes(k: Case, op: Op, merged: bool)
    requires CaseOk(k, merged)
    ensures var k' := WriteCase(k, op);
      k' == k ||
      (&& k'.event == k.event && k'.field == k.field && k'.links == k.links + Needs(op)
       && |k'.past| == |k.past| + 1 && Now(k').version == Now(k).version + 1 && Made(Now(k), Now(k'), op))
  {
    assert RowClean(Now(k), k.links, merged);
    if OfCurator(op) { CuratorMakes(k, op); } else { SystemMakes(k, op); }
  }

  predicate OfCurator(op: Op) {
    op.UserResolve? || op.UserReopen?
  }

  lemma CuratorMakes(k: Case, op: Op)
    requires OfCurator(op) && k.past != [] && Truthful(k)
    ensures var k' := WriteCase(k, op);
      k' == k ||
      (&& k'.event == k.event && k'.field == k.field && k'.links == k.links + Needs(op)
       && |k'.past| == |k.past| + 1 && Now(k').version == Now(k).version + 1 && Made(Now(k), Now(k'), op))
  {
  }

  lemma SystemMakes(k: Case, op: Op)
    requires !OfCurator(op) && k.past != [] && Truthful(k)
    requires Now(k).status.Open? ==> Now(k).winner.None? && Now(k).resolvedBy.None?
    ensures var k' := WriteCase(k, op);
      k' == k ||
      (&& k'.event == k.event && k'.field == k.field && k'.links == k.links + Needs(op)
       && |k'.past| == |k.past| + 1 && Now(k').version == Now(k).version + 1 && Made(Now(k), Now(k'), op))
  {
    match op
    case MergeEvidence(_, seen, _) => if Fresh(k, seen, Open) { FreshIsNow(k, seen, Open); }
    case UpdateWinner(_, seen, _) => if Fresh(k, seen, Resolved) { FreshIsNow(k, seen, Resolved); }
    case _ =>
  }

  lemma CuratorWriteOk(k: Case, op: Op, merged: bool)
    requires CaseOk(k, merged) && OfCurator(op)
    ensures CaseOk(WriteCase(k, op), merged)
  {
    var now := Now(k);
    assert RowClean(now, k.links, merged);
    match op
    case UserResolve(_, seen, w, manual, user, at) =>
      if Fresh(k, seen, Open) && (manual || w in k.links) {
        FreshIsNow(k, seen, Open);
        WriteOk(k, now.(status := Resolved, winner := Some(w), resolvedBy := Some(user), resolvedAt := Some(at),
                        reason := UserResolved), {w}, Open, Resolved, seen.version + 1, merged);
      }
    case UserReopen(_, seen) =>
      if Fresh(k, seen, Resolved) {
        FreshIsNow(k, seen, Resolved);
        WriteOk(k, Opened(now, UserReopened), {}, Resolved, Open, seen.version + 1, merged);
      }
  }

  lemma OpenWriteOk(k: Case, op: Op, merged: bool)
    requires CaseOk(k, merged) && (op.MergeEvidence? || op.AutoClose?)
    ensures CaseOk(WriteCase(k, op), merged)
  {
    var now := Now(k);
    assert RowClean(now, k.links, merged);
    match op
    case MergeEvidence(_, seen, ids) =>
      if Fresh(k, seen, Open) {
        FreshIsNow(k, seen, Open);
        WriteOk(k, now.(reason := NewEvidence), ids, Open, Open, now.version + 1, merged);
      }
    case AutoClose(_, seen, w, at) =>
      if Fresh(k, seen, Open) {
        FreshIsNow(k, seen, Open);
        WriteOk(k, now.(status := Resolved, winner := Some(w), resolvedBy := None, resolvedAt := Some(at),
                        reason := SystemAutoClosed), {w}, Open, Resolved, now.version + 1, merged);
      }
  }

  lemma ResolvedWriteOk(k: Case, op: Op, merged: bool)
    requires CaseOk(k, merged) && (op.UpdateWinner? || op.ReopenForEvidence?)
    ensures CaseOk(WriteCase(k, op), merged)
  {
    var now := Now(k);
    assert RowClean(now, k.links, merged);
    match op
    case UpdateWinner(_, seen, w) =>
      if Fresh(k, seen, Resolved) {
        FreshIsNow(k, seen, Resolved);
        WriteOk(k, now.(winner := Some(w)), {w}, Resolved, Resolved, now.version + 1, merged);
      }
    case ReopenForEvidence(_, seen, ids) =>
      if Fresh(k, seen, Resolved) {
        FreshIsNow(k, seen, Resolved);
        WriteOk(k, Opened(now, NewEvidence), ids, Resolved, Open, now.version + 1, merged);
      }
  }

  /** Every write keeps the log truthful and the row clean, however stale the row it started from. */
  lemma WriteCaseOk(k: Case, op: Op, merged: bool)
    requires CaseOk(k, merged) && !op.Tombstone?
    ensures CaseOk(WriteCase(k, op), merged)
  {
    if OfCurator(op) {
      CuratorWriteOk(k, op, merged);
    } else if op.MergeEvidence? || op.AutoClose? {
      OpenWriteOk(k, op, merged);
    } else if op.UpdateWinner? || op.ReopenForEvidence? {
      ResolvedWriteOk(k, op, merged);
    }
  }

  lemma TombstoneOk(k: Case, e: EventId, at: nat, merged: bool)
    requires CaseOk(k, merged)
    ensures CaseOk(WriteCase(k, Tombstone(e, at)), merged || k.event == e)
    ensures k.event == e ==> Now(WriteCase(k, Tombstone(e, at))).status.Resolved?
  {
    var m := merged || k.event == e;
    assert CaseOk(k, m) by {
      forall i | 0 <= i < |k.past| ensures RowClean(k.past[i], k.links, m) {
        assert RowClean(k.past[i], k.links, merged);
      }
    }
    var now := Now(k);
    assert RowClean(now, k.links, m);
    if k.event == e && now.status.Open? {
      WriteOk(k, now.(status := Resolved, winner := None, resolvedAt := Some(at), reason := SystemAutoClosed),
              {}, Open, Resolved, now.version + 1, m);
    }
  }

  /** A write stays on its slot, loses no link and no past value, and changes nothing if it fails. */
  lemma WriteCaseExtends(k: Case, op: Op)
    ensures var k' := WriteCase(k, op);
      && k'.event == k.event && k'.field == k.field && k.links <= k'.links
      && k.past <= k'.past && k.log <= k'.log
      && (k' != k ==> |k'.past| == |k.past| + 1)
  {
  }

  // ---------------------------------------------------------------- what holds of every run

  ghost predicate Extends(l: Ledger, l': Ledger) {
    && |l.cases| <= |l'.cases| && l.merged <= l'.merged
    && forall i :: 0 <= i < |l.cases| ==> CaseExtends(l.cases[i], l'.cases[i])
  }

  ghost predicate CaseExtends(k: Case, k': Case) {
    k'.event == k.event && k'.field == k.field && k.links <= k'.links && k.past <= k'.past && k.log <= k'.log
  }

  lemma TombstoneStepOk(l: Ledger, e: EventId, at: nat)
    requires LedgerOk(l) && e !in l.busy && e !in l.merged
    ensures LedgerOk(Step(l, Tombstone(e, at))) && Extends(l, Step(l, Tombstone(e, at)))
  {
    var l' := Step(l, Tombstone(e, at));
    forall i | 0 <= i < |l.cases|
      ensures CaseOk(l'.cases[i], l'.cases[i].event in l'.merged) && CaseExtends(l.cases[i], l'.cases[i])
    {
      TombstoneOk(l.cases[i], e, at, l.cases[i].event in l.merged);
      WriteCaseExtends(l.cases[i], Tombstone(e, at));
    }
    assert OnePerSlot(l') && BusyKnow(l');
  }

  lemma InsertStepOk(l: Ledger, e: EventId, f: Field, ids: set<ClaimId>)
    requires LedgerOk(l) && e in l.busy && f !in l.busy[e]
    ensures LedgerOk(Step(l, Insert(e, f, ids))) && Extends(l, Step(l, Insert(e, f, ids)))
  {
    assert CaseOk(NewCase(e, f, ids), e in l.merged);
  }

  /** On an unabsorbed event a detection finds every conflict that exists. */
  lemma AllFieldsFound(l: Ledger, i: nat)
    requires LedgerOk(l) && i < |l.cases| && l.cases[i].event !in l.merged
    ensures l.cases[i].field in FieldsInConflict(l, l.cases[i].event)
  {
    var k := l.cases[i];
    assert CaseOk(k, false);
    assert RowClean(k.past[|k.past| - 1], k.links, false);
  }

  lemma BeginStepOk(l: Ledger, e: EventId)
    requires LedgerOk(l)
    ensures LedgerOk(Step(l, BeginDetect(e))) && Extends(l, Step(l, BeginDetect(e)))
  {
    if e !in l.merged {
      forall i | 0 <= i < |l.cases| && l.cases[i].event == e ensures l.cases[i].field in FieldsInConflict(l, e) {
        AllFieldsFound(l, i);
      }
    }
  }

  lemma UpdateStepOk(l: Ledger, id: CaseId, k: Case)
    requires LedgerOk(l) && id < |l.cases| && CaseExtends(l.cases[id], k)
    requires CaseOk(k, k.event in l.merged)
    ensures LedgerOk(l.(cases := l.cases[id := k])) && Extends(l, l.(cases := l.cases[id := k]))
  {
  }

  lemma StepOk(l: Ledger, op: Op)
    requires LedgerOk(l)
    ensures LedgerOk(Step(l, op)) && Extends(l, Step(l, op))
  {
    match op
    case Tombstone(e, at) => if e !in l.busy && e !in l.merged { TombstoneStepOk(l, e, at); }
    case BeginDetect(e) => BeginStepOk(l, e);
    case EndDetect(e) =>
    case Insert(e, f, ids) => if e in l.busy && f !in l.busy[e] { InsertStepOk(l, e, f, ids); }
    case _ =>
      if op.id < |l.cases| {
        WriteCaseOk(l.cases[op.id], op, l.cases[op.id].event in l.merged);
        WriteCaseExtends(l.cases[op.id], op);
        UpdateStepOk(l, op.id, WriteCase(l.cases[op.id], op));
      }
  }

  lemma ExtendsTransitive(a: Ledger, b: Ledger, c: Ledger)
    requires Extends(a, b) && Extends(b, c)
    ensures Extends(a, c)
  {
    forall i | 0 <= i < |a.cases| ensures CaseExtends(a.cases[i], c.cases[i]) {
      assert CaseExtends(a.cases[i], b.cases[i]) && CaseExtends(b.cases[i], c.cases[i]);
    }
  }

  /** Every run keeps the invariant, and only ever adds: links, past values, log entries, conflicts. */
  lemma {:induction false} RunOk(l: Ledger, ops: seq<Op>)
    requires LedgerOk(l)
    ensures LedgerOk(Run(l, ops)) && Extends(l, Run(l, ops))
    decreases |ops|
  {
    if ops != [] {
      var before := Run(l, ops[..|ops| - 1]);
      RunOk(l, ops[..|ops| - 1]);
      StepOk(before, ops[|ops| - 1]);
      ExtendsTransitive(l, before, Step(before, ops[|ops| - 1]));
    }
  }

  /** The status a log leads to, if each entry starts where the one before it ended. */
  function Replay(log: seq<Entry>): Option<Status> {
    if log == [] then None
    else
      var last := log[|log| - 1];
      if last.fromStatus == Replay(log[..|log| - 1]) then Some(last.toStatus) else None
  }

  lemma {:induction false} TruthfulReplays(k: Case, n: nat)
    requires Truthful(k) && 0 < n <= |k.log|
    ensures Replay(k.log[..n]) == Some(k.past[n - 1].status)
  {
    assert k.log[..n][..n - 1] == k.log[..n - 1];
    if n > 1 { TruthfulReplays(k, n - 1); }
  }

  /** Entry `n` of the log is numbered n, was written at version n, and the log up to it gives the row after it. */
  ghost predicate ReplaysAt(k: Case, n: nat) {
    && 0 < n <= |k.log| == |k.past|
    && k.log[n - 1].sequence == n && k.log[n - 1].versionAtMoment == n && k.past[n - 1].version == n
    && Replay(k.log[..n]) == Some(k.past[n - 1].status)
  }

  lemma TruthfulReplaysAt(k: Case, n: nat)
    requires Truthful(k) && 0 < n <= |k.log|
    ensures ReplaysAt(k, n) && Now(k).version == |k.log| && Replay(k.log) == Some(Now(k).status)
  {
    TruthfulReplays(k, n);
    TruthfulReplays(k, |k.log|);
    assert k.log[..|k.log|] == k.log;
  }

  lemma RunTruthful(ops: seq<Op>, id: CaseId)
    requires id < |Run(Empty, ops).cases|
    ensures Truthful(Run(Empty, ops).cases[id])
  {
    RunOk(Empty, ops);
    assert CaseOk(Run(Empty, ops).cases[id], Run(Empty, ops).cases[id].event in Run(Empty, ops).merged);
  }

  /**
   In every reachable state each activity log replays, entry by entry, to the status its row had
   after that entry, with entry n at version n, and the whole log replays to the row.
   */
  lemma LogsReplay(ops: seq<Op>, id: CaseId, n: nat)
    requires id < |Run(Empty, ops).cases| && 0 < n <= |Run(Empty, ops).cases[id].log|
    ensures var k := Run(Empty, ops).cases[id];
      ReplaysAt(k, n) && Now(k).version == |k.log| && Replay(k.log) == Some(Now(k).status)
  {
    RunTruthful(ops, id);
    TruthfulReplaysAt(Run(Empty, ops).cases[id], n);
  }

  /** In every reachable state the conflicts of unabsorbed events are one per field, open and bare or won and linked. */
  lemma ConflictsSound(ops: seq<Op>, id: CaseId, other: CaseId)
    requires id < |Run(Empty, ops).cases| && other < |Run(Empty, ops).cases|
    requires Run(Empty, ops).cases[id].event !in Run(Empty, ops).merged
    ensures var k, o := Run(Empty, ops).cases[id], Run(Empty, ops).cases[other];
      && k.past != []
      && (k.event == o.event && k.field == o.field ==> id == other)
      && (Now(k).status.Open? ==> Now(k).winner.None? && Now(k).resolvedBy.None? && Now(k).resolvedAt.None?)
      && (Now(k).status.Resolved? ==> Now(k).winner.Some? && Now(k).winner.value in k.links)
  {
    RunOk(Empty, ops);
    var l := Run(Empty, ops);
    var k := l.cases[id];
    assert CaseOk(k, false);
    assert RowClean(k.past[|k.past| - 1], k.links, false);
  }

  /** Right after a merge the absorbed event has no open conflict, and each one closed gained one log entry. */
  lemma TombstoneCloses(l: Ledger, e: EventId, at: nat, id: CaseId)
    requires LedgerOk(l) && e !in l.busy && e !in l.merged && id < |l.cases| && l.cases[id].event == e
    ensures var k, k' := l.cases[id], Step(l, Tombstone(e, at)).cases[id];
      && k.past != [] && k'.past != [] && Now(k').status.Resolved?
      && |k'.log| == |k.log| + (if Now(k).status.Open? then 1 else 0)
      && (Now(k).status.Open? ==> Now(k').winner.None? && Now(k').version == Now(k).version + 1)
  {
    TombstoneOk(l.cases[id], e, at, l.cases[id].event in l.merged);
    assert CaseOk(l.cases[id], l.cases[id].event in l.merged);
  }

  lemma RunLast(l: Ledger, ops: seq<Op>, op: Op)
    ensures Run(l, ops + [op]) == Step(Run(l, ops), op)
  {
    assert (ops + [op])[..|ops|] == ops;
  }

  lemma {:induction false} RunAppend(l: Ledger, a: seq<Op>, b: seq<Op>)
    ensures Run(l, a + b) == Run(Run(l, a), b)
    decreases |b|
  {
    if b == [] {
      assert a + b == a;
    } else {
      RunAppend(l, a, b[..|b| - 1]);
      assert (a + b)[..|a + b| - 1] == a + b[..|b| - 1];
    }
  }
}
