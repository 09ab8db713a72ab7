/**
 A merge among other writers.

 The merge locks both event rows before it reads a claim and keeps the locks until it ends.  A
 curator's resolve or reopen takes no such lock of its own, but it must insert rows that refer to
 its event, and the foreign key takes a shared lock on the event row, which it keeps to its end; an
 ingestion locks its event row as the merge does.  So no writer of either event commits while the
 merge is under way, whatever the interleaving, and the merge moves exactly the evidence it found.
 */
module MergeRace {
  import opened Common
  import opened Claims
  import opened Evidence
  import MG = MergeGraph

  type TxId = nat

  /** FOR KEY SHARE of a foreign key, or FOR UPDATE. */
  datatype Mode = Shared | Exclusive

  /** What a writer does to the claims of its event. */
  datatype Edit = Supersede(c: ClaimId, winner: ClaimId) | Restore(c: ClaimId, kind: Kind) | Add(claim: Claim)

  /**
   A writer collects edits and commits them under its lock: a curator's use case with a shared one,
   an ingestion with an exclusive one.  `found` is what a merge saw when it read the claims.
   */
  datatype Tx =
    | Writer(event: EventId, mode: Mode, edits: seq<Edit>, locked: bool)
    | Merger(source: EventId, target: EventId, held: set<EventId>, stage: Stage)

  datatype Stage =
    | Locking
    | Moving(found: seq<Claim>, order: seq<ClaimId>, copies: seq<Claim>, live: seq<bool>)

  datatype State = State(store: Store, txs: map<TxId, Tx>)

  datatype Act =
    | BeginWrite(event: EventId, mode: Mode)
    | EditClaim(edit: Edit)
    | LockOwn
    | CommitWrite
    | BeginMerge(source: EventId, target: EventId)
    | LockEvent(event: EventId)
    | ReadActive
    | CopyOne
    | SupersedeOne
    | CommitMerge
    | Abandon

  function Holds(tx: Tx, e: EventId): Option<Mode> {
    match tx
    case Writer(event, mode, _, locked) => if locked && e == event then Some(mode) else None
    case Merger(_, _, held, _) => if e in held then Some(Exclusive) else None
  }

  predicate Compatible(a: Option<Mode>, b: Option<Mode>) {
    a.None? || b.None? || (a == Some(Shared) && b == Some(Shared))
  }

  predicate Free(s: State, t: TxId, e: EventId, mode: Mode) {
    forall u :: u in s.txs && u != t ==> Compatible(Some(mode), Holds(s.txs[u], e))
  }

  /** An edit touches only claims of the writer's event. */
  function Edited(claims: seq<Claim>, e: EventId, edit: Edit): seq<Claim> {
    match edit
    case Supersede(c, winner) =>
      if c < |claims| && claims[c].event == e then claims[c := Demoted(claims[c], winner)] else claims
    case Restore(c, kind) =>
      if c < |claims| && claims[c].event == e
      then claims[c := claims[c].(kind := kind, supersededBy := None)] else claims
    case Add(claim) => if claim.event == e then claims + [claim] else claims
  }

  function EditedAll(claims: seq<Claim>, e: EventId, edits: seq<Edit>): seq<Claim> {
    if edits == [] then claims
    else Edited(EditedAll(claims, e, edits[..|edits| - 1]), e, edits[|edits| - 1])
  }

  /** `find_active_by_event`. */
  function ActiveIds(claims: seq<Claim>, n: nat, e: EventId): seq<ClaimId>
    requires n <= |claims|
  {
    if n == 0 then []
    else if Active(claims[n - 1]) && claims[n - 1].event == e then ActiveIds(claims, n - 1, e) + [n - 1]
    else ActiveIds(claims, n - 1, e)
  }

  /** The first `n` supersessions of the merge's second loop; `live` is what its guards saw. */
  function SupersededTo(claims: seq<Claim>, order: seq<ClaimId>, live: seq<bool>, first: ClaimId, n: nat): seq<Claim>
    requires n <= |order| == |live| && forall k :: 0 <= k < |order| ==> order[k] < |claims|
    ensures |SupersededTo(claims, order, live, first, n)| == |claims|
  {
    if n == 0 then claims
    else
      var before := SupersededTo(claims, order, live, first, n - 1);
      if live[n - 1] then before[order[n - 1] := Superseding(before[order[n - 1]], first + n - 1)] else before
  }

  /** What a merge commits. */
  function MergedStore(s: Store, source: EventId, target: EventId, m: Stage): Store
    requires m.Moving? && |m.live| == |m.order| && forall k :: 0 <= k < |m.order| ==> m.order[k] < |s.claims|
  {
    Store(s.events[source := Some(target)], s.snapshots,
          SupersededTo(s.claims, m.order, m.live, |s.claims|, |m.order|) + m.copies)
  }

  function Put(s: State, t: TxId, tx: Tx): State {
    s.(txs := s.txs[t := tx])
  }

  function End(s: State, t: TxId): State {
    s.(txs := s.txs - {t})
  }

  /** A transaction begins. */
  function Started(s: State, t: TxId, a: Act): State {
    match a
    case BeginWrite(e, mode) => Put(s, t, Writer(e, mode, [], false))
    case BeginMerge(source, target) => Put(s, t, Merger(source, target, {}, Locking))
    case _ => s
  }

  /** A writer's statement; ingestion refuses a merged event when it locks it. */
  function WriterStep(s: State, t: TxId, w: Tx, a: Act): State
    requires w.Writer?
  {
    match a
    case EditClaim(edit) => Put(s, t, w.(edits := w.edits + [edit]))
    case LockOwn =>
      if !Free(s, t, w.event, w.mode) then s
      else if w.mode.Exclusive? && MG.Merged(s.store.events, w.event) then End(s, t)
      else Put(s, t, w.(locked := true))
    case CommitWrite =>
      if !w.locked then s
      else State(s.store.(claims := EditedAll(s.store.claims, w.event, w.edits)), s.txs - {t})
    case Abandon => End(s, t)
    case _ => s
  }

  /** A merge's statement: both locks, the checks and the read, then one claim at a time. */
  function MergerStep(s: State, t: TxId, m: Tx, a: Act): State
    requires m.Merger?
  {
    match a
    case LockEvent(e) =>
      if (e == m.source || e == m.target) && Free(s, t, e, Exclusive)
      then Put(s, t, m.(held := m.held + {e})) else s
    case ReadActive =>
      if m.stage != Locking || m.source !in m.held || m.target !in m.held then s
      else if MG.MergePointers(s.store.events, m.source, m.target).Err? then End(s, t)
      else
        var claims := s.store.claims;
        Put(s, t, m.(stage := Moving(claims, ActiveIds(claims, |claims|, m.source), [], [])))
    case CopyOne =>
      if m.stage.Locking? || |m.stage.copies| >= |m.stage.order| then s
      else
        var c := m.stage.order[|m.stage.copies|];
        if c >= |m.stage.found| then s
        else Put(s, t, m.(stage := m.stage.(copies := m.stage.copies + [CopyTo(m.stage.found[c], m.target)])))
    case SupersedeOne =>
      if m.stage.Locking? || |m.stage.copies| != |m.stage.order| || |m.stage.live| >= |m.stage.order| then s
      else
        var c := m.stage.order[|m.stage.live|];
        if c >= |s.store.claims| then s
        else Put(s, t, m.(stage := m.stage.(live := m.stage.live + [Active(s.store.claims[c])])))
    case CommitMerge =>
      if CanCommit(s, m) then State(MergedStore(s.store, m.source, m.target, m.stage), s.txs - {t}) else s
    case Abandon => End(s, t)
    case _ => s
  }

  predicate CanCommit(s: State, m: Tx)
    requires m.Merger?
  {
    && m.stage.Moving? && |m.stage.live| == |m.stage.order|
    && forall k :: 0 <= k < |m.stage.order| ==> m.stage.order[k] < |s.store.claims|
  }

  function Step(s: State, t: TxId, a: Act): State {
    if t !in s.txs then Started(s, t, a)
    else if s.txs[t].Writer? then WriterStep(s, t, s.txs[t], a)
    else MergerStep(s, t, s.txs[t], a)
  }

  function Run(s: State, script: seq<(TxId, Act)>): State
    decreases |script|
  {
    if script == [] then s
    else Step(Run(s, script[..|script| - 1]), script[|script| - 1].0, script[|script| - 1].1)
  }

  // ---------------------------------------------------------------- what holds

  ghost predicate LocksRight(s: State) {
    forall t, u, e :: t in s.txs && u in s.txs && t != u ==> Compatible(Holds(s.txs[t], e), Holds(s.txs[u], e))
  }

  /** Claims of an event are as they were, and no other claim joined it. */
  ghost predicate SameOn(claims: seq<Claim>, claims': seq<Claim>, e: EventId) {
    && |claims| <= |claims'|
    && (forall i :: 0 <= i < |claims| ==> claims'[i].event == claims[i].event)
    && (forall i :: 0 <= i < |claims| && claims[i].event == e ==> claims'[i] == claims[i])
    && (forall i :: |claims| <= i < |claims'| ==> claims'[i].event != e)
  }

  /** A merge that has read: its events are still unmerged and their claims as it found them. */
  ghost predicate MovingRight(s: State, m: Tx)
    requires m.Merger? && m.stage.Moving?
  {
    && m.source in m.held && m.target in m.held && MG.MergePointers(s.store.events, m.source, m.target).Ok?
    && Lists(m.stage.found, m.source, m.stage.order)
    && SameOn(m.stage.found, s.store.claims, m.source) && SameOn(m.stage.found, s.store.claims, m.target)
    && LoopsRight(m)
  }

  /** How far the two loops have come; every claim was still active when its guard looked. */
  ghost predicate LoopsRight(m: Tx)
    requires m.Merger? && m.stage.Moving?
  {
    && |m.stage.copies| <= |m.stage.order| && |m.stage.live| <= |m.stage.order|
    && (|m.stage.live| > 0 ==> |m.stage.copies| == |m.stage.order|)
    && (forall k :: 0 <= k < |m.stage.order| ==> m.stage.order[k] < |m.stage.found|)
    && (forall k :: 0 <= k < |m.stage.copies| ==>
          m.stage.copies[k] == CopyTo(m.stage.found[m.stage.order[k]], m.target))
    && (forall k :: 0 <= k < |m.stage.live| ==> m.stage.live[k])
  }

  ghost predicate TxRight(s: State, tx: Tx) {
    tx.Merger? && tx.stage.Moving? ==> MovingRight(s, tx)
  }

  ghost predicate Inv(s: State) {
    LocksRight(s) && forall t :: t in s.txs ==> TxRight(s, s.txs[t])
  }

  // ---------------------------------------------------------------- what commits touch

  lemma SameOnRefl(claims: seq<Claim>, e: EventId)
    ensures SameOn(claims, claims, e)
  {
  }

  lemma SameOnTrans(a: seq<Claim>, b: seq<Claim>, c: seq<Claim>, e: EventId)
    requires SameOn(a, b, e) && SameOn(b, c, e)
    ensures SameOn(a, c, e)
  {
    forall i | |a| <= i < |c| ensures c[i].event != e { if i < |b| { assert b[i].event != e; } }
  }

  lemma {:induction false} EditsElsewhere(claims: seq<Claim>, e: EventId, edits: seq<Edit>, other: EventId)
    requires e != other
    ensures SameOn(claims, EditedAll(claims, e, edits), other)
  {
    if edits != [] {
      var before := EditedAll(claims, e, edits[..|edits| - 1]);
      EditsElsewhere(claims, e, edits[..|edits| - 1], other);
      EditElsewhere(before, e, edits[|edits| - 1], other);
      SameOnTrans(claims, before, EditedAll(claims, e, edits), other);
    }
  }

  lemma EditElsewhere(claims: seq<Claim>, e: EventId, edit: Edit, other: EventId)
    requires e != other
    ensures SameOn(claims, Edited(claims, e, edit), other)
  {
  }

  lemma {:induction false} ActiveIdsList(claims: seq<Claim>, n: nat, e: EventId)
    requires n <= |claims|
    ensures NoRepeats(ActiveIds(claims, n, e))
    ensures forall k :: 0 <= k < |ActiveIds(claims, n, e)| ==> ActiveIds(claims, n, e)[k] < n
    ensures forall i: ClaimId :: i in ActiveIds(claims, n, e) <==> i < n && Active(claims[i]) && claims[i].event == e
  {
    if n > 0 { ActiveIdsList(claims, n - 1, e); }
  }

  /** The second loop leaves a claim it does not list. */
  lemma {:induction false} LeftAt(claims: seq<Claim>, order: seq<ClaimId>, live: seq<bool>, first: ClaimId, n: nat,
                                  i: ClaimId)
    requires n <= |order| == |live| && forall j :: 0 <= j < |order| ==> order[j] < |claims|
    requires i < |claims| && forall j :: 0 <= j < n ==> order[j] != i
    ensures SupersededTo(claims, order, live, first, n)[i] == claims[i]
  {
    if n > 0 { LeftAt(claims, order, live, first, n - 1, i); }
  }

  /** It supersedes the claims it lists, each by its own copy. */
  lemma {:induction false} WonAt(claims: seq<Claim>, order: seq<ClaimId>, live: seq<bool>, first: ClaimId, n: nat,
                                 k: nat)
    requires k < n <= |order| == |live| && forall j :: 0 <= j < |order| ==> order[j] < |claims|
    requires NoRepeats(order) && live[k]
    ensures SupersededTo(claims, order, live, first, n)[order[k]] == Superseding(claims[order[k]], first + k)
  {
    if k == n - 1 {
      LeftAt(claims, order, live, first, n - 1, order[k]);
    } else {
      WonAt(claims, order, live, first, n - 1, k);
    }
  }

  /** As long as nobody touched its events, a listing of active claims stays one. */
  lemma StillLists(found: seq<Claim>, claims: seq<Claim>, e: EventId, order: seq<ClaimId>)
    requires Lists(found, e, order) && SameOn(found, claims, e)
    ensures Lists(claims, e, order)
  {
    forall i: ClaimId ensures i in order <==> i < |claims| && Active(claims[i]) && claims[i].event == e {
      if i in order { var k :| 0 <= k < |order| && order[k] == i; }
    }
  }

  ghost predicate MovedAt(claims: seq<Claim>, after: seq<Claim>, target: EventId, order: seq<ClaimId>, k: nat)
    requires k < |order| && order[k] < |claims| && |after| == |claims| + |order|
  {
    && after[|claims| + k] == CopyTo(claims[order[k]], target)
    && after[order[k]] == Superseding(claims[order[k]], |claims| + k)
  }

  lemma LoopsMoveAt(claims: seq<Claim>, copies: seq<Claim>, target: EventId, order: seq<ClaimId>, live: seq<bool>,
                    k: nat)
    requires k < |order| == |live| == |copies| && forall j :: 0 <= j < |order| ==> order[j] < |claims|
    requires NoRepeats(order) && live[k] && copies[k] == CopyTo(claims[order[k]], target)
    ensures MovedAt(claims, SupersededTo(claims, order, live, |claims|, |order|) + copies, target, order, k)
  {
    WonAt(claims, order, live, |claims|, |order|, k);
  }

  lemma MovedClaims(claims: seq<Claim>, after: seq<Claim>, source: EventId, target: EventId, order: seq<ClaimId>)
    requires Lists(claims, source, order) && |after| == |claims| + |order|
    requires forall k :: 0 <= k < |order| ==> MovedAt(claims, after, target, order, k)
    requires forall i :: 0 <= i < |claims| && i !in order ==> after[i] == claims[i]
    ensures ClaimsMoved(claims, after, source, target, order)
  {
    forall k | 0 <= k < |order|
      ensures after[|claims| + k] == CopyTo(claims[order[k]], target)
      ensures after[order[k]] == Superseding(claims[order[k]], |claims| + k)
    {
      assert MovedAt(claims, after, target, order, k);
    }
  }

  lemma LoopsKeepAt(claims: seq<Claim>, copies: seq<Claim>, order: seq<ClaimId>, live: seq<bool>, i: nat)
    requires |order| == |live| == |copies| && forall j :: 0 <= j < |order| ==> order[j] < |claims|
    requires i < |claims| && i !in order
    ensures (SupersededTo(claims, order, live, |claims|, |order|) + copies)[i] == claims[i]
  {
    LeftAt(claims, order, live, |claims|, |order|, i);
  }

  /** The two loops together move the claims. */
  lemma LoopsMove(claims: seq<Claim>, copies: seq<Claim>, source: EventId, target: EventId, order: seq<ClaimId>,
                  live: seq<bool>)
    requires Lists(claims, source, order) && |order| == |live| == |copies|
    requires forall k :: 0 <= k < |live| ==> live[k]
    requires forall k :: 0 <= k < |order| ==> copies[k] == CopyTo(claims[order[k]], target)
    ensures ClaimsMoved(claims, SupersededTo(claims, order, live, |claims|, |order|) + copies, source, target, order)
  {
    var after := SupersededTo(claims, order, live, |claims|, |order|) + copies;
    forall k | 0 <= k < |order| ensures MovedAt(claims, after, target, order, k) {
      LoopsMoveAt(claims, copies, target, order, live, k);
    }
    forall i | 0 <= i < |claims| && i !in order ensures after[i] == claims[i] {
      LoopsKeepAt(claims, copies, order, live, i);
    }
    MovedClaims(claims, after, source, target, order);
  }

  /** The copies are the claims as they stand when the merge commits. */
  lemma CopiesStand(s: State, m: Tx)
    requires m.Merger? && m.stage.Moving? && MovingRight(s, m) && |m.stage.live| == |m.stage.order|
    ensures CanCommit(s, m) && |m.stage.copies| == |m.stage.order|
    ensures forall k :: 0 <= k < |m.stage.order| ==>
      m.stage.copies[k] == CopyTo(s.store.claims[m.stage.order[k]], m.target)
  {
    forall k | 0 <= k < |m.stage.order|
      ensures m.stage.order[k] < |s.store.claims|
      ensures m.stage.copies[k] == CopyTo(s.store.claims[m.stage.order[k]], m.target)
    {
      assert m.stage.order[k] in m.stage.order;
      assert m.stage.found[m.stage.order[k]].event == m.source;
    }
  }

  /** A merge commits exactly the atomic merge of the store it commits to. */
  lemma CommitIsMerge(s: State, m: Tx)
    requires m.Merger? && m.stage.Moving? && MovingRight(s, m) && |m.stage.live| == |m.stage.order|
    ensures CanCommit(s, m)
    ensures Merged(s.store, MergedStore(s.store, m.source, m.target, m.stage), m.source, m.target, m.stage.order)
  {
    CopiesStand(s, m);
    StillLists(m.stage.found, s.store.claims, m.source, m.stage.order);
    LoopsMove(s.store.claims, m.stage.copies, m.source, m.target, m.stage.order, m.stage.live);
    PointersMoved(s.store.events, m.source, m.target);
  }

  lemma PointersMoved(events: MG.Store, source: EventId, target: EventId)
    requires MG.MergePointers(events, source, target).Ok?
    ensures MG.MergePointers(events, source, target).value == events[source := Some(target)]
  {
  }

  lemma MovesElsewhere(claims: seq<Claim>, claims': seq<Claim>, source: EventId, target: EventId,
                       order: seq<ClaimId>, other: EventId)
    requires ClaimsMoved(claims, claims', source, target, order) && other != source && other != target
    ensures SameOn(claims, claims', other)
  {
    forall i | 0 <= i < |claims| ensures claims'[i].event == claims[i].event
      ensures claims[i].event == other ==> claims'[i] == claims[i]
    {
      if i in order { var k :| 0 <= k < |order| && order[k] == i; }
    }
    forall i | |claims| <= i < |claims'| ensures claims'[i].event != other {
      assert claims'[|claims| + (i - |claims|)] == CopyTo(claims[order[i - |claims|]], target);
    }
  }

  // ---------------------------------------------------------------- every step

  /** The store changes only on events the transaction has locked. */
  lemma CommitsOnLocked(s: State, t: TxId, a: Act, e: EventId)
    requires Inv(s) && (t in s.txs ==> Holds(s.txs[t], e).None?)
    ensures SameOn(s.store.claims, Step(s, t, a).store.claims, e)
    ensures MG.Root(s.store.events, e) ==> MG.Root(Step(s, t, a).store.events, e)
  {
    SameOnRefl(s.store.claims, e);
    if t in s.txs {
      var tx := s.txs[t];
      if tx.Writer? {
        if tx.event != e { EditsElsewhere(s.store.claims, tx.event, tx.edits, e); }
      } else if a.CommitMerge? && CanCommit(s, tx) {
        assert TxRight(s, tx);
        CommitIsMerge(s, tx);
        var s' := MergedStore(s.store, tx.source, tx.target, tx.stage);
        MovesElsewhere(s.store.claims, s'.claims, tx.source, tx.target, tx.stage.order, e);
      }
    }
  }

  /** A merge that has read keeps what it found through everybody else's steps. */
  lemma OthersKeepMoving(s: State, t: TxId, a: Act, u: TxId)
    requires Inv(s) && u in s.txs && u != t && s.txs[u].Merger? && s.txs[u].stage.Moving?
    ensures MovingRight(Step(s, t, a), s.txs[u])
  {
    var m := s.txs[u];
    assert TxRight(s, m);
    forall e | e == m.source || e == m.target ensures t in s.txs ==> Holds(s.txs[t], e).None? {
      assert t in s.txs ==> Compatible(Holds(s.txs[t], e), Holds(m, e));
    }
    CommitsOnLocked(s, t, a, m.source);
    CommitsOnLocked(s, t, a, m.target);
    SameOnTrans(m.stage.found, s.store.claims, Step(s, t, a).store.claims, m.source);
    SameOnTrans(m.stage.found, s.store.claims, Step(s, t, a).store.claims, m.target);
  }

  /** A transaction's new lock was free. */
  lemma LocksWaitedFor(s: State, t: TxId, a: Act, u: TxId, e: EventId)
    requires LocksRight(s) && t in Step(s, t, a).txs && u in s.txs && u != t
    ensures Compatible(Holds(Step(s, t, a).txs[t], e), Holds(s.txs[u], e))
    ensures Compatible(Holds(s.txs[u], e), Holds(Step(s, t, a).txs[t], e))
  {
  }

  lemma StepKeepsLocks(s: State, t: TxId, a: Act)
    requires LocksRight(s)
    ensures LocksRight(Step(s, t, a))
  {
    var s' := Step(s, t, a);
    forall u, v, e | u in s'.txs && v in s'.txs && u != v ensures Compatible(Holds(s'.txs[u], e), Holds(s'.txs[v], e)) {
      if u == t {
        OthersKeepTx(s, t, a, v);
        LocksWaitedFor(s, t, a, v, e);
      } else if v == t {
        OthersKeepTx(s, t, a, u);
        LocksWaitedFor(s, t, a, u, e);
      }
    }
  }

  lemma OwnStepRight(s: State, t: TxId, a: Act)
    requires Inv(s) && t in Step(s, t, a).txs
    ensures TxRight(Step(s, t, a), Step(s, t, a).txs[t])
  {
    if t in s.txs && s.txs[t].Merger? {
      var m := s.txs[t];
      assert TxRight(s, m);
      match a
      case ReadActive =>
        ActiveIdsList(s.store.claims, |s.store.claims|, m.source);
        SameOnRefl(s.store.claims, m.source);
        SameOnRefl(s.store.claims, m.target);
      case SupersedeOne =>
        if m.stage.Moving? && |m.stage.live| < |m.stage.order| {
          var c := m.stage.order[|m.stage.live|];
          assert c in m.stage.order;
        }
      case _ =>
    }
  }

  lemma StepKeepsInv(s: State, t: TxId, a: Act)
    requires Inv(s)
    ensures Inv(Step(s, t, a))
  {
    var s' := Step(s, t, a);
    StepKeepsLocks(s, t, a);
    forall u | u in s'.txs ensures TxRight(s', s'.txs[u]) {
      if u == t {
        OwnStepRight(s, t, a);
      } else {
        assert u in s.txs && s'.txs[u] == s.txs[u];
        if s.txs[u].Merger? && s.txs[u].stage.Moving? { OthersKeepMoving(s, t, a, u); }
      }
    }
  }

  lemma {:induction false} RunKeepsInv(s: State, script: seq<(TxId, Act)>)
    requires Inv(s)
    ensures Inv(Run(s, script))
    decreases |script|
  {
    if script != [] {
      var last := script[|script| - 1];
      RunKeepsInv(s, script[..|script| - 1]);
      StepKeepsInv(Run(s, script[..|script| - 1]), last.0, last.1);
    }
  }

  // ---------------------------------------------------------------- the theorems

  /**
   In every interleaving, whatever stands in the store at the start: a merge that commits moves
   exactly the claims it found, as if it had run alone, and conserves what the store says.
   */
  lemma MergeSerial(store: Store, script: seq<(TxId, Act)>, t: TxId)
    requires var s := Run(State(store, map[]), script);
      t in s.txs && s.txs[t].Merger? && CanCommit(s, s.txs[t])
    ensures var s := Run(State(store, map[]), script);
      var m := s.txs[t];
      var s' := Step(s, t, CommitMerge);
      && Merged(s.store, s'.store, m.source, m.target, m.stage.order)
      && SameOn(m.stage.found, s.store.claims, m.source) && SameOn(m.stage.found, s.store.claims, m.target)
      && forall e, x :: Conserved(s.store.claims, s'.store.claims, m.source, m.target, e, x)
  {
    RunKeepsInv(State(store, map[]), script);
    CommitConserves(Run(State(store, map[]), script), t);
  }

  lemma CommitConserves(s: State, t: TxId)
    requires Inv(s) && t in s.txs && s.txs[t].Merger? && CanCommit(s, s.txs[t])
    ensures var m := s.txs[t];
      var s' := Step(s, t, CommitMerge);
      && Merged(s.store, s'.store, m.source, m.target, m.stage.order)
      && SameOn(m.stage.found, s.store.claims, m.source) && SameOn(m.stage.found, s.store.claims, m.target)
      && forall e, x :: Conserved(s.store.claims, s'.store.claims, m.source, m.target, e, x)
  {
    var m := s.txs[t];
    assert TxRight(s, m);
    CommitIsMerge(s, m);
    MergeConserves(s.store.claims, Step(s, t, CommitMerge).store.claims, m.source, m.target, m.stage.order);
  }

  /** A writer of an event that a merge holds has no lock, gets none, and commits nothing. */
  lemma WriterWaits(s: State, t: TxId, u: TxId)
    requires Inv(s) && t in s.txs && u in s.txs && t != u
    requires s.txs[u].Writer? && Holds(s.txs[t], s.txs[u].event) == Some(Exclusive)
    ensures !s.txs[u].locked
    ensures Step(s, u, CommitWrite) == s && Step(s, u, LockOwn) == s
  {
    assert Compatible(Holds(s.txs[t], s.txs[u].event), Holds(s.txs[u], s.txs[u].event));
  }

  lemma OthersKeepTx(s: State, t: TxId, a: Act, u: TxId)
    requires u != t
    ensures u in s.txs <==> u in Step(s, t, a).txs
    ensures u in s.txs ==> Step(s, t, a).txs[u] == s.txs[u]
  {
  }

  /**
   From the moment a merge holds an event until it ends, no other transaction changes the event's
   claims: every resolve, reopen and ingestion lies wholly before or wholly after.
   */
  lemma {:induction false} HeldEventFrozen(s: State, script: seq<(TxId, Act)>, t: TxId, e: EventId)
    requires Inv(s) && t in s.txs && s.txs[t].Merger? && e in s.txs[t].held
    requires forall i :: 0 <= i < |script| ==> script[i].0 != t
    ensures Inv(Run(s, script)) && t in Run(s, script).txs && Run(s, script).txs[t] == s.txs[t]
    ensures SameOn(s.store.claims, Run(s, script).store.claims, e)
    decreases |script|
  {
    if script == [] {
      SameOnRefl(s.store.claims, e);
    } else {
      var n := |script| - 1;
      var before, u, a := Run(s, script[..n]), script[n].0, script[n].1;
      HeldEventFrozen(s, script[..n], t, e);
      OthersKeepTx(before, u, a, t);
      StepKeepsInv(before, u, a);
      assert u in before.txs ==> Compatible(Holds(before.txs[u], e), Holds(before.txs[t], e));
      CommitsOnLocked(before, u, a, e);
      SameOnTrans(s.store.claims, before.store.claims, Run(s, script).store.claims, e);
    }
  }

  // ---------------------------------------------------------------- why the shared lock matters

  /** A merge that has read and copied, and a resolve that holds its event as if locks did not conflict. */
  const Overlapping: State :=
    State(Store(map[0 := None, 1 := None], [], [Claim(0, 5, None, "operator", 1, Raw, None, 0, None)]),
          map[0 := Merger(0, 1, {0, 1}, Moving([Claim(0, 5, None, "operator", 1, Raw, None, 0, None)], [0],
                                               [Claim(1, 5, None, "operator", 1, Raw, None, 0, None)], [])),
              1 := Writer(0, Shared, [Supersede(0, 9)], true)])

  /** Without it a claim could lose between the two loops and still speak through its copy. */
  lemma SharedLockNeeded()
    ensures !LocksRight(Overlapping)
    ensures var s := Step(Overlapping, 1, CommitWrite);
      var s' := Step(Step(s, 0, SupersedeOne), 0, CommitMerge);
      var x := ContentOf(Overlapping.store.claims[0]);
      !Conserved(s.store.claims, s'.store.claims, 0, 1, 1, x)
  {
    assert !Compatible(Holds(Overlapping.txs[0], 0), Holds(Overlapping.txs[1], 0));
    var c := Overlapping.store.claims[0];
    var s := Step(Overlapping, 1, CommitWrite);
    assert EditedAll(Overlapping.store.claims, 0, [Supersede(0, 9)]) == [Superseding(c, 9)] by {
      assert [Supersede(0, 9)][..0] == [];
      assert EditedAll(Overlapping.store.claims, 0, []) == Overlapping.store.claims;
    }
    assert s.store.claims == [Superseding(c, 9)];
    var s1 := Step(s, 0, SupersedeOne);
    assert s1.store == s.store && s1.txs[0].stage.live == [false];
    var s' := Step(s1, 0, CommitMerge);
    assert SupersededTo(s.store.claims, [0], [false], 1, 0) == s.store.claims;
    assert SupersededTo(s.store.claims, [0], [false], 1, 1) == s.store.claims;
    assert s'.store.claims == [Superseding(c, 9), CopyTo(c, 1)];
    SaidCounts(s.store.claims, s'.store.claims, c, ContentOf(c));
  }

  lemma SaidCounts(before: seq<Claim>, after: seq<Claim>, c: Claim, x: Content)
    requires before == [Superseding(c, 9)] && after == [Superseding(c, 9), CopyTo(c, 1)]
    requires c.event == 0 && Active(c) && x == ContentOf(c)
    ensures Said(before, 0, x) == 0 && Said(before, 1, x) == 0 && Said(after, 1, x) == 1
  {
    assert SaidTo(before, 0, 0, x) == 0 && SaidTo(before, 0, 1, x) == 0;
    assert SaidTo(after, 0, 1, x) == 0 && SaidTo(after, 1, 1, x) == 0;
  }
}
