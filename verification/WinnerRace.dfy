/**
 Curator resolve, curator reopen, ingestion and event merge racing on the same conflict rows.

 The database is read committed: a statement sees the committed tables plus its own
 transaction's writes.  A row that a transaction writes, or reads `FOR UPDATE`, stays locked
 until that transaction ends, and a statement that needs a lock held elsewhere waits.  Each
 use case is cut at its statements, so any interleaving of any number of them is a script
 of (transaction, statement) pairs.  The shared lock that foreign keys take on an event row is
 left out: more interleavings are allowed here than the database lets through.
 */
module WinnerRace {
  import opened Common

  type EventId = nat
  type ClaimId = nat
  type RowId = nat
  type TxId = nat

  datatype Slot = Slot(event: EventId, field: string)

  /** A claim is live (RAW, CONFIRMED or MANUAL_OVERRIDE) until another claim supersedes it. */
  datatype Claim = Claim(slot: Slot, supersededBy: Option<ClaimId>)

  datatype Status = Open | Resolved

  datatype Row = Row(slot: Slot, status: Status, winner: Option<ClaimId>, version: nat)

  /** `merged` are the absorbed events. */
  datatype Db =
    Db(claims: map<ClaimId, Claim>, rows: map<RowId, Row>, links: set<(RowId, ClaimId)>, merged: set<EventId>)

  const NoWrites := Db(map[], map[], {}, {})

  datatype Lock = OnEvent(event: EventId) | OnClaim(claim: ClaimId) | OnRow(row: RowId)

  /** How far a transaction has come. */
  datatype Pc =
    | Idle
      // ResolveConflict.execute
    | ResolveLoaded(row: RowId, expected: nat, winner: ClaimId)
    | ResolveFenced(row: RowId, expected: nat, winner: ClaimId)
    | ResolveWon(row: RowId, winner: ClaimId)
    | ResolveLosing(row: RowId, winner: ClaimId, losers: set<ClaimId>)
      // ReopenConflict.execute
    | Reviving(row: RowId, expected: nat, ids: set<ClaimId>)
    | Reopened
      // IngestSourceData: claim writes, winner repair, auto-close and detection
    | Writing(event: EventId)
    | Fixing(event: EventId, todo: map<RowId, nat>)
    | Settling(event: EventId)
      // MergeDuplicateEvents, which ends by settling its target
    | MergeHalf(source: EventId, target: EventId)
    | Copying(source: EventId, target: EventId, uncopied: set<ClaimId>, copies: map<ClaimId, ClaimId>)
    | Demoting(source: EventId, target: EventId, copies: map<ClaimId, ClaimId>)

  /** `dropped` collects the claims this transaction has superseded so far. */
  datatype Tx = Tx(writes: Db, locks: set<Lock>, dropped: set<ClaimId>, pc: Pc)

  const NewTx := Tx(NoWrites, {}, {}, Idle)

  datatype World = World(db: Db, txs: map<TxId, Tx>)

  datatype Act =
    | BeginResolve(row: RowId, expected: nat, winner: ClaimId)
    | BeginOverride(row: RowId, expected: nat, newId: ClaimId)
    | FenceWinner
    | SwapResolve
    | ReadLosers
    | DropLoser(claim: ClaimId)
    | BeginReopen(row: RowId, expected: nat)
    | Revive(claim: ClaimId)
    | SwapReopen
    | BeginIngest(event: EventId)
    | WriteClaim(field: string, newId: ClaimId)
    | Replace(prior: ClaimId, next: ClaimId)
    | Scan
    | FixNothing(row: RowId)
    | FixWinner(row: RowId, winner: ClaimId, again: bool)
    | FixReopen(row: RowId, ids: set<ClaimId>, again: bool)
    | Settle
    | AutoClose(row: RowId, winner: ClaimId)
    | AddEvidence(row: RowId, ids: set<ClaimId>)
    | ReopenRow(row: RowId, ids: set<ClaimId>)
    | OpenRow(row: RowId, slot: Slot, ids: set<ClaimId>)
    | BeginMerge(source: EventId, target: EventId)
    | LockOther
    | CopyClaim(origin: ClaimId, newId: ClaimId)
    | EndCopies
    | Demote(claim: ClaimId)
    | CloseRow(row: RowId)
    | MergeSettle
    | Finish
    | Abandon

  datatype Outcome = Goto(tx: Tx) | Commit | Abort

  function Over(base: Db, w: Db): Db {
    Db(base.claims + w.claims, base.rows + w.rows, base.links + w.links, base.merged + w.merged)
  }

  predicate Live(d: Db, c: ClaimId) {
    c in d.claims && d.claims[c].supersededBy.None?
  }

  /** The live claims on a slot, as `find_active_by_event_field` returns them. */
  function Holders(d: Db, s: Slot): set<ClaimId> {
    set c | c in d.claims && d.claims[c].slot == s && Live(d, c)
  }

  /** `find_active_by_event`. */
  function LiveOf(d: Db, e: EventId): set<ClaimId> {
    set c | c in d.claims && d.claims[c].slot.event == e && Live(d, c)
  }

  function Lower(a: EventId, b: EventId): EventId {
    if a <= b then a else b
  }

  function Upper(a: EventId, b: EventId): EventId {
    if a <= b then b else a
  }

  predicate AllOn(d: Db, ids: set<ClaimId>, s: Slot) {
    forall c :: c in ids ==> c in d.claims && d.claims[c].slot == s
  }

  function Pairs(r: RowId, ids: set<ClaimId>): (s: set<(RowId, ClaimId)>)
    ensures forall q, c :: (q, c) in s <==> q == r && c in ids
  {
    set c | c in ids :: (r, c)
  }

  function PutRow(tx: Tx, r: RowId, row: Row, ids: set<ClaimId>): Tx {
    tx.(writes := tx.writes.(rows := tx.writes.rows[r := row],
                             links := tx.writes.links + Pairs(r, ids)),
        locks := tx.locks + {OnRow(r)})
  }

  function PutClaim(tx: Tx, c: ClaimId, claim: Claim): Tx {
    tx.(writes := tx.writes.(claims := tx.writes.claims[c := claim]), locks := tx.locks + {OnClaim(c)})
  }

  /** The locks a statement waits for. */
  function Wants(db: Db, tx: Tx, a: Act): set<Lock> {
    var v := Over(db, tx.writes);
    match a
    case BeginOverride(_, _, newId) => {OnClaim(newId)}
    case FenceWinner => if tx.pc.ResolveLoaded? then {OnClaim(tx.pc.winner)} else {}
    case SwapResolve => if tx.pc.ResolveFenced? then {OnRow(tx.pc.row)} else {}
    case DropLoser(c) => {OnClaim(c)}
    case Revive(c) => {OnClaim(c)}
    case SwapReopen => if tx.pc.Reviving? then {OnRow(tx.pc.row)} else {}
    case BeginIngest(e) => {OnEvent(e)}
    case WriteClaim(_, newId) => {OnClaim(newId)}
    case Replace(prior, _) => {OnClaim(prior)}
    case FixWinner(r, w, _) => {OnRow(r), OnClaim(w)}
    case FixReopen(r, _, _) => {OnRow(r)}
    case AutoClose(r, w) => {OnRow(r), OnClaim(w)}
    case AddEvidence(r, _) => {OnRow(r)}
    case ReopenRow(r, _) => {OnRow(r)}
    case OpenRow(r, _, _) => {OnRow(r)}
    case BeginMerge(source, target) => {OnEvent(Lower(source, target))}
    case LockOther => if tx.pc.MergeHalf? then {OnEvent(Upper(tx.pc.source, tx.pc.target))} else {}
    case CopyClaim(_, newId) => {OnClaim(newId)}
    case Demote(c) => {OnClaim(c)}
    case CloseRow(r) => {OnRow(r)}
    case _ => {}
  }

  /**
   One statement of one transaction, once it has its locks.  A statement that does not belong
   to the transaction's program leaves it as it is.  Which of FixWinner and FixReopen ingestion
   takes depends on the claims' values; both are allowed here whatever the values are, and so
   is any number of retries (`again`) after a failed version check.  An error can end a transaction
   anywhere (`Abandon`): its locks are released and nothing of it is written.
   */
  function Perform(db: Db, tx: Tx, a: Act): Outcome {
    var v := Over(db, tx.writes);
    match a
    case BeginResolve(r, n, w) =>
      if tx.pc.Idle? && r in db.rows && db.rows[r].status.Open? && db.rows[r].version == n &&
         (r, w) in db.links && Live(db, w)
      then Goto(tx.(pc := ResolveLoaded(r, n, w))) else Goto(tx)
    case BeginOverride(r, n, newId) =>
      if tx.pc.Idle? && r in db.rows && db.rows[r].status.Open? && db.rows[r].version == n &&
         newId !in db.claims
      then
        var t := PutClaim(tx, newId, Claim(db.rows[r].slot, None));
        Goto(t.(writes := t.writes.(links := t.writes.links + {(r, newId)}), pc := ResolveFenced(r, n, newId)))
      else Goto(tx)
    case FenceWinner =>
      if !tx.pc.ResolveLoaded? then Goto(tx)
      else if Live(v, tx.pc.winner) then
        Goto(tx.(locks := tx.locks + {OnClaim(tx.pc.winner)},
                 pc := ResolveFenced(tx.pc.row, tx.pc.expected, tx.pc.winner)))
      else Abort
    case SwapResolve =>
      if !tx.pc.ResolveFenced? then Goto(tx)
      else
        var r := tx.pc.row;
        if r in v.rows && v.rows[r].version == tx.pc.expected then
          Goto(PutRow(tx, r, Row(v.rows[r].slot, Resolved, Some(tx.pc.winner), v.rows[r].version + 1), {})
               .(pc := ResolveWon(r, tx.pc.winner)))
        else Abort
    case ReadLosers =>
      if tx.pc.ResolveWon? then
        Goto(tx.(pc := ResolveLosing(tx.pc.row, tx.pc.winner,
                                     set c | c in v.claims && (tx.pc.row, c) in v.links &&
                                       c != tx.pc.winner && Live(v, c))))
      else Goto(tx)
    case DropLoser(c) =>
      if tx.pc.ResolveLosing? && c in tx.pc.losers then
        var rest := tx.(pc := tx.pc.(losers := tx.pc.losers - {c}));
        if Live(v, c) then
          Goto(PutClaim(rest, c, v.claims[c].(supersededBy := Some(tx.pc.winner))).(dropped := tx.dropped + {c}))
        else Goto(rest.(locks := rest.locks + {OnClaim(c)}))
      else Goto(tx)
    case BeginReopen(r, n) =>
      if tx.pc.Idle? && r in db.rows && db.rows[r].status.Resolved? && db.rows[r].version == n then
        Goto(tx.(pc := Reviving(r, n,
                                set c | c in db.claims && db.rows[r].winner.Some? &&
                                  db.claims[c].supersededBy == db.rows[r].winner && (r, c) in db.links &&
                                  db.claims[c].slot == db.rows[r].slot)))
      else Goto(tx)
    case Revive(c) =>
      if tx.pc.Reviving? && c in tx.pc.ids && c in v.claims then
        Goto(PutClaim(tx, c, v.claims[c].(supersededBy := None)).(pc := tx.pc.(ids := tx.pc.ids - {c})))
      else Goto(tx)
    case SwapReopen =>
      if !tx.pc.Reviving? || tx.pc.ids != {} then Goto(tx)
      else
        var r := tx.pc.row;
        if r in v.rows && v.rows[r].version == tx.pc.expected then
          Goto(PutRow(tx, r, Row(v.rows[r].slot, Open, None, v.rows[r].version + 1), {}).(pc := Reopened))
        else Abort
    case BeginIngest(e) =>
      if !tx.pc.Idle? then Goto(tx)
      else if e in db.merged then Abort
      else Goto(tx.(locks := tx.locks + {OnEvent(e)}, pc := Writing(e)))
    case WriteClaim(f, newId) =>
      if tx.pc.Writing? && newId !in v.claims
      then Goto(PutClaim(tx, newId, Claim(Slot(tx.pc.event, f), None)))
      else Goto(tx)
    case Replace(prior, next) =>
      if tx.pc.Writing? && prior in db.claims && next in tx.writes.claims && next !in db.claims &&
         tx.writes.claims[next].slot == db.claims[prior].slot && Live(v, prior)
      then Goto(PutClaim(tx, prior, v.claims[prior].(supersededBy := Some(next))).(dropped := tx.dropped + {prior}))
      else Goto(tx)
    case Scan =>
      if tx.pc.Writing? then
        Goto(tx.(pc := Fixing(tx.pc.event,
                              map r | r in v.rows && v.rows[r].status.Resolved? && v.rows[r].winner.Some? &&
                                v.rows[r].winner.value in tx.dropped :: v.rows[r].version)))
      else Goto(tx)
    case FixNothing(r) =>
      if tx.pc.Fixing? && r in tx.pc.todo && r in v.rows && Holders(v, v.rows[r].slot) == {}
      then Goto(tx.(pc := tx.pc.(todo := tx.pc.todo - {r}))) else Goto(tx)
    case FixWinner(r, w, again) =>
      if tx.pc.Fixing? && r in tx.pc.todo && r in v.rows && w in Holders(v, v.rows[r].slot)
      then Goto(FixedWinner(tx, v.rows[r], r, w, again))
      else Goto(tx)
    case FixReopen(r, ids, again) =>
      if tx.pc.Fixing? && r in tx.pc.todo && r in v.rows && AllOn(v, ids, v.rows[r].slot)
      then Goto(FixedReopen(tx, v.rows[r], r, ids, again))
      else Goto(tx)
    case Settle =>
      if tx.pc.Fixing? && tx.pc.todo == map[] then Goto(tx.(pc := Settling(tx.pc.event))) else Goto(tx)
    case AutoClose(r, w) =>
      if tx.pc.Settling? && r in v.rows && v.rows[r].slot.event == tx.pc.event && v.rows[r].status.Open? &&
         w in Holders(v, v.rows[r].slot)
      then
        Goto(PutRow(tx, r, Row(v.rows[r].slot, Resolved, Some(w), v.rows[r].version + 1), {w})
             .(locks := tx.locks + {OnRow(r), OnClaim(w)}))
      else Goto(tx)
    case AddEvidence(r, ids) =>
      if tx.pc.Settling? && r in v.rows && v.rows[r].slot.event == tx.pc.event && v.rows[r].status.Open? &&
         AllOn(v, ids, v.rows[r].slot)
      then Goto(PutRow(tx, r, v.rows[r].(version := v.rows[r].version + 1), ids)) else Goto(tx)
    case ReopenRow(r, ids) =>
      if tx.pc.Settling? && r in v.rows && v.rows[r].slot.event == tx.pc.event && v.rows[r].status.Resolved? &&
         AllOn(v, ids, v.rows[r].slot)
      then Goto(PutRow(tx, r, Row(v.rows[r].slot, Open, None, v.rows[r].version + 1), ids)) else Goto(tx)
    case OpenRow(r, s, ids) =>
      if tx.pc.Settling? && s.event == tx.pc.event && r !in v.rows && AllOn(v, ids, s) &&
         forall q :: q in v.rows ==> v.rows[q].slot != s
      then Goto(PutRow(tx, r, Row(s, Open, None, 1), ids)) else Goto(tx)
    case BeginMerge(source, target) =>
      if !tx.pc.Idle? then Goto(tx)
      else if source == target then Abort
      else Goto(tx.(locks := tx.locks + {OnEvent(Lower(source, target))}, pc := MergeHalf(source, target)))
    case LockOther => if tx.pc.MergeHalf? then BothLocked(db, tx) else Goto(tx)
    case CopyClaim(c, newId) =>
      if tx.pc.Copying? && c in tx.pc.uncopied && c in v.claims && newId !in v.claims then
        Goto(PutClaim(tx, newId, Claim(Slot(tx.pc.target, v.claims[c].slot.field), None))
             .(pc := Copying(tx.pc.source, tx.pc.target, tx.pc.uncopied - {c}, tx.pc.copies[c := newId])))
      else Goto(tx)
    case EndCopies =>
      if tx.pc.Copying? && tx.pc.uncopied == {}
      then Goto(tx.(pc := Demoting(tx.pc.source, tx.pc.target, tx.pc.copies))) else Goto(tx)
    case Demote(c) =>
      if tx.pc.Demoting? && c in tx.pc.copies && c in v.claims then
        var rest := tx.(pc := tx.pc.(copies := tx.pc.copies - {c}));
        if Live(v, c) then
          Goto(PutClaim(rest, c, v.claims[c].(supersededBy := Some(tx.pc.copies[c]))).(dropped := tx.dropped + {c}))
        else Goto(rest.(locks := rest.locks + {OnClaim(c)}))
      else Goto(tx)
    case CloseRow(r) =>
      if tx.pc.Demoting? && tx.pc.copies == map[] && r in v.rows && v.rows[r].slot.event == tx.pc.source &&
         v.rows[r].status.Open?
      then Goto(PutRow(tx, r, Row(v.rows[r].slot, Resolved, None, v.rows[r].version + 1), {})) else Goto(tx)
    case MergeSettle =>
      if tx.pc.Demoting? && tx.pc.copies == map[] &&
         forall r :: r in v.rows && v.rows[r].slot.event == tx.pc.source ==> !v.rows[r].status.Open?
      then Goto(tx.(pc := Settling(tx.pc.target))) else Goto(tx)
    case Finish =>
      if tx.pc.Reopened? || tx.pc.Settling? || (tx.pc.ResolveLosing? && tx.pc.losers == {}) then Commit else Abort
    case Abandon => Abort
  }

  /** A merge holds both events: it is refused if either is merged, and claims the source otherwise. */
  function BothLocked(db: Db, tx: Tx): Outcome
    requires tx.pc.MergeHalf?
  {
    var source, target := tx.pc.source, tx.pc.target;
    if source in db.merged || target in db.merged then Abort
    else
      Goto(tx.(writes := tx.writes.(merged := {source}), locks := tx.locks + {OnEvent(Upper(source, target))},
               pc := Copying(source, target, LiveOf(db, source), map[])))
  }

  /** One round of the winner-update loop. */
  function FixedWinner(tx: Tx, row: Row, r: RowId, w: ClaimId, again: bool): Tx
    requires tx.pc.Fixing? && r in tx.pc.todo
  {
    if row.version == tx.pc.todo[r] then
      PutRow(tx, r, Row(row.slot, row.status, Some(w), row.version + 1), {w})
        .(locks := tx.locks + {OnRow(r), OnClaim(w)}, pc := tx.pc.(todo := tx.pc.todo - {r}))
    else Retry(tx, r, row, again)
  }

  /** One round of the reopen loop. */
  function FixedReopen(tx: Tx, row: Row, r: RowId, ids: set<ClaimId>, again: bool): Tx
    requires tx.pc.Fixing? && r in tx.pc.todo
  {
    if row.version == tx.pc.todo[r] then
      PutRow(tx, r, Row(row.slot, Open, None, row.version + 1), ids).(pc := tx.pc.(todo := tx.pc.todo - {r}))
    else Retry(tx, r, row, again)
  }

  /** After a failed version check: reload and go round again, or leave the conflict alone. */
  function Retry(tx: Tx, r: RowId, reloaded: Row, again: bool): Tx
    requires tx.pc.Fixing?
  {
    tx.(pc := tx.pc.(todo := if again && reloaded.status.Resolved? then tx.pc.todo[r := reloaded.version]
                             else tx.pc.todo - {r}))
  }

  function TxOf(w: World, t: TxId): Tx {
    if t in w.txs then w.txs[t] else NewTx
  }

  /** Every lock the statement needs is free or already this transaction's. */
  predicate Available(w: World, t: TxId, ls: set<Lock>) {
    forall u :: u in w.txs && u != t ==> ls !! w.txs[u].locks
  }

  function Step(w: World, t: TxId, a: Act): World {
    var tx := TxOf(w, t);
    if !Available(w, t, Wants(w.db, tx, a)) then w
    else match Perform(w.db, tx, a)
      case Goto(tx') => w.(txs := w.txs[t := tx'])
      case Commit => World(Over(w.db, tx.writes), w.txs - {t})
      case Abort => w.(txs := w.txs - {t})
  }

  function Run(w: World, script: seq<(TxId, Act)>): World
    decreases |script|
  {
    if script == [] then w else Step(Run(w, script[..|script| - 1]), script[|script| - 1].0, script[|script| - 1].1)
  }

  // ---------------------------------------------------------------- what holds

  /** No resolved conflict of an unmerged event is without a winner or won by a superseded claim. */
  ghost predicate NoLostWinner(d: Db) {
    forall r :: r in d.rows && d.rows[r].status.Resolved? && d.rows[r].slot.event !in d.merged ==>
      d.rows[r].winner.Some? && Live(d, d.rows[r].winner.value)
  }

  /** On any event, merged or not, a winner is linked and its conflict resolved. */
  ghost predicate WinnersLinked(d: Db) {
    forall r :: r in d.rows && d.rows[r].winner.Some? ==>
      d.rows[r].status.Resolved? && (r, d.rows[r].winner.value) in d.links
  }

  ghost predicate LinksAtHome(d: Db, links: set<(RowId, ClaimId)>) {
    forall r, c :: (r, c) in links ==> r in d.rows && c in d.claims && d.rows[r].slot == d.claims[c].slot
  }

  ghost predicate OneRowPerSlot(rows: map<RowId, Row>) {
    forall r, q :: r in rows && q in rows && rows[r].slot == rows[q].slot ==> r == q
  }

  ghost predicate DbOk(d: Db) {
    NoLostWinner(d) && WinnersLinked(d) && LinksAtHome(d, d.links) && OneRowPerSlot(d.rows)
  }

  ghost predicate RowLost(d: Db, r: RowId, gone: set<ClaimId>) {
    r in d.rows && d.rows[r].winner.Some? && d.rows[r].winner.value in gone
  }

  ghost predicate ClaimWritesOk(db: Db, tx: Tx) {
    && (forall c :: c in tx.writes.claims ==>
          && OnClaim(c) in tx.locks
          && (c in db.claims ==> tx.writes.claims[c].slot == db.claims[c].slot)
          && (tx.writes.claims[c].supersededBy.Some? ==>
                c in db.claims && (c in tx.dropped || db.claims[c].supersededBy.Some?)))
    && (forall c :: c in tx.dropped ==>
          c in db.claims && c in tx.writes.claims && tx.writes.claims[c].supersededBy.Some?)
  }

  ghost predicate RowWritesOk(db: Db, tx: Tx) {
    var v := Over(db, tx.writes);
    forall r :: r in tx.writes.rows ==>
      var row := tx.writes.rows[r];
      && OnRow(r) in tx.locks
      && (row.winner.Some? ==> row.status.Resolved?)
      && (row.status.Resolved? && row.slot.event !in v.merged ==> row.winner.Some?)
      && (row.winner.Some? ==> OnClaim(row.winner.value) in tx.locks && Live(v, row.winner.value) &&
                               (r, row.winner.value) in v.links)
      && (r in db.rows ==> row.slot == db.rows[r].slot && row.version > db.rows[r].version)
      && (r !in db.rows ==> OnEvent(row.slot.event) in tx.locks)
  }

  ghost predicate PcOk(db: Db, tx: Tx) {
    var v := Over(db, tx.writes);
    match tx.pc
    case Idle => tx == NewTx
    case ResolveLoaded(r, _, w) => tx.writes == NoWrites && tx.dropped == {} && (r, w) in v.links
    case ResolveFenced(r, _, w) =>
      && tx.writes.rows == map[] && tx.dropped == {} && OnlyNew(db, tx, w)
      && (r, w) in v.links && OnClaim(w) in tx.locks && Live(v, w)
    case ResolveWon(r, w) =>
      && tx.dropped == {} && OnlyNew(db, tx, w)
      && tx.writes.rows.Keys == {r} && tx.writes.rows[r].winner == Some(w)
    case ResolveLosing(r, w, ls) =>
      && OnlyNew(db, tx, w)
      && tx.writes.rows.Keys == {r} && tx.writes.rows[r].winner == Some(w) && w !in ls && w !in tx.dropped
      && ls <= db.claims.Keys
      && AllOn(v, ls, v.rows[r].slot) && AllOn(v, tx.dropped, v.rows[r].slot)
    case Reviving(_, _, _) => tx.dropped == {} && tx.writes.rows == map[]
    case Reopened => tx.dropped == {}
    case Writing(e) => OnEvent(e) in tx.locks && tx.writes.rows == map[] && ReplacedOk(db, tx, e)
    case Fixing(e, todo) =>
      && OnEvent(e) in tx.locks && ReplacedOk(db, tx, e)
      && (forall r :: r in todo ==> Current(v, r, todo[r]))
      && (forall r :: RowLost(v, r, tx.dropped) ==> r in todo && todo[r] == v.rows[r].version)
    case Settling(e) => OnEvent(e) in tx.locks && LostOnMerged(v, tx.dropped)
    case MergeHalf(s, t) => OnEvent(Lower(s, t)) in tx.locks && tx.writes == NoWrites && tx.dropped == {}
    case Copying(s, t, uncopied, copies) =>
      && OnEvent(s) in tx.locks && OnEvent(t) in tx.locks && s in tx.writes.merged
      && tx.dropped == {} && tx.writes.rows == map[] && StoredOn(db, uncopied, s) && StoredOn(db, copies.Keys, s)
    case Demoting(s, t, copies) =>
      && OnEvent(s) in tx.locks && OnEvent(t) in tx.locks && s in tx.writes.merged
      && (forall r :: r in tx.writes.rows ==> tx.writes.rows[r].winner.None?)
      && StoredOn(db, copies.Keys, s) && StoredOn(db, tx.dropped, s)
  }

  ghost predicate StoredOn(db: Db, ids: set<ClaimId>, e: EventId) {
    forall c :: c in ids ==> c in db.claims && db.claims[c].slot.event == e
  }

  /** Only conflicts of merged events have lost their winner. */
  ghost predicate LostOnMerged(v: Db, gone: set<ClaimId>) {
    forall r :: RowLost(v, r, gone) ==> v.rows[r].slot.event in v.merged
  }

  /** Each superseded claim has a live successor of this transaction on the same slot. */
  ghost predicate ReplacedOk(db: Db, tx: Tx, e: EventId) {
    forall c :: c in tx.dropped ==>
      c in db.claims && exists n :: n in tx.writes.claims && Succeeds(db, tx, n, db.claims[c].slot)
  }

  /** The only claim a resolve inserts is the override it picks as winner. */
  ghost predicate OnlyNew(db: Db, tx: Tx, w: ClaimId) {
    forall c :: c in tx.writes.claims && c !in db.claims ==> c == w
  }

  /** A remembered version is not ahead of the row, and if it is the row's, the row is still resolved. */
  ghost predicate Current(v: Db, r: RowId, version: nat) {
    r in v.rows && version <= v.rows[r].version && (version == v.rows[r].version ==> v.rows[r].status.Resolved?)
  }

  ghost predicate Succeeds(db: Db, tx: Tx, n: ClaimId, s: Slot) {
    n in tx.writes.claims && n !in db.claims && tx.writes.claims[n] == Claim(s, None)
  }

  /** What holds of a transaction's writes wherever its program stands. */
  ghost predicate WritesOk(db: Db, tx: Tx) {
    && ClaimWritesOk(db, tx)
    && RowWritesOk(db, tx)
    && LinksAtHome(Over(db, tx.writes), tx.writes.links)
    && OneRowPerSlot(Over(db, tx.writes).rows)
  }

  ghost predicate TxOk(db: Db, tx: Tx) {
    WritesOk(db, tx) && PcOk(db, tx)
  }

  ghost predicate Inv(w: World) {
    && DbOk(w.db)
    && (forall t :: t in w.txs ==> TxOk(w.db, w.txs[t]))
    && (forall t, u :: t in w.txs && u in w.txs && t != u ==> w.txs[t].locks !! w.txs[u].locks)
  }

  // ---------------------------------------------------------------- one statement

  /** A row update or insert whose checks passed. */
  ghost predicate RowPut(db: Db, tx: Tx, r: RowId, row: Row, ids: set<ClaimId>, tx': Tx) {
    var v := Over(db, tx.writes);
    && tx'.writes == PutRow(tx, r, row, ids).writes && tx'.dropped == tx.dropped
    && tx.locks + {OnRow(r)} <= tx'.locks
    && (row.winner.Some? ==> row.status.Resolved?)
    && (row.status.Resolved? && row.slot.event !in v.merged ==> row.winner.Some?)
    && AllOn(v, ids, row.slot)
    && (row.winner.Some? ==> OnClaim(row.winner.value) in tx'.locks && Live(v, row.winner.value) &&
                             (row.winner.value in ids || (r, row.winner.value) in v.links))
    && (r in v.rows ==> row.slot == v.rows[r].slot && row.version > v.rows[r].version)
    && (r !in v.rows ==> OnEvent(row.slot.event) in tx'.locks && forall q :: q in v.rows ==> v.rows[q].slot != row.slot)
  }

  lemma OneRowPerSlotPut(rows: map<RowId, Row>, r: RowId, row: Row)
    requires OneRowPerSlot(rows)
    requires r in rows ==> row.slot == rows[r].slot
    requires r !in rows ==> forall q :: q in rows ==> rows[q].slot != row.slot
    ensures OneRowPerSlot(rows[r := row])
  {
  }

  lemma PutRowLinks(db: Db, tx: Tx, r: RowId, row: Row, ids: set<ClaimId>, tx': Tx)
    requires DbOk(db) && WritesOk(db, tx) && RowPut(db, tx, r, row, ids, tx')
    ensures LinksAtHome(Over(db, tx'.writes), tx'.writes.links)
  {
    var v, v' := Over(db, tx.writes), Over(db, tx'.writes);
    forall q, c | (q, c) in tx'.writes.links
      ensures q in v'.rows && c in v'.claims && v'.rows[q].slot == v'.claims[c].slot
    {
      assert (q, c) in tx.writes.links || (q == r && c in ids);
    }
  }

  lemma PutRowRows(db: Db, tx: Tx, r: RowId, row: Row, ids: set<ClaimId>, tx': Tx)
    requires DbOk(db) && WritesOk(db, tx) && RowPut(db, tx, r, row, ids, tx')
    ensures ClaimWritesOk(db, tx') && RowWritesOk(db, tx')
  {
    forall q | q in tx'.writes.rows && q != r ensures q in tx.writes.rows && tx'.writes.rows[q] == tx.writes.rows[q] {}
  }

  lemma PutRowSlots(db: Db, tx: Tx, r: RowId, row: Row, ids: set<ClaimId>, tx': Tx)
    requires OneRowPerSlot(Over(db, tx.writes).rows) && RowPut(db, tx, r, row, ids, tx')
    ensures OneRowPerSlot(Over(db, tx'.writes).rows)
  {
    OneRowPerSlotPut(Over(db, tx.writes).rows, r, row);
    assert Over(db, tx'.writes).rows == Over(db, tx.writes).rows[r := row];
  }

  lemma PutRowOk(db: Db, tx: Tx, r: RowId, row: Row, ids: set<ClaimId>, tx': Tx)
    requires DbOk(db) && WritesOk(db, tx) && RowPut(db, tx, r, row, ids, tx')
    ensures WritesOk(db, tx')
  {
    PutRowLinks(db, tx, r, row, ids, tx');
    PutRowRows(db, tx, r, row, ids, tx');
    PutRowSlots(db, tx, r, row, ids, tx');
  }

  /** A claim insert or update whose checks passed. */
  ghost predicate ClaimPut(db: Db, tx: Tx, c: ClaimId, claim: Claim, tx': Tx) {
    var v := Over(db, tx.writes);
    && tx'.writes == tx.writes.(claims := tx.writes.claims[c := claim])
    && tx.locks + {OnClaim(c)} <= tx'.locks
    && tx.dropped <= tx'.dropped <= tx.dropped + {c}
    && (c in v.claims ==> claim.slot == v.claims[c].slot)
    && (claim.supersededBy.Some? ==> c in db.claims && c in tx'.dropped &&
                                     forall r :: r in tx.writes.rows ==> tx.writes.rows[r].winner != Some(c))
    && (claim.supersededBy.None? ==> c !in tx'.dropped)
  }

  lemma PutClaimLinks(db: Db, tx: Tx, c: ClaimId, claim: Claim, tx': Tx)
    requires DbOk(db) && WritesOk(db, tx) && ClaimPut(db, tx, c, claim, tx')
    ensures LinksAtHome(Over(db, tx'.writes), tx'.writes.links)
  {
  }

  lemma PutClaimClaims(db: Db, tx: Tx, c: ClaimId, claim: Claim, tx': Tx)
    requires ClaimWritesOk(db, tx) && ClaimPut(db, tx, c, claim, tx')
    ensures ClaimWritesOk(db, tx')
  {
  }

  lemma PutClaimRows(db: Db, tx: Tx, c: ClaimId, claim: Claim, tx': Tx)
    requires RowWritesOk(db, tx) && ClaimPut(db, tx, c, claim, tx')
    ensures RowWritesOk(db, tx')
  {
    var v, v' := Over(db, tx.writes), Over(db, tx'.writes);
    assert v'.claims == v.claims[c := claim] && v'.links == v.links;
  }

  lemma PutClaimOk(db: Db, tx: Tx, c: ClaimId, claim: Claim, tx': Tx)
    requires DbOk(db) && WritesOk(db, tx) && ClaimPut(db, tx, c, claim, tx')
    ensures WritesOk(db, tx')
  {
    PutClaimLinks(db, tx, c, claim, tx');
    PutClaimClaims(db, tx, c, claim, tx');
    PutClaimRows(db, tx, c, claim, tx');
    assert Over(db, tx'.writes).rows == Over(db, tx.writes).rows;
  }


  /** The row just written is not lost, and no other row's winner changed. */
  lemma LostAfterPut(db: Db, tx: Tx, r: RowId, row: Row, ids: set<ClaimId>, tx': Tx, q: RowId)
    requires DbOk(db) && WritesOk(db, tx) && RowPut(db, tx, r, row, ids, tx')
    requires RowLost(Over(db, tx'.writes), q, tx.dropped)
    ensures q != r && RowLost(Over(db, tx.writes), q, tx.dropped)
    ensures Over(db, tx'.writes).rows[q] == Over(db, tx.writes).rows[q]
  {
    assert Over(db, tx'.writes).rows == Over(db, tx.writes).rows[r := row];
  }

  lemma CurrentKept(db: Db, tx: Tx, r: RowId, row: Row, tx': Tx, q: RowId, version: nat)
    requires tx'.writes.rows == tx.writes.rows[r := row] && q != r && Current(Over(db, tx.writes), q, version)
    ensures Current(Over(db, tx'.writes), q, version)
  {
  }

  lemma ReplacedKept(db: Db, tx: Tx, tx': Tx, e: EventId)
    requires ReplacedOk(db, tx, e) && tx'.writes.claims == tx.writes.claims && tx'.dropped == tx.dropped
    ensures ReplacedOk(db, tx', e)
  {
    forall c | c in tx'.dropped
      ensures c in db.claims && exists n :: n in tx'.writes.claims && Succeeds(db, tx', n, db.claims[c].slot)
    {
      var n :| n in tx.writes.claims && Succeeds(db, tx, n, db.claims[c].slot);
      assert Succeeds(db, tx', n, db.claims[c].slot);
    }
  }

  /** A winner repaired, or a conflict reopened, during the repair phase. */
  lemma FixingPut(db: Db, tx: Tx, r: RowId, row: Row, ids: set<ClaimId>, tx': Tx)
    requires DbOk(db) && TxOk(db, tx) && RowPut(db, tx, r, row, ids, tx')
    requires tx.pc.Fixing? && tx'.pc == tx.pc.(todo := tx.pc.todo - {r})
    ensures TxOk(db, tx')
  {
    PutRowOk(db, tx, r, row, ids, tx');
    forall q | q in tx'.pc.todo ensures Current(Over(db, tx'.writes), q, tx'.pc.todo[q]) {
      CurrentKept(db, tx, r, row, tx', q, tx.pc.todo[q]);
    }
    forall q | RowLost(Over(db, tx'.writes), q, tx'.dropped)
      ensures q in tx'.pc.todo && tx'.pc.todo[q] == Over(db, tx'.writes).rows[q].version
    {
      LostAfterPut(db, tx, r, row, ids, tx', q);
    }
    ReplacedKept(db, tx, tx', tx.pc.event);
  }

  /** A conflict auto-closed, extended, reopened or opened after the repair phase. */
  lemma SettlingPut(db: Db, tx: Tx, r: RowId, row: Row, ids: set<ClaimId>, tx': Tx)
    requires DbOk(db) && TxOk(db, tx) && RowPut(db, tx, r, row, ids, tx')
    requires tx.pc.Settling? && tx'.pc == tx.pc
    ensures TxOk(db, tx')
  {
    PutRowOk(db, tx, r, row, ids, tx');
    forall q | RowLost(Over(db, tx'.writes), q, tx'.dropped)
      ensures Over(db, tx'.writes).rows[q].slot.event in Over(db, tx'.writes).merged
    {
      LostAfterPut(db, tx, r, row, ids, tx', q);
    }
  }

  /** A row won by a claim replaced here still has a live claim on its slot: the replacement. */
  lemma LostHasHolder(db: Db, tx: Tx, r: RowId)
    requires DbOk(db) && WritesOk(db, tx) && tx.pc.Fixing? && ReplacedOk(db, tx, tx.pc.event)
    ensures var v := Over(db, tx.writes);
      RowLost(v, r, tx.dropped) ==> Holders(v, v.rows[r].slot) != {}
  {
    var v := Over(db, tx.writes);
    if RowLost(v, r, tx.dropped) {
      var c := v.rows[r].winner.value;
      WinnerAtHome(db, tx, r);
      var n :| n in tx.writes.claims && Succeeds(db, tx, n, db.claims[c].slot);
      assert v.claims[n] == tx.writes.claims[n];
      assert n in Holders(v, v.rows[r].slot);
    }
  }

  /** A winner that this transaction superseded is a stored claim of the row's slot. */
  lemma WinnerAtHome(db: Db, tx: Tx, r: RowId)
    requires DbOk(db) && WritesOk(db, tx) && RowLost(Over(db, tx.writes), r, tx.dropped)
    ensures var row := Over(db, tx.writes).rows[r];
      row.winner.value in db.claims && db.claims[row.winner.value].slot == row.slot
  {
    var v := Over(db, tx.writes);
    var c := v.rows[r].winner.value;
    assert (r, c) in v.links;
    assert v.claims[c].slot == db.claims[c].slot;
  }

  /**
   Giving a conflict up, or retrying it at its new version, loses nothing: either the row
   moved on since the scan, and then its winner is not one this transaction superseded, or
   there was nothing on the slot, and then its winner was not superseded here either.
   */
  lemma FixingSkip(db: Db, tx: Tx, r: RowId, again: bool)
    requires DbOk(db) && TxOk(db, tx) && tx.pc.Fixing? && r in tx.pc.todo
    requires var v := Over(db, tx.writes);
      r in v.rows && (v.rows[r].version != tx.pc.todo[r] || (!again && Holders(v, v.rows[r].slot) == {}))
    ensures TxOk(db, Retry(tx, r, Over(db, tx.writes).rows[r], again))
  {
    var v := Over(db, tx.writes);
    var tx' := Retry(tx, r, v.rows[r], again);
    assert tx'.writes == tx.writes;
    LostHasHolder(db, tx, r);
    forall q | q in tx'.pc.todo ensures Current(v, q, tx'.pc.todo[q]) {
      assert q != r ==> Current(v, q, tx.pc.todo[q]);
    }
    ReplacedKept(db, tx, tx', tx.pc.event);
  }

  /** Statements that only read, or only lock. */
  lemma ReadStepOk(db: Db, tx: Tx, a: Act)
    requires a.BeginResolve? || a.BeginReopen? || a.BeginIngest? || a.Settle? || a.BeginMerge? || a.EndCopies?
    requires DbOk(db) && TxOk(db, tx) && Perform(db, tx, a).Goto?
    ensures TxOk(db, Perform(db, tx, a).tx)
  {
    var tx' := Perform(db, tx, a).tx;
    assert tx'.writes == tx.writes && tx'.dropped == tx.dropped && tx.locks <= tx'.locks;
    SameWritesOk(db, tx, tx');
    if a.Settle? || a.EndCopies? { StagedOk(db, tx, a); } else { BegunOk(db, tx, a); }
  }

  lemma SameWritesOk(db: Db, tx: Tx, tx': Tx)
    requires WritesOk(db, tx) && tx'.writes == tx.writes && tx'.dropped == tx.dropped && tx.locks <= tx'.locks
    ensures WritesOk(db, tx')
  {
  }

  lemma StagedOk(db: Db, tx: Tx, a: Act)
    requires (a.Settle? || a.EndCopies?) && PcOk(db, tx)
    ensures PcOk(db, Perform(db, tx, a).tx)
  {
  }

  lemma BegunOk(db: Db, tx: Tx, a: Act)
    requires a.BeginResolve? || a.BeginReopen? || a.BeginIngest? || a.BeginMerge?
    requires PcOk(db, tx) && Perform(db, tx, a).Goto?
    ensures PcOk(db, Perform(db, tx, a).tx)
  {
  }

  lemma FenceWinnerOk(db: Db, tx: Tx, a: Act)
    requires a.FenceWinner? && DbOk(db) && TxOk(db, tx) && Perform(db, tx, a).Goto?
    ensures TxOk(db, Perform(db, tx, a).tx)
  {
  }

  lemma ReadLosersOk(db: Db, tx: Tx, a: Act)
    requires a.ReadLosers? && DbOk(db) && TxOk(db, tx)
    ensures TxOk(db, Perform(db, tx, a).tx)
  {
  }

  lemma ScanOk(db: Db, tx: Tx, a: Act)
    requires a.Scan? && DbOk(db) && TxOk(db, tx)
    ensures TxOk(db, Perform(db, tx, a).tx)
  {
    if tx.pc.Writing? {
      ReplacedKept(db, tx, Perform(db, tx, a).tx, tx.pc.event);
    }
  }

  lemma BeginOverrideOk(db: Db, tx: Tx, a: Act)
    requires a.BeginOverride? && DbOk(db) && TxOk(db, tx) && Perform(db, tx, a).Goto?
    ensures TxOk(db, Perform(db, tx, a).tx)
  {
    var v, tx' := Over(db, tx.writes), Perform(db, tx, a).tx;
    if tx'.pc != tx.pc {
      var claim := Claim(db.rows[a.row].slot, None);
      PutClaimOk(db, tx, a.newId, claim, PutClaim(tx, a.newId, claim));
    }
  }

  lemma SwapResolveOk(db: Db, tx: Tx, a: Act)
    requires a.SwapResolve? && DbOk(db) && TxOk(db, tx) && Perform(db, tx, a).Goto?
    ensures TxOk(db, Perform(db, tx, a).tx)
  {
    var v, tx' := Over(db, tx.writes), Perform(db, tx, a).tx;
    if tx'.pc != tx.pc {
      var row := v.rows[tx.pc.row];
      PutRowOk(db, tx, tx.pc.row, Row(row.slot, Resolved, Some(tx.pc.winner), row.version + 1), {}, tx');
    }
  }

  lemma ReviveOk(db: Db, tx: Tx, a: Act)
    requires a.Revive? && DbOk(db) && TxOk(db, tx) && Perform(db, tx, a).Goto?
    ensures TxOk(db, Perform(db, tx, a).tx)
  {
    var v, tx' := Over(db, tx.writes), Perform(db, tx, a).tx;
    if tx'.pc != tx.pc {
      PutClaimOk(db, tx, a.claim, v.claims[a.claim].(supersededBy := None), tx');
    }
  }

  lemma SwapReopenOk(db: Db, tx: Tx, a: Act)
    requires a.SwapReopen? && DbOk(db) && TxOk(db, tx) && Perform(db, tx, a).Goto?
    ensures TxOk(db, Perform(db, tx, a).tx)
  {
    var v, tx' := Over(db, tx.writes), Perform(db, tx, a).tx;
    if tx'.pc != tx.pc {
      var row := v.rows[tx.pc.row];
      PutRowOk(db, tx, tx.pc.row, Row(row.slot, Open, None, row.version + 1), {}, tx');
    }
  }

  /** A loser is superseded unless something else did it first; the winner and its row stay. */
  lemma DropLoserOk(db: Db, tx: Tx, a: Act)
    requires a.DropLoser? && DbOk(db) && TxOk(db, tx)
    ensures TxOk(db, Perform(db, tx, a).tx)
  {
    var v, tx' := Over(db, tx.writes), Perform(db, tx, a).tx;
    if tx' != tx {
      if Live(v, a.claim) {
        PutClaimOk(db, tx, a.claim, v.claims[a.claim].(supersededBy := Some(tx.pc.winner)), tx');
      }
    }
  }

  lemma WriteClaimOk(db: Db, tx: Tx, a: Act)
    requires a.WriteClaim? && DbOk(db) && TxOk(db, tx)
    ensures TxOk(db, Perform(db, tx, a).tx)
  {
    var v, tx' := Over(db, tx.writes), Perform(db, tx, a).tx;
    if tx' != tx {
      PutClaimOk(db, tx, a.newId, Claim(Slot(tx.pc.event, a.field), None), tx');
    }
  }

  lemma ReplaceOk(db: Db, tx: Tx, a: Act)
    requires a.Replace? && DbOk(db) && TxOk(db, tx)
    ensures TxOk(db, Perform(db, tx, a).tx)
  {
    var v, tx' := Over(db, tx.writes), Perform(db, tx, a).tx;
    if tx' != tx {
      PutClaimOk(db, tx, a.prior, v.claims[a.prior].(supersededBy := Some(a.next)), tx');
    }
  }

  lemma FixWinnerPut(db: Db, tx: Tx, r: RowId, row: Row, w: ClaimId, tx': Tx)
    requires WritesOk(db, tx) && r in Over(db, tx.writes).rows && Over(db, tx.writes).rows[r].status.Resolved?
    requires tx'.writes == PutRow(tx, r, row, {w}).writes && tx'.dropped == tx.dropped
    requires tx'.locks == tx.locks + {OnRow(r), OnClaim(w)}
    requires w in Holders(Over(db, tx.writes), row.slot)
    requires row == Row(Over(db, tx.writes).rows[r].slot, Resolved, Some(w), Over(db, tx.writes).rows[r].version + 1)
    ensures RowPut(db, tx, r, row, {w}, tx')
  {
  }

  lemma FixWinnerSwaps(db: Db, tx: Tx, r: RowId, w: ClaimId, tx': Tx)
    requires DbOk(db) && TxOk(db, tx) && tx.pc.Fixing? && r in tx.pc.todo
    requires r in Over(db, tx.writes).rows && Over(db, tx.writes).rows[r].status.Resolved?
    requires w in Holders(Over(db, tx.writes), Over(db, tx.writes).rows[r].slot)
    requires var row := Over(db, tx.writes).rows[r];
      tx' == PutRow(tx, r, Row(row.slot, Resolved, Some(w), row.version + 1), {w})
             .(locks := tx.locks + {OnRow(r), OnClaim(w)}, pc := tx.pc.(todo := tx.pc.todo - {r}))
    ensures TxOk(db, tx')
  {
    var row := Over(db, tx.writes).rows[r];
    FixWinnerPut(db, tx, r, Row(row.slot, Resolved, Some(w), row.version + 1), w, tx');
    FixingPut(db, tx, r, Row(row.slot, Resolved, Some(w), row.version + 1), {w}, tx');
  }

  lemma FixedWinnerOk(db: Db, tx: Tx, r: RowId, w: ClaimId, again: bool)
    requires DbOk(db) && TxOk(db, tx) && tx.pc.Fixing? && r in tx.pc.todo
    requires var v := Over(db, tx.writes); r in v.rows && w in Holders(v, v.rows[r].slot)
    ensures TxOk(db, FixedWinner(tx, Over(db, tx.writes).rows[r], r, w, again))
  {
    var v := Over(db, tx.writes);
    var tx' := FixedWinner(tx, v.rows[r], r, w, again);
    if v.rows[r].version == tx.pc.todo[r] {
      assert Current(v, r, tx.pc.todo[r]);
      FixWinnerSwaps(db, tx, r, w, tx');
    } else {
      FixingSkip(db, tx, r, again);
    }
  }

  lemma FixWinnerOk(db: Db, tx: Tx, a: Act)
    requires a.FixWinner? && DbOk(db) && TxOk(db, tx)
    ensures TxOk(db, Perform(db, tx, a).tx)
  {
    var v, tx' := Over(db, tx.writes), Perform(db, tx, a).tx;
    if tx' != tx {
      FixedWinnerOk(db, tx, a.row, a.winner, a.again);
    }
  }

  lemma FixedReopenOk(db: Db, tx: Tx, r: RowId, ids: set<ClaimId>, again: bool)
    requires DbOk(db) && TxOk(db, tx) && tx.pc.Fixing? && r in tx.pc.todo
    requires var v := Over(db, tx.writes); r in v.rows && AllOn(v, ids, v.rows[r].slot)
    ensures TxOk(db, FixedReopen(tx, Over(db, tx.writes).rows[r], r, ids, again))
  {
    var row := Over(db, tx.writes).rows[r];
    if row.version == tx.pc.todo[r] {
      FixingPut(db, tx, r, Row(row.slot, Open, None, row.version + 1), ids, FixedReopen(tx, row, r, ids, again));
    } else {
      FixingSkip(db, tx, r, again);
    }
  }

  lemma FixReopenOk(db: Db, tx: Tx, a: Act)
    requires a.FixReopen? && DbOk(db) && TxOk(db, tx)
    ensures TxOk(db, Perform(db, tx, a).tx)
  {
    if Perform(db, tx, a).tx != tx { FixedReopenOk(db, tx, a.row, a.ids, a.again); }
  }

  lemma FixNothingOk(db: Db, tx: Tx, a: Act)
    requires a.FixNothing? && DbOk(db) && TxOk(db, tx)
    ensures TxOk(db, Perform(db, tx, a).tx)
  {
    var v, tx' := Over(db, tx.writes), Perform(db, tx, a).tx;
    if tx' != tx {
      FixingSkip(db, tx, a.row, false);
    }
  }

  lemma AutoCloseOk(db: Db, tx: Tx, a: Act)
    requires a.AutoClose? && DbOk(db) && TxOk(db, tx)
    ensures TxOk(db, Perform(db, tx, a).tx)
  {
    var v, tx' := Over(db, tx.writes), Perform(db, tx, a).tx;
    if tx' != tx {
      var row := Row(v.rows[a.row].slot, Resolved, Some(a.winner), v.rows[a.row].version + 1);
      SettlingPut(db, tx, a.row, row, {a.winner}, tx');
    }
  }

  lemma AddEvidenceOk(db: Db, tx: Tx, a: Act)
    requires a.AddEvidence? && DbOk(db) && TxOk(db, tx)
    ensures TxOk(db, Perform(db, tx, a).tx)
  {
    var v, tx' := Over(db, tx.writes), Perform(db, tx, a).tx;
    if tx' != tx {
      SettlingPut(db, tx, a.row, v.rows[a.row].(version := v.rows[a.row].version + 1), a.ids, tx');
    }
  }

  lemma ReopenRowOk(db: Db, tx: Tx, a: Act)
    requires a.ReopenRow? && DbOk(db) && TxOk(db, tx)
    ensures TxOk(db, Perform(db, tx, a).tx)
  {
    var v, tx' := Over(db, tx.writes), Perform(db, tx, a).tx;
    if tx' != tx {
      SettlingPut(db, tx, a.row, Row(v.rows[a.row].slot, Open, None, v.rows[a.row].version + 1), a.ids, tx');
    }
  }

  lemma OpenRowOk(db: Db, tx: Tx, a: Act)
    requires a.OpenRow? && DbOk(db) && TxOk(db, tx)
    ensures TxOk(db, Perform(db, tx, a).tx)
  {
    var v, tx' := Over(db, tx.writes), Perform(db, tx, a).tx;
    if tx' != tx {
      SettlingPut(db, tx, a.row, Row(a.slot, Open, None, 1), a.ids, tx');
    }
  }

  lemma LockOtherOk(db: Db, tx: Tx, a: Act)
    requires a.LockOther? && DbOk(db) && TxOk(db, tx) && Perform(db, tx, a).Goto?
    ensures TxOk(db, Perform(db, tx, a).tx)
  {
  }

  lemma CopyClaimOk(db: Db, tx: Tx, a: Act)
    requires a.CopyClaim? && DbOk(db) && TxOk(db, tx)
    ensures TxOk(db, Perform(db, tx, a).tx)
  {
    var v, tx' := Over(db, tx.writes), Perform(db, tx, a).tx;
    if tx' != tx {
      PutClaimOk(db, tx, a.newId, Claim(Slot(tx.pc.target, v.claims[a.origin].slot.field), None), tx');
    }
  }

  lemma DemoteOk(db: Db, tx: Tx, a: Act)
    requires a.Demote? && DbOk(db) && TxOk(db, tx)
    ensures TxOk(db, Perform(db, tx, a).tx)
  {
    var v, tx' := Over(db, tx.writes), Perform(db, tx, a).tx;
    if tx' != tx {
      if Live(v, a.claim) {
        PutClaimOk(db, tx, a.claim, v.claims[a.claim].(supersededBy := Some(tx.pc.copies[a.claim])), tx');
      }
    }
  }

  lemma CloseRowPut(db: Db, tx: Tx, a: Act)
    requires a.CloseRow? && WinnersLinked(db) && TxOk(db, tx) && Perform(db, tx, a).tx != tx
    ensures var row := Over(db, tx.writes).rows[a.row];
      RowPut(db, tx, a.row, Row(row.slot, Resolved, None, row.version + 1), {}, Perform(db, tx, a).tx)
  {
  }

  lemma CloseRowOk(db: Db, tx: Tx, a: Act)
    requires a.CloseRow? && DbOk(db) && TxOk(db, tx)
    ensures TxOk(db, Perform(db, tx, a).tx)
  {
    var tx' := Perform(db, tx, a).tx;
    if tx' != tx {
      var row := Over(db, tx.writes).rows[a.row];
      CloseRowPut(db, tx, a);
      PutRowOk(db, tx, a.row, Row(row.slot, Resolved, None, row.version + 1), {}, tx');
    }
  }

  /** A merge takes winners away from its source's conflicts only. */
  lemma MergeSettleOk(db: Db, tx: Tx, a: Act)
    requires a.MergeSettle? && DbOk(db) && TxOk(db, tx)
    ensures TxOk(db, Perform(db, tx, a).tx)
  {
    var v, tx' := Over(db, tx.writes), Perform(db, tx, a).tx;
    if tx' != tx {
      forall r | RowLost(v, r, tx.dropped) ensures v.rows[r].slot.event in v.merged { WinnerAtHome(db, tx, r); }
    }
  }

  predicate OfMerge(a: Act) {
    a.LockOther? || a.CopyClaim? || a.Demote? || a.CloseRow? || a.MergeSettle?
  }

  predicate OfCurator(a: Act) {
    a.BeginOverride? || a.FenceWinner? || a.ReadLosers? || a.SwapResolve? || a.DropLoser? || a.Revive? || a.SwapReopen?
  }

  predicate OfIngestion(a: Act) {
    OfRepair(a) || a.WriteClaim? || a.Replace? || a.AutoClose? || a.AddEvidence? || a.ReopenRow? || a.OpenRow?
  }

  predicate OfRepair(a: Act) {
    a.Scan? || a.FixNothing? || a.FixWinner? || a.FixReopen?
  }

  lemma MergePerformOk(db: Db, tx: Tx, a: Act)
    requires OfMerge(a) && DbOk(db) && TxOk(db, tx) && Perform(db, tx, a).Goto?
    ensures TxOk(db, Perform(db, tx, a).tx)
  {
    match a
    case LockOther => LockOtherOk(db, tx, a);
    case CopyClaim(_, _) => CopyClaimOk(db, tx, a);
    case Demote(_) => DemoteOk(db, tx, a);
    case CloseRow(_) => CloseRowOk(db, tx, a);
    case MergeSettle => MergeSettleOk(db, tx, a);
  }

  lemma CuratorPerformOk(db: Db, tx: Tx, a: Act)
    requires OfCurator(a) && DbOk(db) && TxOk(db, tx) && Perform(db, tx, a).Goto?
    ensures TxOk(db, Perform(db, tx, a).tx)
  {
    match a
    case BeginOverride(_, _, _) => BeginOverrideOk(db, tx, a);
    case FenceWinner => FenceWinnerOk(db, tx, a);
    case ReadLosers => ReadLosersOk(db, tx, a);
    case SwapResolve => SwapResolveOk(db, tx, a);
    case DropLoser(_) => DropLoserOk(db, tx, a);
    case Revive(_) => ReviveOk(db, tx, a);
    case SwapReopen => SwapReopenOk(db, tx, a);
  }

  lemma RepairPerformOk(db: Db, tx: Tx, a: Act)
    requires OfRepair(a) && DbOk(db) && TxOk(db, tx) && Perform(db, tx, a).Goto?
    ensures TxOk(db, Perform(db, tx, a).tx)
  {
    match a
    case Scan => ScanOk(db, tx, a);
    case FixNothing(_) => FixNothingOk(db, tx, a);
    case FixWinner(_, _, _) => FixWinnerOk(db, tx, a);
    case FixReopen(_, _, _) => FixReopenOk(db, tx, a);
  }

  lemma IngestPerformOk(db: Db, tx: Tx, a: Act)
    requires OfIngestion(a) && DbOk(db) && TxOk(db, tx) && Perform(db, tx, a).Goto?
    ensures TxOk(db, Perform(db, tx, a).tx)
  {
    match a
    case WriteClaim(_, _) => WriteClaimOk(db, tx, a);
    case Replace(_, _) => ReplaceOk(db, tx, a);
    case AutoClose(_, _) => AutoCloseOk(db, tx, a);
    case AddEvidence(_, _) => AddEvidenceOk(db, tx, a);
    case ReopenRow(_, _) => ReopenRowOk(db, tx, a);
    case OpenRow(_, _, _) => OpenRowOk(db, tx, a);
    case _ => RepairPerformOk(db, tx, a);
  }

  /** A statement keeps its transaction consistent. */
  lemma PerformOk(db: Db, tx: Tx, a: Act)
    requires DbOk(db) && TxOk(db, tx) && Perform(db, tx, a).Goto?
    ensures TxOk(db, Perform(db, tx, a).tx)
  {
    if OfMerge(a) {
      MergePerformOk(db, tx, a);
    } else if OfCurator(a) {
      CuratorPerformOk(db, tx, a);
    } else if OfIngestion(a) {
      IngestPerformOk(db, tx, a);
    } else {
      NeverGoesOn(db, tx, a);
      ReadStepOk(db, tx, a);
    }
  }

  /** Ending a transaction is no step of it. */
  lemma NeverGoesOn(db: Db, tx: Tx, a: Act)
    requires Perform(db, tx, a).Goto?
    ensures !a.Finish? && !a.Abandon?
  {
  }

  /** A statement takes no lock it did not wait for. */
  lemma LocksWaitedFor(db: Db, tx: Tx, a: Act)
    requires Perform(db, tx, a).Goto?
    ensures Perform(db, tx, a).tx.locks <= tx.locks + Wants(db, tx, a)
  {
  }

  // ---------------------------------------------------------------- commits

  /** A resolve supersedes only claims of its own conflict, so no other conflict links them. */
  lemma DroppedElsewhere(db: Db, tx: Tx, r: RowId, c: ClaimId)
    requires DbOk(db) && TxOk(db, tx) && tx.pc.ResolveLosing?
    requires r in db.rows && r != tx.pc.row && c in tx.dropped
    ensures (r, c) !in db.links
  {
    var v := Over(db, tx.writes);
    assert v.claims[c].slot == v.rows[tx.pc.row].slot;
    assert v.rows[r].slot != v.rows[tx.pc.row].slot;
  }

  /** At commit a row won by a claim this transaction superseded is on a merged event. */
  lemma NothingLostAtCommit(db: Db, tx: Tx, r: RowId)
    requires DbOk(db) && TxOk(db, tx) && Perform(db, tx, Finish) == Commit
    requires r in db.rows && r !in tx.writes.rows
    ensures RowLost(db, r, tx.dropped) ==> db.rows[r].slot.event in Over(db, tx.writes).merged
  {
    var v := Over(db, tx.writes);
    assert v.rows[r] == db.rows[r];
    if tx.pc.ResolveLosing? {
      forall c | c in tx.dropped ensures (r, c) !in db.links { DroppedElsewhere(db, tx, r, c); }
    } else {
      assert RowLost(v, r, tx.dropped) == RowLost(db, r, tx.dropped);
    }
  }

  lemma CommitOk(db: Db, tx: Tx)
    requires DbOk(db) && TxOk(db, tx) && Perform(db, tx, Finish) == Commit
    ensures DbOk(Over(db, tx.writes))
  {
    var v := Over(db, tx.writes);
    forall r | r in v.rows && v.rows[r].status.Resolved? && v.rows[r].slot.event !in v.merged
      ensures v.rows[r].winner.Some? && Live(v, v.rows[r].winner.value)
    {
      if r !in tx.writes.rows {
        NothingLostAtCommit(db, tx, r);
      }
    }
    assert LinksAtHome(v, v.links) by {
      forall r, c | (r, c) in v.links ensures r in v.rows && c in v.claims && v.rows[r].slot == v.claims[c].slot {
        if (r, c) in db.links {
          assert db.rows[r].slot == db.claims[c].slot;
        }
      }
    }
  }

  /** What a committing transaction may have changed, seen by a transaction that shares no lock with it. */
  ghost predicate Undisturbed(db: Db, db': Db, other: Tx) {
    && (forall c :: c in db.claims ==> c in db'.claims && db'.claims[c].slot == db.claims[c].slot)
    && (forall c :: OnClaim(c) in other.locks ==>
          (c in db.claims <==> c in db'.claims) && (c in db.claims ==> db'.claims[c] == db.claims[c]))
    && (forall r :: r in db.rows ==> r in db'.rows && db'.rows[r].slot == db.rows[r].slot)
    && (forall r :: r in db'.rows && (r !in db.rows || db'.rows[r] != db.rows[r]) ==>
          && OnRow(r) !in other.locks
          && (db'.rows[r].winner.Some? ==> OnClaim(db'.rows[r].winner.value) !in other.locks)
          && (r in db.rows ==> db'.rows[r].version > db.rows[r].version)
          && (r !in db.rows ==> OnEvent(db'.rows[r].slot.event) !in other.locks))
    && db.links <= db'.links && db.merged <= db'.merged
  }

  lemma CommitUndisturbed(db: Db, tx: Tx, other: Tx)
    requires DbOk(db) && WritesOk(db, tx) && tx.locks !! other.locks
    ensures Undisturbed(db, Over(db, tx.writes), other)
  {
  }

  lemma OthersWrites(db: Db, db': Db, other: Tx)
    requires Undisturbed(db, db', other) && WritesOk(db, other)
    ensures ClaimWritesOk(db', other) && RowWritesOk(db', other)
    ensures LinksAtHome(Over(db', other.writes), other.writes.links)
  {
    var v, v' := Over(db, other.writes), Over(db', other.writes);
    forall c | c in v.claims ensures c in v'.claims && v'.claims[c].slot == v.claims[c].slot {}
    forall r | r in v.rows ensures r in v'.rows && v'.rows[r].slot == v.rows[r].slot {}
  }

  lemma OthersSlots(db: Db, db': Db, other: Tx, r: RowId, q: RowId)
    requires Undisturbed(db, db', other) && WritesOk(db, other) && OneRowPerSlot(db'.rows)
    requires r in Over(db', other.writes).rows && q in Over(db', other.writes).rows
    requires Over(db', other.writes).rows[r].slot == Over(db', other.writes).rows[q].slot
    ensures r == q
  {
    var v, v' := Over(db, other.writes), Over(db', other.writes);
    if r in v.rows && q in v.rows {
      assert v.rows[r].slot == v.rows[q].slot;
    } else if r in db'.rows && q in db'.rows {
      assert db'.rows[r].slot == v'.rows[r].slot && db'.rows[q].slot == v'.rows[q].slot;
    }
  }

  /** A row another transaction committed is not won by a claim this one holds. */
  lemma OthersLost(db: Db, db': Db, other: Tx, r: RowId)
    requires Undisturbed(db, db', other) && WritesOk(db, other)
    requires RowLost(Over(db', other.writes), r, other.dropped)
    ensures RowLost(Over(db, other.writes), r, other.dropped)
    ensures Over(db', other.writes).rows[r] == Over(db, other.writes).rows[r]
  {
    assert forall c :: c in other.dropped ==> OnClaim(c) in other.locks;
  }

  lemma OthersCurrent(db: Db, db': Db, other: Tx, r: RowId, version: nat)
    requires Undisturbed(db, db', other) && WritesOk(db, other) && Current(Over(db, other.writes), r, version)
    ensures Current(Over(db', other.writes), r, version)
  {
  }

  lemma OthersReplaced(db: Db, db': Db, other: Tx, e: EventId)
    requires Undisturbed(db, db', other) && WritesOk(db, other) && ReplacedOk(db, other, e)
    ensures ReplacedOk(db', other, e)
  {
    forall c | c in other.dropped
      ensures c in db'.claims && exists n :: n in other.writes.claims && Succeeds(db', other, n, db'.claims[c].slot)
    {
      var n :| n in other.writes.claims && Succeeds(db, other, n, db.claims[c].slot);
      assert Succeeds(db', other, n, db'.claims[c].slot);
    }
  }

  lemma OthersHome(db: Db, db': Db, other: Tx, ids: set<ClaimId>, s: Slot)
    requires Undisturbed(db, db', other) && WritesOk(db, other) && AllOn(Over(db, other.writes), ids, s)
    ensures AllOn(Over(db', other.writes), ids, s)
  {
  }

  lemma OthersFixing(db: Db, db': Db, other: Tx)
    requires Undisturbed(db, db', other) && WritesOk(db, other) && PcOk(db, other) && other.pc.Fixing?
    ensures PcOk(db', other)
  {
    var v' := Over(db', other.writes);
    var todo := other.pc.todo;
    OthersReplaced(db, db', other, other.pc.event);
    forall r | r in todo ensures Current(v', r, todo[r]) { OthersCurrent(db, db', other, r, todo[r]); }
    forall r | RowLost(v', r, other.dropped) ensures r in todo && todo[r] == v'.rows[r].version {
      OthersLost(db, db', other, r);
    }
  }

  lemma OthersSettling(db: Db, db': Db, other: Tx)
    requires Undisturbed(db, db', other) && WritesOk(db, other) && PcOk(db, other) && other.pc.Settling?
    ensures PcOk(db', other)
  {
    var v' := Over(db', other.writes);
    forall r | RowLost(v', r, other.dropped) ensures v'.rows[r].slot.event in v'.merged {
      OthersLost(db, db', other, r);
    }
  }

  lemma OthersStored(db: Db, db': Db, other: Tx, ids: set<ClaimId>, e: EventId)
    requires Undisturbed(db, db', other) && StoredOn(db, ids, e)
    ensures StoredOn(db', ids, e)
  {
  }

  lemma OthersMerging(db: Db, db': Db, other: Tx)
    requires Undisturbed(db, db', other) && PcOk(db, other) && (other.pc.Copying? || other.pc.Demoting?)
    ensures PcOk(db', other)
  {
    OthersStored(db, db', other, other.pc.copies.Keys, other.pc.source);
    if other.pc.Copying? {
      OthersStored(db, db', other, other.pc.uncopied, other.pc.source);
    } else {
      OthersStored(db, db', other, other.dropped, other.pc.source);
    }
  }

  lemma OthersWriting(db: Db, db': Db, other: Tx)
    requires Undisturbed(db, db', other) && WritesOk(db, other) && PcOk(db, other) && other.pc.Writing?
    ensures PcOk(db', other)
  {
    OthersReplaced(db, db', other, other.pc.event);
  }

  lemma OthersCurator(db: Db, db': Db, other: Tx)
    requires Undisturbed(db, db', other) && TxOk(db, other)
    requires !(other.pc.Writing? || other.pc.Fixing? || other.pc.Settling?)
    requires !(other.pc.Copying? || other.pc.Demoting?)
    ensures PcOk(db', other)
  {
    if other.pc.ResolveLosing? {
      var s := other.writes.rows[other.pc.row].slot;
      OthersHome(db, db', other, other.pc.losers, s);
      OthersHome(db, db', other, other.dropped, s);
    }
  }

  /** A commit leaves every transaction that shares no lock with it consistent. */
  lemma CommitKeepsOthers(db: Db, tx: Tx, other: Tx)
    requires DbOk(db) && TxOk(db, tx) && TxOk(db, other) && tx.locks !! other.locks
    requires OneRowPerSlot(Over(db, tx.writes).rows)
    ensures TxOk(Over(db, tx.writes), other)
  {
    var db' := Over(db, tx.writes);
    CommitUndisturbed(db, tx, other);
    OthersWrites(db, db', other);
    forall r, q | r in Over(db', other.writes).rows && q in Over(db', other.writes).rows &&
                  Over(db', other.writes).rows[r].slot == Over(db', other.writes).rows[q].slot
      ensures r == q
    {
      OthersSlots(db, db', other, r, q);
    }
    match other.pc
    case Writing(_) => OthersWriting(db, db', other);
    case Fixing(_, _) => OthersFixing(db, db', other);
    case Settling(_) => OthersSettling(db, db', other);
    case Copying(_, _, _, _) => OthersMerging(db, db', other);
    case Demoting(_, _, _) => OthersMerging(db, db', other);
    case _ => OthersCurator(db, db', other);
  }

  // ---------------------------------------------------------------- whole runs

  /** Moving one transaction on, with no lock another one holds. */
  lemma MoveKeepsInv(w: World, t: TxId, tx: Tx, wants: set<Lock>)
    requires Inv(w) && TxOk(w.db, tx) && Available(w, t, wants) && tx.locks <= TxOf(w, t).locks + wants
    ensures Inv(w.(txs := w.txs[t := tx]))
  {
  }

  lemma NewTxOk(db: Db)
    requires DbOk(db)
    ensures TxOk(db, NewTx)
  {
  }

  lemma GotoKeepsInv(w: World, t: TxId, a: Act, tx': Tx)
    requires Inv(w) && Available(w, t, Wants(w.db, TxOf(w, t), a)) && Perform(w.db, TxOf(w, t), a) == Goto(tx')
    ensures Inv(w.(txs := w.txs[t := tx']))
  {
    var tx := TxOf(w, t);
    NewTxOk(w.db);
    PerformOk(w.db, tx, a);
    LocksWaitedFor(w.db, tx, a);
    MoveKeepsInv(w, t, tx', Wants(w.db, tx, a));
  }

  lemma CommitKeepsInv(w: World, t: TxId)
    requires Inv(w) && t in w.txs && Perform(w.db, w.txs[t], Finish).Commit?
    ensures Inv(World(Over(w.db, w.txs[t].writes), w.txs - {t}))
  {
    var tx := w.txs[t];
    CommitOk(w.db, tx);
    forall u | u in w.txs && u != t ensures TxOk(Over(w.db, tx.writes), w.txs[u]) {
      CommitKeepsOthers(w.db, tx, w.txs[u]);
    }
  }

  lemma StepKeepsInv(w: World, t: TxId, a: Act)
    requires Inv(w)
    ensures Inv(Step(w, t, a))
  {
    var tx := TxOf(w, t);
    if Available(w, t, Wants(w.db, tx, a)) {
      match Perform(w.db, tx, a)
      case Goto(tx') => GotoKeepsInv(w, t, a, tx');
      case Commit => OnlyFinishCommits(w.db, tx, a); CommitKeepsInv(w, t);
      case Abort =>
    }
  }

  lemma OnlyFinishCommits(db: Db, tx: Tx, a: Act)
    requires Perform(db, tx, a).Commit?
    ensures a == Finish && tx != NewTx
  {
  }

  lemma {:induction false} RunKeepsInv(w: World, script: seq<(TxId, Act)>)
    requires Inv(w)
    ensures Inv(Run(w, script))
    decreases |script|
  {
    if script != [] {
      var last := script[|script| - 1];
      RunKeepsInv(w, script[..|script| - 1]);
      StepKeepsInv(Run(w, script[..|script| - 1]), last.0, last.1);
    }
  }

  /**
   Whatever the interleaving of resolves, reopens, ingestions and merges, however often version
   checks fail and however early the retry loops give up, every resolved conflict of an unmerged
   event is won by a claim that is not superseded; on any event every winner is linked, and each
   slot has one row.
   */
  lemma WinnersStayLive(db: Db, script: seq<(TxId, Act)>)
    requires DbOk(db)
    ensures DbOk(Run(World(db, map[]), script).db)
  {
    RunKeepsInv(World(db, map[]), script);
  }

  // ---------------------------------------------------------------- why both halves are needed

  /** One open conflict on one slot, whose linked claim 0 another claim has superseded meanwhile. */
  const Overtaken: Db :=
    Db(map[0 := Claim(Slot(5, "operator"), Some(1)), 1 := Claim(Slot(5, "operator"), None)],
       map[0 := Row(Slot(5, "operator"), Open, None, 1)], {(0, 0)}, {})

  /** A resolve that skipped the locked re-check of its winner would go on to commit a lost winner. */
  lemma FenceNeeded()
    ensures DbOk(Overtaken)
    ensures var swapped := Perform(Overtaken, NewTx.(pc := ResolveFenced(0, 1, 0)), SwapResolve);
      swapped.Goto? && !NoLostWinner(Over(Overtaken, swapped.tx.writes))
  {
    var tx := Perform(Overtaken, NewTx.(pc := ResolveFenced(0, 1, 0)), SwapResolve).tx;
    var d := Over(Overtaken, tx.writes);
    assert d.rows[0].winner == Some(0) && !Live(d, 0);
  }

  /** An ingestion that skipped the repair of the conflicts it scanned would commit a lost winner. */
  lemma RepairNeeded()
    ensures DbOk(Unrepaired) && WritesOk(Unrepaired, Unrepairing)
    ensures !NoLostWinner(Step(World(Unrepaired, map[0 := Unrepairing]), 0, Finish).db)
  {
    var d := Step(World(Unrepaired, map[0 := Unrepairing]), 0, Finish).db;
    assert d.rows[0].winner == Some(0) && !Live(d, 0);
  }

  const Unrepaired: Db :=
    Db(map[0 := Claim(Slot(5, "operator"), None)], map[0 := Row(Slot(5, "operator"), Resolved, Some(0), 2)], {(0, 0)},
       {})

  const Unrepairing: Tx :=
    Tx(Db(map[0 := Claim(Slot(5, "operator"), Some(1)), 1 := Claim(Slot(5, "operator"), None)], map[], {}, {}),
       {OnEvent(5), OnClaim(0), OnClaim(1)}, {0}, Settling(5))

  // ---------------------------------------------------------------- why merged events are apart

  /** A merge of event 5 into event 6 after each of its steps. */
  const Halfway: Tx := Tx(NoWrites, {OnEvent(5)}, {}, MergeHalf(5, 6))
  const Claimed: Tx := Tx(NoWrites.(merged := {5}), {OnEvent(5), OnEvent(6)}, {}, Copying(5, 6, {0}, map[]))
  const Copied: Tx :=
    Tx(Db(map[1 := Claim(Slot(6, "operator"), None)], map[], {}, {5}), {OnEvent(5), OnEvent(6), OnClaim(1)}, {},
       Copying(5, 6, {}, map[0 := 1]))
  const Demoted: Tx :=
    Tx(Db(map[1 := Claim(Slot(6, "operator"), None), 0 := Claim(Slot(5, "operator"), Some(1))], map[], {}, {5}),
       {OnEvent(5), OnEvent(6), OnClaim(1), OnClaim(0)}, {0}, Demoting(5, 6, map[]))

  lemma MergeCopies()
    ensures Perform(Unrepaired, NewTx, BeginMerge(5, 6)) == Goto(Halfway)
    ensures Perform(Unrepaired, Halfway, LockOther) == Goto(Claimed)
    ensures Perform(Unrepaired, Claimed, CopyClaim(0, 1)) == Goto(Copied)
  {
    assert LiveOf(Unrepaired, 5) == {0};
    assert {0} - {0} == {};
  }

  lemma MergeCopied()
    ensures Perform(Unrepaired, Copied, EndCopies) == Goto(Copied.(pc := Demoting(5, 6, map[0 := 1])))
  {
  }

  lemma MergeDemotes()
    ensures Perform(Unrepaired, Copied.(pc := Demoting(5, 6, map[0 := 1])), Demote(0)) == Goto(Demoted)
  {
    assert map[0 := 1] - {0} == map[];
  }

  lemma MergeEnds()
    ensures Perform(Unrepaired, Demoted, MergeSettle) == Goto(Demoted.(pc := Settling(6)))
    ensures Perform(Unrepaired, Demoted.(pc := Settling(6)), Finish) == Commit
  {
  }

  lemma ThenLost()
    ensures DbOk(Unrepaired)
    ensures var d := Over(Unrepaired, Demoted.writes);
      0 in d.rows && d.rows[0].status.Resolved? && d.rows[0].winner == Some(0) && !Live(d, 0)
  {
  }

  /** After a merge a decided conflict of the absorbed event is won by a superseded claim. */
  lemma MergedEventsLoseWinners()
    ensures DbOk(Unrepaired) && Perform(Unrepaired, NewTx, BeginMerge(5, 6)) == Goto(Halfway)
    ensures Perform(Unrepaired, Halfway, LockOther) == Goto(Claimed)
    ensures Perform(Unrepaired, Claimed, CopyClaim(0, 1)) == Goto(Copied)
    ensures Perform(Unrepaired, Copied, EndCopies) == Goto(Copied.(pc := Demoting(5, 6, map[0 := 1])))
    ensures Perform(Unrepaired, Copied.(pc := Demoting(5, 6, map[0 := 1])), Demote(0)) == Goto(Demoted)
    ensures Perform(Unrepaired, Demoted, MergeSettle) == Goto(Demoted.(pc := Settling(6)))
    ensures Perform(Unrepaired, Demoted.(pc := Settling(6)), Finish) == Commit
    ensures var d := Over(Unrepaired, Demoted.writes);
      0 in d.rows && d.rows[0].status.Resolved? && d.rows[0].winner == Some(0) && !Live(d, 0)
  {
    MergeCopies();
    MergeCopied();
    MergeDemotes();
    MergeEnds();
    ThenLost();
  }
}
