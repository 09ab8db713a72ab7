/** Usage events compacted into daily counts by tenant and metric. */
module Rollups {
  import opened Common

  type Tenant = nat

  /** The tenant under which system-wide metrics are kept. */
  const Sentinel: Tenant := 0

  datatype Metric =
    | TenantClaimIngested
    | TenantReportFiled
    | TenantIngestionRunCompleted
    | NlQueryExecuted
    | HfacsAttributionCreated
    | EchoCrossrefRun

  const TenantMetrics: seq<Metric> := [TenantClaimIngested, TenantReportFiled, TenantIngestionRunCompleted]
  const SystemMetrics: seq<Metric> := [NlQueryExecuted, HfacsAttributionCreated]

  /** Days are counted from some midnight, times in microseconds from it. */
  const DayLength: int := 86_400_000_000

  datatype Event = Event(tenant: Option<Tenant>, metric: Metric, at: int)

  datatype Cell = Cell(tenant: Tenant, metric: Metric, day: int)

  /** `_day_bounds`: a day includes its midnight and excludes the next. */
  predicate OnDay(at: int, day: int) {
    day * DayLength <= at < (day + 1) * DayLength
  }

  /** `count_in_range`. */
  function CountIn(events: seq<Event>, tenant: Option<Tenant>, metric: Metric, day: int): nat {
    if events == [] then 0
    else
      var e := events[|events| - 1];
      CountIn(events[..|events| - 1], tenant, metric, day) +
        (if e.tenant == tenant && e.metric == metric && OnDay(e.at, day) then 1 else 0)
  }

  /** What a cell must count. */
  function CellCount(events: seq<Event>, c: Cell): nat {
    CountIn(events, if c.metric in SystemMetrics then None else Some(c.tenant), c.metric, c.day)
  }

  predicate Uses(e: Event, day: int, t: Tenant) {
    e.tenant == Some(t) && OnDay(e.at, day)
  }

  /** The tenants of a day: the given ones, or those with an event that day. */
  ghost predicate TenantOf(events: seq<Event>, explicit: Option<seq<Tenant>>, day: int, t: Tenant) {
    match explicit
    case Some(ts) => t in ts
    case None => exists i :: 0 <= i < |events| && Uses(events[i], day, t)
  }

  /** The grid of cells a computation writes. */
  ghost predicate InGrid(events: seq<Event>, explicit: Option<seq<Tenant>>, from: int, to: int, c: Cell) {
    && from <= c.day <= to
    && ((c.metric in TenantMetrics && TenantOf(events, explicit, c.day, c.tenant)) ||
        (c.metric in SystemMetrics && c.tenant == Sentinel))
  }

  class UsageBook {
    /** Rollup rows by their natural key. */
    var rollups: map<Cell, nat>

    constructor ()
      ensures rollups == map[]
    {
      rollups := map[];
    }

    /** `distinct_tenants_in_range`. */
    method DistinctTenants(events: seq<Event>, day: int) returns (ts: seq<Tenant>)
      ensures NoRepeats(ts)
      ensures forall t :: t in ts <==> TenantOf(events, None, day, t)
    {
      ts := [];
      for i := 0 to |events|
        invariant NoRepeats(ts)
        invariant forall t :: t in ts <==> TenantOf(events[..i], None, day, t)
      {
        var e := events[i];
        TenantsNext(events, i, day);
        if e.tenant.Some? && OnDay(e.at, day) && e.tenant.value !in ts { ts := ts + [e.tenant.value]; }
      }
      assert events[..|events|] == events;
    }

    /**
     ComputeDailyRollups.execute: every cell of the grid is set to its count, nothing else changes.
     One row is written for each cell, unless a tenant was listed twice.
     */
    method Compute(events: seq<Event>, explicit: Option<seq<Tenant>>, from: int, to: int)
        returns (rows: nat, ghost grid: set<Cell>)
      modifies this
      ensures forall c :: c in grid <==> InGrid(events, explicit, from, to, c)
      ensures Written(old(rollups), rollups, grid, events)
      ensures (explicit.Some? ==> NoRepeats(explicit.value)) ==> rows == |grid|
    {
      rows, grid := 0, {};
      var day := from;
      NothingWritten(rollups, events);
      while day <= to
        invariant if from <= to then from <= day <= to + 1 else day == from
        invariant forall c :: c in grid <==> InGrid(events, explicit, from, day - 1, c)
        invariant Written(old(rollups), rollups, grid, events)
        invariant (explicit.Some? ==> NoRepeats(explicit.value)) ==> rows == |grid|
      {
        var tenants: seq<Tenant>;
        if explicit.Some? { tenants := explicit.value; } else { tenants := DistinctTenants(events, day); }
        ghost var before := rollups;
        ghost var cells;
        var n: nat;
        n, cells := ComputeDay(events, tenants, day);
        WrittenBoth(old(rollups), before, rollups, grid, cells, events);
        assert forall c :: c in cells <==> InGrid(events, explicit, day, day, c);
        assert grid !! cells;
        rows, grid, day := rows + n, grid + cells, day + 1;
      }
      if to < from { assert forall c :: !InGrid(events, explicit, from, to, c); }
    }

    /** The rows of one day: three a tenant, and the system's. */
    method ComputeDay(events: seq<Event>, tenants: seq<Tenant>, day: int) returns (rows: nat, ghost cells: set<Cell>)
      modifies this
      ensures forall c :: c in cells <==> DayCell(tenants, day, c)
      ensures Written(old(rollups), rollups, cells, events)
      ensures NoRepeats(tenants) ==> rows == |cells|
    {
      rows, cells := 0, {};
      NothingWritten(rollups, events);
      for i := 0 to |tenants|
        invariant forall c :: c in cells <==> TenantCell(tenants[..i], day, c)
        invariant Written(old(rollups), rollups, cells, events)
        invariant NoRepeats(tenants) ==> rows == |cells|
      {
        ghost var before := rollups;
        ghost var own;
        var n: nat;
        n, own := ComputeMetrics(events, tenants[i], TenantMetrics, day);
        WrittenBoth(old(rollups), before, rollups, cells, own, events);
        assert tenants[..i + 1] == tenants[..i] + [tenants[i]];
        if NoRepeats(tenants) { assert cells !! own; }
        rows, cells := rows + n, cells + own;
      }
      assert tenants[..|tenants|] == tenants;
      ghost var before := rollups;
      ghost var own;
      var n: nat;
      n, own := ComputeMetrics(events, Sentinel, SystemMetrics, day);
      WrittenBoth(old(rollups), before, rollups, cells, own, events);
      assert cells !! own;
      rows, cells := rows + n, cells + own;
    }

    /** The rows of one tenant, or of the sentinel. */
    method ComputeMetrics(events: seq<Event>, tenant: Tenant, metrics: seq<Metric>, day: int)
        returns (rows: nat, ghost cells: set<Cell>)
      requires metrics == TenantMetrics || (metrics == SystemMetrics && tenant == Sentinel)
      modifies this
      ensures forall c :: c in cells <==> RowCell(tenant, metrics, day, c)
      ensures Written(old(rollups), rollups, cells, events) && rows == |cells|
    {
      rows, cells := 0, {};
      NothingWritten(rollups, events);
      for k := 0 to |metrics|
        invariant forall c :: c in cells <==> RowCell(tenant, metrics[..k], day, c)
        invariant Written(old(rollups), rollups, cells, events) && rows == |cells|
      {
        var c := Cell(tenant, metrics[k], day);
        var count := CountIn(events, if metrics == SystemMetrics then None else Some(tenant), c.metric, day);
        assert metrics[k] !in metrics[..k] && metrics[..k + 1] == metrics[..k] + [metrics[k]];
        WrittenOne(old(rollups), rollups, cells, c, events);
        rollups := rollups[c := count];
        rows, cells := rows + 1, cells + {c};
      }
      assert metrics[..|metrics|] == metrics;
    }
  }

  predicate TenantCell(tenants: seq<Tenant>, day: int, c: Cell) {
    c.day == day && c.tenant in tenants && c.metric in TenantMetrics
  }

  predicate RowCell(tenant: Tenant, metrics: seq<Metric>, day: int, c: Cell) {
    c.day == day && c.tenant == tenant && c.metric in metrics
  }

  /** The cells of one day. */
  predicate DayCell(tenants: seq<Tenant>, day: int, c: Cell) {
    TenantCell(tenants, day, c) || (c.day == day && c.tenant == Sentinel && c.metric in SystemMetrics)
  }

  /** The cells of `grid` hold their counts, all others what they held. */
  ghost predicate Written(was: map<Cell, nat>, now: map<Cell, nat>, grid: set<Cell>, events: seq<Event>) {
    now == was + map c | c in grid :: CellCount(events, c)
  }

  lemma NothingWritten(was: map<Cell, nat>, events: seq<Event>)
    ensures Written(was, was, {}, events)
  {
  }

  lemma WrittenOne(was: map<Cell, nat>, now: map<Cell, nat>, cells: set<Cell>, c: Cell, events: seq<Event>)
    requires Written(was, now, cells, events)
    ensures Written(was, now[c := CellCount(events, c)], cells + {c}, events)
  {
  }

  lemma WrittenBoth(was: map<Cell, nat>, mid: map<Cell, nat>, now: map<Cell, nat>, g: set<Cell>, h: set<Cell>,
                    events: seq<Event>)
    requires Written(was, mid, g, events) && Written(mid, now, h, events)
    ensures Written(was, now, g + h, events)
  {
  }

  lemma TenantsNext(events: seq<Event>, i: nat, day: int)
    requires i < |events|
    ensures forall t: Tenant ::
      TenantOf(events[..i + 1], None, day, t) <==> TenantOf(events[..i], None, day, t) || Uses(events[i], day, t)
  {
    var now, next := events[..i], events[..i + 1];
    forall t: Tenant ensures TenantOf(next, None, day, t) <==> TenantOf(now, None, day, t) || Uses(events[i], day, t) {
      if TenantOf(now, None, day, t) {
        var j :| 0 <= j < |now| && Uses(now[j], day, t);
        assert next[j] == now[j];
      }
      if Uses(events[i], day, t) { assert next[i] == events[i]; }
    }
  }

  // ---------------------------------------------------------------- conservation

  function DayOf(at: int): int {
    at / DayLength
  }

  /** The one cell an event falls in: system metrics without a tenant, tenant metrics with one. */
  function CellOf(e: Event): Option<Cell> {
    if e.metric in SystemMetrics && e.tenant.None? then Some(Cell(Sentinel, e.metric, DayOf(e.at)))
    else if e.metric in TenantMetrics && e.tenant.Some? then Some(Cell(e.tenant.value, e.metric, DayOf(e.at)))
    else None
  }

  lemma DayIsUnique(at: int, day: int)
    ensures OnDay(at, day) <==> day == DayOf(at)
  {
    var q := at / DayLength;
    assert q * DayLength <= at < q * DayLength + DayLength;
  }

  /** Every cell of a grid counts exactly the events that fall in it. */
  function FallsIn(events: seq<Event>, c: Cell): nat {
    if events == [] then 0
    else FallsIn(events[..|events| - 1], c) + (if CellOf(events[|events| - 1]) == Some(c) then 1 else 0)
  }

  lemma {:induction false} CellCountsItsEvents(events: seq<Event>, c: Cell)
    requires c.metric in TenantMetrics || (c.metric in SystemMetrics && c.tenant == Sentinel)
    ensures CellCount(events, c) == FallsIn(events, c)
  {
    if events != [] {
      CellCountsItsEvents(events[..|events| - 1], c);
      DayIsUnique(events[|events| - 1].at, c.day);
    }
  }

  /** The total of the rows of a set of cells. */
  ghost function Sum(rollups: map<Cell, nat>, cells: set<Cell>): nat
    requires cells <= rollups.Keys
  {
    if cells == {} then 0
    else
      var c :| c in cells;
      rollups[c] + Sum(rollups, cells - {c})
  }

  lemma {:induction false} SumTakes(rollups: map<Cell, nat>, cells: set<Cell>, c: Cell)
    requires cells <= rollups.Keys && c in cells
    ensures Sum(rollups, cells) == rollups[c] + Sum(rollups, cells - {c})
    decreases |cells|
  {
    var d :| d in cells && Sum(rollups, cells) == rollups[d] + Sum(rollups, cells - {d});
    if d != c {
      SumTakes(rollups, cells - {d}, c);
      SumTakes(rollups, cells - {c}, d);
      assert cells - {d} - {c} == cells - {c} - {d};
    }
  }

  /** How many events fall in one of the cells. */
  function FallsInto(events: seq<Event>, cells: set<Cell>): nat {
    if events == [] then 0
    else
      var c := CellOf(events[|events| - 1]);
      FallsInto(events[..|events| - 1], cells) + (if c.Some? && c.value in cells then 1 else 0)
  }

  lemma {:induction false} FallsIntoSplit(events: seq<Event>, cells: set<Cell>, c: Cell)
    requires c in cells
    ensures FallsInto(events, cells) == FallsIn(events, c) + FallsInto(events, cells - {c})
  {
    if events != [] { FallsIntoSplit(events[..|events| - 1], cells, c); }
  }

  lemma {:induction false} FallsIntoNone(events: seq<Event>)
    ensures FallsInto(events, {}) == 0
  {
    if events != [] { FallsIntoNone(events[..|events| - 1]); }
  }

  /** The rows of a grid add up to the events that fall in it: nothing lost, nothing counted twice. */
  lemma {:induction false} RowsAddUp(rollups: map<Cell, nat>, cells: set<Cell>, events: seq<Event>)
    requires cells <= rollups.Keys && forall c :: c in cells ==> rollups[c] == FallsIn(events, c)
    ensures Sum(rollups, cells) == FallsInto(events, cells)
    decreases |cells|
  {
    if cells == {} {
      FallsIntoNone(events);
    } else {
      var c :| c in cells;
      SumTakes(rollups, cells, c);
      FallsIntoSplit(events, cells, c);
      RowsAddUp(rollups, cells - {c}, events);
    }
  }

  /** The events of the window that have a cell at all. */
  function Countable(events: seq<Event>, from: int, to: int): nat {
    if events == [] then 0
    else
      var e := events[|events| - 1];
      Countable(events[..|events| - 1], from, to) +
        (if CellOf(e).Some? && from * DayLength <= e.at < (to + 1) * DayLength then 1 else 0)
  }

  lemma {:induction false} GridTakesCountable(events: seq<Event>, all: seq<Event>, from: int, to: int, grid: set<Cell>)
    requires events <= all && forall c :: c in grid <==> InGrid(all, None, from, to, c)
    ensures FallsInto(events, grid) == Countable(events, from, to)
  {
    if events != [] {
      var e := events[|events| - 1];
      GridTakesCountable(events[..|events| - 1], all, from, to, grid);
      assert all[|events| - 1] == e;
      DayIsUnique(e.at, DayOf(e.at));
      InWindow(e.at, from, to);
      if CellOf(e).Some? {
        assert CellOf(e).value in grid <==> from <= DayOf(e.at) <= to;
      }
    }
  }

  lemma InWindow(at: int, from: int, to: int)
    ensures from <= DayOf(at) <= to <==> from * DayLength <= at < (to + 1) * DayLength
  {
    DayIsUnique(at, DayOf(at));
  }

  /**
   Usage is conserved: after a computation over all tenants the rows of the grid add up to the
   events of the half-open window that have a cell.
   */
  lemma UsageConserved(was: map<Cell, nat>, now: map<Cell, nat>, grid: set<Cell>, events: seq<Event>, from: int,
                       to: int)
    requires forall c :: c in grid <==> InGrid(events, None, from, to, c)
    requires Written(was, now, grid, events)
    ensures grid <= now.Keys && Sum(now, grid) == Countable(events, from, to)
  {
    forall c | c in grid ensures now[c] == FallsIn(events, c) { CellCountsItsEvents(events, c); }
    RowsAddUp(now, grid, events);
    GridTakesCountable(events, events, from, to, grid);
  }

  /** With listed tenants the rows add up to the events that fall in the listed cells. */
  lemma ListedUsageConserved(was: map<Cell, nat>, now: map<Cell, nat>, grid: set<Cell>, events: seq<Event>,
                             explicit: Option<seq<Tenant>>, from: int, to: int)
    requires forall c :: c in grid <==> InGrid(events, explicit, from, to, c)
    requires Written(was, now, grid, events)
    ensures grid <= now.Keys && Sum(now, grid) == FallsInto(events, grid)
  {
    forall c | c in grid ensures now[c] == FallsIn(events, c) { CellCountsItsEvents(events, c); }
    RowsAddUp(now, grid, events);
  }

  /** Computing the same range again changes no row. */
  lemma RerunChangesNothing(was: map<Cell, nat>, once: map<Cell, nat>, twice: map<Cell, nat>, grid: set<Cell>,
                            again: set<Cell>,
                            events: seq<Event>, explicit: Option<seq<Tenant>>, from: int, to: int)
    requires forall c :: c in grid <==> InGrid(events, explicit, from, to, c)
    requires forall c :: c in again <==> InGrid(events, explicit, from, to, c)
    requires Written(was, once, grid, events) && Written(once, twice, again, events)
    ensures twice == once
  {
    assert grid == again;
  }
}
