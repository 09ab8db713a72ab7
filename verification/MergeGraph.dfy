/**
 Events and their merge pointers.

 Merging points one unmerged event at another.  Five places follow these pointers, each with
 its own loop and its own answer for a missing event or a cycle; here each loop is proved
 against one definition of where a chain leads, on every store.
 */
module MergeGraph {
  import opened Common

  type EventId = nat

  /** Every stored event, with the event it was merged into. */
  type Store = map<EventId, Option<EventId>>

  predicate Merged(g: Store, id: EventId) {
    id in g && g[id].Some?
  }

  predicate Root(g: Store, id: EventId) {
    id in g && g[id].None?
  }

  /** The event reached after following at most `n` pointers. */
  function Hop(g: Store, id: EventId, n: nat): EventId {
    if n == 0 then id
    else
      var at := Hop(g, id, n - 1);
      if Merged(g, at) then g[at].value else at
  }

  /** Where the chain from an event leads: to an unmerged event, to an id nobody stores, or nowhere. */
  datatype Fate = Settles(root: EventId) | Dangles(missing: EventId) | Cycles

  ghost predicate HasFate(g: Store, id: EventId, f: Fate) {
    match f
    case Settles(r) => Root(g, r) && exists n: nat :: Hop(g, id, n) == r
    case Dangles(m) => m !in g && exists n: nat :: Hop(g, id, n) == m
    case Cycles => forall n: nat :: Merged(g, Hop(g, id, n))
  }

  lemma {:induction false} HopAdds(g: Store, id: EventId, m: nat, n: nat)
    ensures Hop(g, Hop(g, id, m), n) == Hop(g, id, m + n)
  {
    if n > 0 {
      HopAdds(g, id, m, n - 1);
      assert m + n - 1 == m + (n - 1);
    }
  }

  lemma {:induction false} HopStays(g: Store, id: EventId, m: nat, n: nat)
    requires m <= n && !Merged(g, Hop(g, id, m))
    ensures Hop(g, id, n) == Hop(g, id, m)
  {
    if m < n { HopStays(g, id, m, n - 1); }
  }

  /** Every chain has exactly one fate. */
  lemma FateExists(g: Store, id: EventId) returns (f: Fate)
    ensures HasFate(g, id, f)
  {
    if n: nat :| !Merged(g, Hop(g, id, n)) {
      var at := Hop(g, id, n);
      f := if at in g then Settles(at) else Dangles(at);
    } else {
      f := Cycles;
    }
  }

  lemma FateUnique(g: Store, id: EventId, f: Fate, f': Fate)
    requires HasFate(g, id, f) && HasFate(g, id, f')
    ensures f == f'
  {
    if !f.Cycles? && !f'.Cycles? {
      var m: nat :| Hop(g, id, m) == if f.Settles? then f.root else f.missing;
      var n: nat :| Hop(g, id, n) == if f'.Settles? then f'.root else f'.missing;
      if m <= n { HopStays(g, id, m, n); } else { HopStays(g, id, n, m); }
    }
  }

  // ---------------------------------------------------------------- walkers

  /** What a walk has visited after `n` hops: `n` different events, all merged. */
  ghost predicate Walked(g: Store, id: EventId, n: nat, seen: set<EventId>, at: EventId) {
    && at == Hop(g, id, n)
    && (forall x :: x in seen ==> Merged(g, x) && exists i: nat :: i < n && Hop(g, id, i) == x)
    && (forall i: nat :: i < n ==> Hop(g, id, i) in seen)
  }

  /** Meeting a visited event again means the chain never ends. */
  lemma {:induction false} Periodic(g: Store, id: EventId, n: nat, seen: set<EventId>, at: EventId, k: nat)
    requires Walked(g, id, n, seen, at) && at in seen
    ensures Hop(g, id, k) in seen
  {
    if k > n {
      var i: nat :| i < n && Hop(g, id, i) == at;
      HopAdds(g, id, n, k - n);
      HopAdds(g, id, i, k - n);
      assert n + (k - n) == k;
      Periodic(g, id, n, seen, at, i + (k - n));
    }
  }

  lemma SeenAgain(g: Store, id: EventId, n: nat, seen: set<EventId>, at: EventId)
    requires Walked(g, id, n, seen, at) && at in seen
    ensures HasFate(g, id, Cycles)
  {
    forall k: nat ensures Merged(g, Hop(g, id, k)) { Periodic(g, id, n, seen, at, k); }
  }

  /** Where a walk stops by itself decides the fate. */
  lemma Stops(g: Store, id: EventId, n: nat, seen: set<EventId>, at: EventId)
    requires Walked(g, id, n, seen, at)
    ensures at !in g ==> HasFate(g, id, Dangles(at))
    ensures Root(g, at) ==> HasFate(g, id, Settles(at))
  {
  }

  datatype WalkError = EventNotFound(id: EventId) | EventAlreadyMerged | ChainTooLong

  /** An answer for every fate: the root, the missing id, or an error for a cycle. */
  ghost predicate Answers(g: Store, id: EventId, r: Result<EventId, WalkError>) {
    match r
    case Ok(e) => HasFate(g, id, Settles(e))
    case Err(EventNotFound(m)) => HasFate(g, id, Dangles(m))
    case Err(EventAlreadyMerged) => HasFate(g, id, Cycles)
    case Err(ChainTooLong) => false
  }

  /** Source-record continuity: a missing event and a cycle are both errors. */
  method ContinuityTarget(g: Store, id: EventId) returns (r: Result<EventId, WalkError>)
    ensures Answers(g, id, r)
  {
    var seen: set<EventId> := {};
    var at := id;
    ghost var n: nat := 0;
    while true
      invariant Walked(g, id, n, seen, at)
      decreases g.Keys - seen
    {
      Stops(g, id, n, seen, at);
      if at !in g { return Err(EventNotFound(at)); }
      if g[at].None? { return Ok(at); }
      if at in seen {
        SeenAgain(g, id, n, seen, at);
        return Err(EventAlreadyMerged);
      }
      seen := seen + {at};
      at := g[at].value;
      n := n + 1;
    }
  }

  /** Identity resolution: a missing event is no event, a cycle is an error. */
  method ResolutionTarget(g: Store, id: EventId) returns (r: Result<Option<EventId>, WalkError>)
    ensures match r
      case Ok(Some(e)) => HasFate(g, id, Settles(e))
      case Ok(None) => exists m :: HasFate(g, id, Dangles(m))
      case Err(e) => e == EventAlreadyMerged && HasFate(g, id, Cycles)
  {
    var seen: set<EventId> := {};
    var at := id;
    ghost var n: nat := 0;
    while true
      invariant Walked(g, id, n, seen, at)
      decreases g.Keys - seen
    {
      if at !in g {
        assert HasFate(g, id, Dangles(at));
        return Ok(None);
      }
      if g[at].None? { return Ok(Some(at)); }
      if at in seen {
        SeenAgain(g, id, n, seen, at);
        return Err(EventAlreadyMerged);
      }
      seen := seen + {at};
      at := g[at].value;
      n := n + 1;
    }
  }

  /** Replay of a stored ingestion result: as continuity, through its own loop. */
  method ReplayTarget(g: Store, id: EventId) returns (r: Result<EventId, WalkError>)
    ensures Answers(g, id, r)
  {
    var seen: set<EventId> := {};
    var at := id;
    ghost var n: nat := 0;
    while true
      invariant Walked(g, id, n, seen, at)
      decreases g.Keys - seen
    {
      Stops(g, id, n, seen, at);
      if at !in g { return Err(EventNotFound(at)); }
      if g[at].None? { return Ok(at); }
      if at in seen {
        SeenAgain(g, id, n, seen, at);
        return Err(EventAlreadyMerged);
      }
      seen := seen + {at};
      at := g[at].value;
      n := n + 1;
    }
  }

  /** Public accident reads: a missing event is answered with its own id, a cycle is hidden. */
  method ReadTarget(g: Store, id: EventId) returns (r: Option<EventId>)
    ensures r.None? <==> HasFate(g, id, Cycles)
    ensures r.Some? ==> HasFate(g, id, Settles(r.value)) || HasFate(g, id, Dangles(r.value))
  {
    var seen: set<EventId> := {};
    var at := id;
    ghost var n: nat := 0;
    while true
      invariant Walked(g, id, n, seen, at)
      decreases g.Keys - seen
    {
      if at !in g { return Some(at); }
      if g[at].None? { return Some(at); }
      if at in seen {
        SeenAgain(g, id, n, seen, at);
        return None;
      }
      seen := seen + {at};
      at := g[at].value;
      n := n + 1;
    }
  }

  const HopLimit: nat := 16

  ghost predicate RootWithin(g: Store, id: EventId, hops: nat) {
    exists n: nat :: n <= hops && Root(g, Hop(g, id, n))
  }

  lemma RootFound(g: Store, id: EventId, n: nat, hops: nat)
    requires n <= hops && Root(g, Hop(g, id, n))
    ensures RootWithin(g, id, hops)
  {
  }

  /**
   Provenance gives up after 16 looks: it finds the root exactly when the chain has at most
   15 hops.
   */
  method ProvenanceTarget(g: Store, id: EventId) returns (r: Result<EventId, WalkError>)
    ensures r.Ok? <==> RootWithin(g, id, HopLimit - 1)
    ensures r.Ok? ==> HasFate(g, id, Settles(r.value))
    ensures (exists m :: r == Err(EventNotFound(m))) <==> id !in g
    ensures r == Err(ChainTooLong) ==> forall n: nat :: n < HopLimit ==> Merged(g, Hop(g, id, n))
  {
    if id !in g {
      forall n: nat ensures Hop(g, id, n) == id { HopStays(g, id, 0, n); }
      return Err(EventNotFound(id));
    }
    var seen: set<EventId> := {};
    var at := id;
    for i := 0 to HopLimit
      invariant at in g && Walked(g, id, i, seen, at)
    {
      if g[at].None? {
        RootFound(g, id, i, HopLimit - 1);
        return Ok(at);
      }
      if at in seen {
        SeenAgain(g, id, i, seen, at);
        return Err(EventAlreadyMerged);
      }
      seen := seen + {at};
      assert Hop(g, id, i + 1) == g[at].value;
      if g[at].value !in g {
        forall n: nat | n < HopLimit ensures !Root(g, Hop(g, id, n)) {
          if n > i { HopStays(g, id, i + 1, n); }
        }
        return Err(EventAlreadyMerged);
      }
      at := g[at].value;
    }
    return Err(ChainTooLong);
  }

  /**
   The duplicate candidates of a new event, as ids of surviving events: each once, the event
   itself never, and nothing beyond the first `limit` kept.
   */
  method ReviewCandidates(g: Store, event: EventId, raw: seq<EventId>, limit: nat)
      returns (r: Result<(seq<EventId>, seq<EventId>), WalkError>)
    requires limit > 0
    ensures r.Err? ==> exists c :: c in raw && HasFate(g, c, Cycles)
    ensures r.Ok? ==> var (kept, dropped) := r.value;
      && |kept| <= limit && NoRepeats(kept) && event !in kept
      && (dropped != [] ==> |kept| == limit)
      && (forall c :: c in kept || c in dropped ==> c != event && exists x :: x in raw && Stands(g, x, c))
      && (forall c :: c in dropped ==> c !in kept)
      && (forall x :: x in raw ==> exists c :: Stands(g, x, c) && (c == event || c in kept || c in dropped))
  {
    var kept: seq<EventId> := [];
    var dropped: seq<EventId> := [];
    for i := 0 to |raw|
      invariant |kept| <= limit && NoRepeats(kept) && event !in kept
      invariant dropped != [] ==> |kept| == limit
      invariant forall c :: c in kept || c in dropped ==> c != event && exists x :: x in raw && Stands(g, x, c)
      invariant forall c :: c in dropped ==> c !in kept
      invariant forall x :: x in raw[..i] ==> exists c :: Stands(g, x, c) && (c == event || c in kept || c in dropped)
    {
      var found := ResolutionTarget(g, raw[i]);
      if found.Err? { return Err(found.error); }
      var id := if found.value.Some? then found.value.value else raw[i];
      assert Stands(g, raw[i], id);
      if id == event || id in kept {
      } else if |kept| >= limit {
        dropped := dropped + [id];
      } else {
        kept := kept + [id];
      }
      assert raw[..i + 1] == raw[..i] + [raw[i]];
    }
    assert raw[..|raw|] == raw;
    return Ok((kept, dropped));
  }

  /** `c` stands for candidate `x`: its surviving event, or `x` itself when its chain leaves the store. */
  ghost predicate Stands(g: Store, x: EventId, c: EventId) {
    HasFate(g, x, Settles(c)) || (c == x && exists m :: HasFate(g, x, Dangles(m)))
  }

  // ---------------------------------------------------------------- merging

  datatype Change = Create(id: EventId) | Merge(source: EventId, target: EventId)

  datatype MergeError = IntoItself | NotFound(id: EventId) | AlreadyMerged(id: EventId)

  /** MergeDuplicateEvents as far as the pointers go. */
  function MergePointers(g: Store, source: EventId, target: EventId): Result<Store, MergeError> {
    if source == target then Err(IntoItself)
    else if source !in g then Err(NotFound(source))
    else if target !in g then Err(NotFound(target))
    else if g[source].Some? then Err(AlreadyMerged(source))
    else if g[target].Some? then Err(AlreadyMerged(target))
    else Ok(g[source := Some(target)])
  }

  /** Why a merge is refused: the first thing found wrong, the source before the target. */
  ghost predicate RefusedFor(g: Store, source: EventId, target: EventId, e: MergeError) {
    match e
    case IntoItself => source == target
    case NotFound(id) => source != target && id !in g && (id == source || (id == target && source in g))
    case AlreadyMerged(id) =>
      && source != target && source in g && target in g
      && (id == source || (id == target && g[source].None?)) && g[id].Some?
  }

  /** A merge goes through exactly between two different unmerged events, and sets one pointer. */
  lemma MergeGoesThrough(g: Store, source: EventId, target: EventId)
    ensures MergePointers(g, source, target).Ok? <==> source != target && Root(g, source) && Root(g, target)
    ensures match MergePointers(g, source, target)
      case Ok(g') => g' == g[source := Some(target)]
      case Err(e) => RefusedFor(g, source, target, e)
  {
  }

  function Apply(g: Store, c: Change): Store {
    match c
    case Create(id) => if id in g then g else g[id := None]
    case Merge(s, t) => var r := MergePointers(g, s, t); if r.Ok? then r.value else g
  }

  function Run(g: Store, changes: seq<Change>): Store
    decreases |changes|
  {
    if changes == [] then g else Apply(Run(g, changes[..|changes| - 1]), changes[|changes| - 1])
  }

  function Roots(g: Store): set<EventId> {
    set id | id in g && Root(g, id)
  }

  /** Every chain settles. */
  ghost predicate Forest(g: Store) {
    forall id {:trigger Settled(g, id)} :: id in g ==> Settled(g, id)
  }

  ghost predicate Settled(g: Store, id: EventId) {
    exists r :: HasFate(g, id, Settles(r))
  }

  ghost function Canon(g: Store, id: EventId): (r: EventId)
    requires Forest(g) && id in g
    ensures HasFate(g, id, Settles(r))
  {
    assert Settled(g, id);
    var r :| HasFate(g, id, Settles(r)); r
  }

  /** Up to the first unmerged event a chain is the same before and after a merge. */
  lemma {:induction false} HopBeforeMerge(g: Store, s: EventId, t: EventId, id: EventId, n: nat)
    requires Root(g, s) && Root(g, t) && s != t
    ensures Hop(g, id, n) != s ==> Hop(g[s := Some(t)], id, n) == Hop(g, id, n)
    ensures Hop(g, id, n) == s ==> Hop(g[s := Some(t)], id, n) in {s, t}
  {
    if n > 0 { HopBeforeMerge(g, s, t, id, n - 1); }
  }

  /** A merge takes the source off the roots and redirects exactly the events it stood for. */
  lemma MergeRedirects(g: Store, s: EventId, t: EventId, x: EventId)
    requires Forest(g) && MergePointers(g, s, t).Ok? && x in g
    ensures var g' := MergePointers(g, s, t).value;
      HasFate(g', x, Settles(if Canon(g, x) == s then t else Canon(g, x)))
  {
    var g' := MergePointers(g, s, t).value;
    var n: nat :| Hop(g, x, n) == Canon(g, x);
    HopBeforeMerge(g, s, t, x, n);
    if Canon(g, x) == s {
      assert Hop(g', x, n + 1) == t;
    }
  }

  lemma ApplyKeepsForest(g: Store, c: Change)
    requires Forest(g)
    ensures Forest(Apply(g, c))
    ensures forall id :: id in g ==> id in Apply(g, c)
  {
    var g' := Apply(g, c);
    forall x | x in g' ensures Settled(g', x) {
      match c
      case Create(id) =>
        if x !in g {
          assert Hop(g', x, 0) == x;
          assert HasFate(g', x, Settles(x));
        } else if g' != g {
          CreateKeepsChains(g, id, x);
          assert HasFate(g', x, Settles(Canon(g, x)));
        }
      case Merge(s, t) =>
        if g' != g { MergeRedirects(g, s, t, x); } else { assert HasFate(g', x, Settles(Canon(g, x))); }
    }
  }

  lemma CreateKeepsChains(g: Store, id: EventId, x: EventId)
    requires Forest(g) && id !in g && x in g
    ensures HasFate(g[id := None], x, Settles(Canon(g, x)))
  {
    var n: nat :| Hop(g, x, n) == Canon(g, x);
    CreateKeepsHops(g, id, x, n);
  }

  lemma {:induction false} CreateKeepsHops(g: Store, id: EventId, x: EventId, n: nat)
    requires id !in g
    ensures Hop(g[id := None], x, n) == Hop(g, x, n)
  {
    if n > 0 { CreateKeepsHops(g, id, x, n - 1); }
  }

  lemma CanonUnique(g: Store, id: EventId, r: EventId)
    requires Forest(g) && id in g && HasFate(g, id, Settles(r))
    ensures Canon(g, id) == r
  {
    FateUnique(g, id, Settles(Canon(g, id)), Settles(r));
  }

  lemma RootIsCanon(g: Store, id: EventId)
    requires Forest(g) && Root(g, id)
    ensures Canon(g, id) == id
  {
    assert Hop(g, id, 0) == id;
    CanonUnique(g, id, id);
  }

  lemma CreateKeepsCanon(g: Store, id: EventId, x: EventId)
    requires Forest(g) && x in g
    ensures Forest(Apply(g, Create(id))) && Canon(Apply(g, Create(id)), x) == Canon(g, x)
  {
    ApplyKeepsForest(g, Create(id));
    if id !in g {
      CreateKeepsChains(g, id, x);
      CanonUnique(g[id := None], x, Canon(g, x));
    }
  }

  lemma MergeMovesCanon(g: Store, s: EventId, t: EventId, x: EventId)
    requires Forest(g) && MergePointers(g, s, t).Ok? && x in g
    ensures var g' := MergePointers(g, s, t).value;
      Forest(g') && Canon(g', x) == (if Canon(g, x) == s then t else Canon(g, x))
  {
    ApplyKeepsForest(g, Merge(s, t));
    MergeRedirects(g, s, t, x);
    CanonUnique(MergePointers(g, s, t).value, x, if Canon(g, x) == s then t else Canon(g, x));
  }

  /** The merges of a run that succeeded. */
  function Merges(g: Store, changes: seq<Change>): nat
    decreases |changes|
  {
    if changes == [] then 0
    else
      var before, c := changes[..|changes| - 1], changes[|changes| - 1];
      Merges(g, before) + Redirected(Run(g, before), c)
  }

  /**
   From an empty store every sequence of creations and merge requests, refused ones included,
   leaves a forest with one root fewer for each merge that succeeded.
   */
  lemma {:induction false} ReachableForest(changes: seq<Change>)
    ensures Forest(Run(map[], changes))
    ensures |Roots(Run(map[], changes))| + Merges(map[], changes) == |Run(map[], changes)|
    decreases |changes|
  {
    if changes != [] {
      var before, c := changes[..|changes| - 1], changes[|changes| - 1];
      ReachableForest(before);
      ApplyKeepsForest(Run(map[], before), c);
      RootsCount(Run(map[], before), c);
    }
  }

  function Redirected(g: Store, c: Change): nat {
    if c.Merge? && MergePointers(g, c.source, c.target).Ok? then 1 else 0
  }

  lemma RootsAfterCreate(g: Store, id: EventId)
    requires id !in g
    ensures |Roots(g[id := None])| == |Roots(g)| + 1 && |g[id := None]| == |g| + 1
  {
    assert g[id := None].Keys == g.Keys + {id};
    assert Roots(g[id := None]) == Roots(g) + {id};
  }

  lemma RootsAfterMerge(g: Store, s: EventId, t: EventId)
    requires Root(g, s)
    ensures Roots(g[s := Some(t)]) == Roots(g) - {s}
    ensures |Roots(g[s := Some(t)])| == |Roots(g)| - 1 && |g[s := Some(t)]| == |g|
  {
    assert g[s := Some(t)].Keys == g.Keys;
    assert s in Roots(g) && Roots(g[s := Some(t)]) == Roots(g) - {s};
  }

  lemma RootsCount(g: Store, c: Change)
    ensures |Roots(Apply(g, c))| + Redirected(g, c) + |g| == |Roots(g)| + |Apply(g, c)|
  {
    match c
    case Create(id) => if id !in g { RootsAfterCreate(g, id); }
    case Merge(s, t) => if MergePointers(g, s, t).Ok? { RootsAfterMerge(g, s, t); }
  }

  /** On a reachable store no walk fails to settle, so every walker has the same one answer. */
  lemma WalkersAgree(changes: seq<Change>, id: EventId, f: Fate)
    requires id in Run(map[], changes) && HasFate(Run(map[], changes), id, f)
    ensures Forest(Run(map[], changes)) && f == Settles(Canon(Run(map[], changes), id))
  {
    ReachableForest(changes);
    FateUnique(Run(map[], changes), id, f, Settles(Canon(Run(map[], changes), id)));
  }

  // ---------------------------------------------------------------- chains longer than provenance follows

  function Creations(k: nat): seq<Change> {
    if k == 0 then [] else Creations(k - 1) + [Create(k - 1)]
  }

  /** Merge 0 into 1, then 1 into 2, and so on, over events 0 to `last`. */
  function ChainScript(last: nat, k: nat): seq<Change> {
    if k == 0 then Creations(last + 1) else ChainScript(last, k - 1) + [Merge(k - 1, k)]
  }

  lemma RunLast(before: seq<Change>, c: Change)
    ensures Run(map[], before + [c]) == Apply(Run(map[], before), c)
  {
    assert (before + [c])[..|before|] == before;
  }

  /** Events 0 to `n - 1`, of which the first `k` are merged into their successors. */
  ghost predicate Chain(g: Store, n: nat, k: nat) {
    (forall i: nat :: i in g <==> i < n) && forall i: nat :: i < n ==> g[i] == if i < k then Some(i + 1) else None
  }

  lemma {:induction false} CreationsStore(n: nat)
    ensures Chain(Run(map[], Creations(n)), n, 0)
  {
    if n > 0 {
      CreationsStore(n - 1);
      RunLast(Creations(n - 1), Create(n - 1));
    }
  }

  lemma {:induction false} ChainStore(last: nat, k: nat)
    requires k <= last
    ensures Chain(Run(map[], ChainScript(last, k)), last + 1, k)
  {
    if k == 0 {
      CreationsStore(last + 1);
    } else {
      ChainStore(last, k - 1);
      RunLast(ChainScript(last, k - 1), Merge(k - 1, k));
    }
  }

  lemma {:induction false} ChainHop(last: nat, n: nat)
    requires n <= last
    ensures Hop(Run(map[], ChainScript(last, last)), 0, n) == n
  {
    ChainStore(last, last);
    if n > 0 { ChainHop(last, n - 1); }
  }

  /**
   Chains of every length are reachable by merges alone; from 16 hops on the first 16 looks
   find only merged events, and provenance refuses an event the other walkers resolve.
   */
  lemma LongChainReachable(k: nat)
    requires k >= HopLimit
    ensures var g := Run(map[], ChainScript(k, k));
      && HasFate(g, 0, Settles(k))
      && !RootWithin(g, 0, HopLimit - 1)
  {
    var g := Run(map[], ChainScript(k, k));
    ChainStore(k, k);
    ChainHop(k, k);
    forall n: nat | n < HopLimit ensures !Root(g, Hop(g, 0, n)) { ChainHop(k, n); }
  }
}
