/** The capped list of registration aliases that an event's identity row keeps. */
module AliasCap {
  import opened Common

  type Alias = string

  const MaxAliases: nat := 5

  function Elems(s: seq<Alias>): (r: set<Alias>)
    ensures forall x :: x in r <==> x in s
  {
    if s == [] then {} else Elems(s[..|s| - 1]) + {s[|s| - 1]}
  }

  /** Walk `s[..n]` from the right, keeping at most `k` values that are neither in `seen` nor kept already. */
  function Scan(s: seq<Alias>, n: nat, seen: set<Alias>, k: nat): seq<Alias>
    requires n <= |s|
    decreases n
  {
    if n == 0 || k == 0 then []
    else if s[n - 1] in seen then Scan(s, n - 1, seen, k)
    else Scan(s, n - 1, seen + {s[n - 1]}, k - 1) + [s[n - 1]]
  }

  function Capped(s: seq<Alias>): seq<Alias> {
    Scan(s, |s|, {}, MaxAliases)
  }

  function Reversed(s: seq<Alias>): seq<Alias> {
    if s == [] then [] else [s[|s| - 1]] + Reversed(s[..|s| - 1])
  }

  lemma {:induction false} ReversedPrepends(s: seq<Alias>, x: Alias)
    ensures Reversed([x] + s) == Reversed(s) + [x]
  {
    if s != [] {
      var t := [x] + s;
      assert t[..|t| - 1] == [x] + s[..|s| - 1];
      ReversedPrepends(s[..|s| - 1], x);
    }
  }

  lemma {:induction false} ReversedAppends(s: seq<Alias>, x: Alias)
    ensures Reversed(s + [x]) == [x] + Reversed(s)
  {
    assert (s + [x])[..|s|] == s;
  }

  /** EventIdentityIndex.cap_registration_norms. */
  method CapRegistrationNorms(value: seq<Alias>) returns (capped: seq<Alias>)
    ensures capped == Capped(value)
    ensures LatestOf(value, MaxAliases, capped)
  {
    var seen: set<Alias> := {};
    var reversed: seq<Alias> := [];
    var i := |value|;
    while i > 0
      invariant 0 <= i <= |value|
      invariant |reversed| < MaxAliases
      invariant Capped(value) == Remaining(value, i, seen, reversed)
    {
      i := i - 1;
      var item := value[i];
      RemainingStep(value, i, seen, reversed);
      if item !in seen {
        seen := seen + {item};
        reversed := reversed + [item];
        if |reversed| >= MaxAliases { break; }
      }
    }
    capped := Flip(reversed);
    CappedIsLatest(value);
  }

  /** What the walk has kept, after what it would still keep of `value[..i]`. */
  function Remaining(value: seq<Alias>, i: nat, seen: set<Alias>, reversed: seq<Alias>): seq<Alias>
    requires i <= |value| && |reversed| <= MaxAliases
  {
    Scan(value, i, seen, MaxAliases - |reversed|) + Reversed(reversed)
  }

  lemma RemainingStep(value: seq<Alias>, i: nat, seen: set<Alias>, reversed: seq<Alias>)
    requires i < |value| && |reversed| < MaxAliases
    ensures Remaining(value, i + 1, seen, reversed) ==
      if value[i] in seen then Remaining(value, i, seen, reversed)
      else Remaining(value, i, seen + {value[i]}, reversed + [value[i]])
  {
    ReversedAppends(reversed, value[i]);
  }

  /** Python's `list(reversed(...))`. */
  method Flip(s: seq<Alias>) returns (r: seq<Alias>)
    ensures r == Reversed(s)
  {
    r := [];
    for i := 0 to |s|
      invariant r == Reversed(s[..i])
    {
      assert s[..i + 1] == s[..i] + [s[i]];
      ReversedAppends(s[..i], s[i]);
      r := [s[i]] + r;
    }
    assert s[..|s|] == s;
  }

  // ---------------------------------------------------------------- what the list means

  /** `p` is the last position of its value. */
  ghost predicate LastAt(s: seq<Alias>, p: nat, x: Alias) {
    p < |s| && s[p] == x && forall q :: p < q < |s| ==> s[q] != x
  }

  /** `x` occurs for the last time before `y` does. */
  ghost predicate Older(s: seq<Alias>, x: Alias, y: Alias) {
    exists p: nat, q: nat :: p < q && LastAt(s, p, x) && LastAt(s, q, y)
  }

  /**
   Group the values, order the groups by their last position, keep the last `k`: what the SQL
   of the repositories and of the data migration asks for.
   */
  ghost predicate LatestOf(s: seq<Alias>, k: nat, r: seq<Alias>) {
    LatestBut(s, {}, k, r)
  }

  /** The same with `seen` left out: values that were met further right. */
  ghost predicate LatestBut(s: seq<Alias>, seen: set<Alias>, k: nat, r: seq<Alias>) {
    InOrder(s, r) && Newest(s, seen, r) && Fills(s, seen, k, r)
  }

  ghost predicate Fills(s: seq<Alias>, seen: set<Alias>, k: nat, r: seq<Alias>) {
    && (forall x :: x in r ==> x in s && x !in seen)
    && |r| == if |Elems(s) - seen| <= k then |Elems(s) - seen| else k
  }

  ghost predicate InOrder(s: seq<Alias>, r: seq<Alias>) {
    forall i, j :: 0 <= i < j < |r| ==> Older(s, r[i], r[j])
  }

  /** Every candidate that was not kept is older than every value that was. */
  ghost predicate Newest(s: seq<Alias>, seen: set<Alias>, r: seq<Alias>) {
    forall x, y :: x in s && x !in seen && x !in r && y in r ==> Older(s, x, y)
  }

  lemma OlderIsStrict(s: seq<Alias>, x: Alias, y: Alias)
    requires Older(s, x, y)
    ensures x != y && !Older(s, y, x)
  {
  }

  lemma {:induction false} ElemsCount(s: seq<Alias>)
    requires NoRepeats(s)
    ensures |Elems(s)| == |s|
  {
    if s != [] {
      var rest := s[..|s| - 1];
      ElemsCount(rest);
      assert Elems(s) == Elems(rest) + {s[|s| - 1]};
    }
  }

  lemma {:induction false} SortedUnique(s: seq<Alias>, a: seq<Alias>, b: seq<Alias>)
    requires (forall x :: x in a <==> x in b) && InOrder(s, a) && InOrder(s, b)
    ensures a == b
  {
    if a != [] {
      assert a[0] in b;
      var i :| 0 <= i < |b| && b[i] == a[0];
      assert b[0] in a;
      var j :| 0 <= j < |a| && a[j] == b[0];
      if i > 0 && j > 0 { OlderIsStrict(s, a[0], a[j]); }
      assert a[0] == b[0];
      forall x ensures x in a[1..] <==> x in b[1..] { TailElems(s, a, x); TailElems(s, b, x); }
      SortedUnique(s, a[1..], b[1..]);
    }
    EmptyAlike(a, b);
  }

  lemma EmptyAlike(a: seq<Alias>, b: seq<Alias>)
    requires forall x :: x in a <==> x in b
    ensures a == [] <==> b == []
  {
    if a != [] { assert a[0] in b; }
    if b != [] { assert b[0] in a; }
  }

  lemma TailElems(s: seq<Alias>, a: seq<Alias>, x: Alias)
    requires a != [] && InOrder(s, a)
    ensures x in a[1..] <==> x in a && x != a[0]
  {
    forall i | 0 < i < |a| ensures a[i] != a[0] && a[i] in a[1..] {
      OlderIsStrict(s, a[0], a[i]);
      assert a[1..][i - 1] == a[i];
    }
  }

  lemma OrderedDistinct(s: seq<Alias>, r: seq<Alias>)
    requires InOrder(s, r)
    ensures NoRepeats(r) && |Elems(r)| == |r|
  {
    forall i, j | 0 <= i < j < |r| ensures r[i] != r[j] { OlderIsStrict(s, r[i], r[j]); }
    ElemsCount(r);
  }

  /** The description leaves no choice. */
  lemma LatestUnique(s: seq<Alias>, k: nat, a: seq<Alias>, b: seq<Alias>)
    requires LatestOf(s, k, a) && LatestOf(s, k, b)
    ensures a == b
  {
    OrderedDistinct(s, a);
    OrderedDistinct(s, b);
    if Elems(a) != Elems(b) {
      SameSizeDiffer(Elems(a), Elems(b));
      var x :| x in Elems(a) && x !in Elems(b);
      var y :| y in Elems(b) && y !in Elems(a);
      OlderIsStrict(s, x, y);
    }
    SortedUnique(s, a, b);
  }

  lemma SameSizeDiffer(a: set<Alias>, b: set<Alias>)
    requires |a| == |b| && a != b
    ensures a - b != {} && b - a != {}
  {
    assert |a| == |a - b| + |a * b| && |b| == |b - a| + |a * b|;
    assert a == (a - b) + (a * b) && b == (b - a) + (a * b);
  }

  // ---------------------------------------------------------------- the scan meets it

  lemma OlderKept(s: seq<Alias>, last: Alias, x: Alias, y: Alias)
    requires Older(s, x, y) && x != last && y != last
    ensures Older(s + [last], x, y)
  {
    var p: nat, q: nat :| p < q && LastAt(s, p, x) && LastAt(s, q, y);
    assert LastAt(s + [last], p, x) && LastAt(s + [last], q, y);
  }

  lemma OlderThanLast(s: seq<Alias>, last: Alias, x: Alias)
    requires x in s && x != last
    ensures Older(s + [last], x, last)
  {
    var p := LastPosition(s, x);
    assert LastAt(s + [last], p, x) && LastAt(s + [last], |s|, last);
  }

  lemma {:induction false} LastPosition(s: seq<Alias>, x: Alias) returns (p: nat)
    requires x in s
    ensures LastAt(s, p, x)
  {
    if s[|s| - 1] == x { p := |s| - 1; } else { p := LastPosition(s[..|s| - 1], x); }
  }

  /** Appending a value that is already accounted for keeps the order of the others. */
  lemma SkipKeepsOrder(rest: seq<Alias>, last: Alias, seen: set<Alias>, r: seq<Alias>)
    requires last in seen && InOrder(rest, r) && Newest(rest, seen, r)
    requires forall x :: x in r ==> x !in seen
    ensures InOrder(rest + [last], r) && Newest(rest + [last], seen, r)
  {
    forall i, j | 0 <= i < j < |r| ensures Older(rest + [last], r[i], r[j]) {
      assert r[i] in r && r[j] in r;
      OlderKept(rest, last, r[i], r[j]);
    }
    forall x, y | x in rest && x !in seen && x !in r && y in r ensures Older(rest + [last], x, y) {
      OlderKept(rest, last, x, y);
    }
  }

  lemma KeepKeepsOrder(rest: seq<Alias>, last: Alias, seen: set<Alias>, r: seq<Alias>)
    requires last !in seen && InOrder(rest, r) && Newest(rest, seen + {last}, r)
    requires forall x :: x in r ==> x in rest && x !in seen + {last}
    ensures InOrder(rest + [last], r + [last]) && Newest(rest + [last], seen, r + [last])
  {
    SkipKeepsOrder(rest, last, seen + {last}, r);
    var r' := r + [last];
    forall i, j | 0 <= i < j < |r'| ensures Older(rest + [last], r'[i], r'[j]) {
      if j == |r| {
        assert r[i] in r;
        OlderThanLast(rest, last, r[i]);
      }
    }
    forall x, y | x in rest && x !in seen && x !in r' && y in r' ensures Older(rest + [last], x, y) {
      if y == last { OlderThanLast(rest, last, x); }
    }
  }

  lemma FillsStep(rest: seq<Alias>, last: Alias, seen: set<Alias>, k: nat, r: seq<Alias>)
    ensures last in seen && Fills(rest, seen, k, r) ==> Fills(rest + [last], seen, k, r)
    ensures last !in seen && k > 0 && Fills(rest, seen + {last}, k - 1, r) ==> Fills(rest + [last], seen, k, r + [last])
  {
    var s := rest + [last];
    assert forall x :: x in s <==> x in rest || x == last;
    if last in seen {
      assert Elems(s) - seen == Elems(rest) - seen;
    } else {
      assert Elems(s) - seen == (Elems(rest) - (seen + {last})) + {last};
    }
  }

  lemma {:induction false} ScanIsLatest(s: seq<Alias>, n: nat, seen: set<Alias>, k: nat)
    requires n <= |s|
    ensures LatestBut(s[..n], seen, k, Scan(s, n, seen, k))
  {
    if n > 0 && k > 0 {
      var last := s[n - 1];
      assert s[..n] == s[..n - 1] + [last];
      if last in seen {
        var r := Scan(s, n - 1, seen, k);
        ScanIsLatest(s, n - 1, seen, k);
        FillsStep(s[..n - 1], last, seen, k, r);
        SkipKeepsOrder(s[..n - 1], last, seen, r);
        assert Scan(s, n, seen, k) == r;
      } else {
        var r := Scan(s, n - 1, seen + {last}, k - 1);
        ScanIsLatest(s, n - 1, seen + {last}, k - 1);
        FillsStep(s[..n - 1], last, seen, k, r);
        KeepKeepsOrder(s[..n - 1], last, seen, r);
        assert Scan(s, n, seen, k) == r + [last];
      }
    }
  }

  lemma CappedIsLatest(s: seq<Alias>)
    ensures LatestOf(s, MaxAliases, Capped(s))
  {
    ScanIsLatest(s, |s|, {}, MaxAliases);
    assert s[..|s|] == s;
  }

  /** The validator keeps exactly what grouping by last position keeps, without repeats. */
  lemma CapIsLatest(s: seq<Alias>, r: seq<Alias>)
    ensures LatestOf(s, MaxAliases, r) <==> r == Capped(s)
    ensures NoRepeats(Capped(s)) && |Capped(s)| <= MaxAliases
  {
    CappedIsLatest(s);
    OrderedDistinct(s, Capped(s));
    if LatestOf(s, MaxAliases, r) { LatestUnique(s, MaxAliases, r, Capped(s)); }
  }

  // ---------------------------------------------------------------- the cap as a stream

  lemma {:induction false} ScanPrefix(s: seq<Alias>, t: seq<Alias>, n: nat, seen: set<Alias>, k: nat)
    requires n <= |s|
    ensures Scan(s + t, n, seen, k) == Scan(s, n, seen, k)
  {
    if n > 0 && k > 0 {
      ScanPrefix(s, t, n - 1, seen, k);
      ScanPrefix(s, t, n - 1, seen + {s[n - 1]}, k - 1);
    }
  }

  /** `seen` and the values of `ys[..n]`. */
  function Met(ys: seq<Alias>, n: nat, seen: set<Alias>): set<Alias>
    requires n <= |ys|
    decreases n
  {
    if n == 0 then seen else Met(ys, n - 1, if ys[n - 1] in seen then seen else seen + {ys[n - 1]})
  }

  lemma {:induction false} MetIsElems(ys: seq<Alias>, n: nat, seen: set<Alias>)
    requires n <= |ys|
    ensures Met(ys, n, seen) == seen + Elems(ys[..n])
  {
    if n > 0 {
      assert ys[..n] == ys[..n - 1] + [ys[n - 1]];
      MetIsElems(ys, n - 1, seen + {ys[n - 1]});
      MetIsElems(ys, n - 1, seen);
    }
  }

  /** A scan over a concatenation is a scan of the right part, then of the left with what remains. */
  lemma {:induction false} ScanAppend(xs: seq<Alias>, ys: seq<Alias>, n: nat, seen: set<Alias>, k: nat)
    requires n <= |ys|
    ensures |Scan(ys, n, seen, k)| <= k
    ensures Scan(xs + ys, |xs| + n, seen, k) ==
            Scan(xs, |xs|, Met(ys, n, seen), k - |Scan(ys, n, seen, k)|) + Scan(ys, n, seen, k)
  {
    if n == 0 {
      ScanPrefix(xs, ys, |xs|, seen, k);
    } else if k > 0 {
      assert (xs + ys)[|xs| + n - 1] == ys[n - 1];
      if ys[n - 1] in seen {
        ScanAppend(xs, ys, n - 1, seen, k);
      } else {
        ScanAppend(xs, ys, n - 1, seen + {ys[n - 1]}, k - 1);
      }
    }
  }

  lemma CapAppend(xs: seq<Alias>, ys: seq<Alias>)
    ensures |Capped(ys)| <= MaxAliases
    ensures Capped(xs + ys) == Scan(xs, |xs|, Elems(ys), MaxAliases - |Capped(ys)|) + Capped(ys)
  {
    ScanAppend(xs, ys, |ys|, {}, MaxAliases);
    MetIsElems(ys, |ys|, {});
    assert ys[..|ys|] == ys && {} + Elems(ys) == Elems(ys);
  }

  /** An earlier scan has room for everything a later one skips plus everything it keeps. */
  ghost predicate Room(seen: set<Alias>, k: nat, seen': set<Alias>, m: nat) {
    seen <= seen' && |seen' - seen| + m <= k
  }

  lemma RoomStep(seen: set<Alias>, k: nat, seen': set<Alias>, m: nat, last: Alias)
    requires Room(seen, k, seen', m) && last !in seen && m > 0
    ensures k > 0
    ensures if last in seen' then Room(seen + {last}, k - 1, seen', m)
            else Room(seen + {last}, k - 1, seen' + {last}, m - 1)
  {
    if last in seen' {
      assert seen' - seen == (seen' - (seen + {last})) + {last};
    } else {
      assert (seen' + {last}) - (seen + {last}) == seen' - seen;
    }
  }

  lemma ScanLast(s: seq<Alias>, last: Alias, seen: set<Alias>, k: nat)
    requires k > 0
    ensures Scan(s + [last], |s| + 1, seen, k) ==
            if last in seen then Scan(s, |s|, seen, k) else Scan(s, |s|, seen + {last}, k - 1) + [last]
  {
    ScanPrefix(s, [last], |s|, seen, k);
    ScanPrefix(s, [last], |s|, seen + {last}, k - 1);
  }

  ghost predicate Rescans(xs: seq<Alias>, n: nat, kept: seq<Alias>, seen: set<Alias>, m: nat)
    requires n <= |xs|
  {
    Scan(kept, |kept|, seen, m) == Scan(xs, n, seen, m)
  }

  /** Scanning what an earlier scan kept loses nothing. */
  lemma {:induction false} ScanOfScan(xs: seq<Alias>, n: nat, seen: set<Alias>, k: nat, seen': set<Alias>, m: nat)
    requires n <= |xs| && Room(seen, k, seen', m)
    ensures Rescans(xs, n, Scan(xs, n, seen, k), seen', m)
    decreases n, 1
  {
    if n == 0 || m == 0 {
    } else if xs[n - 1] in seen {
      ScanOfSkip(xs, n, seen, k, seen', m);
    } else {
      RoomStep(seen, k, seen', m, xs[n - 1]);
      ScanOfKeep(xs, n, seen + {xs[n - 1]}, k - 1, seen', m);
    }
  }

  lemma {:induction false} ScanOfSkip(xs: seq<Alias>, n: nat, seen: set<Alias>, k: nat, seen': set<Alias>, m: nat)
    requires 0 < n <= |xs| && m > 0 && xs[n - 1] in seen && Room(seen, k, seen', m)
    ensures Rescans(xs, n, Scan(xs, n - 1, seen, k), seen', m)
    decreases n, 0
  {
    ScanOfScan(xs, n - 1, seen, k, seen', m);
  }

  lemma {:induction false} ScanOfKeep(xs: seq<Alias>, n: nat, seen: set<Alias>, k: nat, seen': set<Alias>, m: nat)
    requires 0 < n <= |xs| && m > 0
    requires if xs[n - 1] in seen' then Room(seen, k, seen', m) else Room(seen, k, seen' + {xs[n - 1]}, m - 1)
    ensures Rescans(xs, n, Scan(xs, n - 1, seen, k) + [xs[n - 1]], seen', m)
    decreases n, 0
  {
    var kept := ScanAgain(xs, n - 1, seen, k, if xs[n - 1] in seen' then seen' else seen' + {xs[n - 1]},
                          if xs[n - 1] in seen' then m else m - 1);
    if xs[n - 1] in seen' { SkipAlike(xs, n, kept, seen', m); } else { KeepAlike(xs, n, kept, seen', m); }
  }

  lemma {:induction false} ScanAgain(xs: seq<Alias>, n: nat, seen: set<Alias>, k: nat, seen': set<Alias>, m: nat)
      returns (kept: seq<Alias>)
    requires n <= |xs| && Room(seen, k, seen', m)
    ensures kept == Scan(xs, n, seen, k) && Rescans(xs, n, kept, seen', m)
    decreases n, 2
  {
    kept := Scan(xs, n, seen, k);
    ScanOfScan(xs, n, seen, k, seen', m);
  }

  lemma SkipAlike(xs: seq<Alias>, n: nat, kept: seq<Alias>, seen: set<Alias>, m: nat)
    requires 0 < n <= |xs| && m > 0 && xs[n - 1] in seen && Rescans(xs, n - 1, kept, seen, m)
    ensures Rescans(xs, n, kept + [xs[n - 1]], seen, m)
  {
    ScanLast(kept, xs[n - 1], seen, m);
  }

  lemma KeepAlike(xs: seq<Alias>, n: nat, kept: seq<Alias>, seen: set<Alias>, m: nat)
    requires 0 < n <= |xs| && m > 0 && xs[n - 1] !in seen
    requires Rescans(xs, n - 1, kept, seen + {xs[n - 1]}, m - 1)
    ensures Rescans(xs, n, kept + [xs[n - 1]], seen, m)
  {
    ScanLast(kept, xs[n - 1], seen, m);
  }

  /** A cap with room to spare kept everything. */
  lemma CapRoom(ys: seq<Alias>)
    ensures |Capped(ys)| < MaxAliases ==> Elems(Capped(ys)) == Elems(ys) && |Elems(ys)| == |Capped(ys)|
  {
    CappedIsLatest(ys);
    OrderedDistinct(ys, Capped(ys));
    assert Elems(ys) - {} == Elems(ys);
    if |Capped(ys)| < MaxAliases && Elems(Capped(ys)) != Elems(ys) { SameSizeDiffer(Elems(Capped(ys)), Elems(ys)); }
  }

  /** Capping an already capped list with new aliases equals capping the whole history. */
  lemma CapStreams(xs: seq<Alias>, ys: seq<Alias>)
    ensures Capped(Capped(xs) + ys) == Capped(xs + ys)
  {
    CapRoom(ys);
    CapAppend(xs, ys);
    CapAppend(Capped(xs), ys);
    var m := MaxAliases - |Capped(ys)|;
    if m > 0 {
      assert Elems(ys) - {} == Elems(ys);
      ScanOfScan(xs, |xs|, {}, MaxAliases, Elems(ys), m);
    }
  }

  /**
   One upsert of an identity row: the incoming entry's aliases, capped by the entity, and for an
   entry that matched through a merged event also its primary registration.
   */
  datatype Upsert = Upsert(norms: seq<Alias>, primary: seq<Alias>)

  /** The stored list after a sequence of upserts on a stored list. */
  function Upserts(row: seq<Alias>, us: seq<Upsert>): seq<Alias>
    decreases |us|
  {
    if us == [] then row
    else
      var u := us[|us| - 1];
      Capped(Upserts(row, us[..|us| - 1]) + Capped(u.norms) + u.primary)
  }

  function Arrived(us: seq<Upsert>): seq<Alias> {
    if us == [] then []
    else Arrived(us[..|us| - 1]) + (us[|us| - 1].norms + us[|us| - 1].primary)
  }

  /** Capping the incoming row before it is appended changes nothing either. */
  lemma CapOfSuffix(xs: seq<Alias>, ys: seq<Alias>)
    ensures Capped(xs + Capped(ys)) == Capped(xs + ys)
  {
    CapRoom(ys);
    ScanOfScan(ys, |ys|, {}, MaxAliases, {}, MaxAliases);
    CapAppend(xs, ys);
    CapAppend(xs, Capped(ys));
  }

  /** One upsert of the cap of a history gives the cap of the longer history. */
  lemma UpsertCapsHistory(history: seq<Alias>, u: Upsert)
    ensures Capped(Capped(history) + Capped(u.norms) + u.primary) == Capped(history + (u.norms + u.primary))
  {
    var row := Capped(history);
    CapStreams(row + Capped(u.norms), u.primary);
    CapOfSuffix(row, u.norms);
    CapStreams(history, u.norms);
    CapStreams(history + u.norms, u.primary);
    assert history + (u.norms + u.primary) == (history + u.norms) + u.primary;
  }

  lemma ArrivedLast(history: seq<Alias>, us: seq<Upsert>)
    requires us != []
    ensures var u := us[|us| - 1];
      history + Arrived(us) == (history + Arrived(us[..|us| - 1])) + (u.norms + u.primary)
  {
    var u := us[|us| - 1];
    Associative(history, Arrived(us[..|us| - 1]), u.norms + u.primary);
  }

  lemma Associative(a: seq<Alias>, b: seq<Alias>, c: seq<Alias>)
    ensures a + (b + c) == (a + b) + c
  {
  }

  /** However the aliases arrive, the row holds the cap of everything that arrived. */
  lemma {:induction false} UpsertsCapTheHistory(history: seq<Alias>, us: seq<Upsert>)
    ensures Upserts(Capped(history), us) == Capped(history + Arrived(us))
    decreases |us|
  {
    if us == [] {
      assert history + Arrived(us) == history;
    } else {
      var before := us[..|us| - 1];
      UpsertsCapTheHistory(history, before);
      UpsertCapsHistory(history + Arrived(before), us[|us| - 1]);
      ArrivedLast(history, us);
    }
  }

  // ---------------------------------------------------------------- the data migration

  /** Only rows longer than the cap are rewritten. */
  function Migrated(s: seq<Alias>): seq<Alias> {
    if |s| > MaxAliases then Capped(s) else s
  }

  /** A short list without repeats is its own cap. */
  lemma ShortIsCapped(s: seq<Alias>)
    requires |s| <= MaxAliases && NoRepeats(s)
    ensures Capped(s) == s
  {
    ElemsCount(s);
    assert Elems(s) - {} == Elems(s);
    forall i, j | 0 <= i < j < |s| ensures Older(s, s[i], s[j]) {
      assert LastAt(s, i, s[i]) && LastAt(s, j, s[j]);
    }
    CapIsLatest(s, s);
  }

  /** The migration agrees with the validator except on short rows that repeat an alias. */
  lemma MigrationAgrees(s: seq<Alias>)
    ensures Migrated(s) == Capped(s) <==> (|s| > MaxAliases || NoRepeats(s))
  {
    CapIsLatest(s, Capped(s));
    if |s| <= MaxAliases && NoRepeats(s) { ShortIsCapped(s); }
  }
}
