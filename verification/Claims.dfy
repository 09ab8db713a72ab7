/** Claims, the pieces of evidence: never deleted, only superseded. */
module Claims {
  import opened Common

  type EventId = nat
  type ClaimId = nat
  type SourceId = nat
  type SnapshotId = nat
  type UserId = nat

  datatype Kind = Raw | Confirmed | ManualOverride | Superseded

  datatype Claim = Claim(
    event: EventId,
    source: SourceId,
    snapshot: Option<SnapshotId>,
    field: string,
    value: int,
    kind: Kind,
    author: Option<UserId>,
    at: nat,
    supersededBy: Option<ClaimId>)

  /** Every kind but SUPERSEDED takes part in current evidence, and can win a conflict. */
  predicate Active(c: Claim) {
    c.kind != Superseded
  }

  function Superseding(c: Claim, winner: ClaimId): Claim {
    c.(kind := Superseded, supersededBy := Some(winner))
  }

  /** `bulk_supersede`: already superseded claims keep their lineage. */
  function BulkSupersede(claims: seq<Claim>, ids: set<ClaimId>, winner: ClaimId): (r: seq<Claim>)
    ensures |r| == |claims|
    ensures forall i :: 0 <= i < |r| ==>
      r[i] == if i in ids && Active(claims[i]) then Superseding(claims[i], winner) else claims[i]
  {
    seq(|claims|, i requires 0 <= i < |claims| =>
      if i in ids && Active(claims[i]) then Superseding(claims[i], winner) else claims[i])
  }
}
