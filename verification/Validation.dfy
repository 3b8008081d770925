/** Stateless decisions of validation.rs: where a flashblock belongs, how a canonical block
    differs from the tracked one, and what to do with pending state on a canonical block. */
module Validation {
  import opened Types

  datatype SequenceResult =
    | NextInSequence
    | FirstOfNextBlock
    | NewPayloadForCurrentBlock
    | Duplicate
    | NonSequentialGap(expected: nat, actual: nat)
    | InvalidNewBlockIndex(blockNumber: nat, index: nat)

  function Validate(latestBlock: nat, latestIndex: nat, latestPayload: nat,
                    block: nat, index: nat, payload: nat): (r: SequenceResult)
    ensures r.NextInSequence? <==> block == latestBlock && index == latestIndex + 1
    ensures r.FirstOfNextBlock? <==> block == latestBlock + 1 && index == 0
    ensures r.NewPayloadForCurrentBlock? <==> block == latestBlock && index == 0 && payload != latestPayload
    ensures r.Duplicate? <==> block == latestBlock && index == latestIndex && (index == 0 ==> payload == latestPayload)
    ensures r.InvalidNewBlockIndex? <==> block != latestBlock && !(block == latestBlock + 1 && index == 0)
    ensures r.NonSequentialGap? <==>
            && block == latestBlock && index != latestIndex && index != latestIndex + 1
            && (index == 0 ==> payload == latestPayload)
    ensures r.NonSequentialGap? ==> r.expected == latestIndex + 1 && r.actual == index
  {
    if block == latestBlock && index == 0 && payload != latestPayload then
      NewPayloadForCurrentBlock
    else if block == latestBlock && index == latestIndex + 1 then
      NextInSequence
    else if block == latestBlock + 1 && index == 0 then
      FirstOfNextBlock
    else if block != latestBlock then
      InvalidNewBlockIndex(block, index)
    else if index == latestIndex then
      Duplicate
    else
      NonSequentialGap(latestIndex + 1, index)
  }

  datatype ReorgResult =
    | NoReorg
    | Untracked(canonicalCount: nat)
    | CanonicalExtendsTracked(trackedCount: nat, canonicalCount: nat)
    | ReorgDetected(trackedCount: nat, canonicalCount: nat)
  {
    predicate RequiresRebuild() {
      !NoReorg?
    }
  }

  /** Only an exact match spares the rebuild; an extension keeps every tracked transaction. */
  function Detect(tracked: seq<Hash>, canonical: seq<Hash>): (r: ReorgResult)
    ensures r.RequiresRebuild() <==> tracked != canonical
    ensures r.ReorgDetected? <==> !(tracked <= canonical)
    ensures r.Untracked? <==> tracked == [] && canonical != []
    ensures r.CanonicalExtendsTracked? <==> tracked != [] && tracked < canonical
    ensures r.Untracked? ==> r.canonicalCount == |canonical|
    ensures r.CanonicalExtendsTracked? || r.ReorgDetected? ==>
              r.trackedCount == |tracked| && r.canonicalCount == |canonical|
  {
    if tracked == [] && canonical != [] then
      Untracked(|canonical|)
    else if tracked == canonical then
      NoReorg
    else if tracked <= canonical then
      CanonicalExtendsTracked(|tracked|, |canonical|)
    else
      ReorgDetected(|tracked|, |canonical|)
  }

  datatype Strategy =
    | CatchUp
    | HandleReorg
    | DepthLimitExceeded(depth: nat, maxDepth: nat)
    | Continue
    | NoPendingState

  function SaturatingSub(a: nat, b: nat): (r: nat)
    ensures a <= b ==> r == 0
    ensures a >= b ==> r + b == a
  {
    if a < b then 0 else a - b
  }

  /** Each strategy holds exactly for its own heights and verdict. */
  function Reconcile(earliest: Option<nat>, latest: Option<nat>, canonical: nat, maxDepth: nat,
                     requiresRebuild: bool): (r: Strategy)
    ensures r.NoPendingState? <==> earliest.None? || latest.None?
    ensures r.CatchUp? <==> earliest.Some? && latest.Some? && latest.value <= canonical
    ensures r.HandleReorg? <==> earliest.Some? && latest.Some? && latest.value > canonical && requiresRebuild
    ensures r.DepthLimitExceeded? <==>
            && earliest.Some? && latest.Some? && latest.value > canonical && !requiresRebuild
            && canonical > earliest.value + maxDepth
    ensures r.DepthLimitExceeded? ==> earliest.value + r.depth == canonical && r.maxDepth == maxDepth
    ensures r.Continue? <==>
            && earliest.Some? && latest.Some? && latest.value > canonical && !requiresRebuild
            && canonical <= earliest.value + maxDepth
  {
    if earliest.None? || latest.None? then
      NoPendingState
    else if latest.value <= canonical then
      CatchUp
    else if requiresRebuild then
      HandleReorg
    else if SaturatingSub(canonical, earliest.value) > maxDepth then
      DepthLimitExceeded(SaturatingSub(canonical, earliest.value), maxDepth)
    else
      Continue
  }
}
