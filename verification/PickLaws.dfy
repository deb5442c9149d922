/**
 Which deals a pick considers, which it returns and when it returns none, in terms of the fields
 of the deals and the limits.
 */
module PickLaws {
  import opened Wrappers
  import opened PieceSize
  import opened Selections
  import opened SectorPacking
  import opened SectorTiling

  // ----- the epoch filter and the size cut -----

  /** Kept are exactly the deals that start after a start limit and end before an end limit, in order. */
  lemma {:induction false} KeptInEpochs(deals: seq<Deal>, spec: DealSpec) returns (at: seq<nat>)
    ensures Picks(EpochFilter(deals, spec), deals, at)
    ensures forall k: nat :: k in at <==>
              && k < |deals|
              && (spec.startEpoch > 0 ==> deals[k].startEpoch > spec.startEpoch)
              && (spec.endEpoch > 0 ==> deals[k].endEpoch < spec.endEpoch)
  {
    at := [];
    if deals != [] {
      var n := |deals| - 1;
      var init, last := deals[..n], deals[n];
      at := KeptInEpochs(init, spec);
      PicksNext(EpochFilter(init, spec), init, at, last);
      assert deals == init + [last];
      assert EpochFilter(init, spec) + [] == EpochFilter(init, spec);
      if (spec.startEpoch > 0 ==> last.startEpoch > spec.startEpoch) && (spec.endEpoch > 0 ==> last.endEpoch < spec.endEpoch) {
        at := at + [n];
      }
    }
  }

  /** The cut drops the deals before the first one that is large enough. */
  lemma {:induction false} CutBelow(deals: seq<Deal>, limit: nat) returns (k: nat)
    ensures k <= |deals| && DropSmall(deals, limit) == deals[k..]
    ensures forall i :: 0 <= i < k ==> deals[i].size < limit
    ensures k < |deals| ==> deals[k].size >= limit
  {
    k := 0;
    if deals != [] && deals[0].size < limit {
      k := CutBelow(deals[1..], limit);
      k := k + 1;
    }
  }

  /** The cut drops the deals after the last one that is small enough. */
  lemma {:induction false} CutAbove(deals: seq<Deal>, limit: nat) returns (k: nat)
    ensures k <= |deals| && TrimLarge(deals, limit) == deals[..k]
    ensures forall i :: k <= i < |deals| ==> deals[i].size > limit
    ensures k > 0 ==> deals[k - 1].size <= limit
  {
    k := |deals|;
    if deals != [] && deals[k - 1].size > limit {
      k := CutAbove(deals[..k - 1], limit);
    }
  }

  /** What is left after both cuts is one stretch of the deals, bounded by deals within the limits. */
  lemma LeftAfterCuts(deals: seq<Deal>, spec: DealSpec) returns (lo: nat, hi: nat)
    ensures lo <= hi <= |deals| && SizeCut(deals, spec) == deals[lo..hi]
    ensures spec.minPieceSize > 0 && lo < hi ==> deals[lo].size >= spec.minPieceSize
    ensures spec.maxPieceSize > 0 && lo < hi ==> deals[hi - 1].size <= spec.maxPieceSize
    ensures forall i :: 0 <= i < lo ==> spec.minPieceSize > 0 && deals[i].size < spec.minPieceSize
    ensures forall i :: hi <= i < |deals| ==> spec.maxPieceSize > 0 && deals[i].size > spec.maxPieceSize
  {
    lo, hi := 0, |deals|;
    if spec.minPieceSize > 0 {
      lo := CutBelow(deals, spec.minPieceSize);
    }
    if spec.maxPieceSize > 0 {
      var k := CutAbove(deals[lo..], spec.maxPieceSize);
      hi := lo + k;
    }
  }

  /** What each failure of a pick says about the sector or about the deals of the queue. */
  lemma PickFails(deals: seq<Deal>, ssize: nat, spec: DealSpec, r: Result<seq<Piece>, PackError>)
    requires PickSpec(deals, ssize, spec, r)
    ensures r == Err(InvalidSpaceSize) <==> !ValidSize(ssize)
    ensures r == Err(InvalidDealPieceSize) ==> exists d :: d in deals && !ValidSize(d.size)
    ensures r == Err(DealsUnordered) ==> exists k, l :: 0 <= k < l < |deals| && deals[l].size < deals[k].size
  {
    var inEpochs := EpochFilter(deals, spec);
    var cut := SizeCut(inEpochs, spec);
    GreedyStops(cut, 0, ssize, spec.maxPiece);
    if r == Err(InvalidDealPieceSize) && !(inEpochs != [] && !ValidSize(inEpochs[0].size)) {
      var k: nat :| k < |cut| && !ValidSize(cut[k].size);
      var q := InQueue(deals, spec, k);
    } else if r == Err(InvalidDealPieceSize) {
      var at := KeptInEpochs(deals, spec);
      assert inEpochs[0] == deals[at[0]];
    }
    if r == Err(DealsUnordered) {
      var k: nat :| 0 < k < |cut| && cut[k].size < cut[k - 1].size;
      var q, p := InQueueOrdered(deals, spec, k - 1, k);
    }
  }

  /** Where in the queue a deal that is left comes from. */
  lemma InQueue(deals: seq<Deal>, spec: DealSpec, k: nat) returns (q: nat)
    requires k < |SizeCut(EpochFilter(deals, spec), spec)|
    ensures q < |deals| && deals[q] == SizeCut(EpochFilter(deals, spec), spec)[k]
  {
    var at := KeptInEpochs(deals, spec);
    var lo, hi := LeftAfterCuts(EpochFilter(deals, spec), spec);
    q := at[lo + k];
  }

  lemma InQueueOrdered(deals: seq<Deal>, spec: DealSpec, k: nat, l: nat) returns (p: nat, q: nat)
    requires k < l < |SizeCut(EpochFilter(deals, spec), spec)|
    ensures p < q < |deals|
    ensures deals[p] == SizeCut(EpochFilter(deals, spec), spec)[k] && deals[q] == SizeCut(EpochFilter(deals, spec), spec)[l]
  {
    var at := KeptInEpochs(deals, spec);
    var lo, hi := LeftAfterCuts(EpochFilter(deals, spec), spec);
    p, q := at[lo + k], at[lo + l];
  }

  // ----- the deals of a returned sector -----

  lemma {:induction false} PickedSizes(cut: seq<Deal>, n: nat, i: nat, j: nat)
    requires AllAdmissible(cut, n) && i <= j < n
    ensures cut[i].size <= cut[j].size
    decreases j
  {
    if i < j {
      assert Admissible(cut, j);
      PickedSizes(cut, n, i, j - 1);
    }
  }

  /** Every deal of a returned sector is one of the queue and lies strictly inside the epoch limits. */
  lemma PickedInLimits(deals: seq<Deal>, ssize: nat, spec: DealSpec, ps: seq<Piece>, i: nat)
    requires PickSpec(deals, ssize, spec, Ok(ps)) && i < |ps| && ps[i].DealPiece?
    ensures var d := ps[i].deal;
            && d in deals
            && (spec.startEpoch > 0 ==> d.startEpoch > spec.startEpoch)
            && (spec.endEpoch > 0 ==> d.endEpoch < spec.endEpoch)
  {
    var cut, n := PickedIsFull(deals, ssize, spec, ps);
    var inEpochs := EpochFilter(deals, spec);
    var at := KeptInEpochs(deals, spec);
    var lo, hi := LeftAfterCuts(inEpochs, spec);
    var k := PlaceOf(ps, cut, n, ssize, i);
    assert cut[k] == inEpochs[lo + k] == deals[at[lo + k]] && at[lo + k] in at;
  }

  /** None of them is below the size limit, and if the queue is sorted none is above the other one. */
  lemma PickedInSizes(deals: seq<Deal>, ssize: nat, spec: DealSpec, ps: seq<Piece>, i: nat)
    requires PickSpec(deals, ssize, spec, Ok(ps)) && i < |ps| && ps[i].DealPiece?
    ensures ps[i].deal.size >= spec.minPieceSize
    ensures spec.maxPieceSize > 0 && (forall k, l :: 0 <= k < l < |deals| ==> deals[k].size <= deals[l].size) ==>
              ps[i].deal.size <= spec.maxPieceSize
  {
    var cut, n := PickedIsFull(deals, ssize, spec, ps);
    var inEpochs := EpochFilter(deals, spec);
    var at := KeptInEpochs(deals, spec);
    var lo, hi := LeftAfterCuts(inEpochs, spec);
    var k := PlaceOf(ps, cut, n, ssize, i);
    PickedSizes(cut, n, 0, k);
    assert cut[0] == inEpochs[lo];
    assert cut[k] == inEpochs[lo + k] == deals[at[lo + k]];
    assert inEpochs[hi - 1] == deals[at[hi - 1]] && at[lo + k] <= at[hi - 1];
  }

  /** Which of the deals left a piece holds. */
  lemma PlaceOf(ps: seq<Piece>, cut: seq<Deal>, n: nat, ssize: nat, i: nat) returns (k: nat)
    requires FullSector(ps, cut, n, ssize) && i < |ps| && ps[i].DealPiece?
    ensures k < n <= |cut| && ps[i].deal == cut[k]
  {
    k := |DealsOf(ps[..i])|;
    PieceIsPlaced(ps, cut, ssize, i);
    assert DealsOf(ps)[k] == ps[i].deal;
  }

  /** A returned sector holds enough deals and bytes, and not too many deals. */
  lemma PickedEnough(deals: seq<Deal>, ssize: nat, spec: DealSpec, ps: seq<Piece>)
    requires PickSpec(deals, ssize, spec, Ok(ps)) && ps != []
    ensures var picked := DealsOf(ps);
            && |picked| > 0
            && (spec.minPiece > 0 ==> |picked| >= spec.minPiece)
            && (spec.maxPiece > 0 ==> |picked| <= spec.maxPiece)
            && SizeSum(picked) >= spec.minUsedSpace
  {
    var cut, n := PickedIsFull(deals, ssize, spec, ps);
    GreedyStops(cut, 0, ssize, spec.maxPiece);
    assert DealsOf(ps) == cut[..n];
  }

  /**
   If nothing is returned, every prefix of the deals left that fits and respects the limit is
   empty, or has too few deals or bytes.
   */
  lemma WithheldOnlyIf(deals: seq<Deal>, ssize: nat, spec: DealSpec, m: nat)
    requires ValidSize(ssize) && PickSpec(deals, ssize, spec, Ok([]))
    requires var cut := SizeCut(EpochFilter(deals, spec), spec);
             m <= |cut| && AllAdmissible(cut, |cut|) && EndOf(cut, m) <= ssize && (spec.maxPiece > 0 ==> m <= spec.maxPiece)
    ensures var cut := SizeCut(EpochFilter(deals, spec), spec);
            || m == 0
            || (spec.minPiece > 0 && m < spec.minPiece)
            || SizeSum(cut[..m]) < spec.minUsedSpace
  {
    var inEpochs := EpochFilter(deals, spec);
    var cut := SizeCut(inEpochs, spec);
    FirstLeft(inEpochs, spec);
    LongestPrefix(cut, ssize, spec.maxPiece);
    var n := Greedy(cut, 0, ssize, spec.maxPiece).value;
    PrefixGrows(cut, m, n);
  }

  lemma {:induction false} PrefixGrows(deals: seq<Deal>, m: nat, n: nat)
    requires m <= n <= |deals|
    ensures SizeSum(deals[..m]) <= SizeSum(deals[..n])
  {
    if m < n {
      PrefixGrows(deals, m, n - 1);
      PrefixSum(deals, n - 1);
    }
  }
}
