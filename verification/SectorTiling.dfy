/**
 What the packing of SectorPacking guarantees about every sector it fills.
 */
module SectorTiling {
  import opened Wrappers
  import opened PieceSize
  import opened SectorPacking

  /** The position at which piece i starts. */
  function Start(ps: seq<Piece>, i: nat): nat
    requires i <= |ps|
  {
    Total(ps[..i])
  }

  /** Every deal that was picked passed the checks of the packing loop. */
  ghost predicate AllAdmissible(deals: seq<Deal>, n: nat) {
    n <= |deals| && forall i: nat :: i < n ==> Admissible(deals, i)
  }

  // ----- from the recursive description to single positions -----

  lemma {:induction false} PieceIsPlaced(ps: seq<Piece>, deals: seq<Deal>, ssize: nat, i: nat)
    requires Laid(ps, deals, ssize) && i < |ps|
    ensures Laid(ps[..i], deals, ssize) && WellPlaced(ps[..i], ps[i], deals, ssize)
    ensures Total(ps[..i]) + ps[i].Size() <= Total(ps)
    ensures DealsOf(ps[..i]) + (if ps[i].DealPiece? then [ps[i].deal] else []) <= DealsOf(ps)
  {
    var init := ps[..|ps| - 1];
    if i < |ps| - 1 {
      PieceIsPlaced(init, deals, ssize, i);
      assert init[..i] == ps[..i];
    }
  }

  lemma {:induction false} DealHasPiece(ps: seq<Piece>, k: nat) returns (i: nat)
    requires k < |DealsOf(ps)|
    ensures i < |ps| && ps[i].DealPiece? && ps[i].deal == DealsOf(ps)[k] && |DealsOf(ps[..i])| == k
  {
    var init := ps[..|ps| - 1];
    if k < |DealsOf(init)| {
      i := DealHasPiece(init, k);
      assert init[..i] == ps[..i];
    } else {
      i := |ps| - 1;
    }
  }

  // ----- exact aligned tiling -----

  /** The pieces fill the sector exactly and each starts at a multiple of its size. */
  lemma AlignedTiling(ps: seq<Piece>, deals: seq<Deal>, n: nat, ssize: nat)
    requires ValidSize(ssize) && FullSector(ps, deals, n, ssize) && AllAdmissible(deals, n) && deals[0].size > 0
    ensures Start(ps, |ps|) == ssize
    ensures forall i: nat :: i < |ps| ==>
              && ps[i].Size() > 0
              && Start(ps, i) % ps[i].Size() == 0
              && Start(ps, i) + ps[i].Size() <= ssize
  {
    assert ps[..|ps|] == ps;
    forall i: nat | i < |ps|
      ensures ps[i].Size() > 0 && Start(ps, i) % ps[i].Size() == 0 && Start(ps, i) + ps[i].Size() <= ssize
    {
      PieceIsPlaced(ps, deals, ssize, i);
      var start, s := Start(ps, i), ps[i].Size();
      if ps[i].ZeroPiece? {
        OneBitIsPow2(ssize);
        LowBitGreatest(ssize - start);
        Pow2Divides(s, ssize);
        ModDiff(ssize, ssize - start, s);
      } else {
        assert Admissible(deals, |DealsOf(ps[..i])|);
        AlignUpLeast(EndOf(deals, |DealsOf(ps[..i])|), s);
      }
    }
  }

  lemma PlacedUnits(before: seq<Piece>, p: Piece, deals: seq<Deal>, ssize: nat)
    requires ValidSize(ssize) && WellPlaced(before, p, deals, ssize) && Total(before) % 128 == 0
    requires p.DealPiece? ==> p.deal.size % 128 == 0
    ensures p.Size() % 128 == 0 && (p.ZeroPiece? ==> ValidSize(p.zeroes))
  {
    if p.ZeroPiece? {
      var space := ssize - Total(before);
      ValidUnits(ssize);
      ModDiff(ssize, Total(before), 128);
      LowBitBounds(space, 128);
      LowBitDivides(space);
      OneBitIsPow2(LowBit(space));
      ValidUnits(LowBit(space));
    }
  }

  lemma UnitSum(t: nat, u: nat, s: nat)
    requires t % 128 == 0 && 128 * u == 127 * t && s % 128 == 0
    ensures (t + s) % 128 == 0 && 128 * (u + Unpadded(s)) == 127 * (t + s)
  {
    ModSum(t, s, 128);
  }

  /** If deals come in multiples of 128, so do all positions, and unit conversion loses nothing. */
  lemma {:induction false} UnitChange(ps: seq<Piece>, deals: seq<Deal>, ssize: nat)
    requires ValidSize(ssize) && Laid(ps, deals, ssize)
    requires forall d: Deal :: d in DealsOf(ps) ==> d.size % 128 == 0
    ensures Total(ps) % 128 == 0 && 128 * UnpaddedTotal(ps) == 127 * Total(ps)
    ensures forall i: nat :: i < |ps| && ps[i].ZeroPiece? ==> ValidSize(ps[i].zeroes)
  {
    if ps != [] {
      var init, last := ps[..|ps| - 1], ps[|ps| - 1];
      UnitChange(init, deals, ssize);
      assert last.DealPiece? ==> last.deal in DealsOf(ps);
      PlacedUnits(init, last, deals, ssize);
      UnitSum(Total(init), UnpaddedTotal(init), last.Size());
    }
  }

  lemma PaddedBack(t: nat, u: nat)
    requires t % 128 == 0 && 128 * u == 127 * t
    ensures Padded(u) == t
  {
    assert u == 127 * (t / 128);
  }

  lemma PickedUnits(deals: seq<Deal>, n: nat)
    requires 0 < n && AllAdmissible(deals, n) && deals[0].size % 128 == 0
    ensures forall d: Deal :: d in deals[..n] ==> d.size % 128 == 0
    ensures ValidSize(deals[0].size) ==> forall d: Deal :: d in deals[..n] ==> ValidSize(d.size)
  {
    forall d: Deal | d in deals[..n]
      ensures d.size % 128 == 0 && (ValidSize(deals[0].size) ==> ValidSize(d.size))
    {
      var k: nat :| k < n && d == deals[k];
      assert Admissible(deals, k);
      if k > 0 {
        ValidUnits(d.size);
      }
    }
  }

  lemma OffsetAt(ps: seq<Piece>, deals: seq<Deal>, ssize: nat, i: nat)
    requires ValidSize(ssize) && Laid(ps, deals, ssize) && i < |ps| && ps[i].DealPiece?
    requires forall d: Deal :: d in DealsOf(ps) ==> d.size % 128 == 0
    ensures ps[i].offset == Start(ps, i)
  {
    var before := ps[..i];
    PieceIsPlaced(ps, deals, ssize, i);
    assert forall d: Deal :: d in DealsOf(before) ==> d in DealsOf(ps) by {
      PrefixMembers(DealsOf(before), DealsOf(ps));
    }
    UnitChange(before, deals, ssize);
    PaddedBack(Total(before), UnpaddedTotal(before));
  }

  lemma PrefixMembers(a: seq<Deal>, b: seq<Deal>)
    requires |a| <= |b| && a == b[..|a|]
    ensures forall d: Deal :: d in a ==> d in b
  {
  }

  /** All deals are stored at the position of their piece. */
  ghost predicate OffsetsRight(ps: seq<Piece>) {
    forall i: nat :: i < |ps| && ps[i].DealPiece? ==> ps[i].offset == Start(ps, i)
  }

  lemma OffsetsFromUnits(ps: seq<Piece>, deals: seq<Deal>, n: nat, ssize: nat)
    requires ValidSize(ssize) && FullSector(ps, deals, n, ssize) && AllAdmissible(deals, n)
    requires deals[0].size % 128 == 0
    ensures OffsetsRight(ps)
    ensures ValidSize(deals[0].size) ==> forall i: nat :: i < |ps| ==> ValidSize(ps[i].Size())
  {
    PickedUnits(deals, n);
    UnitChange(ps, deals, ssize);
    forall i: nat | i < |ps| && ps[i].DealPiece?
      ensures ps[i].offset == Start(ps, i) && ps[i].deal in deals[..n]
    {
      OffsetAt(ps, deals, ssize, i);
      PieceIsPlaced(ps, deals, ssize, i);
      PrefixMembers(DealsOf(ps[..i]) + [ps[i].deal], DealsOf(ps));
    }
  }

  /** Exactly when the first deal has a valid size do all pieces of the sector have one. */
  lemma SizesValidIffFirstValid(ps: seq<Piece>, deals: seq<Deal>, n: nat, ssize: nat)
    requires ValidSize(ssize) && FullSector(ps, deals, n, ssize) && AllAdmissible(deals, n)
    ensures (forall i: nat :: i < |ps| ==> ValidSize(ps[i].Size())) <==> ValidSize(deals[0].size)
  {
    if ValidSize(deals[0].size) {
      ValidUnits(deals[0].size);
      OffsetsFromUnits(ps, deals, n, ssize);
    } else {
      var i := DealHasPiece(ps, 0);
    }
  }

  // ----- the answer is determined -----

  /** Of two places of a list, the earlier one lies in what is before the later one. */
  lemma PlacedBefore(qs: seq<Piece>, deals: seq<Deal>, ssize: nat, i: nat, j: nat)
    requires Laid(qs, deals, ssize) && i < j < |qs|
    ensures Total(qs[..i]) + qs[i].Size() <= Total(qs[..j])
    ensures |DealsOf(qs[..i])| + (if qs[i].DealPiece? then 1 else 0) <= |DealsOf(qs[..j])|
  {
    PieceIsPlaced(qs, deals, ssize, j);
    PieceIsPlaced(qs[..j], deals, ssize, i);
    assert qs[..j][..i] == qs[..i];
  }

  /** A sector that puts a filler where the next deal belongs cannot place that deal any more. */
  lemma NoFillerAtDealPosition(qs: seq<Piece>, deals: seq<Deal>, n: nat, ssize: nat, i: nat)
    requires FullSector(qs, deals, n, ssize) && i < |qs| && qs[i].ZeroPiece?
    requires |DealsOf(qs[..i])| < n
    ensures Start(qs, i) != AlignUp(EndOf(deals, |DealsOf(qs[..i])|), deals[|DealsOf(qs[..i])|].size)
  {
    var k := |DealsOf(qs[..i])|;
    var j := DealHasPiece(qs, k);
    PieceIsPlaced(qs, deals, ssize, j);
    if j < i {
      PlacedBefore(qs, deals, ssize, j, i);
    } else {
      PlacedBefore(qs, deals, ssize, i, j);
      FillerSize(qs, deals, ssize, i);
    }
  }

  lemma FillerSize(qs: seq<Piece>, deals: seq<Deal>, ssize: nat, i: nat)
    requires Laid(qs, deals, ssize) && i < |qs| && qs[i].ZeroPiece?
    ensures qs[i].Size() > 0
  {
    PieceIsPlaced(qs, deals, ssize, i);
  }

  /** The same beginning leaves one choice for the next piece. */
  lemma SamePiece(ps: seq<Piece>, qs: seq<Piece>, deals: seq<Deal>, n: nat, ssize: nat, i: nat)
    requires FullSector(ps, deals, n, ssize) && FullSector(qs, deals, n, ssize)
    requires i < |ps| && i < |qs| && ps[..i] == qs[..i]
    ensures ps[i] == qs[i]
  {
    PieceIsPlaced(ps, deals, ssize, i);
    PieceIsPlaced(qs, deals, ssize, i);
    if ps[i].ZeroPiece? && qs[i].DealPiece? {
      NoFillerAtDealPosition(ps, deals, n, ssize, i);
    } else if ps[i].DealPiece? && qs[i].ZeroPiece? {
      NoFillerAtDealPosition(qs, deals, n, ssize, i);
    }
  }

  lemma {:induction false} SamePrefix(ps: seq<Piece>, qs: seq<Piece>, deals: seq<Deal>, n: nat, ssize: nat, i: nat)
    requires FullSector(ps, deals, n, ssize) && FullSector(qs, deals, n, ssize)
    requires i <= |ps| && i <= |qs|
    ensures ps[..i] == qs[..i]
  {
    if i > 0 {
      SamePrefix(ps, qs, deals, n, ssize, i - 1);
      SamePiece(ps, qs, deals, n, ssize, i - 1);
      assert ps[..i] == ps[..i - 1] + [ps[i - 1]] && qs[..i] == qs[..i - 1] + [qs[i - 1]];
    }
  }

  /** The requirements on a full sector leave no choice: there is one list of pieces that meets them. */
  lemma SectorUnique(ps: seq<Piece>, qs: seq<Piece>, deals: seq<Deal>, n: nat, ssize: nat)
    requires ValidSize(ssize) && FullSector(ps, deals, n, ssize) && FullSector(qs, deals, n, ssize)
    requires AllAdmissible(deals, n) && deals[0].size > 0
    ensures ps == qs
  {
    AlignedTiling(ps, deals, n, ssize);
    AlignedTiling(qs, deals, n, ssize);
    var m := if |ps| < |qs| then |ps| else |qs|;
    SamePrefix(ps, qs, deals, n, ssize, m);
    assert ps[..|ps|] == ps && qs[..|qs|] == qs;
    assert Start(ps, m) == Start(qs, m);
  }

  // ----- the picked deals -----

  lemma {:induction false} EndMonotone(deals: seq<Deal>, m: nat, n: nat)
    requires m <= n <= |deals|
    ensures EndOf(deals, m) <= EndOf(deals, n)
  {
    if m < n {
      EndMonotone(deals, m, n - 1);
      if deals[n - 1].size > 0 {
        AlignUpLeast(EndOf(deals, n - 1), deals[n - 1].size);
      }
    }
  }

  /** Everything Greedy says about the deals it picked, about the one it stopped at, and about failing. */
  ghost predicate Stops(deals: seq<Deal>, i: nat, ssize: nat, maxPiece: int, r: Result<nat, PackError>)
    requires i <= |deals|
  {
    match r
    case Ok(n) =>
      && i <= n <= |deals| && AllAdmissible(deals, n) && EndOf(deals, n) <= ssize
      && (maxPiece > 0 ==> n <= maxPiece)
      && (n < |deals| && (maxPiece > 0 ==> n < maxPiece) ==> EndOf(deals, n + 1) > ssize)
      && (forall k: nat :: i <= k < n ==> EndOf(deals, k) % 128 == 0)
    case Err(NoCommitment) =>
      exists k: nat :: i <= k < |deals| && AllAdmissible(deals, k) && EndOf(deals, k) % 128 != 0
    case Err(InvalidDealPieceSize) => exists k: nat :: i <= k < |deals| && 0 < k && !ValidSize(deals[k].size)
    case Err(DealsUnordered) => exists k: nat :: i <= k < |deals| && 0 < k && deals[k].size < deals[k - 1].size
    case Err(InvalidSpaceSize) => false
  }

  lemma {:induction false} GreedyStops(deals: seq<Deal>, i: nat, ssize: nat, maxPiece: int)
    requires i <= |deals| && EndOf(deals, i) <= ssize && AllAdmissible(deals, i)
    requires maxPiece > 0 ==> i <= maxPiece
    ensures Stops(deals, i, ssize, maxPiece, Greedy(deals, i, ssize, maxPiece))
    decreases |deals| - i
  {
    if i < |deals| && Admissible(deals, i) && !(maxPiece > 0 && i >= maxPiece)
       && EndOf(deals, i + 1) <= ssize && EndOf(deals, i) % 128 == 0 {
      GreedyStops(deals, i + 1, ssize, maxPiece);
      StopsEarlier(deals, i, ssize, maxPiece, Greedy(deals, i + 1, ssize, maxPiece));
    } else {
      StopsHere(deals, i, ssize, maxPiece);
    }
  }

  lemma StopsEarlier(deals: seq<Deal>, i: nat, ssize: nat, maxPiece: int, r: Result<nat, PackError>)
    requires i < |deals| && Stops(deals, i + 1, ssize, maxPiece, r) && EndOf(deals, i) % 128 == 0
    ensures Stops(deals, i, ssize, maxPiece, r)
  {
  }

  lemma StopsHere(deals: seq<Deal>, i: nat, ssize: nat, maxPiece: int)
    requires i <= |deals| && EndOf(deals, i) <= ssize && AllAdmissible(deals, i)
    requires maxPiece > 0 ==> i <= maxPiece
    requires !(i < |deals| && Admissible(deals, i) && !(maxPiece > 0 && i >= maxPiece)
               && EndOf(deals, i + 1) <= ssize && EndOf(deals, i) % 128 == 0)
    ensures Stops(deals, i, ssize, maxPiece, Greedy(deals, i, ssize, maxPiece))
  {
  }

  lemma FitsUpTo(deals: seq<Deal>, ssize: nat, maxPiece: int, n: nat, m: nat)
    requires n <= |deals| && m <= |deals| && EndOf(deals, n) <= ssize
    requires maxPiece > 0 ==> m <= maxPiece && n <= maxPiece
    requires n < |deals| && (maxPiece > 0 ==> n < maxPiece) ==> EndOf(deals, n + 1) > ssize
    ensures EndOf(deals, m) <= ssize <==> m <= n
  {
    if m <= n {
      EndMonotone(deals, m, n);
    } else {
      EndMonotone(deals, n + 1, m);
    }
  }

  /** From the second deal on, ends are multiples of 128; the first deal decides about its own. */
  lemma EndUnits(deals: seq<Deal>, k: nat)
    requires 0 < k && AllAdmissible(deals, k) && deals[0].size > 0
    ensures EndOf(deals, k) % 128 == 0 <==> k > 1 || deals[0].size % 128 == 0
  {
    EndStep(deals, k);
    if k == 1 {
      FirstAtZero(deals[0].size);
    } else {
      assert Admissible(deals, k - 1);
      ValidUnits(deals[k - 1].size);
      AlignedToUnit(EndOf(deals, k - 1), deals[k - 1].size);
      ModSum(AlignUp(EndOf(deals, k - 1), deals[k - 1].size), deals[k - 1].size, 128);
    }
  }

  /** The first deal is followed by a second one that passes every test. */
  predicate SecondPicked(deals: seq<Deal>, ssize: nat, maxPiece: int) {
    |deals| > 1 && Admissible(deals, 1) && !(0 < maxPiece <= 1) && EndOf(deals, 2) <= ssize
  }

  /** Greedy fails for want of a commitment exactly at a second deal after an odd first one. */
  lemma GreedyNoCommitment(deals: seq<Deal>, ssize: nat, maxPiece: int)
    requires deals != [] && deals[0].size > 0
    ensures Greedy(deals, 0, ssize, maxPiece) == Err(NoCommitment) <==>
              deals[0].size <= ssize && deals[0].size % 128 != 0 && SecondPicked(deals, ssize, maxPiece)
    ensures deals[0].size <= ssize ==> Greedy(deals, 0, ssize, maxPiece) == Greedy(deals, 1, ssize, maxPiece)
  {
    EndStep(deals, 1);
    FirstAtZero(deals[0].size);
    if deals[0].size <= ssize && Greedy(deals, 1, ssize, maxPiece) == Err(NoCommitment) {
      GreedyStops(deals, 1, ssize, maxPiece);
      var k: nat :| 1 <= k < |deals| && AllAdmissible(deals, k) && EndOf(deals, k) % 128 != 0;
      EndUnits(deals, k);
    }
  }

  lemma OnlyNoCommitment(deals: seq<Deal>, ssize: nat, maxPiece: int, r: Result<nat, PackError>)
    requires AllAdmissible(deals, |deals|) && Stops(deals, 0, ssize, maxPiece, r)
    ensures r.Err? ==> r.error == NoCommitment
  {
    forall k: nat | 0 < k < |deals|
      ensures ValidSize(deals[k].size) && deals[k - 1].size <= deals[k].size
    {
      assert Admissible(deals, k);
    }
  }

  /**
   On sorted, valid deals the pick succeeds and is the longest prefix that fits and respects the
   limit, unless the first deal is no multiple of 128 and a second one is picked.
   */
  lemma LongestPrefix(deals: seq<Deal>, ssize: nat, maxPiece: int)
    requires AllAdmissible(deals, |deals|) && (deals != [] ==> deals[0].size > 0)
    ensures var r := Greedy(deals, 0, ssize, maxPiece);
            && (r.Err? <==> SecondPicked(deals, ssize, maxPiece) && deals[0].size <= ssize && deals[0].size % 128 != 0)
            && (r.Ok? ==>
                  && r.value <= |deals|
                  && forall m: nat :: m <= |deals| && (maxPiece > 0 ==> m <= maxPiece) ==>
                       (EndOf(deals, m) <= ssize <==> m <= r.value))
  {
    GreedyStops(deals, 0, ssize, maxPiece);
    if deals != [] {
      GreedyNoCommitment(deals, ssize, maxPiece);
    }
    var r := Greedy(deals, 0, ssize, maxPiece);
    OnlyNoCommitment(deals, ssize, maxPiece, r);
    if r.Ok? {
      forall m: nat | m <= |deals| && (maxPiece > 0 ==> m <= maxPiece)
        ensures EndOf(deals, m) <= ssize <==> m <= r.value
      {
        FitsUpTo(deals, ssize, maxPiece, r.value, m);
      }
    }
  }

  /** Zero padding in front of the last picked deal is at most its size minus the first one's. */
  lemma {:induction false} PaddingBound(deals: seq<Deal>, n: nat)
    requires 0 < n && AllAdmissible(deals, n) && ValidSize(deals[0].size)
    ensures SizeSum(deals[..n]) <= EndOf(deals, n)
    ensures EndOf(deals, n) - SizeSum(deals[..n]) <= deals[n - 1].size - deals[0].size
    ensures EndOf(deals, n) % deals[n - 1].size == 0
  {
    EndStep(deals, n);
    if n == 1 {
      FirstAtZero(deals[0].size);
    } else {
      PaddingBound(deals, n - 1);
      PickedPair(deals, n - 2);
      NextBound(deals, n);
    }
  }

  lemma NextBound(deals: seq<Deal>, n: nat)
    requires 1 < n && AllAdmissible(deals, n) && ValidSize(deals[0].size)
    requires deals[n - 2].size > 0 && EndOf(deals, n - 1) % deals[n - 2].size == 0
    requires deals[n - 1].size > 0
    ensures EndOf(deals, n - 1) + deals[n - 1].size <= EndOf(deals, n)
    ensures EndOf(deals, n) <= EndOf(deals, n - 1) + deals[n - 1].size + deals[n - 1].size - deals[n - 2].size
    ensures EndOf(deals, n) % deals[n - 1].size == 0
  {
    PickedPair(deals, n - 2);
    PaddingStep(EndOf(deals, n - 1), deals[n - 2].size, deals[n - 1].size, EndOf(deals, n));
  }

  lemma EndStep(deals: seq<Deal>, n: nat)
    requires 0 < n <= |deals|
    ensures SizeSum(deals[..n]) == SizeSum(deals[..n - 1]) + deals[n - 1].size
    ensures EndOf(deals, n) == AlignUp(EndOf(deals, n - 1), deals[n - 1].size) + deals[n - 1].size
  {
    assert deals[..n][..n - 1] == deals[..n - 1];
  }

  lemma FirstAtZero(s: nat)
    requires s > 0
    ensures AlignUp(0, s) == 0 && s % s == 0
  {
    AlignUpUnique(0, s, 0);
  }

  /** The padding in front of a piece of size s that follows one of size prev. */
  lemma PaddingStep(before: nat, prev: nat, s: nat, end: nat)
    requires ValidSize(prev) && ValidSize(s) && prev <= s && before % prev == 0
    requires end == AlignUp(before, s) + s
    ensures before + s <= end <= before + s + s - prev && end % s == 0
  {
    OneBitIsPow2(s);
    OneBitIsPow2(prev);
    Pow2Divides(prev, s);
    AlignUpLeast(before, s);
    var gap := AlignUp(before, s) - before;
    ModTrans(AlignUp(before, s), s, prev);
    ModDiff(AlignUp(before, s), before, prev);
    ModDiff(s, gap, prev);
    MultipleAtLeast(s - gap, prev);
    ModSum(AlignUp(before, s), s, s);
  }

  lemma PickedPair(deals: seq<Deal>, i: nat)
    requires i + 1 < |deals| && AllAdmissible(deals, i + 2) && ValidSize(deals[0].size)
    ensures ValidSize(deals[i].size) && ValidSize(deals[i + 1].size) && deals[i].size <= deals[i + 1].size
  {
    assert Admissible(deals, i) && Admissible(deals, i + 1);
  }

  // ----- the fillers -----

  function Sum(xs: seq<nat>): nat {
    if xs == [] then 0 else xs[0] + Sum(xs[1..])
  }

  /** The tail fillers are the set bits of the remaining space: distinct powers of two, in increasing order. */
  lemma {:induction false} FillersAreBits(n: nat)
    ensures var bits := LowBits(n);
            && Sum(bits) == n && |bits| == PopCount(n)
            && (forall i: nat :: i < |bits| ==> IsPow2(bits[i]))
            && (forall i: nat, j: nat :: i < j < |bits| ==> bits[i] < bits[j])
  {
    if n > 0 {
      var rest := LowBits(n - LowBit(n));
      FillersAreBits(n - LowBit(n));
      LowBitGreatest(n);
      ClearLowBit(n);
      assert LowBits(n)[1..] == rest;
      assert rest != [] ==> rest[0] > LowBit(n);
    }
  }

  // ----- the whole pick -----

  lemma {:induction false} DropSmallFirst(deals: seq<Deal>, limit: nat)
    ensures DropSmall(deals, limit) != [] ==> DropSmall(deals, limit)[0].size >= limit
  {
    if deals != [] {
      DropSmallFirst(deals[1..], limit);
    }
  }

  lemma {:induction false} TrimLargeFirst(deals: seq<Deal>, limit: nat)
    ensures TrimLarge(deals, limit) != [] ==> deals != [] && TrimLarge(deals, limit)[0] == deals[0]
  {
    if deals != [] {
      TrimLargeFirst(deals[..|deals| - 1], limit);
    }
  }

  /** The first deal left is not empty, and unless small deals were cut it has been validated. */
  lemma FirstLeft(deals: seq<Deal>, spec: DealSpec)
    requires deals != [] ==> ValidSize(deals[0].size)
    ensures var cut := SizeCut(deals, spec);
            cut != [] ==> cut[0].size > 0 && (spec.minPieceSize == 0 ==> ValidSize(cut[0].size))
  {
    DropSmallFirst(deals, spec.minPieceSize);
    TrimLargeFirst(deals, spec.maxPieceSize);
    TrimLargeFirst(DropSmall(deals, spec.minPieceSize), spec.maxPieceSize);
  }

  /** A pick that returns pieces returns a full sector of the longest admissible prefix. */
  lemma PickedIsFull(deals: seq<Deal>, ssize: nat, spec: DealSpec, ps: seq<Piece>) returns (cut: seq<Deal>, n: nat)
    requires PickSpec(deals, ssize, spec, Ok(ps)) && ps != []
    ensures cut == SizeCut(EpochFilter(deals, spec), spec) && Greedy(cut, 0, ssize, spec.maxPiece) == Ok(n)
    ensures ValidSize(ssize) && FullSector(ps, cut, n, ssize) && AllAdmissible(cut, n) && cut[0].size > 0
    ensures cut[0].size % 128 == 0
  {
    cut := SizeCut(EpochFilter(deals, spec), spec);
    n := Greedy(cut, 0, ssize, spec.maxPiece).value;
    GreedyStops(cut, 0, ssize, spec.maxPiece);
    FirstLeft(EpochFilter(deals, spec), spec);
    EndUnits(cut, 1);
  }

  /**
   Whenever the pick returns pieces, they tile the sector exactly, every piece starts at a
   multiple of its own size, and every deal is stored at the position of its piece.
   */
  lemma PickedSector(deals: seq<Deal>, ssize: nat, spec: DealSpec, ps: seq<Piece>)
    requires PickSpec(deals, ssize, spec, Ok(ps)) && ps != []
    ensures Start(ps, |ps|) == ssize && DealsOf(ps) != []
    ensures forall i: nat :: i < |ps| ==> ps[i].Size() > 0 && Start(ps, i) % ps[i].Size() == 0
    ensures OffsetsRight(ps)
  {
    var cut, n := PickedIsFull(deals, ssize, spec, ps);
    AlignedTiling(ps, cut, n, ssize);
    OffsetsFromUnits(ps, cut, n, ssize);
  }

  /** The pick ends after the first deal. */
  predicate OnlyFirst(deals: seq<Deal>, ssize: nat, maxPiece: int) {
    |deals| == 1 || (|deals| > 1 && Admissible(deals, 1) && (0 < maxPiece <= 1 || EndOf(deals, 2) > ssize))
  }

  /** The first deal left after the cuts fits but is no multiple of 128, and a filler is put after it. */
  predicate OddFirst(cut: seq<Deal>, ssize: nat, spec: DealSpec) {
    && cut != [] && cut[0].size <= ssize && cut[0].size % 128 != 0
    && (SecondPicked(cut, ssize, spec.maxPiece) || (OnlyFirst(cut, ssize, spec.maxPiece) && !TooLittle(cut, 1, spec)))
  }

  lemma TailNoCommitment(cut: seq<Deal>, ssize: nat, spec: DealSpec, r: Result<seq<Piece>, PackError>)
    requires cut != [] && cut[0].size > 0 && AlignSpec(cut, ssize, spec, r)
    ensures r == Err(NoCommitment) <==> OddFirst(cut, ssize, spec)
  {
    GreedyNoCommitment(cut, ssize, spec.maxPiece);
    GreedyStops(cut, 0, ssize, spec.maxPiece);
    var g := Greedy(cut, 0, ssize, spec.maxPiece);
    if g.Ok? && g.value > 0 {
      EndUnits(cut, g.value);
      EndUnits(cut, 1);
    }
  }

  /**
   The first deal left after the size cut is never validated. The lookup of a commitment fails
   exactly if that deal is no multiple of 128 and a filler has to follow it.
   */
  lemma NoCommitmentIff(deals: seq<Deal>, ssize: nat, spec: DealSpec, r: Result<seq<Piece>, PackError>)
    requires PickSpec(deals, ssize, spec, r)
    ensures var inEpochs := EpochFilter(deals, spec);
            r == Err(NoCommitment) <==>
              && ValidSize(ssize) && inEpochs != [] && ValidSize(inEpochs[0].size)
              && OddFirst(SizeCut(inEpochs, spec), ssize, spec)
  {
    var inEpochs := EpochFilter(deals, spec);
    if ValidSize(ssize) && (inEpochs != [] ==> ValidSize(inEpochs[0].size)) {
      FirstLeft(inEpochs, spec);
      if SizeCut(inEpochs, spec) != [] {
        TailNoCommitment(SizeCut(inEpochs, spec), ssize, spec, r);
      }
    }
  }

  /** An odd deal left first by the size cut: the filler in front of the next deal has 64 bytes. */
  lemma UnvalidatedFirstDeal()
    ensures PickSpec([Deal(1, 128, 0, 0, 0, true), Deal(2, 192, 0, 0, 0, true), Deal(3, 256, 0, 0, 0, true)], 512,
                     NO_LIMITS.(minPieceSize := 130), Err(NoCommitment))
  {
    var small, odd, even := Deal(1, 128, 0, 0, 0, true), Deal(2, 192, 0, 0, 0, true), Deal(3, 256, 0, 0, 0, true);
    var deals, cut := [small, odd, even], [odd, even];
    NoEpochFilter(deals, NO_LIMITS.(minPieceSize := 130));
    assert deals[1..] == cut;
    assert DropSmall(cut, 130) == cut;
    OddSecond(odd, even);
    GreedyNoCommitment(cut, 512, 0);
  }

  lemma OddSecond(odd: Deal, even: Deal)
    requires odd.size == 192 && even.size == 256
    ensures SecondPicked([odd, even], 512, 0)
  {
    var cut := [odd, even];
    EndStep(cut, 1);
    FirstAtZero(192);
    EndStep(cut, 2);
    AlignUpUnique(192, 256, 256);
  }

  /** A deal of 384 bytes left first by the size cut is accepted, though its size is not valid. */
  lemma InvalidSizeAccepted()
    ensures PickSpec([Deal(1, 128, 0, 0, 0, true), Deal(2, 384, 0, 0, 0, true)], 512, NO_LIMITS.(minPieceSize := 130),
                     Ok([DealPiece(Deal(2, 384, 0, 0, 0, true), 0), ZeroPiece(128)]))
    ensures !ValidSize(384)
  {
    var small, odd := Deal(1, 128, 0, 0, 0, true), Deal(2, 384, 0, 0, 0, true);
    var deals, cut := [small, odd], [odd];
    NoEpochFilter(deals, NO_LIMITS.(minPieceSize := 130));
    assert deals[1..] == cut;
    assert DropSmall(cut, 130) == cut;
    LoneSector(odd);
    EndStep(cut, 1);
    FirstAtZero(384);
    assert cut[..1] == cut;
    assert Greedy(cut, 0, 512, 0) == Greedy(cut, 1, 512, 0) == Ok(1);
  }

  lemma LoneSector(odd: Deal)
    requires odd.size == 384
    ensures FullSector([DealPiece(odd, 0), ZeroPiece(128)], [odd], 1, 512)
  {
    var ps: seq<Piece> := [DealPiece(odd, 0)];
    FirstAtZero(384);
    assert [odd][..0] == [] && [odd][..1] == [odd];
    assert Packed([], [odd], 0, 512);
    AppendDeal([], [odd], 0, 512);
    assert [] + ps == ps;
    LowBitOfUnit();
    AppendFiller(ps, [odd], 1, 512, 128);
    assert ps + [ZeroPiece(128)] == [DealPiece(odd, 0), ZeroPiece(128)];
  }

  lemma LowBitOfUnit()
    ensures LowBit(128) == 128
  {
    LowBitBounds(128, 128);
  }

  /** What the pick must return is determined by its arguments. */
  lemma PickDetermined(deals: seq<Deal>, ssize: nat, spec: DealSpec,
                       a: Result<seq<Piece>, PackError>, b: Result<seq<Piece>, PackError>)
    requires PickSpec(deals, ssize, spec, a) && PickSpec(deals, ssize, spec, b)
    ensures a == b
  {
    if a.Ok? && a.value != [] {
      var cut, n := PickedIsFull(deals, ssize, spec, a.value);
      if b.Ok? && b.value != [] {
        var _, _ := PickedIsFull(deals, ssize, spec, b.value);
        SectorUnique(a.value, b.value, cut, n, ssize);
      }
    }
  }
}
