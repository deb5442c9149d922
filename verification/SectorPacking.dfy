/**
 Greedy packing of deals into one sector.

 Deals come sorted by size. Each picked deal is put at the first free position that is a
 multiple of its own size, and every hole (between deals and after the last one) is filled
 with zeroed pieces, so that the returned pieces tile the sector exactly.
 */
module SectorPacking {
  import opened Wrappers
  import opened PieceSize

  datatype Deal = Deal(dealId: nat, size: nat, startEpoch: int, endEpoch: int, price: int, published: bool)

  /** What a sector is made of: a deal with the offset it is stored at, or zeroes. */
  datatype Piece = DealPiece(deal: Deal, offset: nat) | ZeroPiece(zeroes: nat)
  {
    function Size(): nat {
      match this
      case DealPiece(deal, _) => deal.size
      case ZeroPiece(zeroes) => zeroes
    }
  }

  /** Limits of one request; a limit that is not positive does not apply. */
  datatype DealSpec = DealSpec(
    maxPiece: int, minPiece: int, maxPieceSize: nat, minPieceSize: nat,
    minUsedSpace: nat, startEpoch: int, endEpoch: int)

  /** `NoCommitment` is the failure of looking up the commitment of a zeroed piece that is too small. */
  datatype PackError = InvalidSpaceSize | InvalidDealPieceSize | DealsUnordered | NoCommitment

  /** Zeroed pieces have a known commitment from the smallest valid piece size on. */
  predicate HasCommitment(size: nat) { size >= 128 }

  /** The limits of an absent spec. */
  const NO_LIMITS := DealSpec(0, 0, 0, 0, 0, 0, 0)

  // ----- which deals are considered -----

  predicate InEpochs(deal: Deal, spec: DealSpec) {
    && (spec.startEpoch > 0 ==> deal.startEpoch > spec.startEpoch)
    && (spec.endEpoch > 0 ==> deal.endEpoch < spec.endEpoch)
  }

  function EpochFilter(deals: seq<Deal>, spec: DealSpec): seq<Deal> {
    if deals == [] then []
    else
      var last := deals[|deals| - 1];
      EpochFilter(deals[..|deals| - 1], spec) + (if InEpochs(last, spec) then [last] else [])
  }

  function DropSmall(deals: seq<Deal>, limit: nat): seq<Deal> {
    if deals == [] || deals[0].size >= limit then deals else DropSmall(deals[1..], limit)
  }

  function TrimLarge(deals: seq<Deal>, limit: nat): seq<Deal> {
    if deals == [] || deals[|deals| - 1].size <= limit then deals else TrimLarge(deals[..|deals| - 1], limit)
  }

  function SizeCut(deals: seq<Deal>, spec: DealSpec): seq<Deal> {
    var notSmall := if spec.minPieceSize > 0 then DropSmall(deals, spec.minPieceSize) else deals;
    if spec.maxPieceSize > 0 then TrimLarge(notSmall, spec.maxPieceSize) else notSmall
  }

  method FilterByEpoch(deals: seq<Deal>, spec: DealSpec) returns (picked: seq<Deal>)
    ensures picked == EpochFilter(deals, spec)
  {
    picked := [];
    for di := 0 to |deals|
      invariant picked == EpochFilter(deals[..di], spec)
    {
      assert deals[..di + 1][..di] == deals[..di];
      if InEpochs(deals[di], spec) {
        picked := picked + [deals[di]];
      }
    }
    assert deals[..|deals|] == deals;
  }

  method CutSmall(deals: seq<Deal>, limit: nat) returns (rest: seq<Deal>)
    ensures rest == DropSmall(deals, limit)
  {
    var first := 0;
    while first < |deals| && deals[first].size < limit
      invariant first <= |deals|
      invariant DropSmall(deals, limit) == DropSmall(deals[first..], limit)
    {
      first := first + 1;
    }
    rest := deals[first..];
  }

  method CutLarge(deals: seq<Deal>, limit: nat) returns (rest: seq<Deal>)
    ensures rest == TrimLarge(deals, limit)
  {
    var last := |deals|;
    assert deals[..last] == deals;
    while last > 0 && deals[last - 1].size > limit
      invariant last <= |deals|
      invariant TrimLarge(deals, limit) == TrimLarge(deals[..last], limit)
    {
      assert deals[..last][..last - 1] == deals[..last - 1];
      last := last - 1;
    }
    rest := deals[..last];
  }

  // ----- where deals land -----

  /** Where the first n deals end when each one is put at the least aligned position. */
  function EndOf(deals: seq<Deal>, n: nat): nat
    requires n <= |deals|
  {
    if n == 0 then 0 else AlignUp(EndOf(deals, n - 1), deals[n - 1].size) + deals[n - 1].size
  }

  /** Only the deals after the first one are checked while packing. */
  predicate Admissible(deals: seq<Deal>, i: nat)
    requires i < |deals|
  {
    i == 0 || (ValidSize(deals[i].size) && deals[i - 1].size <= deals[i].size)
  }

  /**
   How many deals are picked, from index i on. A deal that follows an end that is not a multiple
   of 128 needs a filler without commitment in front of it.
   */
  function Greedy(deals: seq<Deal>, i: nat, ssize: nat, maxPiece: int): Result<nat, PackError>
    requires i <= |deals|
    decreases |deals| - i
  {
    if i == |deals| then Ok(i)
    else if i > 0 && !ValidSize(deals[i].size) then Err(InvalidDealPieceSize)
    else if i > 0 && deals[i].size < deals[i - 1].size then Err(DealsUnordered)
    else if maxPiece > 0 && i >= maxPiece then Ok(i)
    else if EndOf(deals, i + 1) > ssize then Ok(i)
    else if EndOf(deals, i) % 128 != 0 then Err(NoCommitment)
    else Greedy(deals, i + 1, ssize, maxPiece)
  }

  function Total(ps: seq<Piece>): nat {
    if ps == [] then 0 else Total(ps[..|ps| - 1]) + ps[|ps| - 1].Size()
  }

  function UnpaddedTotal(ps: seq<Piece>): nat {
    if ps == [] then 0 else UnpaddedTotal(ps[..|ps| - 1]) + Unpadded(ps[|ps| - 1].Size())
  }

  function DealsOf(ps: seq<Piece>): seq<Deal> {
    if ps == [] then []
    else
      var last := ps[|ps| - 1];
      DealsOf(ps[..|ps| - 1]) + (if last.DealPiece? then [last.deal] else [])
  }

  function SizeSum(deals: seq<Deal>): nat {
    if deals == [] then 0 else SizeSum(deals[..|deals| - 1]) + deals[|deals| - 1].size
  }

  /** Piece p is right where it is, given the pieces before it. */
  ghost predicate WellPlaced(before: seq<Piece>, p: Piece, deals: seq<Deal>, ssize: nat) {
    var start, k := Total(before), |DealsOf(before)|;
    match p
    case ZeroPiece(zeroes) => start < ssize && zeroes == LowBit(ssize - start)
    case DealPiece(deal, offset) =>
      && k < |deals| && deal == deals[k]
      && start == AlignUp(EndOf(deals, k), deal.size)
      && start + deal.size <= ssize
      && offset == Padded(UnpaddedTotal(before))
  }

  /** Every piece is well placed. */
  ghost predicate Laid(ps: seq<Piece>, deals: seq<Deal>, ssize: nat) {
    ps == [] || (Laid(ps[..|ps| - 1], deals, ssize) && WellPlaced(ps[..|ps| - 1], ps[|ps| - 1], deals, ssize))
  }

  lemma Append(ps: seq<Piece>, p: Piece, deals: seq<Deal>, ssize: nat)
    ensures Total(ps + [p]) == Total(ps) + p.Size()
    ensures UnpaddedTotal(ps + [p]) == UnpaddedTotal(ps) + Unpadded(p.Size())
    ensures DealsOf(ps + [p]) == DealsOf(ps) + (if p.DealPiece? then [p.deal] else [])
    ensures Laid(ps + [p], deals, ssize) <==> Laid(ps, deals, ssize) && WellPlaced(ps, p, deals, ssize)
  {
    assert (ps + [p])[..|ps|] == ps;
  }

  // ----- the three facts behind the filler loop -----

  /** A piece that fits in the space left also fits at the next aligned position. */
  lemma AlignedFits(start: nat, s: nat, ssize: nat)
    requires IsPow2(ssize) && IsPow2(s) && start + s <= ssize
    ensures AlignUp(start, s) + s <= ssize
  {
    Pow2Divides(s, ssize);
    ModDiff(ssize, s, s);
    AlignUpLeast(start, s);
  }

  /** A deal no larger than the next aligned slot is already aligned. */
  lemma SlotAligned(start: nat, s: nat, ssize: nat)
    requires IsPow2(ssize) && IsPow2(s) && start < ssize && s <= LowBit(ssize - start)
    ensures AlignUp(start, s) == start
  {
    var low := LowBit(ssize - start);
    LowBitGreatest(ssize - start);
    Pow2Divides(s, low);
    ModTrans(ssize - start, low, s);
    Pow2Divides(s, ssize);
    ModDiff(ssize, ssize - start, s);
    AlignUpUnique(start, s, start);
  }

  /** A filler stays below the position the deal is waiting for. */
  lemma FillerBelowDeal(start: nat, s: nat, ssize: nat)
    requires IsPow2(ssize) && IsPow2(s) && start + s <= ssize && LowBit(ssize - start) < s
    ensures start + LowBit(ssize - start) <= AlignUp(start, s)
    ensures AlignUp(start + LowBit(ssize - start), s) == AlignUp(start, s)
  {
    var low := LowBit(ssize - start);
    var a := AlignUp(start, s);
    LowBitGreatest(ssize - start);
    AlignUpLeast(start, s);
    Pow2Divides(s, ssize);
    if a == start {
      ModDiff(ssize, start, s);
      assert false;
    }
    Pow2Divides(low, s);
    Pow2Divides(low, ssize);
    ModTrans(a, s, low);
    ModDiff(ssize, ssize - start, low);
    ModDiff(a, start, low);
    MultipleAtLeast(a - start, low);
    AlignUpUnique(start + low, s, a);
  }

  // ----- the packing loop -----

  /** What the packing loop has put so far, and the counters it keeps. */
  datatype Placement = Placement(pieces: seq<Piece>, picked: nat, pickedSpace: nat, space: nat, offset: nat)

  function WithFiller(p: Placement, size: nat): Placement
    requires size <= p.space
  {
    p.(pieces := p.pieces + [ZeroPiece(size)], space := p.space - size, offset := p.offset + Unpadded(size))
  }

  function WithDeal(p: Placement, deal: Deal): Placement
    requires deal.size <= p.space
  {
    p.(pieces := p.pieces + [DealPiece(deal, Padded(p.offset))], picked := p.picked + 1,
       pickedSpace := p.pickedSpace + deal.size, space := p.space - deal.size, offset := p.offset + Unpadded(deal.size))
  }

  /** The pieces hold n deals and the counters are right. */
  ghost predicate Packing(p: Placement, deals: seq<Deal>, n: nat, ssize: nat) {
    && n <= |deals| && p.picked == n
    && Packed(p.pieces, deals, n, ssize)
    && p.space <= ssize && Total(p.pieces) == ssize - p.space
    && p.offset == UnpaddedTotal(p.pieces) && p.pickedSpace == SizeSum(deals[..n])
  }

  /** The pieces end where the last deal ends. */
  ghost predicate IsPlacement(p: Placement, deals: seq<Deal>, n: nat, ssize: nat) {
    Packing(p, deals, n, ssize) && ssize - p.space == EndOf(deals, n)
  }

  /** The pieces hold the first n deals, well placed, and fillers only once there is a deal. */
  ghost predicate Packed(ps: seq<Piece>, deals: seq<Deal>, n: nat, ssize: nat)
    requires n <= |deals|
  {
    && Laid(ps, deals, ssize)
    && DealsOf(ps) == deals[..n]
    && (n == 0 <==> ps == [])
  }

  /** The deals of the greedy pick have been placed, or its failure is reported. */
  ghost predicate IsGreedy(r: Result<Placement, PackError>, deals: seq<Deal>, ssize: nat, maxPiece: int) {
    match Greedy(deals, 0, ssize, maxPiece)
    case Err(e) => r == Err(e)
    case Ok(n) => r.Ok? && IsPlacement(r.value, deals, n, ssize)
  }

  method PlaceDeals(deals: seq<Deal>, ssize: nat, maxPiece: int) returns (r: Result<Placement, PackError>)
    requires ValidSize(ssize)
    ensures IsGreedy(r, deals, ssize, maxPiece)
  {
    var placed, di, checked := Placement([], 0, 0, ssize, 0), 0, 0;
    assert deals[..0] == [];
    while di < |deals|
      invariant checked <= di && (di < |deals| && checked == di ==> Admissible(deals, di))
      invariant Packing(placed, deals, di, ssize) && Going(deals, di, placed.space, ssize, maxPiece)
      decreases |deals| - di, placed.space
    {
      var move := Examine(deals, di, checked, placed.picked, placed.space, ssize, maxPiece);
      checked := di;
      if move.Refuse? {
        return Err(move.e);
      }
      if move.Stop? {
        IsDone(placed, deals, di, ssize, maxPiece);
        return Ok(placed);
      }
      if move.Fill? {
        placed := PutFiller(placed, move.nextPiece, deals, di, ssize, maxPiece);
      } else {
        placed := PutDeal(placed, deals, di, ssize, maxPiece);
        di := di + 1;
      }
    }
    IsDone(placed, deals, di, ssize, maxPiece);
    r := Ok(placed);
  }

  /** All deals are placed, or the greedy pick stops at this one. */
  lemma IsDone(placed: Placement, deals: seq<Deal>, di: nat, ssize: nat, maxPiece: int)
    requires di <= |deals| && Packing(placed, deals, di, ssize) && Going(deals, di, placed.space, ssize, maxPiece)
    requires di < |deals| ==> MoveOk(Stop, deals, di, placed.space, ssize, maxPiece)
    ensures IsGreedy(Ok(placed), deals, ssize, maxPiece)
  {
  }

  method PutFiller(placed: Placement, size: nat, deals: seq<Deal>, di: nat, ssize: nat, ghost maxPiece: int) returns (p: Placement)
    requires di < |deals| && Packing(placed, deals, di, ssize)
    requires MoveOk(Fill(size), deals, di, placed.space, ssize, maxPiece)
    ensures Packing(p, deals, di, ssize) && Going(deals, di, p.space, ssize, maxPiece)
    ensures Admissible(deals, di) && p.space < placed.space
  {
    FillStep(placed, deals, di, ssize);
    p := WithFiller(placed, size);
  }

  method PutDeal(placed: Placement, deals: seq<Deal>, di: nat, ssize: nat, ghost maxPiece: int) returns (p: Placement)
    requires di < |deals| && Packing(placed, deals, di, ssize)
    requires MoveOk(Pick, deals, di, placed.space, ssize, maxPiece)
    ensures Packing(p, deals, di + 1, ssize) && Going(deals, di + 1, p.space, ssize, maxPiece)
  {
    PickStep(placed, deals, di, ssize);
    p := WithDeal(placed, deals[di]);
  }

  /** Positions of the loop with n deals picked: their end, or a filled part of the gap after it. */
  ghost predicate Reached(deals: seq<Deal>, n: nat, start: nat, ssize: nat, maxPiece: int)
    requires n <= |deals|
  {
    start == EndOf(deals, n) || (n < |deals| && InGap(deals, n, start, ssize, maxPiece))
  }

  /** Fillers are being put below deal di, which has passed every test and will be picked. */
  ghost predicate InGap(deals: seq<Deal>, di: nat, start: nat, ssize: nat, maxPiece: int)
    requires di < |deals|
  {
    && Admissible(deals, di) && !(maxPiece > 0 && di >= maxPiece)
    && Below(deals, di, start, ssize) && start % 128 == 0 && EndOf(deals, di) % 128 == 0
  }

  /** A position from which the deal still lands where align-up puts it. */
  ghost predicate Below(deals: seq<Deal>, di: nat, start: nat, ssize: nat)
    requires di < |deals|
  {
    && di > 0 && EndOf(deals, di) <= start && start + deals[di].size <= ssize
    && AlignUp(start, deals[di].size) == AlignUp(EndOf(deals, di), deals[di].size)
  }

  /** The space test of the loop is the fit test at the aligned position, and fillers never precede a break. */
  lemma FitTest(deals: seq<Deal>, n: nat, start: nat, ssize: nat, maxPiece: int)
    requires n < |deals| && IsPow2(ssize) && start <= ssize && Reached(deals, n, start, ssize, maxPiece)
    requires Admissible(deals, n) && !(maxPiece > 0 && n >= maxPiece)
    ensures deals[n].size > ssize - start <==> EndOf(deals, n + 1) > ssize
    ensures deals[n].size > ssize - start ==> start == EndOf(deals, n)
    ensures deals[n].size <= ssize - start ==> start < ssize
  {
    StepFacts(deals, n, start, ssize);
  }

  /** A piece is a multiple of 128 bytes exactly if its lowest bit is a size with a commitment. */
  lemma LowBitUnit(n: nat)
    requires n > 0
    ensures HasCommitment(LowBit(n)) <==> n % 128 == 0
  {
    LowBitDivides(n);
    if HasCommitment(LowBit(n)) {
      Pow2Divides(128, LowBit(n));
      ModTrans(n, LowBit(n), 128);
    } else if n % 128 == 0 {
      LowBitBounds(n, 128);
    }
  }

  lemma ValidUnits(s: nat)
    requires ValidSize(s)
    ensures s % 128 == 0
  {
    OneBitIsPow2(s);
    Pow2Divides(128, s);
  }

  lemma SpaceUnits(start: nat, ssize: nat)
    requires ValidSize(ssize) && start <= ssize
    ensures (ssize - start) % 128 == 0 <==> start % 128 == 0
  {
    ValidUnits(ssize);
    if start % 128 == 0 {
      ModDiff(ssize, start, 128);
    }
    if (ssize - start) % 128 == 0 {
      ModDiff(ssize, ssize - start, 128);
    }
  }

  /** The filler below a deal can be looked up, and then the gap goes on; or the pick fails. */
  lemma FillerLookup(deals: seq<Deal>, n: nat, start: nat, ssize: nat, maxPiece: int)
    requires n < |deals| && ValidSize(ssize) && IsPow2(ssize) && start < ssize
    requires Reached(deals, n, start, ssize, maxPiece)
    requires Admissible(deals, n) && !(maxPiece > 0 && n >= maxPiece)
    requires LowBit(ssize - start) < deals[n].size <= ssize - start
    ensures 0 < n
    ensures if HasCommitment(LowBit(ssize - start)) then InGap(deals, n, start + LowBit(ssize - start), ssize, maxPiece)
            else Greedy(deals, n, ssize, maxPiece) == Err(NoCommitment)
  {
    FillerBelow(deals, n, start, ssize);
    FillerUnits(start, ssize);
    if !HasCommitment(LowBit(ssize - start)) {
      GreedyFails(deals, n, ssize, maxPiece);
    }
  }

  lemma FillerBelow(deals: seq<Deal>, n: nat, start: nat, ssize: nat)
    requires n < |deals| && IsPow2(ssize) && start < ssize && Admissible(deals, n)
    requires start == EndOf(deals, n) || Below(deals, n, start, ssize)
    requires LowBit(ssize - start) < deals[n].size <= ssize - start
    ensures 0 < n && Below(deals, n, start + LowBit(ssize - start), ssize) && EndOf(deals, n + 1) <= ssize
  {
    StepFacts(deals, n, start, ssize);
  }

  /** A filler keeps positions at multiples of 128, if it can be looked up at all. */
  lemma FillerUnits(start: nat, ssize: nat)
    requires ValidSize(ssize) && start < ssize
    ensures HasCommitment(LowBit(ssize - start)) <==> start % 128 == 0
    ensures start % 128 == 0 ==> (start + LowBit(ssize - start)) % 128 == 0
  {
    LowBitUnit(ssize - start);
    SpaceUnits(start, ssize);
    if HasCommitment(LowBit(ssize - start)) {
      LowBitDivides(ssize - start);
      UnitPlusPower(start, LowBit(ssize - start));
    }
  }

  lemma UnitPlusPower(x: nat, p: nat)
    requires x % 128 == 0 && IsPow2(p) && p >= 128
    ensures (x + p) % 128 == 0 && (p <= x ==> (x - p) % 128 == 0)
  {
    Pow2Divides(128, p);
    ModSum(x, p, 128);
    if p <= x {
      ModDiff(x, p, 128);
    }
  }

  lemma GreedyFails(deals: seq<Deal>, n: nat, ssize: nat, maxPiece: int)
    requires n < |deals| && Admissible(deals, n) && !(maxPiece > 0 && n >= maxPiece)
    requires EndOf(deals, n + 1) <= ssize && EndOf(deals, n) % 128 != 0
    ensures Greedy(deals, n, ssize, maxPiece) == Err(NoCommitment)
  {
  }

  lemma FillStep(p: Placement, deals: seq<Deal>, n: nat, ssize: nat)
    requires 0 < n && 0 < p.space && Packing(p, deals, n, ssize)
    ensures Packing(WithFiller(p, LowBit(p.space)), deals, n, ssize)
  {
    AppendFiller(p.pieces, deals, n, ssize, LowBit(p.space));
  }

  lemma AppendFiller(ps: seq<Piece>, deals: seq<Deal>, n: nat, ssize: nat, size: nat)
    requires 0 < n <= |deals| && Packed(ps, deals, n, ssize)
    requires WellPlaced(ps, ZeroPiece(size), deals, ssize)
    ensures var p := ZeroPiece(size);
            && Packed(ps + [p], deals, n, ssize)
            && Total(ps + [p]) == Total(ps) + size
            && UnpaddedTotal(ps + [p]) == UnpaddedTotal(ps) + Unpadded(size)
  {
    Append(ps, ZeroPiece(size), deals, ssize);
  }

  /** A deal is picked where align-up puts it, and then the pick goes on with the next one. */
  lemma PickPosition(deals: seq<Deal>, n: nat, start: nat, ssize: nat, maxPiece: int)
    requires n < |deals| && ValidSize(ssize) && IsPow2(ssize) && start < ssize
    requires Reached(deals, n, start, ssize, maxPiece)
    requires Admissible(deals, n) && !(maxPiece > 0 && n >= maxPiece)
    requires deals[n].size <= ssize - start && deals[n].size <= LowBit(ssize - start)
    ensures start == AlignUp(EndOf(deals, n), deals[n].size)
    ensures Greedy(deals, n, ssize, maxPiece) == Greedy(deals, n + 1, ssize, maxPiece)
  {
    StepFacts(deals, n, start, ssize);
    if n > 0 && start == EndOf(deals, n) {
      AlignedToUnit(EndOf(deals, n), deals[n].size);
    }
  }

  lemma AlignedToUnit(x: nat, s: nat)
    requires ValidSize(s)
    ensures AlignUp(x, s) % 128 == 0
  {
    ValidUnits(s);
    AlignUpLeast(x, s);
    ModTrans(AlignUp(x, s), s, 128);
  }

  lemma PickStep(p: Placement, deals: seq<Deal>, n: nat, ssize: nat)
    requires n < |deals| && Packing(p, deals, n, ssize)
    requires deals[n].size <= p.space && ssize - p.space == AlignUp(EndOf(deals, n), deals[n].size)
    ensures Packing(WithDeal(p, deals[n]), deals, n + 1, ssize)
  {
    AppendDeal(p.pieces, deals, n, ssize);
    PrefixSum(deals, n);
  }

  lemma AppendDeal(ps: seq<Piece>, deals: seq<Deal>, n: nat, ssize: nat)
    requires n < |deals| && Packed(ps, deals, n, ssize)
    requires Total(ps) == AlignUp(EndOf(deals, n), deals[n].size) && Total(ps) + deals[n].size <= ssize
    ensures var p := DealPiece(deals[n], Padded(UnpaddedTotal(ps)));
            && Packed(ps + [p], deals, n + 1, ssize)
            && Total(ps + [p]) == Total(ps) + deals[n].size
            && UnpaddedTotal(ps + [p]) == UnpaddedTotal(ps) + Unpadded(deals[n].size)
  {
    var p := DealPiece(deals[n], Padded(UnpaddedTotal(ps)));
    assert WellPlaced(ps, p, deals, ssize);
    Append(ps, p, deals, ssize);
    assert deals[..n + 1] == deals[..n] + [deals[n]];
  }

  lemma PrefixSum(deals: seq<Deal>, n: nat)
    requires n < |deals|
    ensures SizeSum(deals[..n + 1]) == SizeSum(deals[..n]) + deals[n].size
  {
    assert deals[..n + 1][..n] == deals[..n];
  }

  /** What one iteration does with an admissible deal: fit test, filler, or final position. */
  lemma StepFacts(deals: seq<Deal>, di: nat, start: nat, ssize: nat)
    requires IsPow2(ssize) && di < |deals| && start <= ssize && Admissible(deals, di)
    requires start == EndOf(deals, di) || Below(deals, di, start, ssize)
    ensures deals[di].size > ssize - start <==> EndOf(deals, di + 1) > ssize
    ensures deals[di].size <= ssize - start ==> start < ssize
    ensures deals[di].size <= ssize - start && deals[di].size <= LowBit(ssize - start) ==>
              start == AlignUp(EndOf(deals, di), deals[di].size)
    ensures deals[di].size <= ssize - start && deals[di].size > LowBit(ssize - start) ==>
              Below(deals, di, start + LowBit(ssize - start), ssize)
  {
    var s := deals[di].size;
    if di == 0 {
      assert start == 0 == EndOf(deals, 0);
      LowBitGreatest(ssize);
      if s > 0 {
        assert 0 % s == 0;
        AlignUpUnique(0, s, 0);
      }
    } else {
      OneBitIsPow2(s);
      AlignUpLeast(start, s);
      AlignUpLeast(EndOf(deals, di), s);
      if s <= ssize - start {
        AlignedFits(start, s, ssize);
        if s <= LowBit(ssize - start) {
          SlotAligned(start, s, ssize);
        } else {
          FillerBelowDeal(start, s, ssize);
        }
      }
    }
  }

  // ----- filling what is left -----

  /** The set bits of n as sizes, lowest first. */
  function LowBits(n: nat): seq<nat>
    decreases n
  {
    if n == 0 then [] else [LowBit(n)] + LowBits(n - LowBit(n))
  }

  /** Clearing a set bit by exclusive-or is subtraction. */
  method FillersFromRem(rem: nat) returns (out: array<nat>)
    ensures out[..] == LowBits(rem)
  {
    var toFill := rem;
    out := new nat[PopCount(toFill)];
    for i := 0 to out.Length
      invariant PopCount(toFill) == out.Length - i
      invariant LowBits(rem) == out[..i] + LowBits(toFill)
    {
      PopCountZero(toFill);
      var psize := Shl(TrailingZeros(toFill));
      LowestBit(toFill);
      NextBit(out[..i], toFill);
      toFill := toFill - psize;
      out[i] := psize;
      assert out[..i + 1] == out[..i] + [psize];
    }
    PopCountZero(toFill);
  }

  /** The shift finds the lowest bit, and clearing it leaves one bit less. */
  lemma LowestBit(n: nat)
    requires n > 0
    ensures Shl(TrailingZeros(n)) == LowBit(n) && PopCount(n - LowBit(n)) == PopCount(n) - 1
  {
    NextAlignedIsLowBit(n);
    ClearLowBit(n);
  }

  lemma NextBit(before: seq<nat>, n: nat)
    requires n > 0
    ensures before + LowBits(n) == before + [LowBit(n)] + LowBits(n - LowBit(n))
  {
  }

  // ----- the whole pick -----

  /** The pieces hold exactly the first n deals and fill the sector. */
  ghost predicate FullSector(ps: seq<Piece>, deals: seq<Deal>, n: nat, ssize: nat) {
    && 0 < n <= |deals| && Packed(ps, deals, n, ssize) && Total(ps) == ssize
  }

  /** The answer is withheld when too few deals or too little space are used. */
  predicate TooLittle(deals: seq<Deal>, n: nat, spec: DealSpec)
    requires n <= |deals|
  {
    || n == 0
    || (spec.minPiece > 0 && n < spec.minPiece)
    || (spec.minUsedSpace > 0 && SizeSum(deals[..n]) < spec.minUsedSpace)
  }

  ghost predicate AlignSpec(cut: seq<Deal>, ssize: nat, spec: DealSpec, r: Result<seq<Piece>, PackError>) {
    match Greedy(cut, 0, ssize, spec.maxPiece)
    case Err(e) => r == Err(e)
    case Ok(n) =>
      && n <= |cut|
      && if TooLittle(cut, n, spec) then r == Ok([])
         else if EndOf(cut, n) % 128 != 0 then r == Err(NoCommitment)
         else r.Ok? && FullSector(r.value, cut, n, ssize)
  }

  ghost predicate PickSpec(deals: seq<Deal>, ssize: nat, spec: DealSpec, r: Result<seq<Piece>, PackError>) {
    var inEpochs := EpochFilter(deals, spec);
    if !ValidSize(ssize) then r == Err(InvalidSpaceSize)
    else if inEpochs != [] && !ValidSize(inEpochs[0].size) then r == Err(InvalidDealPieceSize)
    else AlignSpec(SizeCut(inEpochs, spec), ssize, spec, r)
  }

  method PickAndAlign(deals: seq<Deal>, ssize: nat, maybeSpec: Option<DealSpec>)
    returns (r: Result<seq<Piece>, PackError>)
    ensures PickSpec(deals, ssize, if maybeSpec.Some? then maybeSpec.value else NO_LIMITS, r)
  {
    if !ValidSize(ssize) {
      return Err(InvalidSpaceSize);
    }
    var spec := if maybeSpec.Some? then maybeSpec.value else NO_LIMITS;
    var rest := deals;
    if spec.startEpoch > 0 || spec.endEpoch > 0 {
      rest := FilterByEpoch(rest, spec);
    } else {
      NoEpochFilter(rest, spec);
    }
    if |rest| > 0 && !ValidSize(rest[0].size) {
      return Err(InvalidDealPieceSize);
    }
    if spec.minPieceSize > 0 {
      rest := CutSmall(rest, spec.minPieceSize);
    }
    if spec.maxPieceSize > 0 {
      rest := CutLarge(rest, spec.maxPieceSize);
    }
    r := AlignDeals(rest, ssize, spec);
  }

  method AlignDeals(rest: seq<Deal>, ssize: nat, spec: DealSpec) returns (r: Result<seq<Piece>, PackError>)
    requires ValidSize(ssize)
    ensures AlignSpec(rest, ssize, spec, r)
  {
    if |rest| == 0 {
      return Ok([]);
    }
    var placed := PlaceDeals(rest, ssize, spec.maxPiece);
    if placed.Err? {
      return Err(placed.error);
    }
    var Placement(res, pickedDeals, pickedSpace, space, _) := placed.value;
    if |res| == 0 {
      return Ok([]);
    }
    if spec.minPiece > 0 && pickedDeals < spec.minPiece {
      return Ok([]);
    }
    if spec.minUsedSpace > 0 && pickedSpace < spec.minUsedSpace {
      return Ok([]);
    }
    SpaceUnits(EndOf(rest, pickedDeals), ssize);
    if space > 0 {
      r := AppendFillers(res, space, rest, pickedDeals, ssize);
    } else {
      r := Ok(res);
    }
  }

  method AppendFillers(ps: seq<Piece>, space: nat, ghost deals: seq<Deal>, ghost n: nat, ghost ssize: nat)
    returns (r: Result<seq<Piece>, PackError>)
    requires 0 < n <= |deals| && Packed(ps, deals, n, ssize) && Total(ps) + space == ssize
    ensures if space % 128 == 0 then r.Ok? && FullSector(r.value, deals, n, ssize) else r == Err(NoCommitment)
  {
    var res := ps;
    var out := FillersFromRem(space);
    var fillers := out[..];
    ghost var left: nat := space;
    for j := 0 to |fillers|
      invariant Filling(res, deals, n, ssize, left, fillers[j..], space % 128 == 0)
    {
      assert fillers[j] == fillers[j..][0] && fillers[j + 1..] == fillers[j..][1..];
      FillingStep(res, deals, n, ssize, left, fillers[j..], space % 128 == 0);
      if !HasCommitment(fillers[j]) {
        return Err(NoCommitment);
      }
      res := res + [ZeroPiece(fillers[j])];
      left := left - fillers[j];
    }
    FillingEnd(res, deals, n, ssize, left, space % 128 == 0);
    r := Ok(res);
  }

  /** A packed prefix that leaves `left` bytes free, and the fillers for them; `unit` tells whether all are known. */
  ghost predicate Filling(ps: seq<Piece>, deals: seq<Deal>, n: nat, ssize: nat, left: nat, fillers: seq<nat>, unit: bool) {
    && 0 < n <= |deals| && Packed(ps, deals, n, ssize) && Total(ps) + left == ssize
    && fillers == LowBits(left) && (unit <==> left % 128 == 0)
  }

  lemma LowBitsStep(bits: seq<nat>, left: nat)
    requires bits == LowBits(left) && bits != []
    ensures left > 0 && bits[0] == LowBit(left) && bits[1..] == LowBits(left - LowBit(left))
  {
  }

  lemma LeftUnits(left: nat)
    requires left > 0
    ensures HasCommitment(LowBit(left)) <==> left % 128 == 0
    ensures left % 128 == 0 ==> (left - LowBit(left)) % 128 == 0
  {
    LowBitUnit(left);
    if HasCommitment(LowBit(left)) {
      LowBitDivides(left);
      UnitPlusPower(left, LowBit(left));
    }
  }

  lemma FillingStep(ps: seq<Piece>, deals: seq<Deal>, n: nat, ssize: nat, left: nat, fillers: seq<nat>, unit: bool)
    requires fillers != [] && Filling(ps, deals, n, ssize, left, fillers, unit)
    ensures fillers[0] <= left && (HasCommitment(fillers[0]) <==> unit)
    ensures unit ==> Filling(ps + [ZeroPiece(fillers[0])], deals, n, ssize, left - fillers[0], fillers[1..], unit)
  {
    LowBitsStep(fillers, left);
    LeftUnits(left);
    AppendFiller(ps, deals, n, ssize, fillers[0]);
  }

  lemma FillingEnd(ps: seq<Piece>, deals: seq<Deal>, n: nat, ssize: nat, left: nat, unit: bool)
    requires Filling(ps, deals, n, ssize, left, [], unit)
    ensures unit && FullSector(ps, deals, n, ssize)
  {
  }

  lemma {:induction false} NoEpochFilter(deals: seq<Deal>, spec: DealSpec)
    requires spec.startEpoch <= 0 && spec.endEpoch <= 0
    ensures EpochFilter(deals, spec) == deals
  {
    if deals != [] {
      NoEpochFilter(deals[..|deals| - 1], spec);
    }
  }

  // ----- the tests of one iteration of the packing loop -----

  /** What an iteration of the packing loop does about its deal. */
  datatype Move = Refuse(e: PackError) | Stop | Fill(nextPiece: nat) | Pick

  /** A move is what the greedy pick asks for, and keeps it going. */
  ghost predicate MoveOk(move: Move, deals: seq<Deal>, di: nat, space: nat, ssize: nat, maxPiece: int)
    requires di < |deals| && space <= ssize
  {
    match move
    case Refuse(e) => Greedy(deals, 0, ssize, maxPiece) == Err(e)
    case Stop => Greedy(deals, 0, ssize, maxPiece) == Ok(di) && ssize - space == EndOf(deals, di)
    case Fill(size) =>
      && 0 < di && Admissible(deals, di) && 0 < space && size == LowBit(space)
      && Going(deals, di, space - size, ssize, maxPiece)
    case Pick =>
      && deals[di].size <= space && ssize - space == AlignUp(EndOf(deals, di), deals[di].size)
      && Going(deals, di + 1, space - deals[di].size, ssize, maxPiece)
  }

  /** The loop is about to look at deal di, and what it will pick is still the greedy pick. */
  ghost predicate Going(deals: seq<Deal>, di: nat, space: nat, ssize: nat, maxPiece: int) {
    && di <= |deals| && space <= ssize && Reached(deals, di, ssize - space, ssize, maxPiece)
    && Greedy(deals, 0, ssize, maxPiece) == Greedy(deals, di, ssize, maxPiece)
  }

  lemma Refused(deals: seq<Deal>, di: nat, ssize: nat, maxPiece: int)
    requires 0 < di < |deals|
    ensures !ValidSize(deals[di].size) ==> Greedy(deals, di, ssize, maxPiece) == Err(InvalidDealPieceSize)
    ensures ValidSize(deals[di].size) && deals[di].size < deals[di - 1].size ==>
              Greedy(deals, di, ssize, maxPiece) == Err(DealsUnordered)
  {
  }

  /** The conditions under which an iteration gets to the space test of deal di. */
  ghost predicate AtDeal(deals: seq<Deal>, di: nat, ssize: nat, maxPiece: int) {
    && di < |deals| && ValidSize(ssize) && IsPow2(ssize)
    && Admissible(deals, di) && !(maxPiece > 0 && di >= maxPiece)
  }

  lemma SpaceForDeal(deals: seq<Deal>, di: nat, space: nat, ssize: nat, maxPiece: int)
    requires AtDeal(deals, di, ssize, maxPiece) && Going(deals, di, space, ssize, maxPiece)
    ensures deals[di].size <= space ==> space > 0
    ensures deals[di].size > space ==> Greedy(deals, di, ssize, maxPiece) == Ok(di) && ssize - space == EndOf(deals, di)
  {
    FitTest(deals, di, ssize - space, ssize, maxPiece);
  }

  lemma FillGoes(deals: seq<Deal>, di: nat, space: nat, ssize: nat, maxPiece: int)
    requires AtDeal(deals, di, ssize, maxPiece) && Going(deals, di, space, ssize, maxPiece)
    requires 0 < space && LowBit(space) < deals[di].size <= space
    ensures 0 < di
    ensures if HasCommitment(LowBit(space)) then Going(deals, di, space - LowBit(space), ssize, maxPiece)
            else Greedy(deals, 0, ssize, maxPiece) == Err(NoCommitment)
  {
    FillerLookup(deals, di, ssize - space, ssize, maxPiece);
  }

  lemma PickGoes(deals: seq<Deal>, di: nat, space: nat, ssize: nat, maxPiece: int)
    requires AtDeal(deals, di, ssize, maxPiece) && Going(deals, di, space, ssize, maxPiece)
    requires 0 < space && deals[di].size <= space && deals[di].size <= LowBit(space)
    ensures ssize - space == AlignUp(EndOf(deals, di), deals[di].size)
    ensures Going(deals, di + 1, space - deals[di].size, ssize, maxPiece)
  {
    PickPosition(deals, di, ssize - space, ssize, maxPiece);
  }

  /** The tests of one iteration, in their order. */
  method Examine(deals: seq<Deal>, di: nat, checked: nat, pickedDeals: nat, space: nat, ssize: nat, maxPiece: int)
    returns (move: Move)
    requires ValidSize(ssize) && di < |deals| && checked <= di && pickedDeals == di
    requires checked == di ==> Admissible(deals, di)
    requires Going(deals, di, space, ssize, maxPiece)
    ensures MoveOk(move, deals, di, space, ssize, maxPiece)
  {
    var deal := deals[di];
    if di != checked {
      Refused(deals, di, ssize, maxPiece);
      if !ValidSize(deal.size) {
        return Refuse(InvalidDealPieceSize);
      }
      if di > 0 && deal.size < deals[di - 1].size {
        return Refuse(DealsUnordered);
      }
    }
    if maxPiece > 0 && pickedDeals >= maxPiece {
      return Stop;
    }
    OneBitIsPow2(ssize);
    SpaceForDeal(deals, di, space, ssize, maxPiece);
    if deal.size > space {
      return Stop;
    }
    var nextPiece := NextAlignedPiece(space);
    NextAlignedIsLowBit(space);
    if deal.size > nextPiece {
      FillGoes(deals, di, space, ssize, maxPiece);
      move := if HasCommitment(nextPiece) then Fill(nextPiece) else Refuse(NoCommitment);
      return;
    }
    PickGoes(deals, di, space, ssize, maxPiece);
    return Pick;
  }
}
