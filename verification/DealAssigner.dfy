/**
 Assigning unpacked deals to sectors: select the deals of a miner that wait for a sector,
 sort them, pick and align as many as fit, and record sector and offset of each picked deal.
 */
module DealAssigner {
  import opened Wrappers
  import opened PieceSize
  import opened SectorPacking
  import opened SectorTiling

  datatype PieceStatus = Undefine | Assigned | Packing | Proving

  /** A stored deal of the miner. `published` says that its publish message is known. */
  datatype MinerDeal = MinerDeal(
    dealId: nat, size: nat, startEpoch: int, endEpoch: int, price: int,
    published: bool, terminated: bool, status: PieceStatus, offset: nat, sector: nat)

  /** The deals of one miner by proposal. */
  type Repo = map<nat, MinerDeal>

  const DEFAULT_SPEC := NO_LIMITS.(maxPiece := 10)

  /** Deal IDs come from the chain; a deal without one has ID zero. */
  ghost predicate DistinctRecords(s: Repo) {
    forall k, l :: k in s && l in s && k != l && s[k].dealId == s[l].dealId ==> s[k].dealId == 0
  }

  /** A deal that has an ID was accepted, which checks its size, and published. */
  ghost predicate ValidRepo(s: Repo) {
    && (forall k :: k in s && s[k].dealId > 0 ==> s[k].published && ValidSize(s[k].size))
    && DistinctRecords(s)
  }

  predicate Eligible(d: MinerDeal) {
    d.status == Undefine && d.dealId != 0 && !d.terminated
  }

  function AsDeal(d: MinerDeal): Deal {
    Deal(d.dealId, d.size, d.startEpoch, d.endEpoch, d.price, d.published)
  }

  // ----- selecting and sorting -----

  /** Smaller pieces first, then earlier start, then higher price. */
  predicate Before(a: Deal, b: Deal) {
    if a.size != b.size then a.size < b.size
    else if a.startEpoch != b.startEpoch then a.startEpoch < b.startEpoch
    else a.price > b.price
  }

  ghost predicate Sorted(deals: seq<Deal>) {
    forall i, j :: 0 <= i < j < |deals| ==> !Before(deals[j], deals[i])
  }

  ghost predicate DistinctIds(deals: seq<Deal>) {
    forall i, j :: 0 <= i < j < |deals| ==> deals[i].dealId != deals[j].dealId
  }

  ghost predicate SizesOrdered(deals: seq<Deal>) {
    forall i, j :: 0 <= i < j < |deals| ==> deals[i].size <= deals[j].size
  }

  /** The waiting deals of s, each once, in one of the orders the sort may produce. */
  ghost predicate IsQueue(s: Repo, order: seq<Deal>) {
    && Sorted(order) && DistinctIds(order)
    && forall d :: d in order <==> exists k :: k in s && Eligible(s[k]) && d == AsDeal(s[k])
  }

  method SelectDeals(s: Repo) returns (deals: seq<Deal>)
    requires DistinctRecords(s)
    ensures DistinctIds(deals)
    ensures forall d :: d in deals <==> exists k :: k in s && Eligible(s[k]) && d == AsDeal(s[k])
  {
    deals := [];
    var todo := s.Keys;
    while todo != {}
      invariant todo <= s.Keys && DistinctIds(deals)
      invariant forall d :: d in deals ==> d.dealId != 0
      invariant forall d :: d in deals <==> exists k :: k in s && k !in todo && Eligible(s[k]) && d == AsDeal(s[k])
    {
      var k :| k in todo;
      if Eligible(s[k]) {
        assert forall d :: d in deals ==> d.dealId != s[k].dealId;
        deals := deals + [AsDeal(s[k])];
      }
      todo := todo - {k};
    }
  }

  function InsertAt(sorted: seq<Deal>, d: Deal, i: nat): (r: seq<Deal>)
    requires i <= |sorted|
    ensures |r| == |sorted| + 1
    ensures forall k :: 0 <= k < |r| ==> r[k] == if k < i then sorted[k] else if k == i then d else sorted[k - 1]
  {
    sorted[..i] + [d] + sorted[i..]
  }

  lemma InsertMembers(sorted: seq<Deal>, d: Deal, i: nat)
    requires i <= |sorted|
    ensures forall e :: e in InsertAt(sorted, d, i) <==> e in sorted || e == d
  {
    assert sorted == sorted[..i] + sorted[i..];
  }

  lemma InsertKeepsOrder(sorted: seq<Deal>, d: Deal, i: nat)
    requires Sorted(sorted) && i <= |sorted|
    requires forall j :: 0 <= j < i ==> !Before(d, sorted[j])
    requires i < |sorted| ==> Before(d, sorted[i])
    ensures Sorted(InsertAt(sorted, d, i))
  {
    forall j | i <= j < |sorted|
      ensures !Before(sorted[j], d)
    {
      assert j > i ==> !Before(sorted[j], sorted[i]);
    }
  }

  /** The sorted deals are those seen so far, each once. */
  ghost predicate Sorting(sorted: seq<Deal>, deals: seq<Deal>, n: nat)
    requires n <= |deals|
  {
    Sorted(sorted) && DistinctIds(sorted) && forall e :: e in sorted <==> e in deals[..n]
  }

  method SortDeals(deals: seq<Deal>) returns (sorted: seq<Deal>)
    requires DistinctIds(deals)
    ensures Sorted(sorted) && DistinctIds(sorted)
    ensures forall e :: e in sorted <==> e in deals
  {
    sorted := [];
    for n := 0 to |deals|
      invariant Sorting(sorted, deals, n)
    {
      var i := FindPlace(sorted, deals[n]);
      InsertSorts(sorted, deals, n, i);
      sorted := InsertAt(sorted, deals[n], i);
    }
    assert deals[..|deals|] == deals;
  }

  method FindPlace(sorted: seq<Deal>, d: Deal) returns (i: nat)
    ensures i <= |sorted| && (i < |sorted| ==> Before(d, sorted[i]))
    ensures forall j :: 0 <= j < i ==> !Before(d, sorted[j])
  {
    i := 0;
    while i < |sorted| && !Before(d, sorted[i])
      invariant i <= |sorted|
      invariant forall j :: 0 <= j < i ==> !Before(d, sorted[j])
    {
      i := i + 1;
    }
  }

  lemma InsertSorts(sorted: seq<Deal>, deals: seq<Deal>, n: nat, i: nat)
    requires n < |deals| && DistinctIds(deals) && Sorting(sorted, deals, n) && i <= |sorted|
    requires forall j :: 0 <= j < i ==> !Before(deals[n], sorted[j])
    requires i < |sorted| ==> Before(deals[n], sorted[i])
    ensures Sorting(InsertAt(sorted, deals[n], i), deals, n + 1)
  {
    var d := deals[n];
    InsertKeepsOrder(sorted, d, i);
    InsertMembers(sorted, d, i);
    assert deals[..n + 1] == deals[..n] + [d];
    NewId(deals, n);
    InsertKeepsDistinct(sorted, d, i);
  }

  lemma NewId(deals: seq<Deal>, n: nat)
    requires n < |deals| && DistinctIds(deals)
    ensures forall e :: e in deals[..n] ==> e.dealId != deals[n].dealId
  {
  }

  lemma InsertKeepsDistinct(sorted: seq<Deal>, d: Deal, i: nat)
    requires i <= |sorted| && DistinctIds(sorted) && forall e :: e in sorted ==> e.dealId != d.dealId
    ensures DistinctIds(InsertAt(sorted, d, i))
  {
    assert forall j :: 0 <= j < |sorted| ==> sorted[j] in sorted;
  }

  // ----- what the pick returns for a sorted queue -----

  ghost predicate Queue(deals: seq<Deal>) {
    && SizesOrdered(deals) && DistinctIds(deals)
    && forall d :: d in deals ==> ValidSize(d.size)
  }

  lemma SubQueueAppend(sub: seq<Deal>, init: seq<Deal>, last: Deal)
    requires Queue(init + [last]) && Queue(sub) && forall d :: d in sub ==> d in init
    ensures Queue(sub + [last])
  {
    forall d | d in sub
      ensures d.size <= last.size && d.dealId != last.dealId
    {
      var j :| 0 <= j < |init| && init[j] == d;
      assert (init + [last])[j] == d && (init + [last])[|init|] == last;
    }
    assert last in init + [last];
  }

  lemma {:induction false} EpochFilterQueue(deals: seq<Deal>, spec: DealSpec)
    requires Queue(deals)
    ensures Queue(EpochFilter(deals, spec))
    ensures forall d :: d in EpochFilter(deals, spec) ==> d in deals
  {
    if deals != [] {
      var init, last := deals[..|deals| - 1], deals[|deals| - 1];
      EpochFilterQueue(init, spec);
      assert deals == init + [last];
      SubQueueAppend(EpochFilter(init, spec), init, last);
    }
  }

  lemma {:induction false} DropSmallQueue(deals: seq<Deal>, limit: nat)
    requires Queue(deals)
    ensures Queue(DropSmall(deals, limit))
    ensures forall d :: d in DropSmall(deals, limit) ==> d in deals
  {
    if deals != [] {
      DropSmallQueue(deals[1..], limit);
    }
  }

  lemma {:induction false} TrimLargeQueue(deals: seq<Deal>, limit: nat)
    requires Queue(deals)
    ensures Queue(TrimLarge(deals, limit))
    ensures forall d :: d in TrimLarge(deals, limit) ==> d in deals
  {
    if deals != [] {
      TrimLargeQueue(deals[..|deals| - 1], limit);
    }
  }

  lemma {:induction false} EpochFilterMembers(deals: seq<Deal>, spec: DealSpec)
    ensures forall d :: d in EpochFilter(deals, spec) ==> d in deals
  {
    if deals != [] {
      EpochFilterMembers(deals[..|deals| - 1], spec);
    }
  }

  lemma {:induction false} DropSmallMembers(deals: seq<Deal>, limit: nat)
    ensures forall d :: d in DropSmall(deals, limit) ==> d in deals
  {
    if deals != [] {
      DropSmallMembers(deals[1..], limit);
    }
  }

  lemma {:induction false} TrimLargeMembers(deals: seq<Deal>, limit: nat)
    ensures forall d :: d in TrimLarge(deals, limit) ==> d in deals
  {
    if deals != [] {
      TrimLargeMembers(deals[..|deals| - 1], limit);
    }
  }

  /** The deals among the pieces come from the queue. */
  ghost predicate FromQueue(ps: seq<Piece>, order: seq<Deal>) {
    forall i :: 0 <= i < |ps| && ps[i].DealPiece? ==> ps[i].deal in order
  }

  /** Whatever the deals are like, only deals of the queue are picked. */
  lemma PickMembers(order: seq<Deal>, ssize: nat, spec: DealSpec, ps: seq<Piece>)
    requires PickSpec(order, ssize, spec, Ok(ps))
    ensures FromQueue(ps, order)
  {
    if ps != [] {
      var cut, n := PickedIsFull(order, ssize, spec, ps);
      var f := EpochFilter(order, spec);
      EpochFilterMembers(order, spec);
      DropSmallMembers(f, spec.minPieceSize);
      TrimLargeMembers(f, spec.maxPieceSize);
      TrimLargeMembers(DropSmall(f, spec.minPieceSize), spec.maxPieceSize);
      forall i | 0 <= i < |ps| && ps[i].DealPiece?
        ensures ps[i].deal in order
      {
        PieceIsPlaced(ps, cut, ssize, i);
      }
    }
  }

  lemma CutQueue(deals: seq<Deal>, spec: DealSpec) returns (cut: seq<Deal>)
    requires Queue(deals)
    ensures cut == SizeCut(EpochFilter(deals, spec), spec) && Queue(cut)
    ensures forall d :: d in cut ==> d in deals
    ensures AllAdmissible(cut, |cut|)
  {
    EpochFilterQueue(deals, spec);
    var f := EpochFilter(deals, spec);
    DropSmallQueue(f, spec.minPieceSize);
    TrimLargeQueue(f, spec.maxPieceSize);
    TrimLargeQueue(DropSmall(f, spec.minPieceSize), spec.maxPieceSize);
    cut := SizeCut(f, spec);
  }

  ghost predicate InSector(p: Piece, ssize: nat)
    requires p.DealPiece?
  {
    p.deal.size > 0 && p.offset % p.deal.size == 0 && p.offset + p.deal.size <= ssize
  }

  /** The deals among the pieces come from the queue, each once, in disjoint aligned ranges. */
  ghost predicate GoodPieces(ps: seq<Piece>, order: seq<Deal>, ssize: nat) {
    && (forall i :: 0 <= i < |ps| && ps[i].DealPiece? ==> ps[i].deal in order && InSector(ps[i], ssize))
    && (forall i, j :: 0 <= i < j < |ps| && ps[i].DealPiece? && ps[j].DealPiece? ==>
          ps[i].deal.dealId != ps[j].deal.dealId && ps[i].offset + ps[i].deal.size <= ps[j].offset)
  }

  lemma TwoPieces(ps: seq<Piece>, cut: seq<Deal>, n: nat, ssize: nat, i: nat, j: nat)
    requires FullSector(ps, cut, n, ssize) && DistinctIds(cut)
    requires i < j < |ps| && ps[i].DealPiece? && ps[j].DealPiece?
    ensures ps[i].deal.dealId != ps[j].deal.dealId
    ensures Start(ps, i) + ps[i].deal.size <= Start(ps, j)
  {
    PieceIsPlaced(ps, cut, ssize, i);
    PieceIsPlaced(ps, cut, ssize, j);
    assert ps[..j][..i] == ps[..i];
    PieceIsPlaced(ps[..j], cut, ssize, i);
  }

  lemma SectorIsGood(ps: seq<Piece>, cut: seq<Deal>, n: nat, ssize: nat, order: seq<Deal>)
    requires ValidSize(ssize) && FullSector(ps, cut, n, ssize) && Queue(cut) && AllAdmissible(cut, n)
    requires forall d :: d in cut ==> d in order
    ensures GoodPieces(ps, order, ssize)
  {
    assert cut[0] in cut;
    AlignedTiling(ps, cut, n, ssize);
    ValidUnits(cut[0].size);
    OffsetsFromUnits(ps, cut, n, ssize);
    forall i | 0 <= i < |ps| && ps[i].DealPiece?
      ensures ps[i].deal in order && InSector(ps[i], ssize)
    {
      PieceIsPlaced(ps, cut, ssize, i);
    }
    forall i, j | 0 <= i < j < |ps| && ps[i].DealPiece? && ps[j].DealPiece?
      ensures ps[i].deal.dealId != ps[j].deal.dealId && ps[i].offset + ps[i].deal.size <= ps[j].offset
    {
      TwoPieces(ps, cut, n, ssize, i, j);
    }
  }

  lemma QueueGreedy(cut: seq<Deal>, ssize: nat, maxPiece: int)
    requires Queue(cut) && AllAdmissible(cut, |cut|)
    ensures var r := Greedy(cut, 0, ssize, maxPiece);
            r.Ok? && r.value <= |cut| && AllAdmissible(cut, r.value) && EndOf(cut, r.value) % 128 == 0
  {
    if cut != [] {
      assert cut[0] in cut;
      ValidUnits(cut[0].size);
    }
    LongestPrefix(cut, ssize, maxPiece);
    var n := Greedy(cut, 0, ssize, maxPiece).value;
    if n > 0 {
      EndUnits(cut, n);
    }
  }

  lemma AlignFromQueue(cut: seq<Deal>, order: seq<Deal>, ssize: nat, spec: DealSpec, r: Result<seq<Piece>, PackError>)
    requires Queue(cut) && AllAdmissible(cut, |cut|) && (forall d :: d in cut ==> d in order)
    requires ValidSize(ssize) && AlignSpec(cut, ssize, spec, r)
    ensures r.Ok? && GoodPieces(r.value, order, ssize)
  {
    QueueGreedy(cut, ssize, spec.maxPiece);
    var n := Greedy(cut, 0, ssize, spec.maxPiece).value;
    if r.value != [] {
      SectorIsGood(r.value, cut, n, ssize, order);
    }
  }

  /** A sorted queue of valid deals is never reported as unordered or invalid. */
  lemma PickFromQueue(order: seq<Deal>, ssize: nat, spec: DealSpec, r: Result<seq<Piece>, PackError>)
    requires Queue(order) && PickSpec(order, ssize, spec, r)
    ensures r.Err? ==> r.error == InvalidSpaceSize && !ValidSize(ssize)
    ensures r.Ok? ==> GoodPieces(r.value, order, ssize)
  {
    var cut := CutQueue(order, spec);
    EpochFilterQueue(order, spec);
    var f := EpochFilter(order, spec);
    assert f != [] ==> f[0] in f;
    if ValidSize(ssize) {
      AlignFromQueue(cut, order, ssize, spec, r);
    }
  }

  lemma SortedIsQueue(s: Repo, order: seq<Deal>)
    requires ValidRepo(s) && IsQueue(s, order)
    ensures Queue(order)
  {
    forall i, j | 0 <= i < j < |order|
      ensures order[i].size <= order[j].size
    {
      assert !Before(order[j], order[i]);
    }
  }

  // ----- recording the result -----

  /** The offset at which the pieces hold the deal with this ID. */
  function OffsetIn(ps: seq<Piece>, id: nat): Option<nat> {
    if ps == [] then None
    else
      var last := ps[|ps| - 1];
      if last.DealPiece? && last.deal.dealId == id && last.deal.published then Some(last.offset)
      else OffsetIn(ps[..|ps| - 1], id)
  }

  function Mark(d: MinerDeal, sector: nat, ps: seq<Piece>): MinerDeal {
    if d.dealId > 0 && OffsetIn(ps, d.dealId).Some?
    then d.(status := Assigned, offset := OffsetIn(ps, d.dealId).value, sector := sector)
    else d
  }

  function Marked(s: Repo, sector: nat, ps: seq<Piece>): Repo {
    map k | k in s :: Mark(s[k], sector, ps)
  }

  ghost predicate AssignStep(s: Repo, s': Repo, sector: nat, ssize: nat, maybeSpec: Option<DealSpec>,
                             r: Result<seq<Piece>, PackError>)
  {
    exists order :: IsQueue(s, order) && AssignFrom(order, s, s', sector, ssize, maybeSpec, r)
  }

  ghost predicate AssignFrom(order: seq<Deal>, s: Repo, s': Repo, sector: nat, ssize: nat,
                             maybeSpec: Option<DealSpec>, r: Result<seq<Piece>, PackError>)
  {
    && (if order == [] then r == Ok([])
        else PickSpec(order, ssize, if maybeSpec.Some? then maybeSpec.value else DEFAULT_SPEC, r))
    && s' == if r.Ok? then Marked(s, sector, r.value) else s
  }

  class Assigner {
    var repo: Repo

    method AssignUnPackedDeals(sector: nat, ssize: nat, maybeSpec: Option<DealSpec>)
      returns (r: Result<seq<Piece>, PackError>)
      requires DistinctRecords(repo)
      modifies this
      ensures AssignStep(old(repo), repo, sector, ssize, maybeSpec, r)
    {
      var spec := if maybeSpec.Some? then maybeSpec.value else DEFAULT_SPEC;
      var deals := SelectDeals(repo);
      deals := SortDeals(deals);
      assert IsQueue(repo, deals);
      if |deals| == 0 {
        NothingMarked(repo, sector);
        assert AssignFrom(deals, repo, repo, sector, ssize, maybeSpec, Ok([]));
        return Ok([]);
      }
      r := PickAndAlign(deals, ssize, Some(spec));
      if r.Err? {
        assert AssignFrom(deals, repo, repo, sector, ssize, maybeSpec, r);
        return;
      }
      PickMembers(deals, ssize, spec, r.value);
      var tx := RecordPieces(repo, sector, r.value, deals);
      assert AssignFrom(deals, repo, tx, sector, ssize, maybeSpec, r);
      repo := tx;
    }
  }

  lemma NothingMarked(s: Repo, sector: nat)
    ensures Marked(s, sector, []) == s
  {
  }

  /** The records of the picked deals, updated one by one within the transaction. */
  method RecordPieces(s: Repo, sector: nat, pieces: seq<Piece>, ghost order: seq<Deal>) returns (tx: Repo)
    requires DistinctRecords(s) && IsQueue(s, order) && FromQueue(pieces, order)
    ensures tx == Marked(s, sector, pieces)
  {
    tx := s;
    NothingMarked(s, sector);
    for i := 0 to |pieces|
      invariant tx == Marked(s, sector, pieces[..i])
    {
      var piece := pieces[i];
      assert pieces[..i + 1] == pieces[..i] + [piece];
      if piece.ZeroPiece? || piece.deal.dealId <= 0 || !piece.deal.published {
        MarkNone(s, sector, pieces[..i], piece);
        continue;
      }
      ghost var found := RecordOf(s, order, piece);
      MarkOne(s, sector, pieces[..i], piece, found);
      var key := FindDeal(tx, piece.deal.dealId);
      assert s[key].dealId == s[found].dealId;
      tx := tx[key := tx[key].(status := Assigned, offset := piece.offset, sector := sector)];
    }
    assert pieces[..|pieces|] == pieces;
  }

  lemma RecordOf(s: Repo, order: seq<Deal>, piece: Piece) returns (key: nat)
    requires IsQueue(s, order) && piece.DealPiece? && piece.deal in order
    ensures key in s && Eligible(s[key]) && piece.deal == AsDeal(s[key])
  {
    key :| key in s && Eligible(s[key]) && piece.deal == AsDeal(s[key]);
  }

  lemma MarkNone(s: Repo, sector: nat, ps: seq<Piece>, p: Piece)
    requires p.ZeroPiece? || p.deal.dealId == 0 || !p.deal.published
    ensures Marked(s, sector, ps + [p]) == Marked(s, sector, ps)
  {
    assert (ps + [p])[..|ps|] == ps;
  }

  lemma MarkOne(s: Repo, sector: nat, ps: seq<Piece>, p: Piece, key: nat)
    requires DistinctRecords(s) && p.DealPiece? && key in s && Eligible(s[key]) && p.deal == AsDeal(s[key])
    requires p.deal.published
    ensures key in Marked(s, sector, ps) && Marked(s, sector, ps)[key].dealId == p.deal.dealId
    ensures var tx := Marked(s, sector, ps);
            Marked(s, sector, ps + [p]) ==
              tx[key := tx[key].(status := Assigned, offset := p.offset, sector := sector)]
  {
    assert (ps + [p])[..|ps|] == ps;
    assert OffsetIn(ps + [p], s[key].dealId) == Some(p.offset);
    assert forall k :: k in s && k != key && s[k].dealId > 0 ==>
             OffsetIn(ps + [p], s[k].dealId) == OffsetIn(ps, s[k].dealId);
  }

  method FindDeal(s: Repo, id: nat) returns (key: nat)
    requires exists k :: k in s && s[k].dealId == id
    ensures key in s && s[key].dealId == id
  {
    key :| key in s && s[key].dealId == id;
  }
}
