/**
 Which deals are offered to a sector, in which order, and which records an assignment changes, in
 terms of the fields of the stored deals and the limits of the request.
 */
module AssignmentLaws {
  import opened Wrappers
  import opened PieceSize
  import opened SectorPacking
  import opened PickLaws
  import opened DealAssigner
  import opened AssignmentRuns

  /** Offered are exactly the deals without a sector that have an ID and are not terminated. */
  lemma OfferedIff(s: Repo, order: seq<Deal>, d: Deal)
    requires IsQueue(s, order)
    ensures d in order <==>
              exists k :: && k in s && s[k].status == Undefine && s[k].dealId != 0 && !s[k].terminated
                          && d.dealId == s[k].dealId && d.size == s[k].size && d.price == s[k].price
                          && d.startEpoch == s[k].startEpoch && d.endEpoch == s[k].endEpoch && d.published == s[k].published
  {
    if d in order {
      var k :| k in s && Eligible(s[k]) && d == AsDeal(s[k]);
      assert s[k].status == Undefine;
    }
    if k :| && k in s && s[k].status == Undefine && s[k].dealId != 0 && !s[k].terminated
            && d.dealId == s[k].dealId && d.size == s[k].size && d.price == s[k].price
            && d.startEpoch == s[k].startEpoch && d.endEpoch == s[k].endEpoch && d.published == s[k].published
    {
      assert Eligible(s[k]) && d == AsDeal(s[k]);
    }
  }

  /** Smaller deals are offered first; of equal ones those that start earlier, then those that pay more. */
  lemma OfferedInOrder(s: Repo, order: seq<Deal>, i: nat, j: nat)
    requires IsQueue(s, order) && i < j < |order|
    ensures var a, b := order[i], order[j];
            || a.size < b.size
            || (a.size == b.size && a.startEpoch < b.startEpoch)
            || (a.size == b.size && a.startEpoch == b.startEpoch && a.price >= b.price)
  {
    assert !Before(order[j], order[i]);
  }

  /** Without limits of its own, a request is limited to ten deals and by nothing else. */
  lemma DefaultIsTenDeals(s: Repo, s': Repo, sector: nat, ssize: nat, r: Result<seq<Piece>, PackError>)
    ensures AssignStep(s, s', sector, ssize, None, r) <==>
            AssignStep(s, s', sector, ssize, Some(DealSpec(10, 0, 0, 0, 0, 0, 0)), r)
  {
    assert forall order :: AssignFrom(order, s, s', sector, ssize, None, r) <==>
                           AssignFrom(order, s, s', sector, ssize, Some(DealSpec(10, 0, 0, 0, 0, 0, 0)), r);
  }

  /** The deals of an answer respect every limit of the request. */
  lemma AnswerInLimits(s: Repo, s': Repo, sector: nat, ssize: nat, spec: DealSpec, ps: seq<Piece>, i: nat)
    requires AssignStep(s, s', sector, ssize, Some(spec), Ok(ps)) && i < |ps| && ps[i].DealPiece?
    ensures var d := ps[i].deal;
            && (spec.startEpoch > 0 ==> d.startEpoch > spec.startEpoch)
            && (spec.endEpoch > 0 ==> d.endEpoch < spec.endEpoch)
            && d.size >= spec.minPieceSize && (spec.maxPieceSize > 0 ==> d.size <= spec.maxPieceSize)
    ensures (spec.maxPiece > 0 ==> |DealsOf(ps)| <= spec.maxPiece) && (spec.minPiece > 0 ==> |DealsOf(ps)| >= spec.minPiece)
    ensures SizeSum(DealsOf(ps)) >= spec.minUsedSpace
  {
    var order: seq<Deal> :| IsQueue(s, order) && AssignFrom(order, s, s', sector, ssize, Some(spec), Ok(ps));
    forall k, l | 0 <= k < l < |order|
      ensures order[k].size <= order[l].size
    {
      OfferedInOrder(s, order, k, l);
    }
    PickedInLimits(order, ssize, spec, ps, i);
    PickedInSizes(order, ssize, spec, ps, i);
    PickedEnough(order, ssize, spec, ps);
  }

  /** A record that an assignment changes was waiting, and is now assigned to the sector at an offset of the answer. */
  lemma ChangedWasWaiting(s: Repo, s': Repo, c: Call, k: nat)
    requires ValidRepo(s) && AssignStep(s, s', c.sector, c.ssize, c.spec, c.r) && Free(s, c.sector)
    requires k in s && k in s' && s'[k] != s[k]
    ensures s[k].status == Undefine && s[k].dealId != 0 && !s[k].terminated
    ensures s'[k].status == Assigned && s'[k].sector == c.sector
    ensures s'[k] == s[k].(status := s'[k].status, sector := s'[k].sector, offset := s'[k].offset)
    ensures c.r.Ok? && exists i :: && 0 <= i < |c.r.value| && c.r.value[i].DealPiece?
                                   && c.r.value[i].deal.dealId == s[k].dealId && c.r.value[i].offset == s'[k].offset
  {
    StepIsSound(s, s', c);
    var i :| 0 <= i < |c.r.value| && c.r.value[i].DealPiece? && c.r.value[i].deal == AsDeal(s[k]);
    var l :| l in s && l in s' && Eligible(s[l]) && c.r.value[i].deal == AsDeal(s[l]) && Holds(s'[l], c.sector)
             && s'[l].offset == c.r.value[i].offset;
    assert l == k;
  }
}
