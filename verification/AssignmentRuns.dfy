/**
 Any sequence of assignments to different sectors: no deal is assigned twice, and the deals
 of each sector lie in disjoint aligned ranges inside it.
 */
module AssignmentRuns {
  import opened Wrappers
  import opened PieceSize
  import opened SectorPacking
  import opened DealAssigner

  datatype Call = Call(sector: nat, ssize: nat, spec: Option<DealSpec>, r: Result<seq<Piece>, PackError>)

  /** The deal has been given to the sector. */
  predicate Holds(d: MinerDeal, sector: nat) {
    d.status != Undefine && d.sector == sector
  }

  ghost predicate SectorOk(s: Repo, sector: nat, ssize: nat) {
    && (forall k :: k in s && Holds(s[k], sector) ==>
          s[k].size > 0 && s[k].offset % s[k].size == 0 && s[k].offset + s[k].size <= ssize)
    && (forall k, l :: k in s && l in s && k != l && Holds(s[k], sector) && Holds(s[l], sector) ==>
          s[k].offset + s[k].size <= s[l].offset || s[l].offset + s[l].size <= s[k].offset)
  }

  /** Deals that were not waiting keep their record; the others are unchanged or go to the sector. */
  ghost predicate OnlyAssigns(s: Repo, s': Repo, sector: nat) {
    && s'.Keys == s.Keys
    && forall k :: k in s ==>
         s'[k] == s[k] || (Eligible(s[k]) && s'[k] == s[k].(status := Assigned, sector := sector, offset := s'[k].offset))
  }

  /** Every returned deal was waiting before and is recorded with its offset after. */
  ghost predicate Records(s: Repo, s': Repo, sector: nat, ps: seq<Piece>) {
    forall i :: 0 <= i < |ps| && ps[i].DealPiece? ==>
      exists k :: k in s && k in s' && Eligible(s[k]) && ps[i].deal == AsDeal(s[k])
                  && Holds(s'[k], sector) && s'[k].offset == ps[i].offset
  }

  /** Every record that changed is that of a returned deal. */
  ghost predicate Reported(s: Repo, s': Repo, ps: seq<Piece>) {
    forall k :: k in s && k in s' && s'[k] != s[k] ==>
      exists i :: 0 <= i < |ps| && ps[i].DealPiece? && ps[i].deal == AsDeal(s[k])
  }

  // ----- one step -----

  lemma {:induction false} OffsetFound(ps: seq<Piece>, id: nat) returns (i: nat)
    requires OffsetIn(ps, id).Some?
    ensures i < |ps| && ps[i].DealPiece? && ps[i].deal.dealId == id && ps[i].offset == OffsetIn(ps, id).value
  {
    var last := ps[|ps| - 1];
    if last.DealPiece? && last.deal.dealId == id && last.deal.published {
      i := |ps| - 1;
    } else {
      i := OffsetFound(ps[..|ps| - 1], id);
    }
  }

  lemma {:induction false} OffsetOfPiece(ps: seq<Piece>, order: seq<Deal>, ssize: nat, i: nat)
    requires GoodPieces(ps, order, ssize) && i < |ps| && ps[i].DealPiece? && ps[i].deal.published
    ensures OffsetIn(ps, ps[i].deal.dealId) == Some(ps[i].offset)
    decreases |ps|
  {
    var init := ps[..|ps| - 1];
    if i < |ps| - 1 {
      assert forall j :: 0 <= j < |init| ==> init[j] == ps[j];
      OffsetOfPiece(init, order, ssize, i);
    }
  }

  /** A deal marked by these pieces was waiting, and its range is that of its piece. */
  lemma MarkedBy(s: Repo, order: seq<Deal>, ps: seq<Piece>, ssize: nat, k: nat) returns (i: nat)
    requires ValidRepo(s) && IsQueue(s, order) && GoodPieces(ps, order, ssize)
    requires k in s && s[k].dealId > 0 && OffsetIn(ps, s[k].dealId).Some?
    ensures i < |ps| && ps[i].DealPiece? && ps[i].deal == AsDeal(s[k]) && Eligible(s[k])
    ensures ps[i].offset == OffsetIn(ps, s[k].dealId).value
  {
    i := OffsetFound(ps, s[k].dealId);
    assert ps[i].deal in order;
    var k' :| k' in s && Eligible(s[k']) && ps[i].deal == AsDeal(s[k']);
    assert s[k'].dealId == s[k].dealId;
  }

  lemma MarkedOnlyAssigns(s: Repo, order: seq<Deal>, ps: seq<Piece>, sector: nat, ssize: nat)
    requires ValidRepo(s) && IsQueue(s, order) && GoodPieces(ps, order, ssize)
    ensures OnlyAssigns(s, Marked(s, sector, ps), sector)
  {
    forall k | k in s && s[k].dealId > 0 && OffsetIn(ps, s[k].dealId).Some?
      ensures Eligible(s[k])
    {
      var i := MarkedBy(s, order, ps, ssize, k);
    }
  }

  lemma MarkedSectorOk(s: Repo, order: seq<Deal>, ps: seq<Piece>, sector: nat, ssize: nat)
    requires ValidRepo(s) && IsQueue(s, order) && GoodPieces(ps, order, ssize)
    requires forall k :: k in s ==> !Holds(s[k], sector)
    ensures SectorOk(Marked(s, sector, ps), sector, ssize)
  {
    var s' := Marked(s, sector, ps);
    forall k | k in s' && Holds(s'[k], sector)
      ensures s'[k].size > 0 && s'[k].offset % s'[k].size == 0 && s'[k].offset + s'[k].size <= ssize
    {
      var i := MarkedBy(s, order, ps, ssize, k);
      assert InSector(ps[i], ssize);
    }
    forall k, l | k in s' && l in s' && k != l && Holds(s'[k], sector) && Holds(s'[l], sector)
      ensures s'[k].offset + s'[k].size <= s'[l].offset || s'[l].offset + s'[l].size <= s'[k].offset
    {
      var i := MarkedBy(s, order, ps, ssize, k);
      var j := MarkedBy(s, order, ps, ssize, l);
      assert i != j;
    }
  }

  lemma MarkedRecords(s: Repo, order: seq<Deal>, ps: seq<Piece>, sector: nat, ssize: nat)
    requires ValidRepo(s) && IsQueue(s, order) && GoodPieces(ps, order, ssize)
    ensures Records(s, Marked(s, sector, ps), sector, ps)
  {
    var s' := Marked(s, sector, ps);
    forall i | 0 <= i < |ps| && ps[i].DealPiece?
      ensures exists k :: k in s && k in s' && Eligible(s[k]) && ps[i].deal == AsDeal(s[k])
                          && Holds(s'[k], sector) && s'[k].offset == ps[i].offset
    {
      assert ps[i].deal in order;
      var k :| k in s && Eligible(s[k]) && ps[i].deal == AsDeal(s[k]);
      OffsetOfPiece(ps, order, ssize, i);
      assert k in s' && Holds(s'[k], sector);
    }
  }

  lemma MarkedReported(s: Repo, order: seq<Deal>, ps: seq<Piece>, sector: nat, ssize: nat)
    requires ValidRepo(s) && IsQueue(s, order) && GoodPieces(ps, order, ssize)
    ensures Reported(s, Marked(s, sector, ps), ps)
  {
    forall k | k in s && Marked(s, sector, ps)[k] != s[k]
      ensures exists i :: 0 <= i < |ps| && ps[i].DealPiece? && ps[i].deal == AsDeal(s[k])
    {
      var i := MarkedBy(s, order, ps, ssize, k);
    }
  }

  lemma MarkedSound(s: Repo, order: seq<Deal>, ps: seq<Piece>, sector: nat, ssize: nat)
    requires ValidRepo(s) && IsQueue(s, order) && GoodPieces(ps, order, ssize)
    requires forall k :: k in s ==> !Holds(s[k], sector)
    ensures var s' := Marked(s, sector, ps);
            && ValidRepo(s') && OnlyAssigns(s, s', sector) && SectorOk(s', sector, ssize)
            && Records(s, s', sector, ps) && Reported(s, s', ps)
  {
    MarkedOnlyAssigns(s, order, ps, sector, ssize);
    MarkedSectorOk(s, order, ps, sector, ssize);
    MarkedRecords(s, order, ps, sector, ssize);
    MarkedReported(s, order, ps, sector, ssize);
  }

  /** One call: it fails only for a bad sector size, and otherwise assigns waiting deals soundly. */
  lemma StepIsSound(s: Repo, s': Repo, c: Call)
    requires ValidRepo(s) && AssignStep(s, s', c.sector, c.ssize, c.spec, c.r)
    requires forall k :: k in s ==> !Holds(s[k], c.sector)
    ensures ValidRepo(s') && OnlyAssigns(s, s', c.sector) && SectorOk(s', c.sector, c.ssize)
    ensures c.r.Err? ==> c.r.error == InvalidSpaceSize && !ValidSize(c.ssize) && s' == s
    ensures c.r.Ok? ==> Records(s, s', c.sector, c.r.value) && Reported(s, s', c.r.value)
  {
    var order :| IsQueue(s, order) && AssignFrom(order, s, s', c.sector, c.ssize, c.spec, c.r);
    SortedIsQueue(s, order);
    if order != [] {
      PickFromQueue(order, c.ssize, if c.spec.Some? then c.spec.value else DEFAULT_SPEC, c.r);
    }
    if c.r.Ok? {
      MarkedSound(s, order, c.r.value, c.sector, c.ssize);
    }
  }

  // ----- runs -----

  ghost predicate Run(states: seq<Repo>, calls: seq<Call>) {
    && |states| == |calls| + 1 && ValidRepo(states[0])
    && (forall i :: 0 <= i < |calls| ==>
          AssignStep(states[i], states[i + 1], calls[i].sector, calls[i].ssize, calls[i].spec, calls[i].r))
    && (forall i, j :: 0 <= i < j < |calls| ==> calls[i].sector != calls[j].sector)
    && (forall i :: 0 <= i < |calls| ==> Free(states[0], calls[i].sector))
  }

  /** No record is assigned to the sector. */
  ghost predicate Free(s: Repo, sector: nat) {
    forall k :: k in s ==> !Holds(s[k], sector)
  }

  /** A record that is no longer waiting never changes again. */
  ghost predicate Frozen(s: Repo, s': Repo) {
    s'.Keys == s.Keys && forall k :: k in s && s[k].status != Undefine ==> s'[k] == s[k]
  }

  ghost predicate Later(states: seq<Repo>, calls: seq<Call>, n: nat)
    requires |states| == |calls| + 1 && n <= |calls|
  {
    && ValidRepo(states[n])
    && (forall i :: 0 <= i <= n ==> Frozen(states[i], states[n]))
    && (forall i :: 0 <= i < n ==> SectorOk(states[n], calls[i].sector, calls[i].ssize))
    && (forall i :: n <= i < |calls| ==> Free(states[n], calls[i].sector))
  }

  lemma FrozenSectorOk(s: Repo, s': Repo, sector: nat, other: nat, ssize: nat)
    requires OnlyAssigns(s, s', other) && other != sector && SectorOk(s, sector, ssize)
    ensures SectorOk(s', sector, ssize)
  {
    assert forall k :: k in s' && Holds(s'[k], sector) ==> s'[k] == s[k];
  }

  lemma StepAt(states: seq<Repo>, calls: seq<Call>, i: nat)
    requires Run(states, calls) && i < |calls| && Later(states, calls, i)
    ensures ValidRepo(states[i + 1]) && OnlyAssigns(states[i], states[i + 1], calls[i].sector)
    ensures SectorOk(states[i + 1], calls[i].sector, calls[i].ssize)
    ensures calls[i].r.Ok? ==> Records(states[i], states[i + 1], calls[i].sector, calls[i].r.value)
  {
    StepIsSound(states[i], states[i + 1], calls[i]);
  }

  lemma LaterSectors(states: seq<Repo>, calls: seq<Call>, n: nat)
    requires Run(states, calls) && n < |calls| && Later(states, calls, n)
    requires OnlyAssigns(states[n], states[n + 1], calls[n].sector)
    requires SectorOk(states[n + 1], calls[n].sector, calls[n].ssize)
    ensures forall i :: 0 <= i <= n ==> SectorOk(states[n + 1], calls[i].sector, calls[i].ssize)
  {
    forall i | 0 <= i < n
      ensures SectorOk(states[n + 1], calls[i].sector, calls[i].ssize)
    {
      FrozenSectorOk(states[n], states[n + 1], calls[i].sector, calls[n].sector, calls[i].ssize);
    }
  }

  lemma LaterFrozen(states: seq<Repo>, calls: seq<Call>, n: nat)
    requires |states| == |calls| + 1 && n < |calls| && Later(states, calls, n)
    requires OnlyAssigns(states[n], states[n + 1], calls[n].sector)
    ensures forall i :: 0 <= i <= n + 1 ==> Frozen(states[i], states[n + 1])
  {
    forall i | 0 <= i <= n
      ensures Frozen(states[i], states[n + 1])
    {
      assert Frozen(states[i], states[n]);
    }
  }

  lemma LaterFree(states: seq<Repo>, calls: seq<Call>, n: nat)
    requires Run(states, calls) && n < |calls| && Later(states, calls, n)
    requires OnlyAssigns(states[n], states[n + 1], calls[n].sector)
    ensures forall i :: n < i < |calls| ==> Free(states[n + 1], calls[i].sector)
  {
    forall i | n < i < |calls|
      ensures Free(states[n + 1], calls[i].sector)
    {
      assert Free(states[n], calls[i].sector);
    }
  }

  lemma LaterStep(states: seq<Repo>, calls: seq<Call>, n: nat)
    requires Run(states, calls) && n < |calls| && Later(states, calls, n)
    ensures Later(states, calls, n + 1)
  {
    StepAt(states, calls, n);
    LaterSectors(states, calls, n);
    LaterFrozen(states, calls, n);
    LaterFree(states, calls, n);
  }

  lemma {:induction false} RunLater(states: seq<Repo>, calls: seq<Call>, n: nat)
    requires Run(states, calls) && n <= |calls|
    ensures Later(states, calls, n)
  {
    if n > 0 {
      RunLater(states, calls, n - 1);
      LaterStep(states, calls, n - 1);
    }
  }

  /** At the end of any run the deals of every sector are aligned and disjoint, and assigned records never changed. */
  lemma SectorsSound(states: seq<Repo>, calls: seq<Call>, i: nat, n: nat)
    requires Run(states, calls) && i < n <= |calls|
    ensures SectorOk(states[n], calls[i].sector, calls[i].ssize)
    ensures Frozen(states[i], states[n])
  {
    RunLater(states, calls, n);
  }

  /** A deal handed out by call i is no longer waiting afterwards. */
  lemma HandedOut(states: seq<Repo>, calls: seq<Call>, i: nat, a: nat) returns (k: nat)
    requires Run(states, calls) && i < |calls| && calls[i].r.Ok?
    requires a < |calls[i].r.value| && calls[i].r.value[a].DealPiece?
    ensures k in states[i] && k in states[i + 1]
    ensures Eligible(states[i][k]) && AsDeal(states[i][k]) == calls[i].r.value[a].deal
    ensures Holds(states[i + 1][k], calls[i].sector)
  {
    RunLater(states, calls, i);
    StepAt(states, calls, i);
    var p := calls[i].r.value[a];
    k :| k in states[i] && k in states[i + 1] && Eligible(states[i][k]) && p.deal == AsDeal(states[i][k])
         && Holds(states[i + 1][k], calls[i].sector) && states[i + 1][k].offset == p.offset;
  }

  /** No deal is handed to two sectors. */
  lemma NoDealTwice(states: seq<Repo>, calls: seq<Call>, i: nat, j: nat, a: nat, b: nat)
    requires Run(states, calls) && i < j < |calls| && calls[i].r.Ok? && calls[j].r.Ok?
    requires a < |calls[i].r.value| && b < |calls[j].r.value|
    requires calls[i].r.value[a].DealPiece? && calls[j].r.value[b].DealPiece?
    ensures calls[i].r.value[a].deal.dealId != calls[j].r.value[b].deal.dealId
  {
    var k := HandedOut(states, calls, i, a);
    var l := HandedOut(states, calls, j, b);
    RunLater(states, calls, i);
    StepAt(states, calls, i);
    RunLater(states, calls, j);
    assert Frozen(states[i + 1], states[j]);
    SameIdSameDeal(states[i], states[i + 1], states[j], calls[i].sector, k, l);
  }

  lemma SameIdSameDeal(s0: Repo, s1: Repo, s2: Repo, sector: nat, k: nat, l: nat)
    requires ValidRepo(s2) && OnlyAssigns(s0, s1, sector) && Frozen(s1, s2)
    requires k in s0 && Eligible(s0[k]) && k in s1 && Holds(s1[k], sector)
    requires l in s2 && Eligible(s2[l])
    ensures s0[k].dealId != s2[l].dealId
  {
    assert s2[k] == s1[k] && s1[k].dealId == s0[k].dealId;
  }
}
