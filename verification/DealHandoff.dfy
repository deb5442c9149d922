/**
 Handing off a storage deal: from checking its data over reserving collateral and publishing
 to the sealing queue, releasing the collateral when the deal is published or fails.
 */
module DealHandoff {
  import opened Wrappers

  datatype DealState =
    | VerifyData | ReserveProviderFunds | ProviderFunding | Publish | Publishing | Staged
    | AwaitingPreCommit | Failing | Other

  /** A call of the fund manager that succeeded in reserving, or any call to release. */
  datatype Flow = Reserved(amt: int) | Released(amt: int)

  datatype ReserveResult = ReserveFailed | FundsAvailable | MessageSent(msg: nat)

  datatype WaitResult = WaitErrored | BadExit | WaitOk

  /** How each step of the outside world turns out; `save...` are writes of the deal record. */
  datatype World = World(
    finalized: bool, commP: Option<nat>, saveVerified: bool,
    chainHead: bool, worker: bool, reserve: ReserveResult, saveReserved: bool,
    funding: WaitResult, saveFunded: bool, saveFailedFunding: bool,
    publish: Option<nat>, savePublished: bool,
    published: Option<(nat, nat)>, saveStaged: bool,
    pieceRead: bool, savePayload: bool, packed: bool, closed: bool, saveFinal: bool,
    saveFailed: bool)

  predicate IsHandled(s: DealState) {
    s.VerifyData? || s.ReserveProviderFunds? || s.ProviderFunding? || s.Publish? || s.Publishing? || s.Staged?
  }

  function Net(flows: seq<Flow>): int {
    if flows == [] then 0
    else
      Net(flows[..|flows| - 1]) +
        (match flows[|flows| - 1]
         case Reserved(a) => a
         case Released(a) => -a)
  }

  function Releases(flows: seq<Flow>): nat {
    if flows == [] then 0 else Releases(flows[..|flows| - 1]) + (if flows[|flows| - 1].Released? then 1 else 0)
  }

  /** The calls once everything held has been released. */
  function Closed(flows: seq<Flow>, held: int): seq<Flow> {
    if held == 0 then flows else flows + [Released(held)]
  }

  lemma ClosedFacts(flows: seq<Flow>, held: int)
    ensures Net(Closed(flows, held)) == Net(flows) - held
    ensures Releases(flows) == 0 ==> Releases(Closed(flows, held)) <= 1
  {
    assert (flows + [Released(held)])[..|flows|] == flows;
  }

  lemma OpenedFacts(flows: seq<Flow>, amt: int)
    ensures Net(flows + [Reserved(amt)]) == Net(flows) + amt
    ensures Releases(flows + [Reserved(amt)]) == Releases(flows)
  {
    assert (flows + [Reserved(amt)])[..|flows|] == flows;
  }

  // ----- which steps must succeed -----

  /** The piece is read, packed and closed; failing to close an imported file is only logged. */
  predicate HandedOver(w: World, offline: bool) {
    w.pieceRead && w.savePayload && w.packed && (offline || w.closed)
  }

  predicate FromStaged(w: World, offline: bool) { HandedOver(w, offline) && w.saveFinal }

  predicate FromPublishing(w: World, known: bool, offline: bool) {
    known && w.published.Some? && w.saveStaged && FromStaged(w, offline)
  }

  predicate FromPublish(w: World, offline: bool) {
    w.publish.Some? && w.savePublished && FromPublishing(w, true, offline)
  }

  predicate FromFunding(w: World, offline: bool) {
    w.funding == WaitOk && w.saveFunded && FromPublish(w, offline)
  }

  predicate FromReserve(w: World, offline: bool) {
    && w.chainHead && w.worker && w.reserve != ReserveFailed && w.saveReserved
    && if w.reserve.MessageSent? then FromFunding(w, offline) else FromPublish(w, offline)
  }

  /** Checking the data forgets where an imported piece was. */
  predicate FromVerify(w: World, pieceCid: nat) {
    w.finalized && w.commP == Some(pieceCid) && w.saveVerified && FromReserve(w, false)
  }

  /**
   Every step from the given state to the end succeeds. `known` says that the publish message is
   known, `offline` that the piece was imported from a file.
   */
  predicate AllSucceed(s: DealState, w: World, pieceCid: nat, known: bool, offline: bool) {
    match s
    case VerifyData => FromVerify(w, pieceCid)
    case ReserveProviderFunds => FromReserve(w, offline)
    case ProviderFunding => FromFunding(w, offline)
    case Publish => FromPublish(w, offline)
    case Publishing => FromPublishing(w, known, offline)
    case Staged => FromStaged(w, offline)
    case _ => false
  }

  predicate InFirst(s: DealState) { s == VerifyData || s == ReserveProviderFunds }

  /** The fund manager is asked for the collateral and grants it. */
  predicate Opens(s: DealState, w: World, pieceCid: nat) {
    && (s == VerifyData ==> w.finalized && w.commP == Some(pieceCid) && w.saveVerified)
    && InFirst(s) && w.chainHead && w.worker && w.reserve != ReserveFailed
  }

  /** A staged deal that is handed over keeps what it holds. */
  predicate Keeps(s: DealState, w: World, offline: bool) { s == Staged && FromStaged(w, offline) }

  /** A deal that was not staged yet has the ID and the message with which it was published. */
  predicate Published(s: DealState, w: World, cid: Option<nat>, id: nat, cid': Option<nat>, id': nat) {
    if s == Staged then cid' == cid && id' == id
    else w.published.Some? && id' == w.published.value.0 && cid' == Some(w.published.value.1)
  }

  function Openings(opens: bool, amt: int): seq<Flow> {
    if opens then [Reserved(amt)] else []
  }

  /** The calls take what is held from one amount to the other; at most one is a release, of everything. */
  ghost predicate Agree(flows: seq<Flow>, before: int, after: int) {
    && after == before + Net(flows)
    && Releases(flows) <= 1
    && (Releases(flows) == 1 ==> after == 0)
  }

  lemma LedgerFacts(held: int, amt: int, opens: bool)
    ensures var flows := Openings(opens, amt);
            var held' := held + if opens then amt else 0;
            Agree(flows, held, held') && Agree(Closed(flows, held'), held, 0)
  {
    if opens {
      OpenedFacts([], amt);
      assert [] + [Reserved(amt)] == [Reserved(amt)];
    }
    AgreeClosed(Openings(opens, amt), held, held + if opens then amt else 0);
  }

  lemma AgreeClosed(flows: seq<Flow>, before: int, after: int)
    requires Agree(flows, before, after) && Releases(flows) == 0
    ensures Agree(Closed(flows, after), before, 0)
  {
    ClosedFacts(flows, after);
  }

  /** A deal record at one moment, with the calls made so far. */
  datatype Snapshot = Snapshot(
    state: DealState, held: int, addCid: Option<nat>, cid: Option<nat>, id: nat, offline: bool, flows: seq<Flow>)

  /** What the stages up to the reservation do to a deal in one of their states. */
  ghost predicate FirstDone(a: Snapshot, b: Snapshot, failed: bool, w: World, pieceCid: nat, collateral: int) {
    var opens := Opens(a.state, w, pieceCid);
    var held := a.held + if opens then collateral else 0;
    && b.cid == a.cid && b.id == a.id
    && if failed then
         && b.state == Failing && !AllSucceed(a.state, w, pieceCid, a.cid.Some?, a.offline)
         && b.held == 0 && b.flows == Closed(Openings(opens, collateral), held)
       else
         && (if w.reserve.MessageSent? then b.state == ProviderFunding && b.addCid == Some(w.reserve.msg) else b.state == Publish)
         && (AllSucceed(a.state, w, pieceCid, a.cid.Some?, a.offline) <==> AllSucceed(b.state, w, pieceCid, b.cid.Some?, b.offline))
         && b.held == held && b.flows == Openings(opens, collateral)
  }

  /** What the stages after the reservation do. */
  ghost predicate RestDone(a: Snapshot, b: Snapshot, w: World, pieceCid: nat) {
    && (b.state == AwaitingPreCommit || b.state == Failing)
    && (b.state == AwaitingPreCommit <==> AllSucceed(a.state, w, pieceCid, a.cid.Some?, a.offline))
    && b.addCid == a.addCid
    && (if Keeps(a.state, w, a.offline) then b.held == a.held && b.flows == a.flows
        else b.held == 0 && b.flows == Closed(a.flows, a.held))
    && (b.state == AwaitingPreCommit ==> Published(a.state, w, a.cid, a.id, b.cid, b.id))
  }

  /** What a whole hand-off does to a deal that starts before the reservation. */
  ghost predicate HandedOff(a: Snapshot, b: Snapshot, w: World, pieceCid: nat, collateral: int) {
    && (b.state == AwaitingPreCommit || b.state == Failing)
    && (b.state == AwaitingPreCommit <==> AllSucceed(a.state, w, pieceCid, a.cid.Some?, a.offline))
    && b.held == 0
    && b.flows == Closed(Openings(Opens(a.state, w, pieceCid), collateral),
                         a.held + if Opens(a.state, w, pieceCid) then collateral else 0)
    && (b.state == AwaitingPreCommit ==>
          Published(a.state, w, a.cid, a.id, b.cid, b.id) && (w.reserve.MessageSent? ==> b.addCid == Some(w.reserve.msg)))
  }

  lemma FirstFails(a: Snapshot, b: Snapshot, w: World, pieceCid: nat, collateral: int)
    requires FirstDone(a, b, true, w, pieceCid, collateral)
    ensures HandedOff(a, b, w, pieceCid, collateral)
  {
  }

  lemma FirstThenRest(a: Snapshot, b: Snapshot, c: Snapshot, w: World, pieceCid: nat, collateral: int)
    requires InFirst(a.state) && FirstDone(a, b, false, w, pieceCid, collateral) && RestDone(b, c, w, pieceCid)
    ensures HandedOff(a, c, w, pieceCid, collateral)
  {
  }

  class MinerDeal {
    const pieceCid: nat
    const collateral: int
    var state: DealState
    var fundsReserved: Option<int>
    var addFundsCid: Option<nat>
    var publishCid: Option<nat>
    var dealId: nat
    var offline: bool
    var flows: seq<Flow>

    constructor (pieceCid: nat, collateral: int)
      ensures state == VerifyData && Held() == 0 && flows == []
      ensures this.pieceCid == pieceCid && this.collateral == collateral
    {
      this.pieceCid, this.collateral := pieceCid, collateral;
      state, fundsReserved, addFundsCid, publishCid, dealId, offline, flows := VerifyData, None, None, None, 0, false, [];
    }

    function Now(): Snapshot
      reads this
    {
      Snapshot(state, Held(), addFundsCid, publishCid, dealId, offline, flows)
    }

    /** What the deal record says is reserved for it. */
    function Held(): int
      reads this
    {
      if fundsReserved.Some? then fundsReserved.value else 0
    }

    method ReleaseReservedFunds()
      modifies this`fundsReserved, this`flows
      ensures Held() == 0
      ensures flows == Closed(old(flows), old(Held()))
    {
      if fundsReserved.Some? && fundsReserved.value != 0 {
        flows := flows + [Released(fundsReserved.value)];
        fundsReserved := Some(0);
      }
    }

    method HandleError(saved: bool) returns (ok: bool)
      modifies this`state, this`fundsReserved, this`flows
      ensures state == Failing && Held() == 0 && ok == saved
      ensures flows == Closed(old(flows), old(Held()))
    {
      state := Failing;
      ReleaseReservedFunds();
      ok := saved;
    }

    method VerifyStage(w: World) returns (failed: bool)
      requires state == VerifyData
      modifies this`state, this`fundsReserved, this`flows, this`offline
      ensures !failed <==> w.finalized && w.commP == Some(pieceCid) && w.saveVerified
      ensures !failed ==> state == ReserveProviderFunds && fundsReserved == old(fundsReserved) && flows == old(flows)
      ensures failed ==> state == Failing && Held() == 0
      ensures failed ==> flows == Closed(old(flows), old(Held()))
      ensures !offline
    {
      failed := true;
      offline := false;
      if !w.finalized || w.commP.None? || w.commP.value != pieceCid {
        var _ := HandleError(w.saveFailed);
        return;
      }
      state := ReserveProviderFunds;
      if !w.saveVerified {
        var _ := HandleError(w.saveFailed);
        return;
      }
      failed := false;
    }

    method ReserveStage(w: World) returns (failed: bool)
      requires state == ReserveProviderFunds
      modifies this`state, this`fundsReserved, this`flows, this`addFundsCid
      ensures !failed <==> w.chainHead && w.worker && w.reserve != ReserveFailed && w.saveReserved
      ensures !failed ==> state == if w.reserve.MessageSent? then ProviderFunding else Publish
      ensures !failed ==> addFundsCid == if w.reserve.MessageSent? then Some(w.reserve.msg) else old(addFundsCid)
      ensures !failed ==> Held() == old(Held()) + collateral && flows == old(flows) + [Reserved(collateral)]
      ensures failed ==> state == Failing && Held() == 0
      ensures failed ==>
                var reserved := w.chainHead && w.worker && w.reserve != ReserveFailed;
                var held := old(Held()) + if reserved then collateral else 0;
                flows == Closed(if reserved then old(flows) + [Reserved(collateral)] else old(flows), held)
    {
      failed := true;
      if !w.chainHead || !w.worker || w.reserve == ReserveFailed {
        var _ := HandleError(w.saveFailed);
        return;
      }
      flows := flows + [Reserved(collateral)];
      if fundsReserved.None? {
        fundsReserved := Some(collateral);
      } else {
        fundsReserved := Some(fundsReserved.value + collateral);
      }
      if w.reserve.MessageSent? {
        addFundsCid := Some(w.reserve.msg);
        state := ProviderFunding;
      } else {
        state := Publish;
      }
      if !w.saveReserved {
        var _ := HandleError(w.saveFailed);
        return;
      }
      failed := false;
    }

    /** A failure in the callback is handled there, and again if storing that failure failed. */
    method FundingStage(w: World) returns (failed: bool)
      requires state == ProviderFunding && addFundsCid.Some?
      modifies this`state, this`fundsReserved, this`flows
      ensures state == Publish || state == Failing
      ensures state == Publish <==> w.funding == WaitOk && w.saveFunded
      ensures failed ==> state == Failing
      ensures state == Publish ==> Held() == old(Held()) && flows == old(flows)
      ensures state == Failing ==> Held() == 0
      ensures state == Failing ==> flows == Closed(old(flows), old(Held()))
    {
      var stored := true;
      if w.funding != WaitOk {
        stored := HandleError(w.saveFailedFunding);
      } else {
        state := Publish;
        if !w.saveFunded {
          stored := HandleError(w.saveFailedFunding);
        }
      }
      failed := false;
      if !stored {
        var _ := HandleError(w.saveFailed);
        failed := true;
      }
    }

    method PublishStage(w: World) returns (failed: bool)
      requires state == Publish
      modifies this`state, this`fundsReserved, this`flows, this`publishCid
      ensures !failed <==> w.publish.Some? && w.savePublished
      ensures !failed ==> state == Publishing && publishCid == w.publish && fundsReserved == old(fundsReserved) && flows == old(flows)
      ensures failed ==> state == Failing && Held() == 0
      ensures failed ==> flows == Closed(old(flows), old(Held()))
    {
      failed := true;
      if w.publish.None? {
        var _ := HandleError(w.saveFailed);
        return;
      }
      publishCid := w.publish;
      state := Publishing;
      if !w.savePublished {
        var _ := HandleError(w.saveFailed);
        return;
      }
      failed := false;
    }

    method PublishingStage(w: World) returns (failed: bool)
      requires state == Publishing
      modifies this`state, this`fundsReserved, this`flows, this`publishCid, this`dealId
      ensures !failed <==> old(publishCid).Some? && w.published.Some? && w.saveStaged
      ensures failed ==> state == Failing
      ensures !failed ==> state == Staged && publishCid == Some(w.published.value.1) && dealId == w.published.value.0
      ensures Held() == 0
      ensures flows == Closed(old(flows), old(Held()))
    {
      failed := true;
      if publishCid.None? {
        var _ := HandleError(w.saveFailed);
        return;
      }
      if w.published.None? {
        var _ := HandleError(w.saveFailed);
        return;
      }
      ReleaseReservedFunds();
      dealId := w.published.value.0;
      publishCid := Some(w.published.value.1);
      state := Staged;
      if !w.saveStaged {
        var _ := HandleError(w.saveFailed);
        return;
      }
      failed := false;
    }

    method StagedStage(w: World)
      requires state == Staged
      modifies this`state, this`fundsReserved, this`flows
      ensures state == AwaitingPreCommit || state == Failing
      ensures state == AwaitingPreCommit <==> FromStaged(w, offline)
      ensures state == AwaitingPreCommit ==> Held() == old(Held()) && flows == old(flows)
      ensures state == Failing ==> Held() == 0
      ensures state == Failing ==> flows == Closed(old(flows), old(Held()))
    {
      if !w.pieceRead {
        var _ := HandleError(w.saveFailed);
        return;
      }
      if !w.savePayload {
        var _ := HandleError(w.saveFailed);
        return;
      }
      if !offline && !w.closed {
        var _ := HandleError(w.saveFailed);
        return;
      }
      if !w.packed {
        var _ := HandleError(w.saveFailed);
        return;
      }
      state := AwaitingPreCommit;
      if !w.saveFinal {
        var _ := HandleError(w.saveFailed);
      }
    }

    /** The deal record agrees with the calls made since it held the given amount. */
    ghost predicate Balanced(held: int)
      reads this
    {
      Agree(flows, held, Held())
    }

    /** The stages up to the reservation. */
    method RunFirst(w: World) returns (failed: bool)
      requires flows == [] && InFirst(state)
      modifies this`state, this`fundsReserved, this`flows, this`addFundsCid, this`offline
      ensures FirstDone(old(Now()), Now(), failed, w, pieceCid, collateral)
    {
      failed := false;
      if state == VerifyData {
        failed := VerifyStage(w);
        if failed {
          return;
        }
      }
      failed := ReserveStage(w);
      assert [] + [Reserved(collateral)] == Openings(true, collateral);
    }

    /**
     The whole hand-off, with the calls it makes. What is held in the end is nothing, unless a deal
     that was staged before still held something and is handed over.
     */
    method HandleOff(w: World)
      requires state == ProviderFunding ==> addFundsCid.Some?
      requires flows == []
      modifies this
      ensures IsHandled(old(state)) ==> state == AwaitingPreCommit || state == Failing
      ensures !IsHandled(old(state)) ==> state == old(state) && fundsReserved == old(fundsReserved) && flows == []
      ensures IsHandled(old(state)) ==>
                (state == AwaitingPreCommit <==> AllSucceed(old(state), w, pieceCid, old(publishCid).Some?, old(offline)))
      ensures Balanced(old(Held()))
      ensures IsHandled(old(state)) ==>
                var calls := Openings(Opens(old(state), w, pieceCid), collateral);
                var held := old(Held()) + if Opens(old(state), w, pieceCid) then collateral else 0;
                if Keeps(old(state), w, old(offline)) then Held() == held && flows == calls
                else Held() == 0 && flows == Closed(calls, held)
      ensures state == AwaitingPreCommit && IsHandled(old(state)) ==>
                && Published(old(state), w, old(publishCid), old(dealId), publishCid, dealId)
                && (InFirst(old(state)) && w.reserve.MessageSent? ==> addFundsCid == Some(w.reserve.msg))
    {
      LedgerFacts(Held(), collateral, Opens(state, w, pieceCid));
      RunAll(w);
    }

    /** All stages, with the calls they make: a reservation, and a release of all that is held then. */
    method RunAll(w: World)
      requires state == ProviderFunding ==> addFundsCid.Some?
      requires flows == []
      modifies this
      ensures if !IsHandled(old(state)) then
                state == old(state) && fundsReserved == old(fundsReserved) && flows == []
              else
                && (state == AwaitingPreCommit || state == Failing)
                && (state == AwaitingPreCommit <==> AllSucceed(old(state), w, pieceCid, old(publishCid).Some?, old(offline)))
                && var calls := Openings(Opens(old(state), w, pieceCid), collateral);
                   var held := old(Held()) + if Opens(old(state), w, pieceCid) then collateral else 0;
                   if Keeps(old(state), w, old(offline)) then Held() == held && flows == calls
                   else Held() == 0 && flows == Closed(calls, held)
      ensures state == AwaitingPreCommit && IsHandled(old(state)) ==>
                && Published(old(state), w, old(publishCid), old(dealId), publishCid, dealId)
                && (InFirst(old(state)) && w.reserve.MessageSent? ==> addFundsCid == Some(w.reserve.msg))
    {
      if InFirst(state) {
        RunFromFirst(w);
      } else if IsHandled(state) {
        RunRest(w);
      }
    }

    method RunFromFirst(w: World)
      requires flows == [] && InFirst(state)
      modifies this
      ensures HandedOff(old(Now()), Now(), w, pieceCid, collateral)
    {
      ghost var before := Now();
      var failed := RunFirst(w);
      ghost var between := Now();
      if failed {
        FirstFails(before, between, w, pieceCid, collateral);
        return;
      }
      RunRest(w);
      FirstThenRest(before, between, Now(), w, pieceCid, collateral);
    }

    /** The stages after the reservation: funding, publishing, hand-over. */
    method RunRest(w: World)
      requires IsHandled(state) && !InFirst(state)
      requires state == ProviderFunding ==> addFundsCid.Some?
      modifies this`state, this`fundsReserved, this`flows, this`publishCid, this`dealId
      ensures RestDone(old(Now()), Now(), w, pieceCid)
    {
      if state == ProviderFunding {
        var failed := FundingStage(w);
        if failed {
          return;
        }
      }
      if state == Publish {
        var failed := PublishStage(w);
        if failed {
          return;
        }
      }
      if state == Publishing {
        var failed := PublishingStage(w);
        if failed {
          return;
        }
      }
      if state == Staged {
        StagedStage(w);
      }
    }
  }

  /** A staged deal that holds 5 is handed over: it still holds them. */
  method StagedDealKeepsFunds() returns (state: DealState, held: int)
    ensures state == AwaitingPreCommit && held == 5
  {
    var deal := new MinerDeal(0, 0);
    deal.state, deal.fundsReserved := Staged, Some(5);
    var w := World(true, Some(0), true, true, true, FundsAvailable, true, WaitOk, true, true, Some(0), true,
                   Some((0, 0)), true, true, true, true, true, true, true);
    deal.HandleOff(w);
    state, held := deal.state, deal.Held();
  }
}
