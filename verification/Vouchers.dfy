/**
 Payment channel vouchers: the lanes of a channel as the chain and the stored vouchers have
 them, the checks a new voucher must pass, and the lanes handed out to callers.
 */
module Vouchers {
  import opened Wrappers

  /** Lane IDs and nonces are 64-bit words. */
  const WORD: nat := 0x1_0000_0000_0000_0000

  type Word = n: nat | n < WORD

  datatype LaneState = LaneState(redeemed: int, nonce: Word)

  type Lanes = map<Word, LaneState>

  datatype Voucher = Voucher(
    channel: nat, lane: Word, nonce: Word, amount: int,
    extra: bool, timeLockMin: int, timeLockMax: int, secretHash: seq<nat>, merges: seq<nat>,
    signature: nat)

  /** The channel actor on chain. */
  datatype Actor = Actor(balance: int, lanes: Lanes)

  datatype VoucherError =
    | WrongChannel | Locked | NoActor | BadSignature | NonceTooLow | AmountTooLow
    | InsufficientFunds(shortfall: int) | MergesNotSupported | DeltaTooLow

  // ----- merging stored vouchers over the chain state -----

  function MergeOne(lanes: Lanes, v: Voucher): Lanes {
    if v.lane in lanes && v.nonce < lanes[v.lane].nonce then lanes
    else lanes[v.lane := LaneState(v.amount, v.nonce)]
  }

  function Merged(chain: Lanes, vouchers: seq<Voucher>): Lanes {
    if vouchers == [] then chain
    else MergeOne(Merged(chain, vouchers[..|vouchers| - 1]), vouchers[|vouchers| - 1])
  }

  predicate NoMerges(vouchers: seq<Voucher>) {
    forall i :: 0 <= i < |vouchers| ==> vouchers[i].merges == []
  }

  method LaneStates(chain: Lanes, vouchers: seq<Voucher>) returns (r: Result<Lanes, VoucherError>)
    ensures r == if NoMerges(vouchers) then Ok(Merged(chain, vouchers)) else Err(MergesNotSupported)
  {
    var lanes := chain;
    for i := 0 to |vouchers|
      invariant NoMerges(vouchers[..i]) && lanes == Merged(chain, vouchers[..i])
    {
      assert vouchers[..i + 1][..i] == vouchers[..i];
      var v := vouchers[i];
      if v.merges != [] {
        return Err(MergesNotSupported);
      }
      if v.lane in lanes && v.nonce < lanes[v.lane].nonce {
        continue;
      }
      lanes := lanes[v.lane := LaneState(v.amount, v.nonce)];
    }
    assert vouchers[..|vouchers|] == vouchers;
    r := Ok(lanes);
  }

  // ----- the total over all lanes -----

  ghost function Total(lanes: Lanes): int
    decreases |lanes|
  {
    if lanes == map[] then 0
    else
      var k :| k in lanes;
      lanes[k].redeemed + Total(lanes - {k})
  }

  /** The order in which lanes are added up does not matter. */
  lemma {:induction false} TotalRemove(lanes: Lanes, k: Word)
    requires k in lanes
    ensures Total(lanes) == lanes[k].redeemed + Total(lanes - {k})
    decreases |lanes|
  {
    var j :| j in lanes && Total(lanes) == lanes[j].redeemed + Total(lanes - {j});
    if j != k {
      TotalRemove(lanes - {j}, k);
      TotalRemove(lanes - {k}, j);
      assert lanes - {j} - {k} == lanes - {k} - {j};
    }
  }

  lemma TotalUpdate(lanes: Lanes, k: Word, ls: LaneState)
    ensures Total(lanes[k := ls]) == Total(lanes) - (if k in lanes then lanes[k].redeemed else 0) + ls.redeemed
  {
    TotalRemove(lanes[k := ls], k);
    if k in lanes {
      TotalRemove(lanes, k);
      assert lanes[k := ls] - {k} == lanes - {k};
    } else {
      assert lanes[k := ls] - {k} == lanes;
    }
  }

  /** What the channel must hold once the voucher counts. */
  ghost function TotalWith(lanes: Lanes, sv: Voucher): int {
    if sv.lane in lanes && sv.nonce <= lanes[sv.lane].nonce then Total(lanes)
    else Total(lanes[sv.lane := LaneState(sv.amount, sv.nonce)])
  }

  method TotalRedeemedWithVoucher(lanes: Lanes, sv: Voucher) returns (r: Result<int, VoucherError>)
    ensures r == if sv.merges != [] then Err(MergesNotSupported) else Ok(TotalWith(lanes, sv))
  {
    if sv.merges != [] {
      return Err(MergesNotSupported);
    }
    var total := 0;
    var todo := lanes.Keys;
    ghost var rest := lanes;
    assert lanes.Keys == rest.Keys;
    while todo != {}
      invariant todo == rest.Keys && (forall k :: k in rest ==> k in lanes && rest[k] == lanes[k])
      invariant total + Total(rest) == Total(lanes)
      decreases todo
    {
      var k :| k in todo;
      TotalRemove(rest, k);
      total := total + lanes[k].redeemed;
      todo := todo - {k};
      rest := rest - {k};
    }
    assert rest == map[];
    TotalUpdate(lanes, sv.lane, LaneState(sv.amount, sv.nonce));
    if sv.lane in lanes {
      if sv.nonce > lanes[sv.lane].nonce {
        var delta := sv.amount - lanes[sv.lane].redeemed;
        total := total + delta;
      }
    } else {
      total := total + sv.amount;
    }
    r := Ok(total);
  }

  // ----- checking a voucher -----

  /** `signed` tells whether the signature verifies against the channel's sender. */
  ghost function CheckSpec(ch: nat, vouchers: seq<Voucher>, sv: Voucher, actor: Option<Actor>, signed: bool)
    : Result<Lanes, VoucherError>
  {
    if sv.channel != ch then Err(WrongChannel)
    else if sv.extra || sv.timeLockMax != 0 || sv.timeLockMin != 0 || sv.secretHash != [] then Err(Locked)
    else if actor.None? then Err(NoActor)
    else if !signed then Err(BadSignature)
    else if !NoMerges(vouchers) then Err(MergesNotSupported)
    else
      var lanes := Merged(actor.value.lanes, vouchers);
      if sv.lane in lanes && sv.nonce <= lanes[sv.lane].nonce then Err(NonceTooLow)
      else if sv.lane in lanes && sv.amount <= lanes[sv.lane].redeemed then Err(AmountTooLow)
      else if sv.merges != [] then Err(MergesNotSupported)
      else if actor.value.balance < TotalWith(lanes, sv)
      then Err(InsufficientFunds(TotalWith(lanes, sv) - actor.value.balance))
      else Ok(lanes)
  }

  method CheckVoucherValid(ch: nat, vouchers: seq<Voucher>, sv: Voucher, actor: Option<Actor>, signed: bool)
    returns (r: Result<Lanes, VoucherError>)
    ensures r == CheckSpec(ch, vouchers, sv, actor, signed)
  {
    if sv.channel != ch {
      return Err(WrongChannel);
    }
    if sv.extra {
      return Err(Locked);
    }
    if sv.timeLockMax != 0 {
      return Err(Locked);
    }
    if sv.timeLockMin != 0 {
      return Err(Locked);
    }
    if |sv.secretHash| != 0 {
      return Err(Locked);
    }
    if actor.None? {
      return Err(NoActor);
    }
    if !signed {
      return Err(BadSignature);
    }
    var merged := LaneStates(actor.value.lanes, vouchers);
    if merged.Err? {
      return Err(merged.error);
    }
    var laneStates := merged.value;
    if sv.lane in laneStates {
      if sv.nonce <= laneStates[sv.lane].nonce {
        return Err(NonceTooLow);
      }
      if sv.amount <= laneStates[sv.lane].redeemed {
        return Err(AmountTooLow);
      }
    }
    var total := TotalRedeemedWithVoucher(laneStates, sv);
    if total.Err? {
      return Err(total.error);
    }
    if actor.value.balance < total.value {
      return Err(InsufficientFunds(total.value - actor.value.balance));
    }
    if |sv.merges| != 0 {
      return Err(MergesNotSupported);
    }
    r := Ok(laneStates);
  }

  // ----- the channel -----

  datatype Channel = Channel(ch: nat, vouchers: seq<Voucher>, nextLane: Word)

  /** One past the lane, unless the next lane is beyond it already; the addition wraps around. */
  function Bump(nextLane: Word, lane: Word): Word {
    if nextLane <= lane then (lane + 1) % WORD else nextLane
  }

  function Redeemed(lanes: Lanes, lane: Word): int {
    if lane in lanes then lanes[lane].redeemed else 0
  }

  ghost function AddSpec(c: Channel, sv: Voucher, minDelta: int, actor: Option<Actor>, signed: bool)
    : (Result<int, VoucherError>, Channel)
  {
    if sv in c.vouchers then (Ok(0), c)
    else
      match CheckSpec(c.ch, c.vouchers, sv, actor, signed)
      case Err(e) => (Err(e), c)
      case Ok(lanes) =>
        var delta := sv.amount - Redeemed(lanes, sv.lane);
        if minDelta > delta then (Err(DeltaTooLow), c)
        else (Ok(delta), c.(vouchers := c.vouchers + [sv], nextLane := Bump(c.nextLane, sv.lane)))
  }

  function MaxNonce(vouchers: seq<Voucher>, lane: Word): Word {
    if vouchers == [] then 0
    else
      var before, last := MaxNonce(vouchers[..|vouchers| - 1], lane), vouchers[|vouchers| - 1];
      if last.lane == lane && last.nonce > before then last.nonce else before
  }

  function NextNonce(vouchers: seq<Voucher>, lane: Word): Word {
    (MaxNonce(vouchers, lane) + 1) % WORD
  }

  datatype Created = Stored(voucher: Voucher) | Short(shortfall: int)

  function Prepared(c: Channel, template: Voucher, signature: nat): Voucher {
    template.(channel := c.ch, nonce := NextNonce(c.vouchers, template.lane), signature := signature)
  }

  ghost function CreateSpec(c: Channel, template: Voucher, signature: nat, actor: Option<Actor>, signed: bool)
    : (Result<Created, VoucherError>, Channel)
  {
    var sv := Prepared(c, template, signature);
    var (r, c') := AddSpec(c, sv, 0, actor, signed);
    match r
    case Ok(_) => (Ok(Stored(sv)), c')
    case Err(InsufficientFunds(s)) => (Ok(Short(s)), c')
    case Err(e) => (Err(e), c')
  }

  /** Submitting stores a voucher the channel does not know, without checking it. */
  function SubmitSpec(c: Channel, sv: Voucher): Channel {
    if sv in c.vouchers then c else c.(vouchers := c.vouchers + [sv])
  }

  class ChannelAccessor {
    const ch: nat
    var vouchers: seq<Voucher>
    var nextLane: Word

    function View(): Channel
      reads this
    {
      Channel(ch, vouchers, nextLane)
    }

    constructor (ch: nat, nextLane: Word)
      ensures View() == Channel(ch, [], nextLane)
    {
      this.ch, this.vouchers, this.nextLane := ch, [], nextLane;
    }

    method AddVoucher(sv: Voucher, minDelta: int, actor: Option<Actor>, signed: bool) returns (r: Result<int, VoucherError>)
      modifies this
      ensures (r, View()) == AddSpec(old(View()), sv, minDelta, actor, signed)
    {
      for i := 0 to |vouchers|
        invariant sv !in vouchers[..i] && View() == old(View())
      {
        if sv == vouchers[i] {
          return Ok(0);
        }
      }
      var checked := CheckVoucherValid(ch, vouchers, sv, actor, signed);
      if checked.Err? {
        return Err(checked.error);
      }
      var redeemed := 0;
      if sv.lane in checked.value {
        redeemed := checked.value[sv.lane].redeemed;
      }
      var delta := sv.amount - redeemed;
      if minDelta > delta {
        return Err(DeltaTooLow);
      }
      vouchers := vouchers + [sv];
      if nextLane <= sv.lane {
        nextLane := (sv.lane + 1) % WORD;
      }
      r := Ok(delta);
    }

    method NextNonceForLane(lane: Word) returns (nonce: Word)
      ensures nonce == NextNonce(vouchers, lane)
    {
      var maxNonce: Word := 0;
      for i := 0 to |vouchers|
        invariant maxNonce == MaxNonce(vouchers[..i], lane)
      {
        assert vouchers[..i + 1][..i] == vouchers[..i];
        if vouchers[i].lane == lane && vouchers[i].nonce > maxNonce {
          maxNonce := vouchers[i].nonce;
        }
      }
      assert vouchers[..|vouchers|] == vouchers;
      nonce := (maxNonce + 1) % WORD;
    }

    method CreateVoucher(template: Voucher, signature: nat, actor: Option<Actor>, signed: bool)
      returns (r: Result<Created, VoucherError>)
      modifies this
      ensures (r, View()) == CreateSpec(old(View()), template, signature, actor, signed)
    {
      var nonce := NextNonceForLane(template.lane);
      var sv := template.(channel := ch, nonce := nonce, signature := signature);
      var added := AddVoucher(sv, 0, actor, signed);
      match added {
        case Ok(_) => r := Ok(Stored(sv));
        case Err(InsufficientFunds(s)) => r := Ok(Short(s));
        case Err(e) => r := Err(e);
      }
    }

    /** What submitting does to the store, once the message has been pushed. */
    method SubmitVoucher(sv: Voucher)
      modifies this
      ensures View() == SubmitSpec(old(View()), sv)
    {
      if sv !in vouchers {
        vouchers := vouchers + [sv];
      }
    }

    method AllocateLane() returns (lane: Word)
      modifies this
      ensures lane == old(nextLane)
      ensures View() == old(View()).(nextLane := (old(nextLane) + 1) % WORD)
    {
      lane := nextLane;
      nextLane := (nextLane + 1) % WORD;
    }
  }

  /** The next lane of a channel first seen on chain: one past the highest lane in use. */
  method NextLaneFromState(chain: Lanes) returns (next: Word)
    ensures chain == map[] ==> next == 0
    ensures chain != map[] ==> exists m :: m in chain && (forall k :: k in chain ==> k <= m) && next == (m + 1) % WORD
    ensures (forall k :: k in chain ==> k < WORD - 1) ==> forall k :: k in chain ==> k < next
  {
    if chain == map[] {
      return 0;
    }
    var maxId: Word := 0;
    var todo := chain.Keys;
    ghost var first :| first in chain;
    while todo != {}
      invariant todo <= chain.Keys
      invariant forall k :: k in chain && k !in todo ==> k <= maxId
      invariant maxId in chain || (maxId == 0 && forall k :: k in chain && k !in todo ==> k == 0)
      decreases todo
    {
      var k :| k in todo;
      if k > maxId {
        maxId := k;
      }
      todo := todo - {k};
    }
    assert maxId in chain by {
      assert first <= maxId;
    }
    next := (maxId + 1) % WORD;
  }
}
