/**
 Guarantees over any run of a payment channel: vouchers never promise more than the channel
 holds, lanes only move up, redeeming changes nothing, and allocated lanes are new.
 */
module VoucherSafety {
  import opened Wrappers
  import opened Vouchers

  // ----- stored vouchers -----

  /** Later vouchers of a lane have a higher nonce and a higher amount. */
  ghost predicate Increasing(vs: seq<Voucher>) {
    forall i, j :: 0 <= i < j < |vs| && vs[i].lane == vs[j].lane ==>
      vs[i].nonce < vs[j].nonce && vs[i].amount < vs[j].amount
  }

  /** The merged state of a lane is at or above every stored voucher of that lane. */
  ghost predicate Dominated(vs: seq<Voucher>, lanes: Lanes) {
    forall v :: v in vs ==> v.lane in lanes && v.nonce <= lanes[v.lane].nonce && v.amount <= lanes[v.lane].redeemed
  }

  lemma AppendVoucher(chain: Lanes, vs: seq<Voucher>, sv: Voucher)
    ensures Merged(chain, vs + [sv]) == MergeOne(Merged(chain, vs), sv)
  {
    assert (vs + [sv])[..|vs|] == vs;
  }

  // ----- redeeming a stored voucher on chain -----

  function OnChain(chain: Lanes, v: Voucher): Lanes {
    chain[v.lane := LaneState(v.amount, v.nonce)]
  }

  /** Up to the redeemed voucher, merging over the new chain state gives that voucher's lane state. */
  lemma {:induction false} RedeemBefore(chain: Lanes, vs: seq<Voucher>, i: nat, j: nat)
    requires Increasing(vs) && j <= i < |vs|
    requires vs[i].lane in chain ==> chain[vs[i].lane].nonce < vs[i].nonce
    ensures var l := vs[i].lane;
            var before := Merged(chain, vs[..j]);
            && Merged(OnChain(chain, vs[i]), vs[..j]) == before[l := LaneState(vs[i].amount, vs[i].nonce)]
            && (l in before ==> before[l].nonce < vs[i].nonce)
  {
    if j > 0 {
      RedeemBefore(chain, vs, i, j - 1);
      assert vs[..j][..j - 1] == vs[..j - 1];
      var before := Merged(chain, vs[..j - 1]);
      var v, w := vs[j - 1], vs[i];
      MergeBelow(before, v, w);
    }
  }

  lemma MergeBelow(lanes: Lanes, v: Voucher, w: Voucher)
    requires v.lane == w.lane ==> v.nonce < w.nonce
    requires w.lane in lanes ==> lanes[w.lane].nonce < w.nonce
    ensures MergeOne(OnChain(lanes, w), v) == OnChain(MergeOne(lanes, v), w)
    ensures w.lane in MergeOne(lanes, v) ==> MergeOne(lanes, v)[w.lane].nonce < w.nonce
  {
  }

  /** Redeeming a stored voucher leaves the merged lane states as they are. */
  lemma {:induction false} RedeemKeepsMerged(chain: Lanes, vs: seq<Voucher>, i: nat, j: nat)
    requires Increasing(vs) && i < j <= |vs|
    requires vs[i].lane in chain ==> chain[vs[i].lane].nonce < vs[i].nonce
    ensures Merged(OnChain(chain, vs[i]), vs[..j]) == Merged(chain, vs[..j])
  {
    assert vs[..j][..j - 1] == vs[..j - 1];
    if j == i + 1 {
      RedeemBefore(chain, vs, i, i);
    } else {
      RedeemKeepsMerged(chain, vs, i, j - 1);
    }
  }

  // ----- the channel and the chain -----

  /** The last lane there is. */
  const LAST: Word := WORD - 1

  /** `deltas` and `handedOut` are history: what adding vouchers returned, and the lanes handed out. */
  datatype World = World(c: Channel, actor: Actor, deltas: int, handedOut: set<Word>)

  datatype Event =
    | Add(sv: Voucher, minDelta: int, signed: bool)
    | Create(template: Voucher, signature: nat, signed: bool)
    | TopUp(value: int)
    | Redeem(i: nat)
    | Allocate

  /**
   On chain a voucher is redeemed only if its nonce is higher than that of its lane; the vouchers
   known for the channel are the stored ones.
   */
  ghost predicate Enabled(w: World, e: Event) {
    match e
    case TopUp(v) => v >= 0
    case Redeem(i) =>
      && i < |w.c.vouchers|
      && (w.c.vouchers[i].lane in w.actor.lanes ==>
            w.actor.lanes[w.c.vouchers[i].lane].nonce < w.c.vouchers[i].nonce)
    case _ => true
  }

  ghost function Apply(w: World, e: Event): World
    requires Enabled(w, e)
  {
    match e
    case Add(sv, minDelta, signed) =>
      var (r, c) := AddSpec(w.c, sv, minDelta, Some(w.actor), signed);
      w.(c := c, deltas := w.deltas + if r.Ok? then r.value else 0)
    case Create(template, signature, signed) =>
      var (r, c) := AddSpec(w.c, Prepared(w.c, template, signature), 0, Some(w.actor), signed);
      w.(c := c, deltas := w.deltas + if r.Ok? then r.value else 0)
    case TopUp(v) => w.(actor := w.actor.(balance := w.actor.balance + v))
    case Redeem(i) => w.(actor := w.actor.(lanes := OnChain(w.actor.lanes, w.c.vouchers[i])))
    case Allocate =>
      w.(c := w.c.(nextLane := (w.c.nextLane + 1) % WORD), handedOut := w.handedOut + {w.c.nextLane})
  }

  ghost function LanesOf(w: World): Lanes { Merged(w.actor.lanes, w.c.vouchers) }

  ghost predicate LanesInv(w: World) {
    StoreOk(w.actor, w.c.vouchers)
  }

  /** The next lane is above every lane in use, on chain or in a stored voucher, and every lane handed out. */
  ghost predicate FreshInv(w: World) {
    && (forall v :: v in w.c.vouchers ==> v.lane < w.c.nextLane)
    && (forall k :: k in w.actor.lanes ==> k < w.c.nextLane)
    && (forall k :: k in w.handedOut ==> k < w.c.nextLane)
  }

  // ----- adding a voucher -----

  /** An accepted voucher raises the total by exactly the returned delta, within the balance. */
  lemma AddKeepsLanes(w: World, sv: Voucher, minDelta: int, signed: bool)
    requires LanesInv(w)
    ensures var (r, c) := AddSpec(w.c, sv, minDelta, Some(w.actor), signed);
            && LanesInv(w.(c := c))
            && Total(LanesOf(w.(c := c))) - Total(LanesOf(w)) == (if r.Ok? then r.value else 0)
  {
    var (r, c) := AddSpec(w.c, sv, minDelta, Some(w.actor), signed);
    if c.vouchers != w.c.vouchers {
      AppendKeepsLanes(w.actor, w.c.vouchers, sv);
    }
  }

  /** What holds of the stored vouchers over the chain state. */
  ghost predicate StoreOk(actor: Actor, vs: seq<Voucher>) {
    && NoMerges(vs) && Increasing(vs) && Dominated(vs, Merged(actor.lanes, vs))
    && Total(Merged(actor.lanes, vs)) <= actor.balance
  }

  lemma AppendKeepsLanes(actor: Actor, vs: seq<Voucher>, sv: Voucher)
    requires StoreOk(actor, vs) && sv.merges == []
    requires var lanes := Merged(actor.lanes, vs);
             && (sv.lane in lanes ==> lanes[sv.lane].nonce < sv.nonce && lanes[sv.lane].redeemed < sv.amount)
             && TotalWith(lanes, sv) <= actor.balance
    ensures StoreOk(actor, vs + [sv])
    ensures var lanes := Merged(actor.lanes, vs);
            Total(Merged(actor.lanes, vs + [sv])) == Total(lanes) - Redeemed(lanes, sv.lane) + sv.amount
  {
    var lanes := Merged(actor.lanes, vs);
    AppendVoucher(actor.lanes, vs, sv);
    TotalUpdate(lanes, sv.lane, LaneState(sv.amount, sv.nonce));
    AppendKeepsOrder(vs, sv, lanes);
  }

  lemma AppendKeepsOrder(vs: seq<Voucher>, sv: Voucher, lanes: Lanes)
    requires NoMerges(vs) && Increasing(vs) && Dominated(vs, lanes) && sv.merges == []
    requires sv.lane in lanes ==> lanes[sv.lane].nonce < sv.nonce && lanes[sv.lane].redeemed < sv.amount
    ensures NoMerges(vs + [sv]) && Increasing(vs + [sv])
    ensures Dominated(vs + [sv], lanes[sv.lane := LaneState(sv.amount, sv.nonce)])
  {
    forall i | 0 <= i < |vs| && vs[i].lane == sv.lane
      ensures vs[i].nonce < sv.nonce && vs[i].amount < sv.amount
    {
      assert vs[i] in vs;
    }
  }

  /** Adding keeps the next lane above all others, unless the voucher is accepted on the last lane there is. */
  lemma AddFreshIff(w: World, sv: Voucher, minDelta: int, signed: bool)
    requires FreshInv(w)
    ensures var (r, c) := AddSpec(w.c, sv, minDelta, Some(w.actor), signed);
            FreshInv(w.(c := c)) <==> !(r.Ok? && sv.lane == LAST)
  {
    var (r, c) := AddSpec(w.c, sv, minDelta, Some(w.actor), signed);
    if c.vouchers != w.c.vouchers {
      assert c.vouchers == w.c.vouchers + [sv];
      assert sv in c.vouchers;
    }
  }

  // ----- every step -----

  lemma RedeemStep(w: World, i: nat)
    requires LanesInv(w) && Enabled(w, Redeem(i))
    ensures LanesInv(Apply(w, Redeem(i))) && LanesOf(Apply(w, Redeem(i))) == LanesOf(w)
    ensures FreshInv(w) ==> FreshInv(Apply(w, Redeem(i)))
  {
    var vs := w.c.vouchers;
    RedeemKeepsMerged(w.actor.lanes, vs, i, |vs|);
    assert vs[..|vs|] == vs;
    assert vs[i] in vs;
  }

  lemma StepKeeps(w: World, e: Event)
    requires LanesInv(w) && Enabled(w, e)
    ensures LanesInv(Apply(w, e))
    ensures Total(LanesOf(Apply(w, e))) - Total(LanesOf(w)) == Apply(w, e).deltas - w.deltas
  {
    match e {
      case Add(sv, minDelta, signed) => AddKeepsLanes(w, sv, minDelta, signed);
      case Create(template, signature, signed) => AddKeepsLanes(w, Prepared(w.c, template, signature), 0, signed);
      case TopUp(v) =>
      case Redeem(i) => RedeemStep(w, i);
      case Allocate =>
    }
  }

  /** The step takes the last lane there is: a voucher on it is accepted, or it is handed out. */
  ghost predicate TakesLast(w: World, e: Event) {
    match e
    case Add(sv, minDelta, signed) => sv.lane == LAST && AddSpec(w.c, sv, minDelta, Some(w.actor), signed).0.Ok?
    case Create(template, signature, signed) =>
      template.lane == LAST && AddSpec(w.c, Prepared(w.c, template, signature), 0, Some(w.actor), signed).0.Ok?
    case Allocate => w.c.nextLane == LAST
    case _ => false
  }

  lemma FreshStepIff(w: World, e: Event)
    requires LanesInv(w) && FreshInv(w) && Enabled(w, e)
    ensures FreshInv(Apply(w, e)) <==> !TakesLast(w, e)
  {
    match e {
      case Add(sv, minDelta, signed) => AddFreshIff(w, sv, minDelta, signed);
      case Create(template, signature, signed) => AddFreshIff(w, Prepared(w.c, template, signature), 0, signed);
      case TopUp(v) =>
      case Redeem(i) => RedeemStep(w, i);
      case Allocate =>
    }
  }

  // ----- runs -----

  ghost predicate Possible(w: World, es: seq<Event>)
    decreases |es|
  {
    es != [] ==> Enabled(w, es[0]) && Possible(Apply(w, es[0]), es[1..])
  }

  ghost function Final(w: World, es: seq<Event>): World
    requires Possible(w, es)
    decreases |es|
  {
    if es == [] then w else Final(Apply(w, es[0]), es[1..])
  }

  /**
   Over any run the promised total stays within the balance, stored vouchers stay in order,
   and the returned deltas add up to the growth of the total.
   */
  lemma {:induction false} RunKeeps(w: World, es: seq<Event>)
    requires LanesInv(w) && Possible(w, es)
    ensures var f := Final(w, es);
            LanesInv(f) && Total(LanesOf(f)) - Total(LanesOf(w)) == f.deltas - w.deltas
    decreases |es|
  {
    if es != [] {
      StepKeeps(w, es[0]);
      RunKeeps(Apply(w, es[0]), es[1..]);
    }
  }

  /** The next lane is above all lanes in use and all lanes handed out at every point of the run. */
  ghost predicate FreshThroughout(w: World, es: seq<Event>)
    requires Possible(w, es)
    decreases |es|
  {
    FreshInv(w) && (es != [] ==> FreshThroughout(Apply(w, es[0]), es[1..]))
  }

  ghost predicate NeverTakesLast(w: World, es: seq<Event>)
    requires Possible(w, es)
    decreases |es|
  {
    es != [] ==> !TakesLast(w, es[0]) && NeverTakesLast(Apply(w, es[0]), es[1..])
  }

  /** Lanes stay fresh throughout a run exactly if no step of it takes the last lane there is. */
  lemma {:induction false} FreshRunIff(w: World, es: seq<Event>)
    requires LanesInv(w) && FreshInv(w) && Possible(w, es)
    ensures FreshThroughout(w, es) <==> NeverTakesLast(w, es)
    decreases |es|
  {
    if es != [] {
      StepKeeps(w, es[0]);
      FreshStepIff(w, es[0]);
      if !TakesLast(w, es[0]) {
        FreshRunIff(Apply(w, es[0]), es[1..]);
      }
    }
  }

  lemma {:induction false} FreshAtEnd(w: World, es: seq<Event>)
    requires Possible(w, es) && FreshThroughout(w, es)
    ensures FreshInv(Final(w, es))
    decreases |es|
  {
    if es != [] {
      FreshAtEnd(Apply(w, es[0]), es[1..]);
    }
  }

  /** A lane allocated after such a run is in no stored voucher, not on chain, and was never handed out before. */
  lemma AllocatedLaneIsNew(w: World, es: seq<Event>)
    requires LanesInv(w) && FreshInv(w) && Possible(w, es) && NeverTakesLast(w, es)
    ensures var f := Final(w, es); var lane := f.c.nextLane;
            && lane !in f.handedOut && lane !in f.actor.lanes
            && forall v :: v in f.c.vouchers ==> v.lane != lane
  {
    FreshRunIff(w, es);
    FreshAtEnd(w, es);
  }

  /** A lane is handed out, a voucher comes on the last lane, and the next lane handed out is the first again. */
  lemma LaneHandedOutTwice()
    ensures var v := Voucher(0, LAST, 1, 5, false, 0, 0, [], [], 0);
            var w := World(Channel(0, [], 0), Actor(5, map[]), 0, {});
            var es := [Allocate, Add(v, 0, true)];
            && LanesInv(w) && FreshInv(w) && Possible(w, es)
            && Final(w, es).c.nextLane in Final(w, es).handedOut
  {
    var v := Voucher(0, LAST, 1, 5, false, 0, 0, [], [], 0);
    var w := World(Channel(0, [], 0), Actor(5, map[]), 0, {});
    var es := [Allocate, Add(v, 0, true)];
    var w1 := Apply(w, Allocate);
    LastLaneAccepted(w1.c, v);
    var w2 := Apply(w1, Add(v, 0, true));
    assert es[1..] == [Add(v, 0, true)] && es[1..][1..] == [];
    assert Possible(w2, []) && Final(w2, []) == w2;
    assert Possible(w1, es[1..]) && Final(w1, es[1..]) == w2;
  }

  lemma LastLaneAccepted(c: Channel, v: Voucher)
    requires c == Channel(0, [], 1) && v == Voucher(0, LAST, 1, 5, false, 0, 0, [], [], 0)
    ensures AddSpec(c, v, 0, Some(Actor(5, map[])), true) == (Ok(5), Channel(0, [v], 0))
  {
    TotalUpdate(map[], LAST, LaneState(5, 1));
    assert [] + [v] == [v];
  }

  // ----- adding a voucher again -----

  lemma {:induction false} RunConcat(w: World, es: seq<Event>, es': seq<Event>)
    ensures Possible(w, es + es') <==> Possible(w, es) && Possible(Final(w, es), es')
    ensures Possible(w, es + es') ==> Final(w, es + es') == Final(Final(w, es), es')
    decreases |es|
  {
    if es == [] {
      assert es + es' == es';
    } else {
      assert (es + es')[0] == es[0] && (es + es')[1..] == es[1..] + es';
      if Enabled(w, es[0]) {
        RunConcat(Apply(w, es[0]), es[1..], es');
      }
    }
  }

  /** Adding a voucher that is stored, at any point of a run, changes nothing from there on. */
  lemma ReAddIsIgnored(w: World, es: seq<Event>, es': seq<Event>, sv: Voucher, minDelta: int, signed: bool)
    requires Possible(w, es + es') && Possible(w, es) && sv in Final(w, es).c.vouchers
    ensures var again := es + [Add(sv, minDelta, signed)] + es';
            Possible(w, again) && Final(w, again) == Final(w, es + es')
  {
    var add := Add(sv, minDelta, signed);
    var f := Final(w, es);
    RunConcat(w, es, es');
    RunConcat(w, es, [add] + es');
    assert es + [add] + es' == es + ([add] + es');
    assert ([add] + es')[1..] == es';
    assert Apply(f, add) == f;
  }

  // ----- exact shortfall -----

  /**
   When creating a voucher falls short by s, the same call on a channel that holds some other
   amount and is otherwise the same stores the voucher if the amount is at least s more, and
   falls short again if it is less.
   */
  lemma ExactShortfall(w: World, template: Voucher, signature: nat, signed: bool, balance: int)
    requires LanesInv(w)
    requires CreateSpec(w.c, template, signature, Some(w.actor), signed).0.Ok?
    requires CreateSpec(w.c, template, signature, Some(w.actor), signed).0.value.Short?
    ensures var s := CreateSpec(w.c, template, signature, Some(w.actor), signed).0.value.shortfall;
            var again := CreateSpec(w.c, template, signature, Some(w.actor.(balance := balance)), signed).0;
            && s > 0
            && (balance >= w.actor.balance + s <==> again == Ok(Stored(Prepared(w.c, template, signature))))
            && (balance < w.actor.balance + s <==> again == Ok(Short(w.actor.balance + s - balance)))
  {
    var sv := Prepared(w.c, template, signature);
    TotalUpdate(LanesOf(w), sv.lane, LaneState(sv.amount, sv.nonce));
  }

  // ----- submitting vouchers that were never checked -----

  /** Submitting an unknown voucher stores it unchecked, and the channel may promise more than it holds. */
  lemma UnknownSubmissionBreaksSolvency()
    ensures var v := Voucher(0, 0, 1, 5, false, 0, 0, [], [], 0);
            var w := World(Channel(0, [], 0), Actor(0, map[]), 0, {});
            LanesInv(w) && Total(LanesOf(w.(c := SubmitSpec(w.c, v)))) > w.actor.balance
  {
    var v := Voucher(0, 0, 1, 5, false, 0, 0, [], [], 0);
    AppendVoucher(map[], [], v);
    assert [] + [v] == [v];
    TotalUpdate(map[], 0, LaneState(5, 1));
  }

  /**
   Submitting keeps what is promised within the balance exactly if the voucher is stored already,
   or is outdated in its lane, or fits within the balance in place of its lane's state.
   */
  lemma SubmitKeepsSolventIff(w: World, sv: Voucher)
    requires LanesInv(w)
    ensures var lanes := LanesOf(w);
            Total(LanesOf(w.(c := SubmitSpec(w.c, sv)))) <= w.actor.balance <==>
              || sv in w.c.vouchers
              || (sv.lane in lanes && sv.nonce < lanes[sv.lane].nonce)
              || Total(lanes) - Redeemed(lanes, sv.lane) + sv.amount <= w.actor.balance
  {
    AppendVoucher(w.actor.lanes, w.c.vouchers, sv);
    TotalUpdate(LanesOf(w), sv.lane, LaneState(sv.amount, sv.nonce));
  }

  /** A channel as it is first tracked meets what the runs start from. */
  lemma FirstTracked(ch: nat, actor: Actor, next: Word)
    requires Total(actor.lanes) <= actor.balance && forall k :: k in actor.lanes ==> k < next
    ensures var w := World(Channel(ch, [], next), actor, 0, {}); LanesInv(w) && FreshInv(w)
  {
  }
}
