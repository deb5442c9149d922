/**
 Which vouchers a channel stores, with which nonces, and what its lanes then stand at, in terms of
 the fields of the vouchers.
 */
module VoucherLaws {
  import opened Wrappers
  import opened Vouchers
  import opened VoucherSafety

  // ----- nonces -----

  lemma {:induction false} MaxNonceIs(vs: seq<Voucher>, lane: Word)
    ensures forall v :: v in vs && v.lane == lane ==> v.nonce <= MaxNonce(vs, lane)
    ensures MaxNonce(vs, lane) == 0 || exists v :: v in vs && v.lane == lane && v.nonce == MaxNonce(vs, lane)
  {
    if vs != [] {
      var init, last := vs[..|vs| - 1], vs[|vs| - 1];
      MaxNonceIs(init, lane);
      assert forall v :: v in vs <==> v in init || v == last;
    }
  }

  /**
   The next nonce of a lane is 1 if no voucher is stored on it. Short of the last word, it is above
   every stored nonce of the lane, and one more than one of them; after the last word it is zero.
   */
  lemma NextNonceIs(vs: seq<Voucher>, lane: Word)
    ensures (forall v :: v in vs ==> v.lane != lane) ==> NextNonce(vs, lane) == 1
    ensures (forall v :: v in vs && v.lane == lane ==> v.nonce < LAST) ==>
              && (forall v :: v in vs && v.lane == lane ==> v.nonce < NextNonce(vs, lane))
              && (NextNonce(vs, lane) == 1 || exists v :: v in vs && v.lane == lane && v.nonce + 1 == NextNonce(vs, lane))
    ensures (exists v :: v in vs && v.lane == lane && v.nonce == LAST) ==> NextNonce(vs, lane) == 0
  {
    MaxNonceIs(vs, lane);
  }

  // ----- merged lanes -----

  predicate OnLane(vs: seq<Voucher>, lane: Word) {
    exists i :: 0 <= i < |vs| && vs[i].lane == lane
  }

  /** A lane without stored vouchers stands where the chain has it. */
  lemma {:induction false} LaneOnChain(chain: Lanes, vs: seq<Voucher>, lane: Word)
    requires !OnLane(vs, lane)
    ensures lane in Merged(chain, vs) <==> lane in chain
    ensures lane in chain ==> Merged(chain, vs)[lane] == chain[lane]
  {
    if vs != [] {
      var n := |vs| - 1;
      assert vs[n].lane != lane;
      SameLanes(vs, n, lane);
      LaneOnChain(chain, vs[..n], lane);
    }
  }

  /** Where a lane stands by a voucher and by the chain. */
  function Standing(chain: Lanes, v: Voucher): LaneState {
    if v.lane in chain && v.nonce < chain[v.lane].nonce then chain[v.lane] else LaneState(v.amount, v.nonce)
  }

  lemma MergeAbove(lanes: Lanes, chain: Lanes, u: Voucher, v: Voucher)
    requires u.lane == v.lane && u.nonce < v.nonce && v.lane in lanes && lanes[v.lane] == Standing(chain, u)
    ensures MergeOne(lanes, v)[v.lane] == Standing(chain, v)
  {
  }

  /**
   With vouchers in increasing order, a lane stands at its latest stored voucher, unless the chain
   has a higher nonce for it.
   */
  lemma {:induction false} LaneStandsAt(chain: Lanes, vs: seq<Voucher>, lane: Word) returns (latest: nat)
    requires Increasing(vs) && OnLane(vs, lane)
    ensures latest < |vs| && vs[latest].lane == lane && (forall i :: latest < i < |vs| ==> vs[i].lane != lane)
    ensures lane in Merged(chain, vs)
    ensures Merged(chain, vs)[lane] == Standing(chain, vs[latest])
  {
    var n := |vs| - 1;
    if vs[n].lane != lane {
      SameLanes(vs, n, lane);
      OtherLane(chain, vs, n, lane);
      latest := LaneStandsAt(chain, vs[..n], lane);
    } else if OnLane(vs[..n], lane) {
      latest := n;
      var earlier := LaneStandsAt(chain, vs[..n], lane);
      StandsAtLast(chain, vs, n, earlier);
    } else {
      latest := n;
      FirstOnLane(chain, vs, n);
    }
  }

  lemma OtherLane(chain: Lanes, vs: seq<Voucher>, n: nat, lane: Word)
    requires n == |vs| - 1 && vs[n].lane != lane
    ensures lane in Merged(chain, vs) <==> lane in Merged(chain, vs[..n])
    ensures lane in Merged(chain, vs) ==> Merged(chain, vs)[lane] == Merged(chain, vs[..n])[lane]
  {
  }

  lemma FirstOnLane(chain: Lanes, vs: seq<Voucher>, n: nat)
    requires n == |vs| - 1 && !OnLane(vs[..n], vs[n].lane)
    ensures vs[n].lane in Merged(chain, vs) && Merged(chain, vs)[vs[n].lane] == Standing(chain, vs[n])
  {
    LaneOnChain(chain, vs[..n], vs[n].lane);
  }

  lemma StandsAtLast(chain: Lanes, vs: seq<Voucher>, n: nat, earlier: nat)
    requires Increasing(vs) && n == |vs| - 1 && earlier < n && vs[earlier].lane == vs[n].lane
    requires vs[n].lane in Merged(chain, vs[..n]) && Merged(chain, vs[..n])[vs[n].lane] == Standing(chain, vs[earlier])
    ensures vs[n].lane in Merged(chain, vs) && Merged(chain, vs)[vs[n].lane] == Standing(chain, vs[n])
  {
    MergeAbove(Merged(chain, vs[..n]), chain, vs[earlier], vs[n]);
  }

  lemma SameLanes(vs: seq<Voucher>, n: nat, lane: Word)
    requires n == |vs| - 1 && vs[n].lane != lane
    ensures OnLane(vs, lane) <==> OnLane(vs[..n], lane)
  {
    if OnLane(vs, lane) {
      var i :| 0 <= i < |vs| && vs[i].lane == lane;
      assert vs[..n][i].lane == lane;
    }
    if OnLane(vs[..n], lane) {
      var i :| 0 <= i < n && vs[..n][i].lane == lane;
      assert vs[i].lane == lane;
    }
  }

  // ----- which vouchers are stored -----

  predicate HasLocks(sv: Voucher) {
    sv.extra || sv.timeLockMin != 0 || sv.timeLockMax != 0 || sv.secretHash != []
  }

  /** What the voucher itself must be like: for this channel, without locks and without merges. */
  ghost predicate Plain(sv: Voucher, ch: nat) {
    sv.channel == ch && !HasLocks(sv) && sv.merges == []
  }

  /** What the channel must be like: the voucher moves its lane up, and the balance covers it. */
  ghost predicate MovesUp(sv: Voucher, actor: Actor, vs: seq<Voucher>) {
    var lanes := Merged(actor.lanes, vs);
    && (sv.lane in lanes ==> sv.nonce > lanes[sv.lane].nonce && sv.amount > lanes[sv.lane].redeemed)
    && Total(lanes) - Redeemed(lanes, sv.lane) + sv.amount <= actor.balance
  }

  /**
   Adding a voucher stores it exactly if it is new, plain and signed, moves its lane up by at least
   the demanded amount and is covered; otherwise the channel stays as it is.
   */
  lemma AddStoresIff(c: Channel, sv: Voucher, minDelta: int, actor: Option<Actor>, signed: bool)
    ensures var stored := && sv !in c.vouchers && actor.Some? && signed && Plain(sv, c.ch) && NoMerges(c.vouchers)
                          && MovesUp(sv, actor.value, c.vouchers)
                          && sv.amount - Redeemed(Merged(actor.value.lanes, c.vouchers), sv.lane) >= minDelta;
            var c' := AddSpec(c, sv, minDelta, actor, signed).1;
            if stored then
              && c'.ch == c.ch && c'.vouchers == c.vouchers + [sv]
              && c'.nextLane == if c.nextLane > sv.lane then c.nextLane else if sv.lane == LAST then 0 else sv.lane + 1
            else c' == c
  {
    if actor.Some? {
      var lanes := Merged(actor.value.lanes, c.vouchers);
      TotalUpdate(lanes, sv.lane, LaneState(sv.amount, sv.nonce));
    }
  }

  /** What the voucher, its signature and the known channel say, before any lane is looked at. */
  predicate Acceptable(sv: Voucher, ch: nat, actor: Option<Actor>, signed: bool) {
    sv.channel == ch && !HasLocks(sv) && actor.Some? && signed
  }

  /**
   What adding a voucher answers: nothing gained for a known one; the growth of its lane for one
   that is stored; and too little growth exactly if that is all there is to object to.
   */
  lemma AddAnswers(c: Channel, sv: Voucher, minDelta: int, actor: Option<Actor>, signed: bool)
    ensures var r := AddSpec(c, sv, minDelta, actor, signed).0;
            && (sv in c.vouchers ==> r == Ok(0))
            && (sv !in c.vouchers && actor.Some? ==>
                  var growth := sv.amount - Redeemed(Merged(actor.value.lanes, c.vouchers), sv.lane);
                  var good := signed && Plain(sv, c.ch) && NoMerges(c.vouchers) && MovesUp(sv, actor.value, c.vouchers);
                  && (r.Ok? <==> good && growth >= minDelta) && (r.Ok? ==> r.value == growth)
                  && (r == Err(DeltaTooLow) <==> good && growth < minDelta))
  {
    if actor.Some? {
      TotalUpdate(Merged(actor.value.lanes, c.vouchers), sv.lane, LaneState(sv.amount, sv.nonce));
    }
  }

  lemma RefusedEarly(ch: nat, vs: seq<Voucher>, sv: Voucher, actor: Option<Actor>, signed: bool)
    ensures var r := CheckSpec(ch, vs, sv, actor, signed);
            && (r == Err(WrongChannel) <==> sv.channel != ch)
            && (r == Err(Locked) <==> sv.channel == ch && HasLocks(sv))
            && (r == Err(NoActor) <==> sv.channel == ch && !HasLocks(sv) && actor.None?)
            && (r == Err(BadSignature) <==> sv.channel == ch && !HasLocks(sv) && actor.Some? && !signed)
  {
  }

  /** Each refusal has its own exact cause on the lane of the voucher, or in its locks and merges. */
  lemma RefusedLate(ch: nat, vs: seq<Voucher>, sv: Voucher, actor: Actor, signed: bool)
    requires Acceptable(sv, ch, Some(actor), signed)
    ensures var r, lanes := CheckSpec(ch, vs, sv, Some(actor), signed), Merged(actor.lanes, vs);
            var low := sv.lane in lanes && sv.nonce <= lanes[sv.lane].nonce;
            var less := sv.lane in lanes && sv.amount <= lanes[sv.lane].redeemed;
            && (r == Err(NonceTooLow) <==> NoMerges(vs) && low)
            && (r == Err(AmountTooLow) <==> NoMerges(vs) && !low && less)
            && (r == Err(MergesNotSupported) <==> !NoMerges(vs) || (!low && !less && sv.merges != []))
            && (r.Err? && r.error.InsufficientFunds? ==>
                  r.error == InsufficientFunds(Total(lanes) - Redeemed(lanes, sv.lane) + sv.amount - actor.balance))
  {
    var lanes := Merged(actor.lanes, vs);
    TotalUpdate(lanes, sv.lane, LaneState(sv.amount, sv.nonce));
  }

  /** Every nonce the chain has for a lane is reached by a voucher stored for it. */
  ghost predicate Covered(lanes: Lanes, vs: seq<Voucher>) {
    forall k :: k in lanes ==> exists i :: 0 <= i < |vs| && vs[i].lane == k && vs[i].nonce >= lanes[k].nonce
  }

  lemma CoveredBelow(chain: Lanes, vs: seq<Voucher>, lane: Word)
    requires Increasing(vs) && Covered(chain, vs) && (forall v :: v in vs && v.lane == lane ==> v.nonce < LAST)
    ensures lane in Merged(chain, vs) ==> Merged(chain, vs)[lane].nonce < NextNonce(vs, lane)
  {
    NextNonceIs(vs, lane);
    if OnLane(vs, lane) {
      var latest := LaneStandsAt(chain, vs, lane);
      assert vs[latest] in vs;
    } else {
      LaneOnChain(chain, vs, lane);
    }
    if lane in chain {
      var i :| 0 <= i < |vs| && vs[i].lane == lane && vs[i].nonce >= chain[lane].nonce;
      assert vs[i] in vs;
    }
  }

  /**
   On lanes whose nonces the stored vouchers cover, creating a voucher stores it exactly if it is
   unlocked, without merges and signed, is for more than its lane stands at (not below nothing, on
   a new lane), and is covered by the balance. What is stored is described by PreparedIs.
   */
  lemma CreateStoresIff(c: Channel, actor: Actor, template: Voucher, signature: nat, signed: bool)
    requires StoreOk(actor, c.vouchers) && Covered(actor.lanes, c.vouchers)
    requires forall v :: v in c.vouchers && v.lane == template.lane ==> v.nonce < LAST
    ensures var lanes := Merged(actor.lanes, c.vouchers);
            var sv := Prepared(c, template, signature);
            var (r, c') := CreateSpec(c, template, signature, Some(actor), signed);
            (r == Ok(Stored(sv)) && c'.vouchers == c.vouchers + [sv]) <==>
              && signed && !template.extra && template.timeLockMin == 0 && template.timeLockMax == 0
              && template.secretHash == [] && template.merges == []
              && (if template.lane in lanes then template.amount > lanes[template.lane].redeemed else template.amount >= 0)
              && Total(lanes) - Redeemed(lanes, template.lane) + template.amount <= actor.balance
  {
    var sv := Prepared(c, template, signature);
    CoveredBelow(actor.lanes, c.vouchers, template.lane);
    NextNonceIs(c.vouchers, template.lane);
    assert sv !in c.vouchers;
    AddStoresIff(c, sv, 0, Some(actor), signed);
    CreatedIff(c, template, signature, actor, signed);
    assert |c.vouchers + [sv]| != |c.vouchers|;
  }

  lemma PreparedIs(c: Channel, template: Voucher, signature: nat)
    ensures Prepared(c, template, signature) ==
            Voucher(c.ch, template.lane, NextNonce(c.vouchers, template.lane), template.amount, template.extra,
                    template.timeLockMin, template.timeLockMax, template.secretHash, template.merges, signature)
  {
  }

  lemma CreatedIff(c: Channel, template: Voucher, signature: nat, actor: Actor, signed: bool)
    requires Prepared(c, template, signature) !in c.vouchers
    ensures var sv := Prepared(c, template, signature);
            CreateSpec(c, template, signature, Some(actor), signed).0 == Ok(Stored(sv)) <==>
              AddSpec(c, sv, 0, Some(actor), signed).1 != c
    ensures CreateSpec(c, template, signature, Some(actor), signed).1 ==
            AddSpec(c, Prepared(c, template, signature), 0, Some(actor), signed).1
  {
  }

  /** Creating refuses a voucher for the causes adding has, but never for its channel. */
  lemma CreateRefused(c: Channel, template: Voucher, signature: nat, actor: Option<Actor>, signed: bool)
    requires forall v :: v in c.vouchers && v.lane == template.lane ==> v.nonce < LAST
    ensures var r := CreateSpec(c, template, signature, actor, signed).0;
            && r != Err(WrongChannel)
            && (r == Err(Locked) <==> HasLocks(template))
            && (r == Err(NoActor) <==> !HasLocks(template) && actor.None?)
            && (r == Err(BadSignature) <==> !HasLocks(template) && actor.Some? && !signed)
  {
    NextNonceIs(c.vouchers, template.lane);
    RefusedEarly(c.ch, c.vouchers, Prepared(c, template, signature), actor, signed);
  }

  /** Of those left, one is refused for a low nonce or amount on its lane, for merges, or below nothing. */
  lemma CreateRefusedLate(c: Channel, template: Voucher, signature: nat, actor: Actor, signed: bool)
    requires forall v :: v in c.vouchers && v.lane == template.lane ==> v.nonce < LAST
    requires !HasLocks(template) && signed
    ensures var r, lanes := CreateSpec(c, template, signature, Some(actor), signed).0, Merged(actor.lanes, c.vouchers);
            var low := template.lane in lanes && NextNonce(c.vouchers, template.lane) <= lanes[template.lane].nonce;
            var less := template.lane in lanes && template.amount <= lanes[template.lane].redeemed;
            && (r == Err(NonceTooLow) <==> NoMerges(c.vouchers) && low)
            && (r == Err(AmountTooLow) <==> NoMerges(c.vouchers) && !low && less)
            && (r == Err(MergesNotSupported) <==> !NoMerges(c.vouchers) || (!low && !less && template.merges != []))
            && (r == Err(DeltaTooLow) ==> template.lane !in lanes && template.amount < 0)
  {
    NextNonceIs(c.vouchers, template.lane);
    RefusedLate(c.ch, c.vouchers, Prepared(c, template, signature), actor, signed);
  }

  // ----- over time -----

  /** The lane is on chain, of a stored voucher, or was handed out. */
  ghost predicate Used(w: World, lane: Word) {
    lane in w.actor.lanes || lane in w.handedOut || OnLane(w.c.vouchers, lane)
  }

  /** What every run keeps: plain vouchers, covered nonces, and a next lane that is one past a used one. */
  ghost predicate Orderly(w: World) {
    && (forall i :: 0 <= i < |w.c.vouchers| ==> Plain(w.c.vouchers[i], w.c.ch))
    && Covered(w.actor.lanes, w.c.vouchers)
    && (w.c.nextLane == 0 || Used(w, w.c.nextLane - 1))
  }

  lemma AppendOrderly(w: World, c: Channel, sv: Voucher)
    requires Orderly(w) && Plain(sv, w.c.ch) && c.ch == w.c.ch && c.vouchers == w.c.vouchers + [sv]
    requires c.nextLane == w.c.nextLane || c.nextLane == 0 || c.nextLane == sv.lane + 1
    ensures Orderly(w.(c := c))
  {
    var vs, vs' := w.c.vouchers, c.vouchers;
    forall k | k in w.actor.lanes
      ensures exists i :: 0 <= i < |vs'| && vs'[i].lane == k && vs'[i].nonce >= w.actor.lanes[k].nonce
    {
      var i :| 0 <= i < |vs| && vs[i].lane == k && vs[i].nonce >= w.actor.lanes[k].nonce;
      assert vs'[i] == vs[i];
    }
    assert vs'[|vs|].lane == sv.lane;
    forall lane | OnLane(vs, lane)
      ensures OnLane(vs', lane)
    {
      var i :| 0 <= i < |vs| && vs[i].lane == lane;
      assert vs'[i].lane == lane;
    }
  }

  lemma AddOrderly(w: World, sv: Voucher, minDelta: int, signed: bool)
    requires Orderly(w)
    ensures Orderly(w.(c := AddSpec(w.c, sv, minDelta, Some(w.actor), signed).1))
  {
    var c := AddSpec(w.c, sv, minDelta, Some(w.actor), signed).1;
    AddStoresIff(w.c, sv, minDelta, Some(w.actor), signed);
    if c != w.c {
      AppendOrderly(w, c, sv);
    }
  }

  lemma RedeemOrderly(w: World, i: nat)
    requires Orderly(w) && Enabled(w, Redeem(i))
    ensures Orderly(Apply(w, Redeem(i)))
  {
    var vs := w.c.vouchers;
    var lanes' := OnChain(w.actor.lanes, vs[i]);
    forall k | k in lanes'
      ensures exists j :: 0 <= j < |vs| && vs[j].lane == k && vs[j].nonce >= lanes'[k].nonce
    {
      if k != vs[i].lane {
        var j :| 0 <= j < |vs| && vs[j].lane == k && vs[j].nonce >= w.actor.lanes[k].nonce;
      }
    }
  }

  lemma StepOrderly(w: World, e: Event)
    requires Orderly(w) && Enabled(w, e)
    ensures Orderly(Apply(w, e))
  {
    match e {
      case Add(sv, minDelta, signed) => AddOrderly(w, sv, minDelta, signed);
      case Create(template, signature, signed) => AddOrderly(w, Prepared(w.c, template, signature), 0, signed);
      case TopUp(v) =>
      case Redeem(i) => RedeemOrderly(w, i);
      case Allocate =>
    }
  }

  lemma {:induction false} RunOrderly(w: World, es: seq<Event>)
    requires Orderly(w) && Possible(w, es)
    ensures Orderly(Final(w, es))
    decreases |es|
  {
    if es != [] {
      StepOrderly(w, es[0]);
      RunOrderly(Apply(w, es[0]), es[1..]);
    }
  }

  /** After any run, creating a voucher stores it exactly under the conditions of CreateStoresIff. */
  lemma CreateAfterRun(w: World, es: seq<Event>, template: Voucher, signature: nat, signed: bool)
    requires LanesInv(w) && Orderly(w) && Possible(w, es)
    requires forall v :: v in Final(w, es).c.vouchers && v.lane == template.lane ==> v.nonce < LAST
    ensures var f := Final(w, es);
            var lanes := LanesOf(f);
            CreateSpec(f.c, template, signature, Some(f.actor), signed).0 == Ok(Stored(Prepared(f.c, template, signature))) <==>
              && signed && !template.extra && template.timeLockMin == 0 && template.timeLockMax == 0
              && template.secretHash == [] && template.merges == []
              && (if template.lane in lanes then template.amount > lanes[template.lane].redeemed else template.amount >= 0)
              && Total(lanes) - Redeemed(lanes, template.lane) + template.amount <= f.actor.balance
  {
    RunKeeps(w, es);
    RunOrderly(w, es);
    var f := Final(w, es);
    CreateStoresIff(f.c, f.actor, template, signature, signed);
    NextNonceIs(f.c.vouchers, template.lane);
    CreatedIff(f.c, template, signature, f.actor, signed);
    AddStoresIff(f.c, Prepared(f.c, template, signature), 0, Some(f.actor), signed);
  }

  /** After any run that takes no last lane, the next lane is one past the highest lane in use. */
  lemma NextLaneIsTight(w: World, es: seq<Event>, lane: Word)
    requires LanesInv(w) && FreshInv(w) && Orderly(w) && Possible(w, es) && NeverTakesLast(w, es)
    ensures var f := Final(w, es);
            && (Used(f, lane) ==> lane < f.c.nextLane)
            && (f.c.nextLane == 0 || Used(f, f.c.nextLane - 1))
  {
    FreshRunIff(w, es);
    FreshAtEnd(w, es);
    RunOrderly(w, es);
    var f := Final(w, es);
    if OnLane(f.c.vouchers, lane) {
      var i :| 0 <= i < |f.c.vouchers| && f.c.vouchers[i].lane == lane;
      assert f.c.vouchers[i] in f.c.vouchers;
    }
  }
}
