/**
 What becomes of the requests for funds of a payment channel: none is forgotten and none is answered
 while a message is pending; and what those who wait for a message get.
 */
module FundingLaws {
  import opened Wrappers
  import opened Selections
  import opened ChannelFunding
  import opened FundingConservation

  // ----- one pass -----

  lemma {:induction false} ActivePicks(q: seq<FundsReq>) returns (at: seq<nat>)
    ensures Picks(ActiveOnes(q), q, at)
    ensures forall k: nat :: k in at <==> k < |q| && q[k].active
  {
    at := [];
    if q != [] {
      var n := |q| - 1;
      at := ActivePicks(q[..n]);
      PicksNext(ActiveOnes(q[..n]), q[..n], at, q[n]);
      assert q == q[..n] + [q[n]];
      assert ActiveOnes(q[..n]) + [] == ActiveOnes(q[..n]);
      if q[n].active {
        at := at + [n];
      }
    }
  }

  predicate IsPending(s: Funding) {
    s.info.Some? && (s.info.value.createMsg.Some? || s.info.value.addFundsMsg.Some?)
  }

  /**
   While a message is pending, a pass sends nothing and answers nobody. Every active request stays
   queued, in order; those cancelled meanwhile are marked.
   */
  lemma PendingKeepsQueue(s: Funding, late: set<nat>, push: bool) returns (at: seq<nat>)
    requires IsPending(s)
    ensures ProcessAnswers(s, late, push) == []
    ensures var s' := ProcessSpec(s, late, push);
            && s'.msgs == s.msgs && s'.info == s.info && |s'.queue| == |at|
            && (forall i, j :: 0 <= i < j < |at| ==> at[i] < at[j])
            && (forall k: nat :: k in at <==> k < |s.queue| && s.queue[k].active)
            && forall i :: 0 <= i < |at| ==>
                 at[i] < |s.queue| &&
                 s'.queue[i] == if s.queue[at[i]].id in late then s.queue[at[i]].(active := false) else s.queue[at[i]]
  {
    at := ActivePicks(s.queue);
  }

  function Merge(q: seq<FundsReq>, late: set<nat>): seq<FundsReq> {
    ActiveOnes(Cancelled(ActiveOnes(q), late))
  }

  lemma MergeNext(q: seq<FundsReq>, late: set<nat>)
    requires q != []
    ensures var n := |q| - 1;
            Merge(q, late) == Merge(q[..n], late) + if q[n].active && q[n].id !in late then [q[n]] else []
  {
    var n := |q| - 1;
    var before := ActiveOnes(q[..n]);
    if q[n].active {
      var kept := Cancelled(before + [q[n]], late);
      assert kept[..|before|] == Cancelled(before, late);
    } else {
      assert before + [] == before;
    }
  }

  /** What is merged are the requests that are active and not cancelled meanwhile, in order. */
  lemma {:induction false} MergedPicks(q: seq<FundsReq>, late: set<nat>) returns (at: seq<nat>)
    ensures Picks(Merge(q, late), q, at)
    ensures forall k: nat :: k in at <==> k < |q| && q[k].active && q[k].id !in late
  {
    at := [];
    if q != [] {
      var n := |q| - 1;
      at := MergedPicks(q[..n], late);
      MergeNext(q, late);
      PicksNext(Merge(q[..n], late), q[..n], at, q[n]);
      assert q == q[..n] + [q[n]];
      if q[n].active && q[n].id !in late {
        at := at + [n];
      }
    }
  }

  /**
   Without a pending message, a pass over requests for something sends one message that carries
   exactly the active requests, for their sum, or answers them all with an error.
   */
  lemma PassServesAll(s: Funding, late: set<nat>, push: bool) returns (merged: seq<FundsReq>, at: seq<nat>)
    requires !IsPending(s)
    ensures Picks(merged, s.queue, at)
    ensures forall k: nat :: k in at <==> k < |s.queue| && s.queue[k].active && s.queue[k].id !in late
    ensures var s', answers := ProcessSpec(s, late, push), ProcessAnswers(s, late, push);
            if Sum(merged) == 0 then answers == [] && s'.msgs == s.msgs && s'.info == s.info
            else
              && s'.queue == [] && |answers| == |merged|
              && if push then
                   && |s'.msgs| == |s.msgs| + 1 && s'.msgs[..|s.msgs|] == s.msgs
                   && s'.msgs[|s.msgs|].reqs == merged && s'.msgs[|s.msgs|].value == Sum(merged) && IsPending(s')
                   && forall i :: 0 <= i < |merged| ==>
                        answers[i] == FundsAnswer(merged[i].id, Sent(if s.info.None? then None else s.info.value.channel, |s.msgs|))
                 else
                   && s'.msgs == s.msgs && s'.info == s.info
                   && forall i :: 0 <= i < |merged| ==> answers[i] == FundsAnswer(merged[i].id, NotSent)
  {
    merged := Merge(s.queue, late);
    at := MergedPicks(s.queue, late);
  }

  /** A message is for the sum of its requests: each of them counts, with its amount. */
  lemma {:induction false} SumConcat(a: seq<FundsReq>, b: seq<FundsReq>)
    ensures Sum(a + b) == Sum(a) + Sum(b)
  {
    if b == [] {
      assert a + b == a;
    } else {
      SumConcat(a, b[..|b| - 1]);
      assert (a + b)[..|a + b| - 1] == a + b[..|b| - 1];
    }
  }

  lemma SumOfOne(r: FundsReq)
    ensures Sum([r]) == r.amt
  {
    assert [r][..0] == [];
  }

  // ----- no request is forgotten -----

  /** The requests ever made, those whose callers gave up, and those answered with an error. */
  datatype World = World(s: Funding, asked: seq<FundsReq>, gaveUp: set<nat>, refused: set<nat>)

  predicate Asked(w: World, id: nat) {
    exists i :: 0 <= i < |w.asked| && w.asked[i].id == id
  }

  ghost predicate CanStep(w: World, e: Event) {
    Enabled(w.s, e) && (e.Enqueue? ==> !Asked(w, e.req.id))
  }

  ghost function Refused(answers: seq<FundsAnswer>): set<nat> {
    set a | a in answers && a.result == NotSent :: a.id
  }

  ghost function Step(w: World, e: Event): World
    requires CanStep(w, e)
  {
    var s' := Apply(w.s, e);
    match e
    case Enqueue(req) => w.(s := s', asked := w.asked + [req])
    case Cancel(id) => w.(s := s', gaveUp := w.gaveUp + {id})
    case Process(late, push) =>
      w.(s := s', gaveUp := w.gaveUp + late, refused := w.refused + Refused(ProcessAnswers(w.s, late, push)))
    case _ => w.(s := s')
  }

  ghost predicate InMessage(msgs: seq<Message>, r: FundsReq) {
    exists m :: 0 <= m < |msgs| && r in msgs[m].reqs
  }

  /** Where a request is: still queued, in a message, or answered with an error. */
  ghost predicate Placed(w: World, r: FundsReq) {
    r in w.s.queue || InMessage(w.s.msgs, r) || r.id in w.refused
  }

  ghost predicate NoneForgotten(w: World) {
    forall r :: r in w.asked && r.active && r.id !in w.gaveUp ==> Placed(w, r)
  }

  /** What is queued or sent was asked for, and not refused. */
  ghost predicate OnlyAsked(w: World) {
    && (forall id :: Mentions(w.s.queue, id) ==> Asked(w, id) && id !in w.refused)
    && (forall m, id :: 0 <= m < |w.s.msgs| && Mentions(w.s.msgs[m].reqs, id) ==> Asked(w, id) && id !in w.refused)
    && (forall id :: id in w.refused ==> Asked(w, id))
  }

  lemma RefusedAre(merged: seq<FundsReq>)
    ensures Refused(AnswerAll(merged, NotSent)) == (set r | r in merged :: r.id)
    ensures forall channel, m :: Refused(AnswerAll(merged, FundsResult.Sent(channel, m))) == {}
  {
    var answers := AnswerAll(merged, NotSent);
    forall r | r in merged
      ensures r.id in Refused(answers)
    {
      var i :| 0 <= i < |merged| && merged[i] == r;
      assert answers[i] == FundsAnswer(r.id, NotSent) && answers[i] in answers;
    }
    forall id | id in Refused(answers)
      ensures exists r :: r in merged && r.id == id
    {
      var a :| a in answers && a.result == NotSent && a.id == id;
      var i :| 0 <= i < |answers| && answers[i] == a;
      assert merged[i] in merged;
    }
  }

  /** A request that was queued and active is placed after a pass, unless it was cancelled meanwhile. */
  lemma PassPlaces(s: Funding, late: set<nat>, push: bool, r: FundsReq)
    requires r in s.queue && r.active && r.id !in late
    ensures r in ProcessSpec(s, late, push).queue || InMessage(ProcessSpec(s, late, push).msgs, r)
            || r.id in Refused(ProcessAnswers(s, late, push))
  {
    var first := ActiveOnes(s.queue);
    var kept := Cancelled(first, late);
    ActiveMembers(s.queue);
    var i :| 0 <= i < |first| && first[i] == r;
    assert kept[i] == r && r in kept;
    ActiveMembers(kept);
    var merged := ActiveOnes(kept);
    RefusedAre(merged);
    if Sum(merged) != 0 && TaskFor(s.info, push).Send? {
      assert ProcessSpec(s, late, push).msgs[|s.msgs|].reqs == merged;
    }
  }

  lemma PassKeepsMessages(s: Funding, late: set<nat>, push: bool, r: FundsReq)
    requires InMessage(s.msgs, r)
    ensures InMessage(ProcessSpec(s, late, push).msgs, r)
  {
    var m :| 0 <= m < |s.msgs| && r in s.msgs[m].reqs;
    assert ProcessSpec(s, late, push).msgs[m] == s.msgs[m];
  }

  lemma ProcessForgetsNone(w: World, late: set<nat>, push: bool)
    requires NoneForgotten(w) && OnlyAsked(w) && CanStep(w, Process(late, push))
    ensures NoneForgotten(Step(w, Process(late, push)))
  {
    forall r | r in w.asked && r.active && r.id !in w.gaveUp + late
      ensures Placed(Step(w, Process(late, push)), r)
    {
      assert Placed(w, r);
      if r in w.s.queue {
        PassPlaces(w.s, late, push, r);
      } else if InMessage(w.s.msgs, r) {
        PassKeepsMessages(w.s, late, push, r);
      }
    }
  }

  lemma EnqueueForgetsNone(w: World, req: FundsReq)
    requires NoneForgotten(w) && CanStep(w, Enqueue(req))
    ensures NoneForgotten(Step(w, Enqueue(req)))
  {
    forall r | r in w.asked + [req] && r.active && r.id !in w.gaveUp
      ensures Placed(Step(w, Enqueue(req)), r)
    {
      if r in w.asked {
        assert Placed(w, r);
      }
    }
  }

  lemma CancelForgetsNone(w: World, id: nat)
    requires NoneForgotten(w)
    ensures NoneForgotten(Step(w, Cancel(id)))
  {
    var q := Cancelled(w.s.queue, {id});
    forall r | r in w.asked && r.active && r.id !in w.gaveUp + {id}
      ensures Placed(Step(w, Cancel(id)), r)
    {
      assert Placed(w, r);
      if r in w.s.queue {
        var i :| 0 <= i < |w.s.queue| && w.s.queue[i] == r;
        assert q[i] == r;
      }
    }
  }

  /** Messages keep their requests when something else is recorded about them. */
  lemma SameRequests(msgs: seq<Message>, m: nat, msg: Message, r: FundsReq)
    requires m < |msgs| && msg.reqs == msgs[m].reqs && InMessage(msgs, r)
    ensures InMessage(msgs[m := msg], r)
  {
    var n :| 0 <= n < |msgs| && r in msgs[n].reqs;
    assert msgs[m := msg][n].reqs == msgs[n].reqs;
  }

  lemma ChainForgetsNone(w: World, e: Event)
    requires NoneForgotten(w) && CanStep(w, e) && (e.Mined? || e.Record?)
    ensures NoneForgotten(Step(w, e))
  {
    var w' := Step(w, e);
    forall r | r in w.asked && r.active && r.id !in w.gaveUp
      ensures Placed(w', r)
    {
      assert Placed(w, r);
      if InMessage(w.s.msgs, r) {
        SameRequests(w.s.msgs, e.m, w'.s.msgs[e.m], r);
      }
    }
  }

  // ----- only what was asked for -----

  lemma RefusedMentioned(merged: seq<FundsReq>, id: nat)
    ensures id in (set r | r in merged :: r.id) <==> Mentions(merged, id)
  {
    MentionsMember(merged, id);
  }

  /** Who a pass refuses was queued. */
  lemma RefusedWereQueued(s: Funding, late: set<nat>, push: bool, id: nat)
    requires RequestInv(s)
    ensures id in Refused(ProcessAnswers(s, late, push)) ==> Mentions(s.queue, id) && ProcessSpec(s, late, push).queue == []
    ensures id in Refused(ProcessAnswers(s, late, push)) ==> ProcessSpec(s, late, push).msgs == s.msgs
  {
    var merged := ActiveOnes(Cancelled(ActiveOnes(s.queue), late));
    KeptSubset(s.queue, late);
    RefusedAre(merged);
    RefusedMentioned(merged, id);
  }

  /** Whom a pass queues or sends was queued. */
  lemma HandledWereQueued(s: Funding, late: set<nat>, push: bool, id: nat)
    requires RequestInv(s)
    ensures Mentions(ProcessSpec(s, late, push).queue, id) ==> Mentions(s.queue, id)
    ensures var msgs := ProcessSpec(s, late, push).msgs;
            forall m :: 0 <= m < |msgs| && Mentions(msgs[m].reqs, id) ==>
              if m < |s.msgs| then msgs[m] == s.msgs[m]
              else Mentions(s.queue, id) && id !in Refused(ProcessAnswers(s, late, push))
  {
    KeptSubset(s.queue, late);
    RefusedAre(ActiveOnes(Cancelled(ActiveOnes(s.queue), late)));
  }

  lemma ProcessOnlyAsked(w: World, late: set<nat>, push: bool)
    requires Inv(w.s) && OnlyAsked(w) && CanStep(w, Process(late, push))
    ensures OnlyAsked(Step(w, Process(late, push)))
  {
    var w' := Step(w, Process(late, push));
    forall id | Mentions(w'.s.queue, id)
      ensures Asked(w', id) && id !in w'.refused
    {
      HandledWereQueued(w.s, late, push, id);
      RefusedWereQueued(w.s, late, push, id);
    }
    forall m, id | 0 <= m < |w'.s.msgs| && Mentions(w'.s.msgs[m].reqs, id)
      ensures Asked(w', id) && id !in w'.refused
    {
      HandledWereQueued(w.s, late, push, id);
      RefusedWereQueued(w.s, late, push, id);
    }
    forall id | id in w'.refused
      ensures Asked(w', id)
    {
      RefusedWereQueued(w.s, late, push, id);
    }
  }

  lemma EnqueueOnlyAsked(w: World, req: FundsReq)
    requires OnlyAsked(w) && CanStep(w, Enqueue(req))
    ensures OnlyAsked(Step(w, Enqueue(req)))
  {
    var w' := Step(w, Enqueue(req));
    forall id | Asked(w, id)
      ensures Asked(w', id)
    {
      var i :| 0 <= i < |w.asked| && w.asked[i].id == id;
      assert w'.asked[i].id == id;
    }
    assert w'.asked[|w.asked|].id == req.id;
    forall id | Mentions(w'.s.queue, id)
      ensures Asked(w', id) && id !in w'.refused
    {
      assert id != req.id ==> Mentions(w.s.queue, id);
    }
  }

  lemma CancelOnlyAsked(w: World, id: nat)
    requires OnlyAsked(w)
    ensures OnlyAsked(Step(w, Cancel(id)))
  {
    var w' := Step(w, Cancel(id));
    forall i | Mentions(w'.s.queue, i)
      ensures Asked(w', i) && i !in w'.refused
    {
      var k :| 0 <= k < |w'.s.queue| && w'.s.queue[k].id == i;
      assert w.s.queue[k].id == i;
      assert Mentions(w.s.queue, i) && Asked(w, i);
    }
    forall m, i | 0 <= m < |w'.s.msgs| && Mentions(w'.s.msgs[m].reqs, i)
      ensures Asked(w', i) && i !in w'.refused
    {
      assert Asked(w, i);
    }
    assert forall i :: Asked(w, i) ==> Asked(w', i);
  }

  lemma ChainOnlyAsked(w: World, e: Event)
    requires OnlyAsked(w) && CanStep(w, e) && (e.Mined? || e.Record?)
    ensures OnlyAsked(Step(w, e))
  {
    var w' := Step(w, e);
    forall m, i | 0 <= m < |w'.s.msgs| && Mentions(w'.s.msgs[m].reqs, i)
      ensures Asked(w', i) && i !in w'.refused
    {
      assert w'.s.msgs[m].reqs == w.s.msgs[m].reqs;
      assert Mentions(w.s.msgs[m].reqs, i) && Asked(w, i);
    }
    assert forall i :: Asked(w, i) ==> Asked(w', i);
  }

  // ----- over time -----

  ghost predicate Kept(w: World) {
    Inv(w.s) && NoneForgotten(w) && OnlyAsked(w)
  }

  lemma StepForgetsNone(w: World, e: Event)
    requires Kept(w) && CanStep(w, e)
    ensures Kept(Step(w, e))
  {
    StepKeeps(w.s, e);
    match e {
      case Enqueue(req) =>
        EnqueueForgetsNone(w, req);
        EnqueueOnlyAsked(w, req);
      case Cancel(id) =>
        CancelForgetsNone(w, id);
        CancelOnlyAsked(w, id);
      case Process(late, push) =>
        ProcessForgetsNone(w, late, push);
        ProcessOnlyAsked(w, late, push);
      case Mined(_, _, _) =>
        ChainForgetsNone(w, e);
        ChainOnlyAsked(w, e);
      case Record(_) =>
        ChainForgetsNone(w, e);
        ChainOnlyAsked(w, e);
    }
  }

  ghost predicate CanRun(w: World, es: seq<Event>)
    decreases |es|
  {
    es != [] ==> CanStep(w, es[0]) && CanRun(Step(w, es[0]), es[1..])
  }

  ghost function Ended(w: World, es: seq<Event>): World
    requires CanRun(w, es)
    decreases |es|
  {
    if es == [] then w else Ended(Step(w, es[0]), es[1..])
  }

  lemma {:induction false} RunForgetsNone(w: World, es: seq<Event>)
    requires Kept(w) && CanRun(w, es)
    ensures Kept(Ended(w, es))
    decreases |es|
  {
    if es != [] {
      StepForgetsNone(w, es[0]);
      RunForgetsNone(Step(w, es[0]), es[1..]);
    }
  }

  const NONE := World(START, [], {}, {})

  /**
   After any run, a request whose caller did not give up is still queued, as it was made, or is in
   a message, as it was made, or was answered with an error; and it is in one of these places only,
   and in one message at most.
   */
  lemma RequestsConserved(es: seq<Event>, r: FundsReq)
    requires CanRun(NONE, es) && r in Ended(NONE, es).asked
    ensures var w := Ended(NONE, es);
            && (r.active && r.id !in w.gaveUp ==> r in w.s.queue || InMessage(w.s.msgs, r) || r.id in w.refused)
            && !(Mentions(w.s.queue, r.id) && r.id in w.refused)
            && (forall m :: 0 <= m < |w.s.msgs| && Mentions(w.s.msgs[m].reqs, r.id) ==>
                  !Mentions(w.s.queue, r.id) && r.id !in w.refused)
            && (forall m, n :: 0 <= m < n < |w.s.msgs| && Mentions(w.s.msgs[m].reqs, r.id) ==> !Mentions(w.s.msgs[n].reqs, r.id))
  {
    RunForgetsNone(NONE, es);
    var w := Ended(NONE, es);
    assert r.active && r.id !in w.gaveUp ==> Placed(w, r);
  }

  // ----- what those who wait for a message get -----

  /**
   Once the result of waiting is stored, who waits for the message gets the address of its channel
   if it succeeded and an error otherwise; before that nothing, and for an unknown message an error.
   */
  lemma RecordedMeans(s: Funding, m: nat)
    requires Inv(s) && m < |s.msgs|
    ensures var s' := RecordSpec(s, m);
            WaitReady(s', m) ==
              if s.msgs[m].fate == Succeeded && s.info.Some? && s.info.value.channel.Some? then Address(s.info.value.channel.value)
              else MsgFailed
    ensures s.msgs[m].fate == Succeeded ==> s.info.Some? && s.info.value.channel.Some? && s.info.value.id == s.msgs[m].channelId
    ensures s.msgs[m].recorded == None ==> WaitReady(s, m) == NotYet
    ensures WaitReady(s, |s.msgs|) == Unknown
  {
    assert MessageOk(s, m);
  }

  ghost predicate HasAddress(s: Funding, id: nat, address: nat) {
    s.info.Some? && s.info.value.id == id && s.info.value.channel == Some(address)
  }

  lemma AddressStays(s: Funding, e: Event, id: nat, address: nat)
    requires Inv(s) && Enabled(s, e) && HasAddress(s, id, address)
    ensures HasAddress(Apply(s, e), id, address)
  {
  }

  lemma {:induction false} RunKeepsAddress(s: Funding, es: seq<Event>, id: nat, address: nat)
    requires Inv(s) && Possible(s, es) && HasAddress(s, id, address)
    ensures HasAddress(Final(s, es), id, address)
    decreases |es|
  {
    if es != [] {
      StepKeeps(s, es[0]);
      AddressStays(s, es[0], id, address);
      RunKeepsAddress(Apply(s, es[0]), es[1..], id, address);
    }
  }

  /**
   The address with which a channel is created is what everybody gets, after any run, who waits for
   a message of the channel that was recorded as successful.
   */
  lemma CreatedAddress(s: Funding, m: nat, address: nat, es: seq<Event>, n: nat)
    requires Inv(s) && AwaitsResult(s, m) && s.info.value.createMsg.Some?
    requires Possible(MinedSpec(s, m, true, address), es)
    requires n < |Final(MinedSpec(s, m, true, address), es).msgs|
    requires Final(MinedSpec(s, m, true, address), es).msgs[n].recorded == Some(true)
    ensures WaitReady(Final(MinedSpec(s, m, true, address), es), n) == Address(address)
  {
    var s1 := MinedSpec(s, m, true, address);
    MinedKeeps(s, m, true, address);
    RunKeepsAddress(s1, es, s.info.value.id, address);
    RunKeeps(s1, es);
    assert MessageOk(Final(s1, es), n);
  }
}
