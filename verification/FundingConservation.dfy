/**
 Over any run of a payment channel's funding: the confirmed amount is what the successful
 messages carried, at most one message is pending, and no request is paid for twice.
 */
module FundingConservation {
  import opened Wrappers
  import opened ChannelFunding

  // ----- the invariant -----

  /** The values of the successful messages of a channel. */
  function Confirmed(msgs: seq<Message>, channelId: nat): int {
    if msgs == [] then 0
    else
      var last := msgs[|msgs| - 1];
      Confirmed(msgs[..|msgs| - 1], channelId) +
        (if last.channelId == channelId && last.fate == Succeeded then last.value else 0)
  }

  ghost predicate MoneyInv(s: Funding) {
    && (s.info.Some? ==>
          var info := s.info.value;
          && info.id < s.channels
          && info.amount == Confirmed(s.msgs, info.id)
          && !(info.createMsg.Some? && info.addFundsMsg.Some?)
          && (info.channel.None? <==> info.createMsg.Some?)
          && match PendingMsg(info)
             case None => info.pendingAmount == 0
             case Some(m) =>
               && m < |s.msgs| && s.msgs[m].channelId == info.id
               && s.msgs[m].fate == Pending && info.pendingAmount == s.msgs[m].value)
    && (forall m :: 0 <= m < |s.msgs| ==> s.msgs[m].channelId < s.channels)
  }

  /** A pending message is the one its channel waits for; a successful one has made its channel. */
  ghost predicate MessageOk(s: Funding, m: nat)
    requires m < |s.msgs|
  {
    && (s.msgs[m].fate == Pending ==> AwaitsResult(s, m))
    && (s.msgs[m].fate == Succeeded ==>
          s.info.Some? && s.info.value.id == s.msgs[m].channelId && s.info.value.channel.Some?)
    && (s.msgs[m].recorded == Some(true) ==> s.msgs[m].fate == Succeeded)
    && s.msgs[m].value == Sum(s.msgs[m].reqs)
  }

  ghost predicate MessagesInv(s: Funding) {
    forall m :: 0 <= m < |s.msgs| ==> MessageOk(s, m)
  }

  predicate Mentions(reqs: seq<FundsReq>, id: nat) {
    exists i :: 0 <= i < |reqs| && reqs[i].id == id
  }

  ghost predicate Distinct(reqs: seq<FundsReq>) {
    forall i, j :: 0 <= i < j < |reqs| ==> reqs[i].id != reqs[j].id
  }

  /** A request is in the queue or in one message, never in both and never in two messages. */
  ghost predicate RequestInv(s: Funding) {
    && Distinct(s.queue)
    && (forall m :: 0 <= m < |s.msgs| ==> Distinct(s.msgs[m].reqs))
    && (forall m, id :: 0 <= m < |s.msgs| && Mentions(s.msgs[m].reqs, id) ==> !Mentions(s.queue, id))
    && (forall m, n, id :: 0 <= m < n < |s.msgs| && Mentions(s.msgs[m].reqs, id) ==> !Mentions(s.msgs[n].reqs, id))
  }

  ghost predicate Inv(s: Funding) {
    MoneyInv(s) && MessagesInv(s) && RequestInv(s)
  }

  // ----- events -----

  datatype Event =
    | Enqueue(req: FundsReq)
    | Cancel(id: nat)
    | Process(late: set<nat>, push: bool)
    | Mined(m: nat, ok: bool, address: nat)
    | Record(m: nat)

  ghost predicate Enabled(s: Funding, e: Event) {
    match e
    case Enqueue(req) =>
      !Mentions(s.queue, req.id) && forall m :: 0 <= m < |s.msgs| ==> !Mentions(s.msgs[m].reqs, req.id)
    case Mined(m, _, _) => AwaitsResult(s, m)
    case Record(m) => m < |s.msgs|
    case _ => true
  }

  function Apply(s: Funding, e: Event): Funding
    requires Enabled(s, e)
  {
    match e
    case Enqueue(req) => s.(queue := s.queue + [req])
    case Cancel(id) => s.(queue := Cancelled(s.queue, {id}))
    case Process(late, push) => ProcessSpec(s, late, push)
    case Mined(m, ok, address) => MinedSpec(s, m, ok, address)
    case Record(m) => RecordSpec(s, m)
  }

  // ----- queue facts -----

  lemma {:induction false} ActiveMembers(q: seq<FundsReq>)
    ensures forall r :: r in ActiveOnes(q) <==> r in q && r.active
  {
    if q != [] {
      var init, last := q[..|q| - 1], q[|q| - 1];
      ActiveMembers(init);
      assert q == init + [last];
    }
  }

  lemma {:induction false} ActiveOnesKeep(q: seq<FundsReq>)
    requires Distinct(q)
    ensures Distinct(ActiveOnes(q))
    ensures forall r :: r in ActiveOnes(q) <==> r in q && r.active
  {
    ActiveMembers(q);
    if q != [] {
      var init, last := q[..|q| - 1], q[|q| - 1];
      ActiveOnesKeep(init);
      forall r | r in ActiveOnes(init)
        ensures r.id != last.id
      {
        var i :| 0 <= i < |init| && init[i] == r;
        assert q[i] == r;
      }
    }
  }

  lemma MentionsMember(q: seq<FundsReq>, id: nat)
    ensures Mentions(q, id) <==> exists r :: r in q && r.id == id
  {
    if exists r :: r in q && r.id == id {
      var r :| r in q && r.id == id;
      var i :| 0 <= i < |q| && q[i] == r;
      assert q[i].id == id;
    }
  }

  lemma KeptSubset(q: seq<FundsReq>, late: set<nat>)
    requires Distinct(q)
    ensures var kept := Cancelled(ActiveOnes(q), late);
            && Distinct(kept) && Distinct(ActiveOnes(kept))
            && (forall id :: Mentions(kept, id) ==> Mentions(q, id))
            && (forall id :: Mentions(ActiveOnes(kept), id) ==> Mentions(q, id))
  {
    var a := ActiveOnes(q);
    ActiveOnesKeep(q);
    var kept := Cancelled(a, late);
    ActiveOnesKeep(kept);
    forall id | Mentions(kept, id)
      ensures Mentions(q, id)
    {
      var i :| 0 <= i < |kept| && kept[i].id == id;
      assert a[i].id == id && a[i] in q;
      MentionsMember(q, id);
    }
    forall id | Mentions(ActiveOnes(kept), id)
      ensures Mentions(q, id)
    {
      MentionsMember(ActiveOnes(kept), id);
      MentionsMember(kept, id);
    }
  }

  // ----- message log facts -----

  lemma ConfirmedAppend(msgs: seq<Message>, msg: Message, id: nat)
    requires msg.fate != Succeeded
    ensures Confirmed(msgs + [msg], id) == Confirmed(msgs, id)
  {
    assert (msgs + [msg])[..|msgs|] == msgs;
  }

  lemma {:induction false} ConfirmedUpdate(msgs: seq<Message>, m: nat, msg: Message, id: nat)
    requires m < |msgs| && msg.channelId == msgs[m].channelId && msg.value == msgs[m].value
    requires msgs[m].fate != Succeeded || msg.fate == Succeeded
    ensures Confirmed(msgs[m := msg], id) == Confirmed(msgs, id) +
              (if msg.channelId == id && msgs[m].fate != Succeeded && msg.fate == Succeeded then msg.value else 0)
  {
    var init := msgs[..|msgs| - 1];
    if m < |msgs| - 1 {
      ConfirmedUpdate(init, m, msg, id);
      assert msgs[m := msg][..|msgs| - 1] == init[m := msg];
    } else {
      assert msgs[m := msg][..|msgs| - 1] == init;
    }
  }

  lemma {:induction false} NothingConfirmed(msgs: seq<Message>, id: nat)
    requires forall m :: 0 <= m < |msgs| ==> !(msgs[m].channelId == id && msgs[m].fate == Succeeded)
    ensures Confirmed(msgs, id) == 0
  {
    if msgs != [] {
      NothingConfirmed(msgs[..|msgs| - 1], id);
    }
  }

  // ----- every step -----

  lemma SendKeepsMoney(s: Funding, reqs: seq<FundsReq>)
    requires MoneyInv(s) && MessagesInv(s) && !TaskFor(s.info, true).Wait?
    ensures var id := if s.info.None? then s.channels else s.info.value.id;
            var s' := AfterSend(s, Sum(reqs)).(msgs := s.msgs + [Message(id, Sum(reqs), Pending, None, reqs)]);
            MoneyInv(s') && MessagesInv(s')
  {
    var id := if s.info.None? then s.channels else s.info.value.id;
    var msg := Message(id, Sum(reqs), Pending, None, reqs);
    var s' := AfterSend(s, Sum(reqs)).(msgs := s.msgs + [msg]);
    ConfirmedAppend(s.msgs, msg, id);
    if s.info.None? {
      NothingConfirmed(s.msgs, id);
    }
    forall m | 0 <= m < |s'.msgs|
      ensures MessageOk(s', m)
    {
      if m < |s.msgs| {
        assert MessageOk(s, m);
      }
    }
  }

  lemma QueueOnly(s: Funding, q: seq<FundsReq>)
    requires MoneyInv(s) && MessagesInv(s)
    ensures MoneyInv(s.(queue := q)) && MessagesInv(s.(queue := q))
  {
    forall m | 0 <= m < |s.msgs|
      ensures MessageOk(s.(queue := q), m)
    {
      assert MessageOk(s, m);
    }
  }

  lemma ProcessKeepsMoney(s: Funding, late: set<nat>, push: bool)
    requires MoneyInv(s) && MessagesInv(s)
    ensures MoneyInv(ProcessSpec(s, late, push)) && MessagesInv(ProcessSpec(s, late, push))
  {
    var kept := Cancelled(ActiveOnes(s.queue), late);
    QueueOnly(s, kept);
    QueueOnly(s, []);
    if TaskFor(s.info, push).Send? {
      SendKeepsMoney(s.(queue := []), ActiveOnes(kept));
    }
  }

  lemma ProcessKeepsRequests(s: Funding, late: set<nat>, push: bool)
    requires RequestInv(s)
    ensures RequestInv(ProcessSpec(s, late, push))
  {
    KeptSubset(s.queue, late);
  }

  lemma MinedKeeps(s: Funding, m: nat, ok: bool, address: nat)
    requires Inv(s) && AwaitsResult(s, m)
    ensures Inv(MinedSpec(s, m, ok, address))
  {
    var s' := MinedSpec(s, m, ok, address);
    var msg := s'.msgs[m];
    var id := s.info.value.id;
    assert MessageOk(s, m);
    ConfirmedUpdate(s.msgs, m, msg, id);
    assert forall n :: 0 <= n < |s.msgs| ==> s'.msgs[n].reqs == s.msgs[n].reqs;
    if s.info.value.createMsg.Some? {
      forall n | 0 <= n < |s.msgs|
        ensures !(s.msgs[n].channelId == id && s.msgs[n].fate == Succeeded)
      {
        assert MessageOk(s, n);
      }
      NothingConfirmed(s.msgs, id);
    }
    forall n | 0 <= n < |s'.msgs|
      ensures MessageOk(s', n)
    {
      assert MessageOk(s, n);
    }
  }

  lemma RecordKeeps(s: Funding, m: nat)
    requires Inv(s) && m < |s.msgs|
    ensures Inv(RecordSpec(s, m))
  {
    var s' := RecordSpec(s, m);
    if s.info.Some? {
      ConfirmedUpdate(s.msgs, m, s'.msgs[m], s.info.value.id);
    }
    assert forall n :: 0 <= n < |s.msgs| ==> s'.msgs[n].reqs == s.msgs[n].reqs;
    forall n | 0 <= n < |s'.msgs|
      ensures MessageOk(s', n)
    {
      assert MessageOk(s, n);
    }
  }

  lemma EnqueueKeeps(s: Funding, req: FundsReq)
    requires Inv(s) && Enabled(s, Enqueue(req))
    ensures Inv(Apply(s, Enqueue(req)))
  {
    QueueOnly(s, s.queue + [req]);
    forall m, id | 0 <= m < |s.msgs| && Mentions(s.msgs[m].reqs, id)
      ensures !Mentions(s.queue + [req], id)
    {
      assert !Mentions(s.queue, id);
    }
    forall i | 0 <= i < |s.queue|
      ensures s.queue[i].id != req.id
    {
    }
  }

  lemma CancelKeeps(s: Funding, id: nat)
    requires Inv(s)
    ensures Inv(s.(queue := Cancelled(s.queue, {id})))
  {
    var q := Cancelled(s.queue, {id});
    QueueOnly(s, q);
    forall i | Mentions(q, i)
      ensures Mentions(s.queue, i)
    {
      var k :| 0 <= k < |q| && q[k].id == i;
      assert s.queue[k].id == i;
    }
  }

  lemma StepKeeps(s: Funding, e: Event)
    requires Inv(s) && Enabled(s, e)
    ensures Inv(Apply(s, e))
  {
    match e {
      case Enqueue(req) => EnqueueKeeps(s, req);
      case Cancel(id) => CancelKeeps(s, id);
      case Process(late, push) =>
        ProcessKeepsMoney(s, late, push);
        ProcessKeepsRequests(s, late, push);
      case Mined(m, ok, address) => MinedKeeps(s, m, ok, address);
      case Record(m) => RecordKeeps(s, m);
    }
  }

  // ----- runs -----

  ghost predicate Possible(s: Funding, es: seq<Event>)
    decreases |es|
  {
    es != [] ==> Enabled(s, es[0]) && Possible(Apply(s, es[0]), es[1..])
  }

  ghost function Final(s: Funding, es: seq<Event>): Funding
    requires Possible(s, es)
    decreases |es|
  {
    if es == [] then s else Final(Apply(s, es[0]), es[1..])
  }

  const START := Funding([], None, 0, [])

  lemma {:induction false} RunKeeps(s: Funding, es: seq<Event>)
    requires Inv(s) && Possible(s, es)
    ensures Inv(Final(s, es))
    decreases |es|
  {
    if es != [] {
      StepKeeps(s, es[0]);
      RunKeeps(Apply(s, es[0]), es[1..]);
    }
  }

  /** The confirmed amount of a channel is the sum of its successful messages; what is pending is its one pending message. */
  lemma FundsConserved(es: seq<Event>)
    requires Possible(START, es) && Final(START, es).info.Some?
    ensures var s := Final(START, es); var info := s.info.value;
            && info.amount == Confirmed(s.msgs, info.id)
            && (info.channel.None? <==> info.createMsg.Some?)
            && (forall m :: 0 <= m < |s.msgs| && s.msgs[m].fate == Pending ==>
                  PendingMsg(info) == Some(m) && info.pendingAmount == s.msgs[m].value)
  {
    RunKeeps(START, es);
    var s := Final(START, es);
    forall m | 0 <= m < |s.msgs| && s.msgs[m].fate == Pending
      ensures PendingMsg(s.info.value) == Some(m) && s.info.value.pendingAmount == s.msgs[m].value
    {
      assert MessageOk(s, m);
    }
  }

  /** Each message carries exactly its requests, and no request is in two messages or still queued. */
  lemma RequestsPaidOnce(es: seq<Event>, m: nat, n: nat, id: nat)
    requires Possible(START, es) && m < |Final(START, es).msgs| && n < |Final(START, es).msgs|
    requires Mentions(Final(START, es).msgs[m].reqs, id)
    ensures Final(START, es).msgs[m].value == Sum(Final(START, es).msgs[m].reqs)
    ensures Distinct(Final(START, es).msgs[m].reqs)
    ensures Mentions(Final(START, es).msgs[n].reqs, id) ==> m == n
    ensures !Mentions(Final(START, es).queue, id)
  {
    RunKeeps(START, es);
    assert MessageOk(Final(START, es), m);
  }

  /** A message recorded as successful always has a channel address. */
  lemma NeverPanics(es: seq<Event>, m: nat)
    requires Possible(START, es)
    ensures WaitReady(Final(START, es), m) != Panic
  {
    RunKeeps(START, es);
    if m < |Final(START, es).msgs| {
      assert MessageOk(Final(START, es), m);
    }
  }
}
