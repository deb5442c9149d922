/**
 Funding of a payment channel: queued requests are merged into one message that creates the
 channel or adds funds to it, and while that message is pending nothing else is sent.
 */
module ChannelFunding {
  import opened Wrappers

  /** A request for funds; it is active until its context is cancelled. */
  datatype FundsReq = FundsReq(id: nat, amt: int, active: bool)

  datatype ChannelInfo = ChannelInfo(
    id: nat, channel: Option<nat>, amount: int, pendingAmount: int,
    createMsg: Option<nat>, addFundsMsg: Option<nat>)

  datatype Fate = Pending | Succeeded | Failed

  /**
   A message sent for a channel. `recorded` is the stored result: none yet, success, or error.
   `reqs` is history: the requests whose amounts the message carries.
   */
  datatype Message = Message(channelId: nat, value: int, fate: Fate, recorded: Option<bool>, reqs: seq<FundsReq>)

  /** Messages are named by their position; `channels` counts the channels created so far. */
  datatype Funding = Funding(queue: seq<FundsReq>, info: Option<ChannelInfo>, channels: nat, msgs: seq<Message>)

  // ----- queue -----

  function ActiveOnes(q: seq<FundsReq>): seq<FundsReq> {
    if q == [] then []
    else
      var last := q[|q| - 1];
      ActiveOnes(q[..|q| - 1]) + (if last.active then [last] else [])
  }

  function Sum(q: seq<FundsReq>): int {
    if q == [] then 0 else Sum(q[..|q| - 1]) + q[|q| - 1].amt
  }

  function Cancelled(q: seq<FundsReq>, ids: set<nat>): (r: seq<FundsReq>)
    ensures |r| == |q|
    ensures forall i :: 0 <= i < |q| ==> r[i] == if q[i].id in ids then q[i].(active := false) else q[i]
  {
    seq(|q|, i requires 0 <= i < |q| => if q[i].id in ids then q[i].(active := false) else q[i])
  }

  /** Compaction in place: active requests move to the front, and the rest is cut off. */
  method FilterQueue(q: seq<FundsReq>) returns (kept: seq<FundsReq>)
    ensures kept == ActiveOnes(q)
  {
    kept := q;
    var i := 0;
    for k := 0 to |q|
      invariant 0 <= i <= k && |kept| == |q|
      invariant kept[..i] == ActiveOnes(q[..k])
      invariant kept[k..] == q[k..]
    {
      assert q[..k + 1][..k] == q[..k];
      assert kept[k] == kept[k..][0] == q[k..][0] == q[k];
      if kept[k].active {
        kept := kept[i := kept[k]];
        i := i + 1;
        assert kept[..i] == kept[..i - 1] + [q[k]];
      }
      assert kept[k + 1..] == q[k + 1..];
    }
    assert q[..|q|] == q;
    kept := kept[..i];
  }

  method SumActive(q: seq<FundsReq>) returns (sum: int)
    ensures sum == Sum(ActiveOnes(q))
  {
    sum := 0;
    for k := 0 to |q|
      invariant sum == Sum(ActiveOnes(q[..k]))
    {
      assert q[..k + 1][..k] == q[..k];
      if q[k].active {
        assert (ActiveOnes(q[..k]) + [q[k]])[..|ActiveOnes(q[..k])|] == ActiveOnes(q[..k]);
        sum := sum + q[k].amt;
      } else {
        assert ActiveOnes(q[..k + 1]) == ActiveOnes(q[..k]);
      }
    }
    assert q[..|q|] == q;
  }

  // ----- processing -----

  /** What the requests of a merge are answered: the message, and the channel if there is one yet; or an error. */
  datatype FundsResult = Sent(channel: Option<nat>, msg: nat) | NotSent

  datatype FundsAnswer = FundsAnswer(id: nat, result: FundsResult)

  function AnswerAll(reqs: seq<FundsReq>, result: FundsResult): (answers: seq<FundsAnswer>)
    ensures |answers| == |reqs|
    ensures forall i :: 0 <= i < |reqs| ==> answers[i] == FundsAnswer(reqs[i].id, result)
  {
    seq(|reqs|, i requires 0 <= i < |reqs| => FundsAnswer(reqs[i].id, result))
  }

  /** What a task does: wait for a pending message, fail, or send the given message. */
  datatype Task = Wait | Error | Send

  function TaskFor(info: Option<ChannelInfo>, push: bool): Task {
    if info.Some? && (info.value.createMsg.Some? || info.value.addFundsMsg.Some?) then Wait
    else if push then Send
    else Error
  }

  /** The stored channel once a message for `amt` has been sent as message number `m`. */
  function AfterSend(s: Funding, amt: int): Funding
    requires s.info.Some? ==> s.info.value.createMsg.None? && s.info.value.addFundsMsg.None?
  {
    var m := |s.msgs|;
    if s.info.None? then
      s.(info := Some(ChannelInfo(s.channels, None, 0, amt, Some(m), None)), channels := s.channels + 1)
    else s.(info := Some(s.info.value.(pendingAmount := amt, addFundsMsg := Some(m))))
  }

  /** `late` are the requests cancelled while the merge is built; `push` whether the message can be sent. */
  function ProcessSpec(s: Funding, late: set<nat>, push: bool): Funding {
    var kept := Cancelled(ActiveOnes(s.queue), late);
    var s1 := s.(queue := kept);
    var merged := ActiveOnes(kept);
    if kept == [] || Sum(merged) == 0 then s1
    else
      match TaskFor(s.info, push)
      case Wait => s1
      case Error => s1.(queue := [])
      case Send =>
        var id := if s.info.None? then s.channels else s.info.value.id;
        AfterSend(s1, Sum(merged)).(queue := [], msgs := s.msgs + [Message(id, Sum(merged), Pending, None, merged)])
  }

  /** Nothing is answered while a message is pending. */
  function ProcessAnswers(s: Funding, late: set<nat>, push: bool): seq<FundsAnswer> {
    var merged := ActiveOnes(Cancelled(ActiveOnes(s.queue), late));
    if Sum(merged) == 0 then []
    else
      match TaskFor(s.info, push)
      case Wait => []
      case Error => AnswerAll(merged, NotSent)
      case Send => AnswerAll(merged, Sent(if s.info.None? then None else s.info.value.channel, |s.msgs|))
  }

  function PendingMsg(info: ChannelInfo): Option<nat> {
    if info.createMsg.Some? then info.createMsg else info.addFundsMsg
  }

  predicate AwaitsResult(s: Funding, m: nat) {
    s.info.Some? && m < |s.msgs| && PendingMsg(s.info.value) == Some(m)
  }

  /** The pending message is on chain; `address` is that of a newly created channel. */
  function MinedSpec(s: Funding, m: nat, ok: bool, address: nat): Funding
    requires AwaitsResult(s, m)
  {
    var info := s.info.value;
    var info' :=
      if info.createMsg.Some? then
        (if ok then Some(info.(channel := Some(address), amount := info.pendingAmount, pendingAmount := 0, createMsg := None))
         else None)
      else if ok then Some(info.(amount := info.amount + info.pendingAmount, pendingAmount := 0, addFundsMsg := None))
      else Some(info.(pendingAmount := 0, addFundsMsg := None));
    s.(info := info', msgs := s.msgs[m := s.msgs[m].(fate := if ok then Succeeded else Failed)])
  }

  /** The result of waiting for a message is stored: success, or any error. */
  function RecordSpec(s: Funding, m: nat): Funding
    requires m < |s.msgs|
  {
    s.(msgs := s.msgs[m := s.msgs[m].(recorded := Some(s.msgs[m].fate == Succeeded))])
  }

  /** What a caller who waits for a message gets; `Panic` if it succeeded but there is no channel. */
  datatype Ready = Unknown | MsgFailed | Address(a: nat) | NotYet | Panic

  function WaitReady(s: Funding, m: nat): Ready {
    if m >= |s.msgs| then Unknown
    else
      match s.msgs[m].recorded
      case None => NotYet
      case Some(false) => MsgFailed
      case Some(true) =>
        if s.info.None? || s.info.value.id != s.msgs[m].channelId || s.info.value.channel.None? then Panic
        else Address(s.info.value.channel.value)
  }

  class ChannelFunds {
    var queue: seq<FundsReq>
    var info: Option<ChannelInfo>
    var channels: nat
    var msgs: seq<Message>

    function View(): Funding
      reads this
    {
      Funding(queue, info, channels, msgs)
    }

    constructor ()
      ensures View() == Funding([], None, 0, [])
    {
      queue, info, channels, msgs := [], None, 0, [];
    }

    method Enqueue(req: FundsReq)
      modifies this
      ensures View() == old(View()).(queue := old(queue) + [req])
    {
      queue := queue + [req];
    }

    method ProcessQueue(late: set<nat>, push: bool) returns (answers: seq<FundsAnswer>)
      modifies this
      ensures View() == ProcessSpec(old(View()), late, push)
      ensures answers == ProcessAnswers(old(View()), late, push)
    {
      answers := [];
      queue := FilterQueue(queue);
      queue := Cancelled(queue, late);
      if |queue| == 0 {
        return;
      }
      var amt := SumActive(queue);
      if amt == 0 {
        return;
      }
      var merged := ActiveOnes(queue);
      var res := ProcessTask(amt, push, merged);
      if res.None? {
        return;
      }
      queue := [];
      answers := AnswerAll(merged, res.value);
    }

    /** The outcome of the task, or none if it has to wait for a message. */
    method ProcessTask(amt: int, push: bool, reqs: seq<FundsReq>) returns (res: Option<FundsResult>)
      modifies this
      ensures queue == old(queue)
      ensures match TaskFor(old(info), push)
              case Wait => res == None && View() == old(View())
              case Error => res == Some(NotSent) && View() == old(View())
              case Send =>
                var id := if old(info).None? then old(channels) else old(info).value.id;
                && res == Some(Sent(if old(info).None? then None else old(info).value.channel, |old(msgs)|))
                && View() == AfterSend(old(View()), amt).(msgs := old(msgs) + [Message(id, amt, Pending, None, reqs)])
    {
      if info.None? {
        if !push {
          return Some(NotSent);
        }
        var m := |msgs|;
        info := Some(ChannelInfo(channels, None, 0, amt, Some(m), None));
        msgs := msgs + [Message(channels, amt, Pending, None, reqs)];
        channels := channels + 1;
        return Some(Sent(None, m));
      }
      if info.value.createMsg.Some? {
        return None;
      }
      if info.value.addFundsMsg.Some? {
        return None;
      }
      if !push {
        return Some(NotSent);
      }
      var m := |msgs|;
      info := Some(info.value.(pendingAmount := amt, addFundsMsg := Some(m)));
      msgs := msgs + [Message(info.value.id, amt, Pending, None, reqs)];
      res := Some(Sent(info.value.channel, m));
    }

    method WaitCreateMsg(m: nat, ok: bool, address: nat)
      requires AwaitsResult(View(), m) && info.value.createMsg.Some?
      modifies this
      ensures View() == MinedSpec(old(View()), m, ok, address)
    {
      if !ok {
        info := None;
        msgs := msgs[m := msgs[m].(fate := Failed)];
        return;
      }
      info := Some(info.value.(channel := Some(address), amount := info.value.pendingAmount,
                               pendingAmount := 0, createMsg := None));
      msgs := msgs[m := msgs[m].(fate := Succeeded)];
    }

    method WaitAddFundsMsg(m: nat, ok: bool)
      requires AwaitsResult(View(), m) && info.value.createMsg.None?
      modifies this
      ensures forall address :: View() == MinedSpec(old(View()), m, ok, address)
    {
      if !ok {
        info := Some(info.value.(pendingAmount := 0, addFundsMsg := None));
        msgs := msgs[m := msgs[m].(fate := Failed)];
        return;
      }
      info := Some(info.value.(amount := info.value.amount + info.value.pendingAmount,
                               pendingAmount := 0, addFundsMsg := None));
      msgs := msgs[m := msgs[m].(fate := Succeeded)];
    }
  }
}
