/**
 Batching of deals into publish messages: one queue for each provider, published when it is
 long enough, when its timer expires or on demand.
 */
module DealPublisher {
  import opened Wrappers

  /** A deal waiting to be published; `id` stands for the call that submitted it. */
  datatype Deal = Deal(id: nat, provider: nat, startEpoch: int)

  /** A period of zero means deals are published one by one. */
  datatype Config = Config(maxDeals: nat, period: nat)

  /** The queue of one provider. The timer was started, and can still be cancelled. */
  datatype Queue = Queue(pending: seq<Deal>, started: bool, armed: bool)

  const EMPTY := Queue([], false, false)

  // ----- dropping cancelled deals -----

  function Live(deals: seq<Deal>, cancelled: set<nat>): seq<Deal> {
    if deals == [] then []
    else
      var last := deals[|deals| - 1];
      Live(deals[..|deals| - 1], cancelled) + (if last.id in cancelled then [] else [last])
  }

  lemma {:induction false} LiveShorter(deals: seq<Deal>, cancelled: set<nat>)
    ensures |Live(deals, cancelled)| <= |deals|
  {
    if deals != [] {
      LiveShorter(deals[..|deals| - 1], cancelled);
    }
  }

  // ----- what the operations do to a queue -----

  datatype Outcome = Outcome(queue: Queue, batch: seq<Deal>)

  /** Everything live leaves the queue. A timer that was cancelled before is not noticed here. */
  function PublishAllSpec(q: Queue, cancelled: set<nat>): Outcome {
    Outcome(Queue([], q.started && !q.armed, false), Live(q.pending, cancelled))
  }

  function FilterSpec(q: Queue, cancelled: set<nat>): Queue {
    var live := Live(q.pending, cancelled);
    q.(pending := live, armed := q.armed && live != [])
  }

  predicate IsFull(cfg: Config, pending: seq<Deal>) {
    |pending| >= cfg.maxDeals || cfg.period == 0
  }

  /** `early` deals are cancelled when the deal comes in, `late` ones when the queue is published. */
  function NewDealSpec(cfg: Config, q: Queue, d: Deal, early: set<nat>, late: set<nat>): Outcome {
    var q1 := FilterSpec(q, early);
    if d.id in early then Outcome(q1, [])
    else
      var q2 := q1.(pending := q1.pending + [d]);
      if IsFull(cfg, q2.pending) then PublishAllSpec(q2, late)
      else Outcome(q2.(started := true, armed := q2.armed || !q2.started), [])
  }

  class SingleDealPublisher {
    const cfg: Config
    var pending: seq<Deal>
    var started: bool
    var armed: bool

    constructor (cfg: Config)
      ensures View() == EMPTY && this.cfg == cfg
    {
      this.cfg := cfg;
      pending, started, armed := [], false, false;
    }

    function View(): Queue
      reads this
    {
      Queue(pending, started, armed)
    }

    /** Compacts the queue in place. */
    method FilterCancelledDeals(cancelled: set<nat>)
      modifies this`pending
      ensures pending == Live(old(pending), cancelled)
    {
      var i := 0;
      ghost var was := pending;
      for k := 0 to |pending|
        invariant |pending| == |was| && 0 <= i <= k
        invariant pending[..i] == Live(was[..k], cancelled)
        invariant pending[k..] == was[k..]
      {
        var pd := pending[k];
        assert pd == pending[k..][0] == was[k..][0] == was[k] && was[..k + 1][..k] == was[..k];
        assert pending[k + 1..] == pending[k..][1..] == was[k..][1..] == was[k + 1..];
        if pd.id !in cancelled {
          ghost var done := pending[..i];
          pending := pending[i := pd];
          assert pending[..i + 1] == done + [pd];
          assert pending[k + 1..] == was[k + 1..];
          i := i + 1;
        } else {
          assert Live(was[..k], cancelled) + [] == Live(was[..k], cancelled);
        }
      }
      assert was[..|was|] == was;
      pending := pending[..i];
    }

    method PublishAllDeals(cancelled: set<nat>) returns (batch: seq<Deal>)
      modifies this
      ensures PublishAllSpec(old(View()), cancelled) == Outcome(View(), batch)
    {
      if armed {
        armed, started := false, false;
      }
      FilterCancelledDeals(cancelled);
      batch := pending;
      pending := [];
    }

    method ProcessNewDeal(d: Deal, early: set<nat>, late: set<nat>) returns (batch: seq<Deal>)
      modifies this
      ensures NewDealSpec(cfg, old(View()), d, early, late) == Outcome(View(), batch)
    {
      batch := [];
      FilterCancelledDeals(early);
      if |pending| == 0 && armed {
        armed := false;
      }
      if d.id in early {
        return;
      }
      pending := pending + [d];
      if |pending| >= cfg.maxDeals || cfg.period == 0 {
        batch := PublishAllDeals(late);
        return;
      }
      WaitForMoreDeals();
    }

    method WaitForMoreDeals()
      modifies this`started, this`armed
      ensures started && armed == (old(armed) || !old(started))
    {
      if started {
        return;
      }
      started, armed := true, true;
    }
  }

  /** The publishers of all providers, created on demand. */
  class Publishers {
    const cfg: Config
    var publishers: map<nat, SingleDealPublisher>

    ghost predicate Valid()
      reads this, publishers.Values
    {
      && (forall p :: p in publishers ==> publishers[p].cfg == cfg)
      && (forall p, q :: p in publishers && q in publishers && p != q ==> publishers[p] != publishers[q])
    }

    ghost function View(): map<nat, Queue>
      reads this, publishers.Values
    {
      map p | p in publishers :: publishers[p].View()
    }

    constructor (cfg: Config)
      ensures Valid() && View() == map[] && this.cfg == cfg
    {
      this.cfg := cfg;
      publishers := map[];
    }

    /** The publisher of a provider, created if there is none yet. */
    method PublisherFor(provider: nat) returns (publisher: SingleDealPublisher)
      requires Valid()
      modifies this
      ensures Valid() && provider in publishers && publishers[provider] == publisher
      ensures fresh(publishers.Values - old(publishers.Values))
      ensures View() == if provider in old(View()) then old(View()) else old(View())[provider := EMPTY]
    {
      if provider in publishers {
        return publishers[provider];
      }
      publisher := new SingleDealPublisher(cfg);
      publishers := publishers[provider := publisher];
    }

    method Publish(d: Deal, early: set<nat>, late: set<nat>) returns (batch: seq<Deal>)
      requires Valid()
      modifies this, publishers.Values
      ensures Valid() && fresh(publishers.Values - old(publishers.Values))
      ensures var q := if d.provider in old(View()) then old(View())[d.provider] else EMPTY;
              var o := NewDealSpec(cfg, q, d, early, late);
              View() == old(View())[d.provider := o.queue] && batch == o.batch
    {
      var publisher := PublisherFor(d.provider);
      batch := Submit(d, early, late);
    }

    method Submit(d: Deal, early: set<nat>, late: set<nat>) returns (batch: seq<Deal>)
      requires Valid() && d.provider in publishers
      modifies publishers[d.provider]
      ensures Valid()
      ensures var o := NewDealSpec(cfg, old(View())[d.provider], d, early, late);
              View() == old(View())[d.provider := o.queue] && batch == o.batch
    {
      batch := publishers[d.provider].ProcessNewDeal(d, early, late);
    }

    method ForceOne(provider: nat, cancelled: set<nat>) returns (batch: seq<Deal>)
      requires Valid() && provider in publishers
      modifies publishers[provider]
      ensures Valid()
      ensures var o := PublishAllSpec(old(View())[provider], cancelled);
              View() == old(View())[provider := o.queue] && batch == o.batch
    {
      batch := publishers[provider].PublishAllDeals(cancelled);
    }

    method ForcePublishPendingDeals(cancelled: set<nat>) returns (batches: map<nat, seq<Deal>>)
      requires Valid()
      modifies publishers.Values
      ensures Valid() && batches.Keys == View().Keys == old(View()).Keys
      ensures forall p :: p in batches ==> PublishAllSpec(old(View())[p], cancelled) == Outcome(View()[p], batches[p])
    {
      batches := map[];
      var todo := publishers.Keys;
      ghost var before := View();
      while todo != {}
        invariant Valid() && View().Keys == before.Keys
        invariant todo <= before.Keys && batches.Keys == before.Keys - todo
        invariant forall p :: p in todo ==> View()[p] == before[p]
        invariant forall p :: p in batches ==> PublishAllSpec(before[p], cancelled) == Outcome(View()[p], batches[p])
        decreases todo
      {
        var p :| p in todo;
        var batch := ForceOne(p, cancelled);
        batches := batches[p := batch];
        todo := todo - {p};
      }
    }
  }

  // ----- sending a batch -----

  datatype PublishError = ChainHeadFailed | StartPassed | MixedProviders | NotSent

  /** What a deal is answered. */
  datatype Answer = Answer(id: nat, result: Result<Option<nat>, PublishError>)

  function Validate(d: Deal, head: Option<int>): Option<PublishError> {
    if head.None? then Some(ChainHeadFailed)
    else if head.value > d.startEpoch then Some(StartPassed)
    else None
  }

  predicate OneProvider(deals: seq<Deal>) {
    forall i, j :: 0 <= i < j < |deals| ==> deals[i].provider == deals[j].provider
  }

  /** Sends the deals as one message; `push` is its ID, if every call to send it succeeds. */
  method PublishDealProposals(deals: seq<Deal>, push: Option<nat>)
    returns (r: Result<Option<nat>, PublishError>, sent: seq<Deal>)
    ensures r == Err(MixedProviders) <==> !OneProvider(deals)
    ensures sent == if OneProvider(deals) && push.Some? then deals else []
    ensures OneProvider(deals) ==>
              r == if deals == [] then Ok(None) else if push.Some? then Ok(push) else Err(NotSent)
  {
    sent := [];
    if |deals| == 0 {
      return Ok(None), [];
    }
    for i := 0 to |deals|
      invariant forall j :: 0 <= j < i ==> deals[j].provider == deals[0].provider
    {
      if deals[i].provider != deals[0].provider {
        assert !OneProvider(deals);
        return Err(MixedProviders), [];
      }
    }
    if push.None? {
      return Err(NotSent), [];
    }
    return Ok(push), deals;
  }

  /** The deals that pass validation; `heads(i)` is the chain head seen for deal i, if any. */
  function Validated(ready: seq<Deal>, heads: nat -> Option<int>): seq<Deal> {
    if ready == [] then []
    else
      var n := |ready| - 1;
      Validated(ready[..n], heads) + (if Validate(ready[n], heads(n)).None? then [ready[n]] else [])
  }

  function RejectedAnswers(ready: seq<Deal>, heads: nat -> Option<int>): seq<Answer> {
    if ready == [] then []
    else
      var n := |ready| - 1;
      RejectedAnswers(ready[..n], heads) +
        (match Validate(ready[n], heads(n))
         case None => []
         case Some(e) => [Answer(ready[n].id, Err(e))])
  }

  function SendResult(deals: seq<Deal>, push: Option<nat>): Result<Option<nat>, PublishError> {
    if !OneProvider(deals) then Err(MixedProviders) else if push.Some? then Ok(push) else Err(NotSent)
  }

  function SentBy(ready: seq<Deal>, heads: nat -> Option<int>, push: Option<nat>): seq<Deal> {
    if OneProvider(Validated(ready, heads)) && push.Some? then Validated(ready, heads) else []
  }

  function AnswersBy(ready: seq<Deal>, heads: nat -> Option<int>, push: Option<nat>): seq<Answer> {
    RejectedAnswers(ready, heads) + AnswerAll(Validated(ready, heads), SendResult(Validated(ready, heads), push))
  }

  method PublishReady(ready: seq<Deal>, heads: nat -> Option<int>, push: Option<nat>)
    returns (answers: seq<Answer>, sent: seq<Deal>)
    ensures sent == SentBy(ready, heads, push) && answers == AnswersBy(ready, heads, push)
  {
    answers, sent := [], [];
    if |ready| == 0 {
      return;
    }
    var validated: seq<Deal> := [];
    for i := 0 to |ready|
      invariant validated == Validated(ready[..i], heads)
      invariant answers == RejectedAnswers(ready[..i], heads)
    {
      assert ready[..i + 1][..i] == ready[..i];
      match Validate(ready[i], heads(i))
      case Some(e) => answers := answers + [Answer(ready[i].id, Err(e))];
      case None => validated := validated + [ready[i]];
    }
    assert ready[..|ready|] == ready;
    var r, s := PublishDealProposals(validated, push);
    sent := s;
    answers := answers + AnswerAll(validated, r);
  }

  function AnswerAll(deals: seq<Deal>, r: Result<Option<nat>, PublishError>): (answers: seq<Answer>)
    ensures |answers| == |deals|
    ensures forall i :: 0 <= i < |deals| ==> answers[i] == Answer(deals[i].id, r)
  {
    seq(|deals|, i requires 0 <= i < |deals| => Answer(deals[i].id, r))
  }

  /** How often a call is waiting among deals, and how often it is answered. */
  function Waiting(deals: seq<Deal>, id: nat): nat {
    if deals == [] then 0 else Waiting(deals[..|deals| - 1], id) + (if deals[|deals| - 1].id == id then 1 else 0)
  }

  function Answered(answers: seq<Answer>, id: nat): nat {
    if answers == [] then 0
    else Answered(answers[..|answers| - 1], id) + (if answers[|answers| - 1].id == id then 1 else 0)
  }

  lemma {:induction false} AnsweredConcat(x: seq<Answer>, y: seq<Answer>, id: nat)
    ensures Answered(x + y, id) == Answered(x, id) + Answered(y, id)
  {
    if y == [] {
      assert x + y == x;
    } else {
      AnsweredConcat(x, y[..|y| - 1], id);
      assert (x + y)[..|x + y| - 1] == x + y[..|y| - 1];
    }
  }

  lemma {:induction false} AnsweredAll(deals: seq<Deal>, r: Result<Option<nat>, PublishError>, id: nat)
    ensures Answered(AnswerAll(deals, r), id) == Waiting(deals, id)
  {
    if deals != [] {
      var n := |deals| - 1;
      AnsweredAll(deals[..n], r, id);
      assert AnswerAll(deals, r)[..n] == AnswerAll(deals[..n], r);
    }
  }

  lemma {:induction false} ValidatedOrRejected(ready: seq<Deal>, heads: nat -> Option<int>, id: nat)
    ensures Answered(RejectedAnswers(ready, heads), id) + Waiting(Validated(ready, heads), id) == Waiting(ready, id)
  {
    if ready != [] {
      var n := |ready| - 1;
      var valid, rejected := Validated(ready[..n], heads), RejectedAnswers(ready[..n], heads);
      ValidatedOrRejected(ready[..n], heads, id);
      if Validate(ready[n], heads(n)).None? {
        assert (valid + [ready[n]])[..|valid|] == valid;
        assert rejected + [] == rejected;
      } else {
        assert (rejected + [Answer(ready[n].id, Err(Validate(ready[n], heads(n)).value))])[..|rejected|] == rejected;
        assert valid + [] == valid;
      }
    }
  }

  /** Whatever becomes of the message, every deal of a batch is answered as often as it waits. */
  lemma BatchAnswered(ready: seq<Deal>, heads: nat -> Option<int>, r: Result<Option<nat>, PublishError>, id: nat)
    ensures Answered(RejectedAnswers(ready, heads) + AnswerAll(Validated(ready, heads), r), id) == Waiting(ready, id)
  {
    AnsweredConcat(RejectedAnswers(ready, heads), AnswerAll(Validated(ready, heads), r), id);
    AnsweredAll(Validated(ready, heads), r, id);
    ValidatedOrRejected(ready, heads, id);
  }

  /** Exactly the deals of a batch whose start has not passed are sent. */
  lemma {:induction false} ValidatedMembers(ready: seq<Deal>, heads: nat -> Option<int>)
    ensures forall d :: d in Validated(ready, heads) <==>
              exists i :: 0 <= i < |ready| && ready[i] == d && Validate(d, heads(i)).None?
  {
    if ready != [] {
      var n := |ready| - 1;
      var before := Validated(ready[..n], heads);
      ValidatedMembers(ready[..n], heads);
      forall d | d in before
        ensures exists i :: 0 <= i < |ready| && ready[i] == d && Validate(d, heads(i)).None?
      {
        var i :| 0 <= i < n && ready[..n][i] == d && Validate(d, heads(i)).None?;
        assert ready[i] == d && Validate(d, heads(i)).None?;
      }
      forall i | 0 <= i < n && Validate(ready[i], heads(i)).None?
        ensures ready[i] in before
      {
        assert ready[..n][i] == ready[i];
      }
    }
  }

  /** What is left of a batch for one provider is for one provider. */
  lemma ValidatedOneProvider(ready: seq<Deal>, heads: nat -> Option<int>)
    requires OneProvider(ready)
    ensures OneProvider(Validated(ready, heads))
  {
    ValidatedMembers(ready, heads);
    var valid := Validated(ready, heads);
    forall i, j | 0 <= i < j < |valid|
      ensures valid[i].provider == valid[j].provider
    {
      assert valid[i] in valid && valid[j] in valid;
    }
  }
}
