/**
 Which deals a batch holds, which of them are sent, and what each is answered, in terms of the
 fields of the deals and of what the chain said.
 */
module PublishLaws {
  import opened Wrappers
  import opened Selections
  import opened DealPublisher
  import PublishRuns

  // ----- which deals are in a batch -----

  /** A queue keeps exactly the deals that are not cancelled, in order. */
  lemma {:induction false} LivePicks(deals: seq<Deal>, cancelled: set<nat>) returns (at: seq<nat>)
    ensures Picks(Live(deals, cancelled), deals, at)
    ensures forall k: nat :: k in at <==> k < |deals| && deals[k].id !in cancelled
  {
    at := [];
    if deals != [] {
      var n := |deals| - 1;
      at := LivePicks(deals[..n], cancelled);
      PicksNext(Live(deals[..n], cancelled), deals[..n], at, deals[n]);
      assert deals == deals[..n] + [deals[n]];
      assert Live(deals[..n], cancelled) + [] == Live(deals[..n], cancelled);
      if deals[n].id !in cancelled {
        at := at + [n];
      }
    }
  }

  /**
   A submission publishes exactly if its deal is not cancelled and the deals that wait are, with it,
   as many as the limit, or batching is off. It publishes all of them that are not cancelled then.
   */
  lemma PublishesIff(cfg: Config, q: Queue, d: Deal, early: set<nat>, late: set<nat>)
    ensures var live := Live(q.pending, early);
            var o := NewDealSpec(cfg, q, d, early, late);
            if d.id in early then o.batch == [] && o.queue.pending == live
            else if |live| + 1 >= cfg.maxDeals || cfg.period == 0 then
              o.queue.pending == [] && o.batch == Live(live + [d], late)
            else o.batch == [] && o.queue.pending == live + [d]
  {
  }

  /** In a run, a batch is published only on demand, or by a submission that fills the queue. */
  lemma BatchOnlyIf(cfg: Config, w: PublishRuns.World, e: PublishRuns.Event, provider: nat)
    requires PublishRuns.TrackOf(PublishRuns.Apply(cfg, w, e), provider).batches != PublishRuns.TrackOf(w, provider).batches
    ensures || e == PublishRuns.PublishNow(provider)
            || (e.Submit? && e.d.provider == provider && e.d.id !in w.cancelled
                && (|Live(PublishRuns.TrackOf(w, provider).queue.pending, w.cancelled)| + 1 >= cfg.maxDeals || cfg.period == 0))
  {
    if e.Submit? && e.d.provider == provider {
      PublishRuns.SubmitFollows(cfg, PublishRuns.TrackOf(w, provider), e.d, w.cancelled, e.late);
      PublishesIff(cfg, PublishRuns.TrackOf(w, provider).queue, e.d, w.cancelled, e.late);
    }
  }

  // ----- which deals are sent -----

  /** A chain head was read for the deal, and its start has not passed there. */
  predicate InTime(ready: seq<Deal>, heads: nat -> Option<int>, k: nat) {
    k < |ready| && heads(k).Some? && heads(k).value <= ready[k].startEpoch
  }

  /** Two deals in time are for different providers. */
  ghost predicate Mixed(ready: seq<Deal>, heads: nat -> Option<int>) {
    exists i: nat, j: nat :: InTime(ready, heads, i) && InTime(ready, heads, j) && ready[i].provider != ready[j].provider
  }

  lemma {:induction false} InTimePicks(ready: seq<Deal>, heads: nat -> Option<int>) returns (at: seq<nat>)
    ensures Picks(Validated(ready, heads), ready, at)
    ensures forall k: nat :: k in at <==> InTime(ready, heads, k)
  {
    at := [];
    if ready != [] {
      var n := |ready| - 1;
      at := InTimePicks(ready[..n], heads);
      PicksNext(Validated(ready[..n], heads), ready[..n], at, ready[n]);
      assert ready == ready[..n] + [ready[n]];
      assert Validated(ready[..n], heads) + [] == Validated(ready[..n], heads);
      assert forall k: nat :: k < n ==> (InTime(ready, heads, k) <==> InTime(ready[..n], heads, k));
      if heads(n).Some? && heads(n).value <= ready[n].startEpoch {
        at := at + [n];
      }
    }
  }

  lemma MixedIff(ready: seq<Deal>, heads: nat -> Option<int>)
    ensures OneProvider(Validated(ready, heads)) <==> !Mixed(ready, heads)
  {
    var valid := Validated(ready, heads);
    var at := InTimePicks(ready, heads);
    if i: nat, j: nat :| InTime(ready, heads, i) && InTime(ready, heads, j) && ready[i].provider != ready[j].provider {
      var k :| 0 <= k < |at| && at[k] == i;
      var l :| 0 <= l < |at| && at[l] == j;
      assert valid[k].provider != valid[l].provider;
    }
    if !OneProvider(valid) {
      var k, l :| 0 <= k < l < |valid| && valid[k].provider != valid[l].provider;
      assert at[k] in at && at[l] in at;
      assert InTime(ready, heads, at[k]) && InTime(ready, heads, at[l]) && ready[at[k]].provider != ready[at[l]].provider;
    }
  }

  /**
   Sent are exactly the deals of the batch that are in time, in order, if all of these are for one
   provider and the message can be sent; otherwise none.
   */
  lemma SentIff(ready: seq<Deal>, heads: nat -> Option<int>, push: Option<nat>) returns (at: seq<nat>)
    ensures Picks(SentBy(ready, heads, push), ready, at)
    ensures forall k: nat :: k in at <==>
              && k < |ready| && heads(k).Some? && heads(k).value <= ready[k].startEpoch
              && push.Some? && !Mixed(ready, heads)
  {
    MixedIff(ready, heads);
    at := [];
    if push.Some? && !Mixed(ready, heads) {
      at := InTimePicks(ready, heads);
    }
  }

  // ----- what each deal is answered -----

  /** What a deal of a batch is to be answered. */
  function Due(ready: seq<Deal>, heads: nat -> Option<int>, push: Option<nat>, mixed: bool, k: nat)
    : Result<Option<nat>, PublishError>
    requires k < |ready|
  {
    if heads(k).None? then Err(ChainHeadFailed)
    else if heads(k).value > ready[k].startEpoch then Err(StartPassed)
    else if mixed then Err(MixedProviders)
    else if push.None? then Err(NotSent)
    else Ok(push)
  }

  lemma {:induction false} RejectedAre(ready: seq<Deal>, heads: nat -> Option<int>, k: nat)
    requires k < |ready| && !InTime(ready, heads, k)
    ensures Answer(ready[k].id, if heads(k).None? then Err(ChainHeadFailed) else Err(StartPassed)) in RejectedAnswers(ready, heads)
  {
    var n := |ready| - 1;
    if k < n {
      RejectedAre(ready[..n], heads, k);
    }
  }

  /** Every deal of a batch gets the answer for its own case. */
  lemma AnswerIs(ready: seq<Deal>, heads: nat -> Option<int>, push: Option<nat>, k: nat)
    requires k < |ready|
    ensures Answer(ready[k].id, Due(ready, heads, push, Mixed(ready, heads), k)) in AnswersBy(ready, heads, push)
  {
    MixedIff(ready, heads);
    if InTime(ready, heads, k) {
      var at := InTimePicks(ready, heads);
      var i :| 0 <= i < |at| && at[i] == k;
      var valid := Validated(ready, heads);
      var sent := AnswerAll(valid, SendResult(valid, push));
      assert sent[i] == Answer(ready[k].id, SendResult(valid, push)) && sent[i] in sent;
    } else {
      RejectedAre(ready, heads, k);
    }
  }

  lemma {:induction false} AnsweredMember(answers: seq<Answer>, a: Answer)
    requires a in answers
    ensures Answered(answers, a.id) > 0
  {
    if answers[|answers| - 1] != a {
      AnsweredMember(answers[..|answers| - 1], a);
    }
  }

  lemma {:induction false} AnsweredByTwo(answers: seq<Answer>, a: Answer, b: Answer)
    requires a in answers && b in answers && a != b && a.id == b.id
    ensures Answered(answers, a.id) >= 2
  {
    var init := answers[..|answers| - 1];
    if a in init && b in init {
      AnsweredByTwo(init, a, b);
    } else if a in init {
      AnsweredMember(init, a);
    } else {
      AnsweredMember(init, b);
    }
  }

  /** And a deal that waits once gets no other answer. */
  lemma OnlyAnswer(ready: seq<Deal>, heads: nat -> Option<int>, push: Option<nat>, k: nat, a: Answer)
    requires k < |ready| && Waiting(ready, ready[k].id) == 1
    requires a in AnswersBy(ready, heads, push) && a.id == ready[k].id
    ensures a.result == Due(ready, heads, push, Mixed(ready, heads), k)
  {
    AnswerIs(ready, heads, push, k);
    var b := Answer(ready[k].id, Due(ready, heads, push, Mixed(ready, heads), k));
    BatchAnswered(ready, heads, SendResult(Validated(ready, heads), push), a.id);
    if a != b {
      AnsweredByTwo(AnswersBy(ready, heads, push), a, b);
    }
  }
}
