/**
 Batching over time: every deal is published once, in order, in small batches for one provider;
 and exactly when a queue ends up without a timer.
 */
module PublishRuns {
  import opened DealPublisher

  // ----- dropping deals from a queue -----

  ghost predicate Distinct(deals: seq<Deal>) {
    forall i, j :: 0 <= i < j < |deals| ==> deals[i].id != deals[j].id
  }

  lemma {:induction false} LiveMembers(deals: seq<Deal>, gone: set<nat>)
    ensures forall d :: d in Live(deals, gone) <==> d in deals && d.id !in gone
  {
    if deals != [] {
      var init, last := deals[..|deals| - 1], deals[|deals| - 1];
      LiveMembers(init, gone);
      assert forall d :: d in deals <==> d in init || d == last;
    }
  }

  lemma {:induction false} LiveConcat(x: seq<Deal>, y: seq<Deal>, gone: set<nat>)
    ensures Live(x + y, gone) == Live(x, gone) + Live(y, gone)
  {
    if y == [] {
      assert x + y == x && Live(x, gone) + [] == Live(x, gone);
    } else {
      LiveConcat(x, y[..|y| - 1], gone);
      assert (x + y)[..|x + y| - 1] == x + y[..|y| - 1];
    }
  }

  /** Dropping some and then others is dropping both. */
  lemma {:induction false} LiveTwice(deals: seq<Deal>, one: set<nat>, two: set<nat>)
    ensures Live(Live(deals, one), two) == Live(deals, one + two)
  {
    if deals != [] {
      var init, last := deals[..|deals| - 1], deals[|deals| - 1];
      LiveTwice(init, one, two);
      LiveConcat(Live(init, one), [last], two);
      assert [last][..0] == [];
      assert Live(init, one) + [] == Live(init, one);
    }
  }

  /** Only the marks of deals in the sequence matter. */
  lemma {:induction false} LiveSame(deals: seq<Deal>, one: set<nat>, two: set<nat>)
    requires forall d :: d in deals ==> (d.id in one <==> d.id in two)
    ensures Live(deals, one) == Live(deals, two)
  {
    if deals != [] {
      var init, last := deals[..|deals| - 1], deals[|deals| - 1];
      assert last in deals;
      LiveSame(init, one, two);
    }
  }

  lemma {:induction false} LiveNone(deals: seq<Deal>)
    ensures Live(deals, {}) == deals
  {
    if deals != [] {
      LiveNone(deals[..|deals| - 1]);
    }
  }

  lemma {:induction false} LiveDistinct(deals: seq<Deal>, gone: set<nat>)
    requires Distinct(deals)
    ensures Distinct(Live(deals, gone))
  {
    if deals != [] {
      var init, last := deals[..|deals| - 1], deals[|deals| - 1];
      LiveDistinct(init, gone);
      LiveMembers(init, gone);
      assert forall d :: d in init ==> d.id != last.id;
      assert forall i :: 0 <= i < |Live(init, gone)| ==> Live(init, gone)[i] in init;
    }
  }

  function Ids(deals: seq<Deal>): set<nat> {
    set d | d in deals :: d.id
  }

  /** Dropping deals from the tail of a sequence of distinct deals is dropping them from all of it. */
  lemma DropFromTail(all: seq<Deal>, head: seq<Deal>, tail: seq<Deal>, gone: set<nat>, cancelled: set<nat>)
    requires Distinct(all) && head + tail == Live(all, gone)
    ensures head + Live(tail, cancelled) == Live(all, gone + (Ids(tail) * cancelled))
  {
    var dropped := Ids(tail) * cancelled;
    LiveTwice(all, gone, dropped);
    LiveConcat(head, tail, dropped);
    LiveDistinct(all, gone);
    forall d | d in head
      ensures d.id !in dropped
    {
      HeadTailDisjoint(head, tail, d);
    }
    LiveSame(head, dropped, {});
    LiveNone(head);
    LiveSame(tail, dropped, cancelled);
  }

  lemma HeadTailDisjoint(head: seq<Deal>, tail: seq<Deal>, d: Deal)
    requires Distinct(head + tail) && d in head
    ensures d.id !in Ids(tail)
  {
    var i :| 0 <= i < |head| && head[i] == d;
    forall e | e in tail
      ensures e.id != d.id
    {
      var j :| 0 <= j < |tail| && tail[j] == e;
      assert (head + tail)[i].id != (head + tail)[|head| + j].id;
    }
  }

  // ----- the history of one provider's queue -----

  /** A queue, the deals submitted to it, its batches in order, and the deals it dropped. */
  datatype Track = Track(queue: Queue, submitted: seq<Deal>, batches: seq<seq<Deal>>, dropped: set<nat>)

  const START := Track(EMPTY, [], [], {})

  function Flat(batches: seq<seq<Deal>>): seq<Deal> {
    if batches == [] then [] else Flat(batches[..|batches| - 1]) + batches[|batches| - 1]
  }

  /** An empty batch is no message. */
  function AddBatch(batches: seq<seq<Deal>>, batch: seq<Deal>): (r: seq<seq<Deal>>)
    ensures Flat(r) == Flat(batches) + batch
  {
    if batch == [] then batches
    else
      assert (batches + [batch])[..|batches|] == batches;
      batches + [batch]
  }

  function FilterTrack(t: Track, cancelled: set<nat>): Track {
    t.(queue := FilterSpec(t.queue, cancelled), dropped := t.dropped + (Ids(t.queue.pending) * cancelled))
  }

  function PublishTrack(t: Track, cancelled: set<nat>): Track {
    var o := PublishAllSpec(t.queue, cancelled);
    Track(o.queue, t.submitted, AddBatch(t.batches, o.batch), t.dropped + (Ids(t.queue.pending) * cancelled))
  }

  /** A submitted deal joins the queue, unless it is cancelled already. */
  function JoinTrack(t: Track, d: Deal, early: set<nat>): Track {
    if d.id in early then t.(submitted := t.submitted + [d], dropped := t.dropped + {d.id})
    else t.(submitted := t.submitted + [d], queue := t.queue.(pending := t.queue.pending + [d]))
  }

  function SubmitTrack(cfg: Config, t: Track, d: Deal, early: set<nat>, late: set<nat>): Track {
    var t' := JoinTrack(FilterTrack(t, early), d, early);
    if d.id in early then t'
    else if IsFull(cfg, t'.queue.pending) then PublishTrack(t', late)
    else t'.(queue := NewDealSpec(cfg, t.queue, d, early, late).queue)
  }

  /** The history follows the queue: what it adds is what the publisher does. */
  lemma SubmitFollows(cfg: Config, t: Track, d: Deal, early: set<nat>, late: set<nat>)
    ensures var o, t' := NewDealSpec(cfg, t.queue, d, early, late), SubmitTrack(cfg, t, d, early, late);
            && t'.queue == o.queue
            && t'.submitted == t.submitted + [d]
            && t'.batches == AddBatch(t.batches, o.batch)
  {
  }

  /** The largest number of deals a batch can have. */
  function Bound(cfg: Config): nat {
    if cfg.maxDeals == 0 || cfg.period == 0 then 1 else cfg.maxDeals
  }

  /** What was submitted and not dropped is in the batches and then the queue, in this order. */
  ghost predicate Conserved(t: Track) {
    Flat(t.batches) + t.queue.pending == Live(t.submitted, t.dropped)
  }

  ghost predicate Small(cfg: Config, t: Track, room: nat) {
    && |t.queue.pending| + room <= Bound(cfg)
    && forall i :: 0 <= i < |t.batches| ==> 0 < |t.batches[i]| <= Bound(cfg)
  }

  ghost predicate Homogeneous(t: Track, provider: nat) {
    forall d :: d in t.submitted ==> d.provider == provider
  }

  /** Dropped deals were submitted and cancelled. */
  ghost predicate DropsOk(t: Track, cancelled: set<nat>) {
    t.dropped <= cancelled && t.dropped <= Ids(t.submitted)
  }

  ghost predicate TrackInv(cfg: Config, t: Track, provider: nat, cancelled: set<nat>) {
    && Conserved(t) && Distinct(t.submitted) && Homogeneous(t, provider)
    && Small(cfg, t, 1) && DropsOk(t, cancelled)
  }

  lemma FilterKeeps(t: Track, cancelled: set<nat>)
    requires Conserved(t) && Distinct(t.submitted)
    ensures Conserved(FilterTrack(t, cancelled))
    ensures |FilterTrack(t, cancelled).queue.pending| <= |t.queue.pending|
  {
    DropFromTail(t.submitted, Flat(t.batches), t.queue.pending, t.dropped, cancelled);
    LiveShorter(t.queue.pending, cancelled);
  }

  lemma PublishKeeps(t: Track, cancelled: set<nat>)
    requires Conserved(t) && Distinct(t.submitted)
    ensures Conserved(PublishTrack(t, cancelled))
  {
    DropFromTail(t.submitted, Flat(t.batches), t.queue.pending, t.dropped, cancelled);
    var t' := PublishTrack(t, cancelled);
    assert Flat(t'.batches) + [] == Flat(t'.batches);
  }

  lemma JoinKeeps(t: Track, d: Deal, early: set<nat>)
    requires Conserved(t) && Distinct(t.submitted) && d.id !in Ids(t.submitted) && d.id !in t.dropped
    ensures Conserved(JoinTrack(t, d, early)) && Distinct(JoinTrack(t, d, early).submitted)
  {
    var t' := JoinTrack(t, d, early);
    forall e | e in t.submitted
      ensures e.id != d.id
    {
      assert e.id in Ids(t.submitted);
    }
    assert (t.submitted + [d])[..|t.submitted|] == t.submitted;
    LiveSame(t.submitted, t.dropped, t'.dropped);
    if d.id !in early {
      assert Flat(t.batches) + t'.queue.pending == Flat(t.batches) + t.queue.pending + [d];
    } else {
      assert Live(t.submitted, t'.dropped) + [] == Live(t.submitted, t'.dropped);
    }
  }

  lemma PendingWasSubmitted(t: Track)
    requires Conserved(t)
    ensures Ids(t.queue.pending) <= Ids(t.submitted)
  {
    LiveMembers(t.submitted, t.dropped);
    forall d | d in t.queue.pending
      ensures d in t.submitted
    {
      assert d in Flat(t.batches) + t.queue.pending;
    }
  }

  lemma JoinedIds(t: Track, d: Deal, early: set<nat>)
    ensures Ids(JoinTrack(t, d, early).submitted) == Ids(t.submitted) + {d.id}
  {
    assert forall e :: e in t.submitted + [d] <==> e in t.submitted || e == d;
  }

  /** The history after a deal joined: the queue may be full. */
  lemma JoinedKeeps(cfg: Config, t: Track, d: Deal, early: set<nat>)
    requires TrackInv(cfg, t, d.provider, early) && d.id !in Ids(t.submitted)
    ensures var t' := JoinTrack(FilterTrack(t, early), d, early);
            && Conserved(t') && Distinct(t'.submitted) && Homogeneous(t', d.provider)
            && Small(cfg, t', if d.id in early then 1 else 0) && DropsOk(t', early)
  {
    var t1 := FilterTrack(t, early);
    FilterKeeps(t, early);
    PendingWasSubmitted(t);
    JoinKeeps(t1, d, early);
    JoinedIds(t1, d, early);
  }

  lemma PublishNowKeeps(cfg: Config, t: Track, provider: nat, cancelled: set<nat>)
    requires Conserved(t) && Distinct(t.submitted) && Homogeneous(t, provider)
    requires Small(cfg, t, 0) && DropsOk(t, cancelled)
    ensures TrackInv(cfg, PublishTrack(t, cancelled), provider, cancelled)
  {
    PublishKeeps(t, cancelled);
    PublishSmall(cfg, t, cancelled);
    PendingWasSubmitted(t);
  }

  lemma PublishSmall(cfg: Config, t: Track, cancelled: set<nat>)
    requires Small(cfg, t, 0)
    ensures Small(cfg, PublishTrack(t, cancelled), 1)
  {
    LiveShorter(t.queue.pending, cancelled);
  }

  /** A submission keeps the history right. */
  lemma SubmitKeeps(cfg: Config, t: Track, d: Deal, early: set<nat>, late: set<nat>)
    requires TrackInv(cfg, t, d.provider, early) && early <= late && d.id !in Ids(t.submitted)
    ensures TrackInv(cfg, SubmitTrack(cfg, t, d, early, late), d.provider, late)
  {
    var t' := JoinTrack(FilterTrack(t, early), d, early);
    JoinedKeeps(cfg, t, d, early);
    if d.id !in early && IsFull(cfg, t'.queue.pending) {
      PublishNowKeeps(cfg, t', d.provider, late);
    }
  }

  // ----- all providers over time -----

  datatype World = World(tracks: map<nat, Track>, cancelled: set<nat>)

  const NEW := World(map[], {})

  /** `late` are the deals cancelled by the end of the call; a timer that expires publishes as well. */
  datatype Event = Submit(d: Deal, late: set<nat>) | Cancel(id: nat) | PublishNow(provider: nat)

  function TrackOf(w: World, provider: nat): Track {
    if provider in w.tracks then w.tracks[provider] else START
  }

  ghost predicate Enabled(w: World, e: Event) {
    match e
    case Submit(d, late) => d.id !in Ids(TrackOf(w, d.provider).submitted) && w.cancelled <= late
    case Cancel(_) => true
    case PublishNow(p) => p in w.tracks
  }

  function Apply(cfg: Config, w: World, e: Event): World {
    match e
    case Submit(d, late) =>
      World(w.tracks[d.provider := SubmitTrack(cfg, TrackOf(w, d.provider), d, w.cancelled, late)], late)
    case Cancel(id) => w.(cancelled := w.cancelled + {id})
    case PublishNow(p) => w.(tracks := w.tracks[p := PublishTrack(TrackOf(w, p), w.cancelled)])
  }

  ghost predicate Inv(cfg: Config, w: World) {
    forall p :: p in w.tracks ==> TrackInv(cfg, w.tracks[p], p, w.cancelled)
  }

  lemma StartInv(cfg: Config, provider: nat, cancelled: set<nat>)
    ensures TrackInv(cfg, START, provider, cancelled)
  {
  }

  lemma MoreCancelled(cfg: Config, w: World, cancelled: set<nat>)
    requires Inv(cfg, w) && w.cancelled <= cancelled
    ensures Inv(cfg, w.(cancelled := cancelled))
  {
    forall p | p in w.tracks
      ensures TrackInv(cfg, w.tracks[p], p, cancelled)
    {
      assert TrackInv(cfg, w.tracks[p], p, w.cancelled);
    }
  }

  lemma StepKeeps(cfg: Config, w: World, e: Event)
    requires Inv(cfg, w) && Enabled(w, e)
    ensures Inv(cfg, Apply(cfg, w, e))
  {
    match e
    case Submit(d, late) =>
      StartInv(cfg, d.provider, w.cancelled);
      SubmitKeeps(cfg, TrackOf(w, d.provider), d, w.cancelled, late);
      MoreCancelled(cfg, w, late);
    case Cancel(id) => MoreCancelled(cfg, w, w.cancelled + {id});
    case PublishNow(p) => PublishNowKeeps(cfg, w.tracks[p], p, w.cancelled);
  }

  ghost predicate Possible(cfg: Config, w: World, es: seq<Event>)
    decreases |es|
  {
    es != [] ==> Enabled(w, es[0]) && Possible(cfg, Apply(cfg, w, es[0]), es[1..])
  }

  function Final(cfg: Config, w: World, es: seq<Event>): World
    decreases |es|
  {
    if es == [] then w else Final(cfg, Apply(cfg, w, es[0]), es[1..])
  }

  lemma {:induction false} RunKeeps(cfg: Config, w: World, es: seq<Event>)
    requires Inv(cfg, w) && Possible(cfg, w, es)
    ensures Inv(cfg, Final(cfg, w, es))
    decreases |es|
  {
    if es != [] {
      StepKeeps(cfg, w, es[0]);
      RunKeeps(cfg, Apply(cfg, w, es[0]), es[1..]);
    }
  }

  lemma {:induction false} WaitingOnce(deals: seq<Deal>, id: nat)
    requires Distinct(deals)
    ensures Waiting(deals, id) == if id in Ids(deals) then 1 else 0
  {
    if deals != [] {
      var init, last := deals[..|deals| - 1], deals[|deals| - 1];
      WaitingOnce(init, id);
      assert Ids(deals) == Ids(init) + {last.id} by {
        assert forall d :: d in deals <==> d in init || d == last;
      }
      assert last.id !in Ids(init);
    }
  }

  /**
   After any run, a deal that was submitted and not cancelled is in exactly one batch or still
   waiting, no deal is there twice, and batches and queue are in the order of submission.
   */
  lemma PublishedOnce(cfg: Config, es: seq<Event>, provider: nat)
    requires Possible(cfg, NEW, es)
    ensures var w := Final(cfg, NEW, es);
            var t := TrackOf(w, provider);
            var kept := Flat(t.batches) + t.queue.pending;
            && kept == Live(t.submitted, t.dropped) && t.dropped <= w.cancelled
            && (forall id: nat :: Waiting(kept, id) <= 1)
            && (forall d :: d in t.submitted && d.id !in w.cancelled ==> Waiting(kept, d.id) == 1)
  {
    RunKeeps(cfg, NEW, es);
    var w := Final(cfg, NEW, es);
    StartInv(cfg, provider, w.cancelled);
    KeptOnce(cfg, TrackOf(w, provider), provider, w.cancelled);
  }

  lemma KeptOnce(cfg: Config, t: Track, provider: nat, cancelled: set<nat>)
    requires TrackInv(cfg, t, provider, cancelled)
    ensures var kept := Flat(t.batches) + t.queue.pending;
            && (forall id: nat :: Waiting(kept, id) <= 1)
            && (forall d :: d in t.submitted && d.id !in cancelled ==> Waiting(kept, d.id) == 1)
  {
    var kept := Flat(t.batches) + t.queue.pending;
    LiveDistinct(t.submitted, t.dropped);
    LiveMembers(t.submitted, t.dropped);
    forall id: nat
      ensures Waiting(kept, id) == if id in Ids(kept) then 1 else 0
    {
      WaitingOnce(kept, id);
    }
    forall d | d in t.submitted && d.id !in cancelled
      ensures d.id in Ids(kept)
    {
      assert d in kept;
    }
  }

  lemma {:induction false} InFlat(batches: seq<seq<Deal>>, i: nat, d: Deal)
    requires i < |batches| && d in batches[i]
    ensures d in Flat(batches)
  {
    if i < |batches| - 1 {
      InFlat(batches[..|batches| - 1], i, d);
    }
  }

  /** Every batch of every run is small and for one provider, so none is refused for mixing providers. */
  lemma {:induction false} BatchesAreGood(cfg: Config, es: seq<Event>, provider: nat, i: nat)
    requires Possible(cfg, NEW, es) && i < |TrackOf(Final(cfg, NEW, es), provider).batches|
    ensures var batch := TrackOf(Final(cfg, NEW, es), provider).batches[i];
            && 0 < |batch| <= Bound(cfg)
            && (forall d :: d in batch ==> d.provider == provider)
            && OneProvider(batch)
  {
    RunKeeps(cfg, NEW, es);
    var t := TrackOf(Final(cfg, NEW, es), provider);
    LiveMembers(t.submitted, t.dropped);
    forall d | d in t.batches[i]
      ensures d.provider == provider
    {
      InFlat(t.batches, i, d);
      assert d in Flat(t.batches) + t.queue.pending;
    }
    var batch := t.batches[i];
    assert forall j :: 0 <= j < |batch| ==> batch[j] in batch;
  }

  /** All batches are within the configured limit. */
  ghost predicate WithinLimit(cfg: Config, w: World) {
    forall p, i :: p in w.tracks && 0 <= i < |w.tracks[p].batches| ==> |w.tracks[p].batches[i]| <= cfg.maxDeals
  }

  lemma ZeroLimitBatch(cfg: Config, d: Deal)
    requires cfg.maxDeals == 0
    ensures SubmitTrack(cfg, START, d, {}, {}).batches == [[d]]
  {
    LiveNone([d]);
    assert Live([], {}) + [d] == [d];
  }

  lemma ZeroLimitExceeded(cfg: Config, es: seq<Event>)
    requires cfg.maxDeals == 0 && es == [Submit(Deal(0, 0, 0), {})]
    ensures Possible(cfg, NEW, es) && !WithinLimit(cfg, Final(cfg, NEW, es))
  {
    var w := Apply(cfg, NEW, es[0]);
    ZeroLimitBatch(cfg, es[0].d);
    assert Final(cfg, w, es[1..]) == w && Possible(cfg, w, es[1..]);
    assert |w.tracks[0].batches[0]| == 1;
  }

  /** The limit holds in every run exactly if it is positive: a limit of zero still publishes single deals. */
  lemma LimitHoldsIff(cfg: Config)
    ensures (forall es :: Possible(cfg, NEW, es) ==> WithinLimit(cfg, Final(cfg, NEW, es))) <==> cfg.maxDeals >= 1
  {
    if cfg.maxDeals >= 1 {
      forall es | Possible(cfg, NEW, es)
        ensures WithinLimit(cfg, Final(cfg, NEW, es))
      {
        RunKeeps(cfg, NEW, es);
      }
    } else {
      ZeroLimitExceeded(cfg, [Submit(Deal(0, 0, 0), {})]);
    }
  }

  // ----- the timer -----

  /** The timer was started and has been cancelled, but the queue believes that it is running. */
  predicate TimerLost(q: Queue) { q.started && !q.armed }

  ghost predicate TimerInv(q: Queue) {
    && (q.armed ==> q.started && q.pending != [])
    && (q.pending != [] ==> q.started)
  }

  /** A submission that finds a timer running and all waiting deals cancelled. */
  predicate LosesTimer(q: Queue, early: set<nat>) {
    q.armed && Live(q.pending, early) == []
  }

  lemma SubmitTimer(cfg: Config, q: Queue, d: Deal, early: set<nat>, late: set<nat>)
    requires TimerInv(q)
    ensures var q' := NewDealSpec(cfg, q, d, early, late).queue;
            TimerInv(q') && (TimerLost(q') <==> TimerLost(q) || LosesTimer(q, early))
  {
  }

  lemma PublishTimer(q: Queue, cancelled: set<nat>)
    requires TimerInv(q)
    ensures var q' := PublishAllSpec(q, cancelled).queue;
            TimerInv(q') && (TimerLost(q') <==> TimerLost(q))
  {
  }

  /** A run in which some submission for the provider loses the timer. */
  ghost predicate SomeLoss(cfg: Config, w: World, es: seq<Event>, provider: nat)
    decreases |es|
  {
    es != [] &&
    (|| (es[0].Submit? && es[0].d.provider == provider && LosesTimer(TrackOf(w, provider).queue, w.cancelled))
     || SomeLoss(cfg, Apply(cfg, w, es[0]), es[1..], provider))
  }

  /** What a step means for the timer of one provider. */
  lemma StepTimer(cfg: Config, w: World, e: Event, provider: nat)
    requires TimerInv(TrackOf(w, provider).queue)
    ensures var q, q' := TrackOf(w, provider).queue, TrackOf(Apply(cfg, w, e), provider).queue;
            && TimerInv(q')
            && (TimerLost(q') <==>
                  TimerLost(q) || (e.Submit? && e.d.provider == provider && LosesTimer(q, w.cancelled)))
  {
    var q := TrackOf(w, provider).queue;
    match e {
      case Submit(d, late) => SubmitTimer(cfg, q, d, w.cancelled, late);
      case Cancel(_) =>
      case PublishNow(_) => PublishTimer(q, w.cancelled);
    }
  }

  /**
   A queue that has deals waiting has no timer running exactly if, at some time before, a
   submission found the timer running and all waiting deals cancelled; this is never repaired.
   */
  lemma {:induction false} TimerLostIff(cfg: Config, w: World, es: seq<Event>, provider: nat)
    requires Possible(cfg, w, es) && TimerInv(TrackOf(w, provider).queue)
    ensures var q := TrackOf(Final(cfg, w, es), provider).queue;
            && (TimerLost(q) <==> TimerLost(TrackOf(w, provider).queue) || SomeLoss(cfg, w, es, provider))
            && (q.pending != [] ==> (!q.armed <==> TimerLost(q)))
    decreases |es|
  {
    if es != [] {
      StepTimer(cfg, w, es[0], provider);
      TimerLostIff(cfg, Apply(cfg, w, es[0]), es[1..], provider);
    }
  }

  const FIVE := Config(5, 1)

  function One(d: Deal): Track { Track(Queue([d], true, true), [d], [], {}) }

  /** A deal is submitted and cancelled, and another one submitted: it waits, and no timer is running. */
  lemma LostTimer(first: Deal, second: Deal)
    requires first == Deal(0, 0, 0) && second == Deal(1, 0, 0)
    ensures var es := [Submit(first, {}), Cancel(0), Submit(second, {0})];
            && Possible(FIVE, NEW, es)
            && TrackOf(Final(FIVE, NEW, es), 0).queue == Queue([second], true, false)
  {
    var es := [Submit(first, {}), Cancel(0), Submit(second, {0})];
    FirstSubmitted(first);
    SecondSubmitted(first, second);
    var w1 := World(map[0 := One(first)], {});
    var w2 := World(map[0 := One(first)], {0});
    var w3 := Apply(FIVE, w2, Submit(second, {0}));
    assert Apply(FIVE, NEW, Submit(first, {})) == w1 && Apply(FIVE, w1, Cancel(0)) == w2;
    assert es[1..] == [Cancel(0), Submit(second, {0})] && es[1..][1..] == [Submit(second, {0})] && es[1..][1..][1..] == [];
    assert Possible(FIVE, w2, es[1..][1..]) && Final(FIVE, w2, es[1..][1..]) == w3;
    assert Possible(FIVE, w1, es[1..]) && Final(FIVE, w1, es[1..]) == w3;
  }

  lemma FirstSubmitted(d: Deal)
    ensures SubmitTrack(FIVE, START, d, {}, {}) == One(d)
  {
    assert [] + [d] == [d];
  }

  lemma SecondSubmitted(first: Deal, second: Deal)
    requires first.id == 0 && second.id == 1
    ensures SubmitTrack(FIVE, One(first), second, {0}, {0}).queue == Queue([second], true, false)
    ensures second.id !in Ids([first])
  {
    assert [first][..0] == [];
    assert Live([first], {0}) == [];
    assert [] + [second] == [second];
  }
}
