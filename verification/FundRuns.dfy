/**
 The fund manager over time: solvency in every run, progress of the queues, and exactly when
 a pass answers a request twice.
 */
module FundRuns {
  import opened Wrappers
  import opened FundManager
  import opened FundSafety

  // ----- who a pass answers -----

  lemma PassAnswers(reserved: int, reservations: seq<Request>, releases: seq<Request>, env: Env, id: nat)
    ensures var p := ReservationPass(reserved, reservations, releases, env);
            var s := SplitAll(reservations, Sum(releases));
            Answers(p.done, id) == Count(releases, id) +
              (if p.ok then Count(s.covered, id) + Count(s.toAdd, id) else Count(reservations, id))
  {
    var p := ReservationPass(reserved, reservations, releases, env);
    var s := SplitAll(reservations, Sum(releases));
    var released := Complete(releases, None, false);
    AnswersComplete(releases, None, false, id);
    if !p.ok {
      AnswersComplete(reservations + releases, None, true, id);
      CountConcat(reservations, releases, id);
    } else if p.msg.None? {
      AnswersComplete(s.covered + s.toAdd, None, false, id);
      CountConcat(s.covered, s.toAdd, id);
      AnswersConcat(released, Complete(s.covered + s.toAdd, None, false), id);
    } else {
      var covered := Complete(s.covered, None, false);
      AnswersComplete(s.covered, None, false, id);
      AnswersComplete(s.toAdd, env.pushAdd, false, id);
      AnswersConcat(released, covered, id);
      AnswersConcat(released + covered, Complete(s.toAdd, env.pushAdd, false), id);
    }
  }

  /** A push that fails after some withdrawals were answered answers these again. */
  predicate AnswersTwice(reserved: int, withdrawals: seq<Request>, env: Env) {
    && env.availWithdraw.Some? && env.pushWithdraw.None?
    && var t := TakeAll(withdrawals, env.availWithdraw.value - reserved); t.allowed != [] && t.answered != []
  }

  /** Whom a withdrawal pass answers, once the available funds are known. */
  function AnsweredBy(t: Taken, withdrawals: seq<Request>, env: Env): seq<Completion> {
    if env.pushWithdraw.None? && t.allowed != [] then t.answered + Complete(withdrawals, None, true)
    else t.answered + Complete(t.allowed, if t.allowed == [] then None else env.pushWithdraw, false)
  }

  lemma WithdrawalDone(reserved: int, withdrawals: seq<Request>, env: Env)
    requires NonNegative(withdrawals) && env.availWithdraw.Some?
    ensures WithdrawalPass(reserved, withdrawals, env).done ==
            AnsweredBy(TakeAll(withdrawals, env.availWithdraw.value - reserved), withdrawals, env)
  {
    TakeAllOk(withdrawals, env.availWithdraw.value - reserved);
  }

  lemma AnsweredByCount(t: Taken, withdrawals: seq<Request>, env: Env, id: nat)
    ensures Answers(AnsweredBy(t, withdrawals, env), id) == Answers(t.answered, id) +
              Count(if env.pushWithdraw.None? && t.allowed != [] then withdrawals else t.allowed, id)
  {
    var msg := if t.allowed == [] then None else env.pushWithdraw;
    AnswersComplete(withdrawals, None, true, id);
    AnswersComplete(t.allowed, msg, false, id);
    AnswersConcat(t.answered, Complete(withdrawals, None, true), id);
    AnswersConcat(t.answered, Complete(t.allowed, msg, false), id);
  }

  lemma WithdrawalAnswers(reserved: int, withdrawals: seq<Request>, env: Env, id: nat)
    requires NonNegative(withdrawals)
    ensures var done := WithdrawalPass(reserved, withdrawals, env).done;
            if env.availWithdraw.None? then Answers(done, id) == Count(withdrawals, id)
            else
              var t := TakeAll(withdrawals, env.availWithdraw.value - reserved);
              Answers(done, id) == Answers(t.answered, id) +
                Count(if env.pushWithdraw.None? && t.allowed != [] then withdrawals else t.allowed, id)
  {
    if env.availWithdraw.Some? {
      WithdrawalDone(reserved, withdrawals, env);
      AnsweredByCount(TakeAll(withdrawals, env.availWithdraw.value - reserved), withdrawals, env, id);
    } else {
      AnswersComplete(withdrawals, None, true, id);
    }
  }

  lemma LastAnswered(done: seq<Completion>)
    requires done != []
    ensures Answers(done, done[|done| - 1].id) > 0
  {
  }

  // ----- progress -----

  lemma {:induction false} UnprocessedKeeps(reqs: seq<Request>, done: seq<Completion>)
    ensures |Unprocessed(reqs, done)| <= |reqs|
    ensures forall r :: r in Unprocessed(reqs, done) <==> r in reqs && Answers(done, r.id) == 0
    ensures (exists r :: r in reqs && Answers(done, r.id) > 0) ==> |Unprocessed(reqs, done)| < |reqs|
  {
    if reqs != [] {
      var init, last := reqs[..|reqs| - 1], reqs[|reqs| - 1];
      UnprocessedKeeps(init, done);
      AnsweredIsDone(done, last);
      assert forall r :: r in reqs <==> r in init || r == last;
    }
  }

  function Waiting(s: FundState): nat {
    |s.reservations| + |s.releases| + |s.withdrawals|
  }

  lemma ReservationProgress(s: FundState, env: Env)
    requires s.reservations != [] || s.releases != []
    ensures Waiting(AfterReservations(s, env).0) < Waiting(s)
  {
    var p := ReservationPass(s.reserved, s.reservations, s.releases, env);
    UnprocessedKeeps(s.reservations, p.done);
    UnprocessedKeeps(s.releases, p.done);
    if s.releases != [] {
      var r := s.releases[0];
      CountMember(s.releases, r);
      PassAnswers(s.reserved, s.reservations, s.releases, env, r.id);
      assert r in s.releases && Answers(p.done, r.id) > 0;
    } else {
      var r := s.reservations[0];
      var split := SplitAll(s.reservations, Sum(s.releases));
      FirstIsHandled(s.reservations, Sum(s.releases));
      CountMember(s.reservations, r);
      CountMember(if r in split.covered then split.covered else split.toAdd, r);
      PassAnswers(s.reserved, s.reservations, s.releases, env, r.id);
      assert r in s.reservations && Answers(p.done, r.id) > 0;
    }
  }

  lemma AnsweredBySome(t: Taken, withdrawals: seq<Request>, env: Env, id: nat)
    requires TakenTotal(t, id) > 0 && Count(withdrawals, id) > 0
    ensures Answers(AnsweredBy(t, withdrawals, env), id) > 0
  {
    AnsweredByCount(t, withdrawals, env, id);
  }

  lemma FirstWithdrawalAnswered(reserved: int, withdrawals: seq<Request>, env: Env)
    requires withdrawals != [] && NonNegative(withdrawals)
    ensures Answers(WithdrawalPass(reserved, withdrawals, env).done, withdrawals[0].id) > 0
  {
    var id := withdrawals[0].id;
    CountMember(withdrawals, withdrawals[0]);
    if env.availWithdraw.Some? {
      var netAvail := env.availWithdraw.value - reserved;
      WithdrawalDone(reserved, withdrawals, env);
      FirstIsTaken(withdrawals, netAvail);
      AnsweredBySome(TakeAll(withdrawals, netAvail), withdrawals, env, id);
    } else {
      AnswersComplete(withdrawals, None, true, id);
    }
  }

  lemma WithdrawalProgress(reserved: int, withdrawals: seq<Request>, env: Env)
    requires withdrawals != [] && NonNegative(withdrawals)
    ensures |Unprocessed(withdrawals, WithdrawalPass(reserved, withdrawals, env).done)| < |withdrawals|
  {
    FirstWithdrawalAnswered(reserved, withdrawals, env);
    UnprocessedKeeps(withdrawals, WithdrawalPass(reserved, withdrawals, env).done);
    assert withdrawals[0] in withdrawals;
  }

  /**
   With no message outstanding and a request waiting, a pass answers at least one request,
   whatever the chain says; so the passes a pass schedules come to an end.
   */
  lemma PassProgress(s: FundState, env: Env)
    requires QueuesNonNegative(s) && s.msg.None? && Waiting(s) > 0
    ensures ProcessSpec(s, env).again && Waiting(ProcessSpec(s, env).state) < Waiting(s)
  {
    var (s1, p) := AfterReservations(s, env);
    if s.reservations != [] || s.releases != [] {
      ReservationProgress(s, env);
    }
    if ServesWithdrawals(s, env) {
      WithdrawalProgress(s1.reserved, s1.withdrawals, env);
    }
  }

  // ----- answering once -----

  /** Every request is in one queue, once. */
  ghost predicate DistinctRequests(s: FundState) {
    forall id: nat :: Count(s.reservations, id) + Count(s.releases, id) + Count(s.withdrawals, id) <= 1
  }

  lemma AnswersOfPass(s: FundState, env: Env, id: nat)
    requires s.msg.None? && Waiting(s) > 0
    ensures var (s1, p) := AfterReservations(s, env);
            Answers(ProcessSpec(s, env).done, id) == Answers(p.done, id) +
              (if ServesWithdrawals(s, env) then Answers(WithdrawalPass(s1.reserved, s1.withdrawals, env).done, id) else 0)
  {
    var (s1, p) := AfterReservations(s, env);
    AnswersConcat(p.done, WithdrawalPass(s1.reserved, s1.withdrawals, env).done, id);
  }

  lemma ReservationsOnce(s: FundState, env: Env, id: nat)
    ensures Answers(AfterReservations(s, env).1.done, id) <= Count(s.reservations, id) + Count(s.releases, id)
  {
    PassAnswers(s.reserved, s.reservations, s.releases, env, id);
    SplitCount(s.reservations, Sum(s.releases), id);
  }

  lemma AnsweredByOnce(t: Taken, withdrawals: seq<Request>, env: Env, id: nat)
    requires TakenTotal(t, id) <= Count(withdrawals, id)
    requires env.pushWithdraw.None? && t.allowed != [] ==> t.answered == []
    ensures Answers(AnsweredBy(t, withdrawals, env), id) <= Count(withdrawals, id)
  {
    AnsweredByCount(t, withdrawals, env, id);
  }

  lemma WithdrawalsOnce(reserved: int, withdrawals: seq<Request>, env: Env, id: nat)
    requires NonNegative(withdrawals) && !AnswersTwice(reserved, withdrawals, env)
    ensures Answers(WithdrawalPass(reserved, withdrawals, env).done, id) <= Count(withdrawals, id)
  {
    if env.availWithdraw.Some? {
      var netAvail := env.availWithdraw.value - reserved;
      WithdrawalDone(reserved, withdrawals, env);
      TakeCount(withdrawals, netAvail, id);
      AnsweredByOnce(TakeAll(withdrawals, netAvail), withdrawals, env, id);
    } else {
      AnswersComplete(withdrawals, None, true, id);
    }
  }

  lemma WithdrawalsTwice(reserved: int, withdrawals: seq<Request>, env: Env) returns (id: nat)
    requires NonNegative(withdrawals) && AnswersTwice(reserved, withdrawals, env)
    ensures Answers(WithdrawalPass(reserved, withdrawals, env).done, id) >= 2
  {
    var t := TakeAll(withdrawals, env.availWithdraw.value - reserved);
    id := t.answered[|t.answered| - 1].id;
    LastAnswered(t.answered);
    TakeCount(withdrawals, env.availWithdraw.value - reserved, id);
    AnsweredByTwice(t, withdrawals, env, id);
    WithdrawalDone(reserved, withdrawals, env);
  }

  lemma AnsweredByTwice(t: Taken, withdrawals: seq<Request>, env: Env, id: nat)
    requires env.pushWithdraw.None? && t.allowed != []
    requires 0 < Answers(t.answered, id) && TakenTotal(t, id) <= Count(withdrawals, id)
    ensures Answers(AnsweredBy(t, withdrawals, env), id) >= 2
  {
    AnsweredByCount(t, withdrawals, env, id);
  }

  lemma AnsweredOnceCases(s: FundState, env: Env)
    requires QueuesNonNegative(s) && DistinctRequests(s) && s.msg.None? && Waiting(s) > 0
    ensures (forall id: nat :: Answers(ProcessSpec(s, env).done, id) <= 1) <==>
            !(ServesWithdrawals(s, env) && AnswersTwice(AfterReservations(s, env).0.reserved, s.withdrawals, env))
  {
    var s1 := AfterReservations(s, env).0;
    if ServesWithdrawals(s, env) && AnswersTwice(s1.reserved, s.withdrawals, env) {
      var id := WithdrawalsTwice(s1.reserved, s.withdrawals, env);
      AnswersOfPass(s, env, id);
    } else {
      forall id: nat
        ensures Answers(ProcessSpec(s, env).done, id) <= 1
      {
        AnswersOfPass(s, env, id);
        ReservationsOnce(s, env, id);
        if ServesWithdrawals(s, env) {
          WithdrawalsOnce(s1.reserved, s.withdrawals, env, id);
        }
      }
    }
  }

  /** A pass gets to the withdrawals: it sends no message, and no reservation is left for a later pass. */
  predicate ReachesWithdrawals(s: FundState, env: Env) {
    && s.withdrawals != []
    && (|| PassFails(s.reserved, s.reservations, s.releases, env)
        || (&& !PassSends(s.reserved, s.reservations, s.releases, env)
            && SplitAll(s.reservations, Sum(s.releases)).deferred == []))
  }

  /** What is reserved when a pass gets to the withdrawals. */
  function ReservedThen(s: FundState, env: Env): int {
    if (s.reservations == [] && s.releases == []) || PassFails(s.reserved, s.reservations, s.releases, env) then s.reserved
    else NewReserved(s.reserved, SplitAll(s.reservations, Sum(s.releases)))
  }

  lemma DeferredStays(s: FundState, env: Env, r: Request)
    requires DistinctRequests(s) && r in SplitAll(s.reservations, Sum(s.releases)).deferred
    requires !PassFails(s.reserved, s.reservations, s.releases, env)
    ensures r in Unprocessed(s.reservations, ReservationPass(s.reserved, s.reservations, s.releases, env).done)
  {
    var p := ReservationPass(s.reserved, s.reservations, s.releases, env);
    var split := SplitAll(s.reservations, Sum(s.releases));
    PassOutcome(s.reserved, s.reservations, s.releases, env);
    SplitWallets(s.reservations, Sum(s.releases));
    assert r in split.covered + split.toAdd + split.deferred;
    CountMember(split.deferred, r);
    SplitCount(s.reservations, Sum(s.releases), r.id);
    PassAnswers(s.reserved, s.reservations, s.releases, env, r.id);
    assert Count(s.reservations, r.id) + Count(s.releases, r.id) + Count(s.withdrawals, r.id) <= 1;
    UnprocessedKeeps(s.reservations, p.done);
  }

  lemma NothingLeft(s: FundState, env: Env)
    requires PassFails(s.reserved, s.reservations, s.releases, env) || SplitAll(s.reservations, Sum(s.releases)).deferred == []
    ensures Unprocessed(s.reservations, ReservationPass(s.reserved, s.reservations, s.releases, env).done) == []
  {
    var p := ReservationPass(s.reserved, s.reservations, s.releases, env);
    PassOutcome(s.reserved, s.reservations, s.releases, env);
    forall r | r in s.reservations
      ensures Answers(p.done, r.id) > 0
    {
      CountMember(s.reservations, r);
      PassAnswers(s.reserved, s.reservations, s.releases, env, r.id);
      SplitCount(s.reservations, Sum(s.releases), r.id);
    }
    UnprocessedNone(s.reservations, p.done);
  }

  lemma {:induction false} UnprocessedNone(reqs: seq<Request>, done: seq<Completion>)
    requires forall r :: r in reqs ==> Answers(done, r.id) > 0
    ensures Unprocessed(reqs, done) == []
  {
    if reqs != [] {
      UnprocessedNone(reqs[..|reqs| - 1], done);
      AnsweredIsDone(done, reqs[|reqs| - 1]);
    }
  }

  lemma ServesIff(s: FundState, env: Env)
    requires DistinctRequests(s) && s.msg.None?
    ensures ServesWithdrawals(s, env) <==> ReachesWithdrawals(s, env)
    ensures AfterReservations(s, env).0.reserved == ReservedThen(s, env)
  {
    PassOutcome(s.reserved, s.reservations, s.releases, env);
    var deferred := SplitAll(s.reservations, Sum(s.releases)).deferred;
    if PassFails(s.reserved, s.reservations, s.releases, env) || deferred == [] {
      NothingLeft(s, env);
    } else {
      DeferredStays(s, env, deferred[0]);
    }
  }

  /** Some withdrawal fits in the funds that are not reserved. */
  predicate SomeAllowed(withdrawals: seq<Request>, netAvail: int) {
    exists i :: 0 <= i < |withdrawals| && 0 < withdrawals[i].Amount() <= netAvail
  }

  /** Some withdrawal is for nothing, or for more than those taken before it leave. */
  predicate SomeOnTheSpot(withdrawals: seq<Request>, netAvail: int) {
    exists i :: 0 <= i < |withdrawals| && OnTheSpot(withdrawals[..i], withdrawals[i], netAvail)
  }

  predicate OnTheSpot(before: seq<Request>, r: Request, netAvail: int) {
    r.Amount() == 0 || TakeAll(before, netAvail).amt + r.Amount() > netAvail
  }

  lemma {:induction false} TakenIff(withdrawals: seq<Request>, netAvail: int)
    requires NonNegative(withdrawals)
    ensures TakeAll(withdrawals, netAvail).allowed != [] <==> SomeAllowed(withdrawals, netAvail)
    ensures TakeAll(withdrawals, netAvail).answered != [] <==> SomeOnTheSpot(withdrawals, netAvail)
  {
    if withdrawals != [] {
      var n := |withdrawals| - 1;
      TakenIff(withdrawals[..n], netAvail);
      TakeAllOk(withdrawals[..n], netAvail);
      TakenWallet(withdrawals[..n], netAvail);
      assert withdrawals[n] in withdrawals;
      AllowedAppend(withdrawals, netAvail);
      SpotAppend(withdrawals, netAvail);
    }
  }

  lemma {:induction false} TakenWallet(withdrawals: seq<Request>, netAvail: int)
    ensures TakeAll(withdrawals, netAvail).allowed == [] ==> TakeAll(withdrawals, netAvail).wallet == UNDEF
  {
    if withdrawals != [] {
      TakenWallet(withdrawals[..|withdrawals| - 1], netAvail);
    }
  }

  lemma AllowedAppend(withdrawals: seq<Request>, netAvail: int)
    requires withdrawals != []
    ensures var n := |withdrawals| - 1;
            SomeAllowed(withdrawals, netAvail) <==>
              SomeAllowed(withdrawals[..n], netAvail) || 0 < withdrawals[n].Amount() <= netAvail
  {
    var n := |withdrawals| - 1;
    var init := withdrawals[..n];
    if SomeAllowed(init, netAvail) {
      var i :| 0 <= i < n && 0 < init[i].Amount() <= netAvail;
      assert 0 < withdrawals[i].Amount() <= netAvail;
    }
    if SomeAllowed(withdrawals, netAvail) && !(0 < withdrawals[n].Amount() <= netAvail) {
      var i :| 0 <= i < |withdrawals| && 0 < withdrawals[i].Amount() <= netAvail;
      assert 0 < init[i].Amount() <= netAvail;
    }
  }

  lemma SpotAppend(withdrawals: seq<Request>, netAvail: int)
    requires withdrawals != []
    ensures var n := |withdrawals| - 1;
            SomeOnTheSpot(withdrawals, netAvail) <==>
              SomeOnTheSpot(withdrawals[..n], netAvail) || OnTheSpot(withdrawals[..n], withdrawals[n], netAvail)
  {
    var n := |withdrawals| - 1;
    var init := withdrawals[..n];
    if SomeOnTheSpot(init, netAvail) {
      var i :| 0 <= i < n && OnTheSpot(init[..i], init[i], netAvail);
      assert init[..i] == withdrawals[..i] && OnTheSpot(withdrawals[..i], withdrawals[i], netAvail);
    }
    if SomeOnTheSpot(withdrawals, netAvail) && !OnTheSpot(init, withdrawals[n], netAvail) {
      var i :| 0 <= i < |withdrawals| && OnTheSpot(withdrawals[..i], withdrawals[i], netAvail);
      assert init[..i] == withdrawals[..i] && OnTheSpot(init[..i], init[i], netAvail);
    }
  }

  /** The pass gets to the withdrawals and answers one on the spot, and then the message for the others cannot be sent. */
  predicate CompletesTwice(s: FundState, env: Env) {
    ReachesWithdrawals(s, env) && PushFailsLate(ReservedThen(s, env), s.withdrawals, env)
  }

  predicate PushFailsLate(reserved: int, withdrawals: seq<Request>, env: Env) {
    && env.availWithdraw.Some? && env.pushWithdraw.None?
    && SomeAllowed(withdrawals, env.availWithdraw.value - reserved)
    && SomeOnTheSpot(withdrawals, env.availWithdraw.value - reserved)
  }

  /**
   A pass answers no request twice, unless it is a pass whose withdrawal message fails to be
   sent after a withdrawal was already answered; then it does.
   */
  lemma AnsweredOnceIff(s: FundState, env: Env)
    requires QueuesNonNegative(s) && DistinctRequests(s) && s.msg.None? && Waiting(s) > 0
    ensures (forall id: nat :: Answers(ProcessSpec(s, env).done, id) <= 1) <==> !CompletesTwice(s, env)
  {
    AnsweredOnceCases(s, env);
    ServesIff(s, env);
    TwiceIff(ReservedThen(s, env), s.withdrawals, env);
  }

  lemma TwiceIff(reserved: int, withdrawals: seq<Request>, env: Env)
    requires NonNegative(withdrawals)
    ensures AnswersTwice(reserved, withdrawals, env) <==> PushFailsLate(reserved, withdrawals, env)
  {
    if env.availWithdraw.Some? {
      TakenIff(withdrawals, env.availWithdraw.value - reserved);
    }
  }

  /** Withdrawals of 0 and 5 from 10 available, and no message can be sent: the first is completed twice. */
  lemma CompletedTwice()
    ensures var withdrawals := [Request(1, 1, 0, false), Request(2, 1, 5, false)];
            Answers(ProcessSpec(FundState(0, None, [], [], withdrawals), Env(None, None, Some(10), None)).done, 1) == 2
  {
    var withdrawals := [Request(1, 1, 0, false), Request(2, 1, 5, false)];
    var env := Env(None, None, Some(10), None);
    TakeZeroAndFive(withdrawals);
    WithdrawalAnswers(0, withdrawals, env, 1);
    OnlyWithdrawals(withdrawals, env);
  }

  lemma OnlyWithdrawals(withdrawals: seq<Request>, env: Env)
    requires withdrawals != []
    ensures ProcessSpec(FundState(0, None, [], [], withdrawals), env).done == WithdrawalPass(0, withdrawals, env).done
  {
    assert [] + WithdrawalPass(0, withdrawals, env).done == WithdrawalPass(0, withdrawals, env).done;
  }

  lemma TakeZeroAndFive(withdrawals: seq<Request>)
    requires withdrawals == [Request(1, 1, 0, false), Request(2, 1, 5, false)]
    ensures TakeAll(withdrawals, 10) == Taken(5, 1, [withdrawals[1]], [Completion(1, None, false)])
    ensures Answers([Completion(1, None, false)], 1) == 1 && Count(withdrawals, 1) == 1
  {
    var first := withdrawals[..1];
    assert first[..0] == [] && [Completion(1, None, false)][..0] == [];
    assert TakeAll(first, 10) == TakeOne(TakeAll([], 10), withdrawals[0], 10);
    assert Count(first, 1) == 1;
  }

  // ----- draining the queues -----

  /** The address after passes with the given outcomes, each followed by the wait for its message. */
  function AfterPasses(s: FundState, envs: seq<Env>): FundState
    decreases |envs|
  {
    if envs == [] then s else AfterPasses(ProcessSpec(s, envs[0]).state.(msg := None), envs[1..])
  }

  /** As many passes as there are requests empty all queues, whatever the chain says. */
  lemma {:induction false} Drains(s: FundState, envs: seq<Env>)
    requires QueuesNonNegative(s) && s.msg.None? && |envs| >= Waiting(s)
    ensures Waiting(AfterPasses(s, envs)) == 0
    decreases |envs|
  {
    if envs != [] {
      var s' := ProcessSpec(s, envs[0]).state.(msg := None);
      ProcessKeepsQueues(s, envs[0]);
      if Waiting(s) > 0 {
        PassProgress(s, envs[0]);
      }
      Drains(s', envs[1..]);
    }
  }

  // ----- the address and the chain -----

  /** `avail` are the funds on chain; `flight` is the message sent that has not taken effect yet. */
  datatype World = World(funds: FundState, avail: int, flight: Sent)

  datatype Event =
    | AskReserve(r: Request)
    | AskRelease(r: Request)
    | AskWithdraw(r: Request)
    | Expire(id: nat)
    | Pass(env: Env)
    | TakeEffect
    | WaitDone
    | Deposit(value: int)
    | Restart

  ghost predicate Enabled(w: World, e: Event) {
    match e
    case AskReserve(r) => r.amt >= 0
    case AskRelease(r) => r.amt >= 0
    case AskWithdraw(r) => r.amt >= 0
    case Pass(env) => Truthful(env, w.avail)
    case TakeEffect => w.flight != Nothing
    case WaitDone => w.funds.msg.Some? && w.flight == Nothing
    case Deposit(v) => v >= 0
    case _ => true
  }

  function Expired(reqs: seq<Request>, id: nat): (r: seq<Request>)
    ensures |r| == |reqs|
    ensures forall i :: 0 <= i < |reqs| ==> r[i] == if reqs[i].id == id then reqs[i].(expired := true) else reqs[i]
  {
    seq(|reqs|, i requires 0 <= i < |reqs| => if reqs[i].id == id then reqs[i].(expired := true) else reqs[i])
  }

  function Apply(w: World, e: Event): World {
    var s := w.funds;
    match e
    case AskReserve(r) => w.(funds := s.(reservations := s.reservations + [r]))
    case AskRelease(r) => w.(funds := s.(releases := s.releases + [r]))
    case AskWithdraw(r) => w.(funds := s.(withdrawals := s.withdrawals + [r]))
    case Expire(id) =>
      w.(funds := s.(reservations := Expired(s.reservations, id), releases := Expired(s.releases, id),
                     withdrawals := Expired(s.withdrawals, id)))
    case Pass(env) =>
      var o := ProcessSpec(s, env);
      w.(funds := o.state, flight := if o.sent == Nothing then w.flight else o.sent)
    case TakeEffect => w.(avail := w.avail + Value(w.flight), flight := Nothing)
    case WaitDone => w.(funds := s.(msg := None))
    case Deposit(v) => w.(avail := w.avail + v)
    case Restart => w.(funds := s.(reservations := [], releases := [], withdrawals := []))
  }

  /** The reserved amount is covered by what is available, counting the message under way. */
  ghost predicate Solvent(w: World) {
    && QueuesNonNegative(w.funds)
    && 0 <= w.funds.reserved <= w.avail + Value(w.flight)
    && (w.flight != Nothing ==> w.funds.msg.Some?)
  }

  lemma ProcessKeepsQueues(s: FundState, env: Env)
    requires QueuesNonNegative(s)
    ensures QueuesNonNegative(ProcessSpec(s, env).state)
  {
    var (s1, p) := AfterReservations(s, env);
    UnprocessedNonNegative(s.reservations, p.done);
    UnprocessedNonNegative(s.releases, p.done);
    UnprocessedNonNegative(s.withdrawals, WithdrawalPass(s1.reserved, s1.withdrawals, env).done);
  }

  lemma UnprocessedNonNegative(reqs: seq<Request>, done: seq<Completion>)
    requires NonNegative(reqs)
    ensures NonNegative(Unprocessed(reqs, done))
  {
    UnprocessedKeeps(reqs, done);
  }

  lemma StepIsSolvent(w: World, e: Event)
    requires Solvent(w) && Enabled(w, e)
    ensures Solvent(Apply(w, e))
    ensures w.flight != Nothing && Apply(w, e).flight != Nothing ==> Apply(w, e).flight == w.flight
  {
    if e.Pass? {
      PassIsSolvent(w.funds, e.env, w.avail);
      ProcessKeepsQueues(w.funds, e.env);
    }
  }

  ghost predicate Possible(w: World, es: seq<Event>)
    decreases |es|
  {
    es != [] ==> Enabled(w, es[0]) && Possible(Apply(w, es[0]), es[1..])
  }

  function Final(w: World, es: seq<Event>): World
    decreases |es|
  {
    if es == [] then w else Final(Apply(w, es[0]), es[1..])
  }

  /** An address that is solvent at the start is solvent after every run. */
  lemma {:induction false} RunIsSolvent(w: World, es: seq<Event>)
    requires Solvent(w) && Possible(w, es)
    ensures Solvent(Final(w, es))
    decreases |es|
  {
    if es != [] {
      StepIsSolvent(w, es[0]);
      RunIsSolvent(Apply(w, es[0]), es[1..]);
    }
  }
}
