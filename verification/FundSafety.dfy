/**
 Guarantees of the fund manager: how reservations and releases are netted, that an address
 stays solvent over every run, that passes make progress, and who is answered how often.
 */
module FundSafety {
  import opened Wrappers
  import opened FundManager

  ghost predicate NonNegative(reqs: seq<Request>) {
    forall r :: r in reqs ==> r.amt >= 0
  }

  // ----- how often a request occurs and is answered -----

  function Count(reqs: seq<Request>, id: nat): nat {
    if reqs == [] then 0
    else Count(reqs[..|reqs| - 1], id) + (if reqs[|reqs| - 1].id == id then 1 else 0)
  }

  function Answers(done: seq<Completion>, id: nat): nat {
    if done == [] then 0
    else Answers(done[..|done| - 1], id) + (if done[|done| - 1].id == id then 1 else 0)
  }

  lemma AppendRequest(reqs: seq<Request>, r: Request, id: nat)
    ensures Count(reqs + [r], id) == Count(reqs, id) + (if r.id == id then 1 else 0)
    ensures Sum(reqs + [r]) == Sum(reqs) + r.Amount()
  {
    assert (reqs + [r])[..|reqs|] == reqs;
  }

  lemma AppendAnswer(done: seq<Completion>, c: Completion, id: nat)
    ensures Answers(done + [c], id) == Answers(done, id) + (if c.id == id then 1 else 0)
  {
    assert (done + [c])[..|done|] == done;
  }

  lemma {:induction false} AnswersConcat(a: seq<Completion>, b: seq<Completion>, id: nat)
    ensures Answers(a + b, id) == Answers(a, id) + Answers(b, id)
  {
    if b == [] {
      assert a + b == a;
    } else {
      AnswersConcat(a, b[..|b| - 1], id);
      assert a + b == (a + b[..|b| - 1]) + [b[|b| - 1]];
      AppendAnswer(a + b[..|b| - 1], b[|b| - 1], id);
    }
  }

  lemma {:induction false} CountConcat(a: seq<Request>, b: seq<Request>, id: nat)
    ensures Count(a + b, id) == Count(a, id) + Count(b, id)
    ensures Sum(a + b) == Sum(a) + Sum(b)
  {
    if b == [] {
      assert a + b == a;
    } else {
      CountConcat(a, b[..|b| - 1], id);
      assert a + b == (a + b[..|b| - 1]) + [b[|b| - 1]];
      AppendRequest(a + b[..|b| - 1], b[|b| - 1], id);
    }
  }

  lemma {:induction false} AnswersComplete(reqs: seq<Request>, msg: Option<nat>, failed: bool, id: nat)
    ensures Answers(Complete(reqs, msg, failed), id) == Count(reqs, id)
  {
    if reqs != [] {
      AnswersComplete(reqs[..|reqs| - 1], msg, failed, id);
      assert Complete(reqs, msg, failed)[..|reqs| - 1] == Complete(reqs[..|reqs| - 1], msg, failed);
    }
  }

  lemma {:induction false} CountMember(reqs: seq<Request>, r: Request)
    requires r in reqs
    ensures Count(reqs, r.id) > 0
  {
    if reqs[|reqs| - 1] != r {
      CountMember(reqs[..|reqs| - 1], r);
    }
  }

  lemma {:induction false} AnsweredIsDone(done: seq<Completion>, r: Request)
    ensures IsDone(r, done) <==> Answers(done, r.id) > 0
  {
    if done != [] {
      var init := done[..|done| - 1];
      AnsweredIsDone(init, r);
      if IsDone(r, init) {
        var i :| 0 <= i < |init| && init[i].id == r.id;
        assert done[i].id == r.id;
      }
      if IsDone(r, done) && done[|done| - 1].id != r.id {
        var i :| 0 <= i < |done| && done[i].id == r.id;
        assert init[i].id == r.id;
      }
    }
  }

  lemma {:induction false} SumNonNegative(reqs: seq<Request>)
    requires NonNegative(reqs)
    ensures Sum(reqs) >= 0
  {
    if reqs != [] {
      SumNonNegative(reqs[..|reqs| - 1]);
      assert reqs[|reqs| - 1] in reqs;
    }
  }

  // ----- netting -----

  ghost predicate SplitOk(s: Split, released: int) {
    && s.release >= 0
    && s.addAmt - s.release == Sum(s.covered) + Sum(s.toAdd) - released
    && (s.toAdd == [] ==> s.addAmt == 0)
    && (s.toAdd != [] ==> s.addAmt > 0 && s.release == 0)
  }

  lemma CoverOk(s: Split, r: Request, released: int)
    requires SplitOk(s, released) && 0 <= r.Amount() <= s.release
    ensures SplitOk(s.(release := s.release - r.Amount(), covered := s.covered + [r]), released)
  {
    AppendRequest(s.covered, r, 0);
  }

  lemma AddOk(s: Split, r: Request, released: int, wallet: Wallet)
    requires SplitOk(s, released) && r.Amount() > s.release
    ensures SplitOk(s.(release := 0, addAmt := s.addAmt + r.Amount() - s.release, wallet := wallet, toAdd := s.toAdd + [r]),
                    released)
  {
    AppendRequest(s.toAdd, r, 0);
  }

  lemma SplitOneOk(s: Split, r: Request, released: int)
    requires SplitOk(s, released) && r.amt >= 0
    ensures SplitOk(SplitOne(s, r), released)
  {
    if r.Amount() <= s.release {
      CoverOk(s, r, released);
    } else {
      AddOk(s, r, released, if s.wallet == UNDEF then r.wallet else s.wallet);
    }
  }

  lemma {:induction false} SplitAllOk(reservations: seq<Request>, released: int)
    requires NonNegative(reservations) && released >= 0
    ensures SplitOk(SplitAll(reservations, released), released)
  {
    if reservations != [] {
      var init, r := reservations[..|reservations| - 1], reservations[|reservations| - 1];
      assert r in reservations;
      SplitAllOk(init, released);
      SplitOneOk(SplitAll(init, released), r, released);
    }
  }

  function SplitTotal(s: Split, id: nat): nat {
    Count(s.covered, id) + Count(s.toAdd, id) + Count(s.deferred, id)
  }

  lemma SplitOneCount(s: Split, r: Request, id: nat)
    ensures SplitTotal(SplitOne(s, r), id) == SplitTotal(s, id) + (if r.id == id then 1 else 0)
  {
    var s' := SplitOne(s, r);
    if s'.covered != s.covered {
      AppendRequest(s.covered, r, id);
    } else if s'.toAdd != s.toAdd {
      AppendRequest(s.toAdd, r, id);
    } else {
      AppendRequest(s.deferred, r, id);
    }
  }

  lemma {:induction false} SplitCount(reservations: seq<Request>, released: int, id: nat)
    ensures SplitTotal(SplitAll(reservations, released), id) == Count(reservations, id)
  {
    if reservations != [] {
      var init := reservations[..|reservations| - 1];
      SplitCount(init, released, id);
      SplitOneCount(SplitAll(init, released), reservations[|reservations| - 1], id);
    }
  }

  /** Requests to add for come from the batch wallet, deferred ones from another. */
  lemma {:induction false} SplitWallets(reservations: seq<Request>, released: int)
    ensures var s := SplitAll(reservations, released);
            && (forall r :: r in s.toAdd ==> r.wallet == s.wallet || r.wallet == UNDEF)
            && (forall r :: r in s.deferred ==> r.wallet != s.wallet && s.wallet != UNDEF)
            && (forall r :: r in s.covered + s.toAdd + s.deferred ==> r in reservations)
  {
    if reservations != [] {
      var init, last := reservations[..|reservations| - 1], reservations[|reservations| - 1];
      SplitWallets(init, released);
      assert forall r :: r in init ==> r in reservations;
      assert last in reservations;
    }
  }

  lemma {:induction false} FirstIsHandled(reservations: seq<Request>, released: int)
    requires reservations != []
    ensures var s := SplitAll(reservations, released);
            reservations[0] in s.covered || reservations[0] in s.toAdd
  {
    if |reservations| > 1 {
      FirstIsHandled(reservations[..|reservations| - 1], released);
    }
  }

  /**
   The change of the reserved amount is what was reserved minus what was released. It is
   positive exactly when funds must be added, and the requests to add for share one wallet.
   The reservations split into covered, to-add and deferred ones, and the first is not deferred.
   */
  lemma NettingIdentity(reservations: seq<Request>, releases: seq<Request>)
    requires NonNegative(reservations) && NonNegative(releases)
    ensures var s := SplitAll(reservations, Sum(releases));
            && s.addAmt - s.release == Sum(s.covered) + Sum(s.toAdd) - Sum(releases)
            && (s.addAmt - s.release > 0 <==> s.toAdd != [])
            && (forall id: nat :: Count(s.covered, id) + Count(s.toAdd, id) + Count(s.deferred, id) == Count(reservations, id))
            && ((forall r :: r in reservations ==> r.wallet != UNDEF) ==>
                  forall q, r :: q in s.toAdd && r in s.toAdd ==> q.wallet == r.wallet)
            && (reservations != [] ==> reservations[0] in s.covered || reservations[0] in s.toAdd)
  {
    SumNonNegative(releases);
    SplitAllOk(reservations, Sum(releases));
    SplitWallets(reservations, Sum(releases));
    forall id: nat {
      SplitCount(reservations, Sum(releases), id);
    }
    if reservations != [] {
      FirstIsHandled(reservations, Sum(releases));
    }
  }

  // ----- withdrawals -----

  ghost predicate TakenOk(t: Taken, netAvail: int) {
    && t.amt == Sum(t.allowed) >= 0 && (t.amt > 0 ==> t.amt <= netAvail)
    && (t.amt == 0 <==> t.allowed == [])
  }

  lemma {:induction false} TakeAllOk(withdrawals: seq<Request>, netAvail: int)
    requires NonNegative(withdrawals)
    ensures TakenOk(TakeAll(withdrawals, netAvail), netAvail)
  {
    if withdrawals != [] {
      var init, r := withdrawals[..|withdrawals| - 1], withdrawals[|withdrawals| - 1];
      assert r in withdrawals;
      TakeAllOk(init, netAvail);
      AppendRequest(TakeAll(init, netAvail).allowed, r, 0);
    }
  }

  function TakenTotal(t: Taken, id: nat): nat {
    Answers(t.answered, id) + Count(t.allowed, id)
  }

  lemma TakeOneCount(t: Taken, r: Request, netAvail: int, id: nat)
    ensures TakenTotal(t, id) <= TakenTotal(TakeOne(t, r, netAvail), id)
    ensures TakenTotal(TakeOne(t, r, netAvail), id) <= TakenTotal(t, id) + (if r.id == id then 1 else 0)
    ensures r.id == id && t.wallet == UNDEF ==> TakenTotal(TakeOne(t, r, netAvail), id) > 0
  {
    AppendRequest(t.allowed, r, id);
    AppendAnswer(t.answered, Completion(r.id, None, false), id);
    AppendAnswer(t.answered, Completion(r.id, None, true), id);
  }

  predicate AtMostAsked(t: Taken, withdrawals: seq<Request>, id: nat) {
    TakenTotal(t, id) <= Count(withdrawals, id)
  }

  /** A withdrawal is answered on the spot, or allowed, or waits; never two of these. */
  lemma {:induction false} TakeCount(withdrawals: seq<Request>, netAvail: int, id: nat)
    ensures AtMostAsked(TakeAll(withdrawals, netAvail), withdrawals, id)
  {
    if withdrawals != [] {
      var init := withdrawals[..|withdrawals| - 1];
      TakeCount(init, netAvail, id);
      TakeOneCount(TakeAll(init, netAvail), withdrawals[|withdrawals| - 1], netAvail, id);
    }
  }

  lemma {:induction false} FirstIsTaken(withdrawals: seq<Request>, netAvail: int)
    requires withdrawals != []
    ensures TakenTotal(TakeAll(withdrawals, netAvail), withdrawals[0].id) > 0
  {
    var init := withdrawals[..|withdrawals| - 1];
    TakeOneCount(TakeAll(init, netAvail), withdrawals[|withdrawals| - 1], netAvail, withdrawals[0].id);
    if |withdrawals| > 1 {
      FirstIsTaken(init, netAvail);
    }
  }

  // ----- one pass -----

  /** Whether a pass goes on to withdrawals, and with which reserved amount. */
  predicate ServesWithdrawals(s: FundState, env: Env) {
    && s.msg.None? && s.withdrawals != []
    && AfterReservations(s, env).0.msg.None? && AfterReservations(s, env).0.reservations == []
  }

  function Value(sent: Sent): int {
    match sent
    case Nothing => 0
    case AddBalance(_, v) => v
    case WithdrawBalance(_, v) => -v
  }

  ghost predicate QueuesNonNegative(s: FundState) {
    NonNegative(s.reservations) && NonNegative(s.releases) && NonNegative(s.withdrawals)
  }

  /** What the chain tells is the funds the address really has. */
  ghost predicate Truthful(env: Env, avail: int) {
    && (env.availAdd.Some? ==> env.availAdd.value == avail)
    && (env.availWithdraw.Some? ==> env.availWithdraw.value == avail)
  }

  lemma ReservationPassSolvent(reserved: int, reservations: seq<Request>, releases: seq<Request>, env: Env, avail: int)
    requires NonNegative(reservations) && NonNegative(releases) && Truthful(env, avail)
    requires 0 <= reserved <= avail
    ensures var p := ReservationPass(reserved, reservations, releases, env);
            && 0 <= p.reserved <= avail + Value(p.sent)
            && (p.sent.Nothing? <==> p.msg.None?)
            && (p.sent.Nothing? || (p.sent.AddBalance? && p.sent.value > 0))
  {
    SumNonNegative(releases);
    SplitAllOk(reservations, Sum(releases));
  }

  lemma WithdrawalPassSolvent(reserved: int, withdrawals: seq<Request>, env: Env, avail: int)
    requires NonNegative(withdrawals) && Truthful(env, avail) && 0 <= reserved <= avail
    ensures var q := WithdrawalPass(reserved, withdrawals, env);
            && reserved <= avail + Value(q.sent)
            && (q.sent.Nothing? <==> q.msg.None?)
            && (q.sent.Nothing? || (q.sent.WithdrawBalance? && q.sent.value > 0))
  {
    TakeAllOk(withdrawals, avail - reserved);
  }

  /**
   A pass keeps the address solvent, sends at most one message and only if none is
   outstanding, and withdraws only when no reservation is left in the queue.
   */
  lemma PassIsSolvent(s: FundState, env: Env, avail: int)
    requires QueuesNonNegative(s) && Truthful(env, avail) && 0 <= s.reserved
    requires s.msg.None? ==> s.reserved <= avail
    ensures var o := ProcessSpec(s, env);
            && (s.msg.Some? ==> o.state == s && o.sent.Nothing?)
            && (s.msg.None? ==> 0 <= o.state.reserved <= avail + Value(o.sent))
            && (s.msg.None? ==> (o.sent.Nothing? <==> o.state.msg.None?))
            && (o.sent.WithdrawBalance? ==> o.state.reservations == [])
  {
    if s.msg.None? {
      ReservationPassSolvent(s.reserved, s.reservations, s.releases, env, avail);
      var s1 := AfterReservations(s, env).0;
      if ServesWithdrawals(s, env) {
        WithdrawalPassSolvent(s1.reserved, s1.withdrawals, env, avail);
      }
    }
  }

  // ----- how a pass over reservations ends -----

  /** Reservations exceed what was released, and something stays reserved: available funds are asked for. */
  predicate MustAdd(reserved: int, reservations: seq<Request>, releases: seq<Request>) {
    var s := SplitAll(reservations, Sum(releases));
    s.toAdd != [] && NewReserved(reserved, s) > 0
  }

  /** The available funds cannot be read, or do not suffice and no message can be sent. */
  predicate PassFails(reserved: int, reservations: seq<Request>, releases: seq<Request>, env: Env) {
    && MustAdd(reserved, reservations, releases)
    && (|| env.availAdd.None?
        || (NewReserved(reserved, SplitAll(reservations, Sum(releases))) > env.availAdd.value && env.pushAdd.None?))
  }

  predicate PassSends(reserved: int, reservations: seq<Request>, releases: seq<Request>, env: Env) {
    && MustAdd(reserved, reservations, releases) && env.availAdd.Some? && env.pushAdd.Some?
    && NewReserved(reserved, SplitAll(reservations, Sum(releases))) > env.availAdd.value
  }

  lemma PassOutcome(reserved: int, reservations: seq<Request>, releases: seq<Request>, env: Env)
    ensures var p := ReservationPass(reserved, reservations, releases, env);
            && (p.ok <==> !PassFails(reserved, reservations, releases, env))
            && (p.msg.Some? <==> PassSends(reserved, reservations, releases, env))
  {
  }

  /** A successful pass moves the reserved amount by what it reserved and released, but not below zero. */
  lemma PassAccounting(reserved: int, reservations: seq<Request>, releases: seq<Request>, env: Env)
    requires NonNegative(reservations) && NonNegative(releases)
    ensures var p := ReservationPass(reserved, reservations, releases, env);
            var s := SplitAll(reservations, Sum(releases));
            var net := reserved + Sum(s.covered) + Sum(s.toAdd) - Sum(releases);
            && (p.ok ==> p.reserved == if net < 0 then 0 else net)
            && (!p.ok ==> p.reserved == reserved)
  {
    SumNonNegative(releases);
    SplitAllOk(reservations, Sum(releases));
  }
}
