/**
 What the fund manager moves in and out of escrow, for whom, and what it answers: exactly what is
 missing is added, and exactly what is asked for is withdrawn.
 */
module FundLaws {
  import opened Wrappers
  import opened Selections
  import opened FundManager
  import opened FundSafety
  import opened FundRuns
  import FundLedger

  /** What stays queued are the requests nobody answered, in order. */
  lemma {:induction false} UnansweredStay(reqs: seq<Request>, done: seq<Completion>) returns (at: seq<nat>)
    ensures Picks(Unprocessed(reqs, done), reqs, at)
    ensures forall k: nat :: k in at <==> k < |reqs| && forall i :: 0 <= i < |done| ==> done[i].id != reqs[k].id
  {
    at := [];
    if reqs != [] {
      var n := |reqs| - 1;
      at := UnansweredStay(reqs[..n], done);
      PicksNext(Unprocessed(reqs[..n], done), reqs[..n], at, reqs[n]);
      assert reqs == reqs[..n] + [reqs[n]];
      assert Unprocessed(reqs[..n], done) + [] == Unprocessed(reqs[..n], done);
      if !IsDone(reqs[n], done) {
        at := at + [n];
      }
    }
  }

  // ----- adding to escrow -----

  ghost predicate Defined(reqs: seq<Request>) {
    forall r :: r in reqs ==> r.wallet != UNDEF
  }

  lemma {:induction false} CountTwo(reqs: seq<Request>, a: Request, b: Request)
    requires a in reqs && b in reqs && a != b && a.id == b.id
    ensures Count(reqs, a.id) >= 2
  {
    var init, last := reqs[..|reqs| - 1], reqs[|reqs| - 1];
    if a in init && b in init {
      CountTwo(init, a, b);
    } else if a in init {
      CountMember(init, a);
    } else {
      CountMember(init, b);
    }
  }

  /**
   When a pass adds to escrow, what was available and what is added are together exactly what is
   now reserved. The paying wallet is that of a reservation which is answered with the message.
   */
  lemma AddsWhatIsMissing(reserved: int, reservations: seq<Request>, releases: seq<Request>, env: Env) returns (r: Request)
    requires ReservationPass(reserved, reservations, releases, env).sent.AddBalance?
    requires NonNegative(reservations) && NonNegative(releases)
    ensures var p := ReservationPass(reserved, reservations, releases, env);
            && env.availAdd.Some? && env.availAdd.value + p.sent.value == p.reserved && p.sent.value > 0
            && p.msg.Some? && p.msg == env.pushAdd
            && r in reservations && r.wallet == p.sent.from && Completion(r.id, p.msg, false) in p.done
  {
    var s := SplitAll(reservations, Sum(releases));
    r := s.toAdd[0];
    SumNonNegative(releases);
    SplitAllOk(reservations, Sum(releases));
    FundLedger.SplitMembers(reservations, Sum(releases));
    assert Complete(s.toAdd, env.pushAdd, false)[0] == Completion(r.id, env.pushAdd, false);
  }

  /** All reservations answered with the message come from the wallet that pays. */
  lemma AllPayTogether(reserved: int, reservations: seq<Request>, releases: seq<Request>, env: Env, r: Request)
    requires ReservationPass(reserved, reservations, releases, env).sent.AddBalance?
    requires Defined(reservations) && forall id: nat :: Count(reservations, id) <= 1
    requires r in reservations && Completion(r.id, env.pushAdd, false) in ReservationPass(reserved, reservations, releases, env).done
    ensures r.wallet == ReservationPass(reserved, reservations, releases, env).sent.from
  {
    var p := ReservationPass(reserved, reservations, releases, env);
    var s := SplitAll(reservations, Sum(releases));
    var q := WithMessage(s.covered, s.toAdd, releases, env.pushAdd.value, r.id);
    SplitWallets(reservations, Sum(releases));
    FundLedger.SplitMembers(reservations, Sum(releases));
    if q != r {
      CountTwo(reservations, q, r);
    }
  }

  lemma WithMessage(covered: seq<Request>, toAdd: seq<Request>, releases: seq<Request>, msg: nat, id: nat) returns (q: Request)
    requires Completion(id, Some(msg), false) in
               Complete(releases, None, false) + Complete(covered, None, false) + Complete(toAdd, Some(msg), false)
    ensures q in toAdd && q.id == id
  {
    var done := Complete(toAdd, Some(msg), false);
    var i :| 0 <= i < |done| && done[i] == Completion(id, Some(msg), false);
    q := toAdd[i];
  }

  /** A whole pass adds exactly what is missing, for a reservation that was queued. */
  lemma PassAddsWhatIsMissing(s: FundState, env: Env)
    requires QueuesNonNegative(s) && ProcessSpec(s, env).sent.AddBalance?
    ensures var o := ProcessSpec(s, env);
            && env.availAdd.Some? && env.availAdd.value + o.sent.value == o.state.reserved && o.sent.value > 0
            && o.state.msg == env.pushAdd
            && exists r :: r in s.reservations && r.wallet == o.sent.from && Completion(r.id, env.pushAdd, false) in o.done
  {
    var r := AddsWhatIsMissing(s.reserved, s.reservations, s.releases, env);
  }

  // ----- withdrawing from escrow -----

  /** The withdrawals taken are some of those asked for, in order. */
  lemma {:induction false} TakenFrom(withdrawals: seq<Request>, netAvail: int) returns (at: seq<nat>)
    ensures Picks(TakeAll(withdrawals, netAvail).allowed, withdrawals, at)
  {
    at := [];
    if withdrawals != [] {
      var n := |withdrawals| - 1;
      var init, r := withdrawals[..n], withdrawals[n];
      at := TakenFrom(init, netAvail);
      PicksNext(TakeAll(init, netAvail).allowed, init, at, r);
      assert withdrawals == init + [r];
      if TakeAll(withdrawals, netAvail).allowed != TakeAll(init, netAvail).allowed {
        at := at + [n];
      }
    }
  }

  ghost predicate OneWallet(t: Taken) {
    && (t.allowed == [] <==> t.wallet == UNDEF)
    && forall r :: r in t.allowed ==> r.wallet == t.wallet && r.Amount() > 0
  }

  lemma OneWalletNext(t: Taken, r: Request, netAvail: int)
    requires OneWallet(t) && r.amt >= 0 && r.wallet != UNDEF
    ensures OneWallet(TakeOne(t, r, netAvail))
  {
  }

  /** The withdrawals taken are of one wallet, and for something. */
  lemma {:induction false} TakenOneWallet(withdrawals: seq<Request>, netAvail: int)
    requires NonNegative(withdrawals) && Defined(withdrawals)
    ensures OneWallet(TakeAll(withdrawals, netAvail))
  {
    if withdrawals != [] {
      var n := |withdrawals| - 1;
      TakenOneWallet(withdrawals[..n], netAvail);
      TakeAllOk(withdrawals[..n], netAvail);
      assert withdrawals[n] in withdrawals;
      OneWalletNext(TakeAll(withdrawals[..n], netAvail), withdrawals[n], netAvail);
    }
  }

  /**
   What becomes of each withdrawal, given those taken before it: for nothing, answered; for more
   than they leave, refused; of another wallet than theirs, left for a later pass; else taken.
   */
  lemma TakenFate(withdrawals: seq<Request>, netAvail: int, k: nat)
    requires NonNegative(withdrawals) && Defined(withdrawals) && k < |withdrawals|
    ensures var r, t, t' := withdrawals[k], TakeAll(withdrawals[..k], netAvail), TakeAll(withdrawals[..k + 1], netAvail);
            if r.Amount() == 0 then t'.allowed == t.allowed && t'.answered == t.answered + [Completion(r.id, None, false)]
            else if Sum(t.allowed) + r.Amount() > netAvail then
              t'.allowed == t.allowed && t'.answered == t.answered + [Completion(r.id, None, true)]
            else if t.allowed != [] && t.allowed[0].wallet != r.wallet then
              t'.allowed == t.allowed && t'.answered == t.answered
            else t'.allowed == t.allowed + [r] && t'.answered == t.answered
  {
    TakenOneWallet(withdrawals[..k], netAvail);
    TakeAllOk(withdrawals[..k], netAvail);
    assert withdrawals[..k + 1][..k] == withdrawals[..k] && withdrawals[k] in withdrawals;
    var t := TakeAll(withdrawals[..k], netAvail);
    assert t.allowed != [] ==> t.allowed[0] in t.allowed;
  }

  /**
   When a pass withdraws, it withdraws exactly the sum of some of the withdrawals, all of one
   wallet, to which it goes; these and no others are answered with the message.
   */
  lemma WithdrawsWhatIsAsked(reserved: int, withdrawals: seq<Request>, env: Env) returns (paid: seq<Request>, at: seq<nat>)
    requires NonNegative(withdrawals) && Defined(withdrawals)
    requires WithdrawalPass(reserved, withdrawals, env).sent.WithdrawBalance?
    ensures var q := WithdrawalPass(reserved, withdrawals, env);
            && paid != [] && Picks(paid, withdrawals, at)
            && q.sent.value == Sum(paid) && env.availWithdraw.Some? && q.sent.value <= env.availWithdraw.value - reserved
            && q.msg.Some? && q.msg == env.pushWithdraw
            && (forall r :: r in paid ==> r.wallet == q.sent.from && Completion(r.id, q.msg, false) in q.done)
            && (forall c :: c in q.done && c.msg.Some? ==> exists r :: r in paid && c == Completion(r.id, q.msg, false))
  {
    var netAvail := env.availWithdraw.value - reserved;
    WithdrawalSent(reserved, withdrawals, env);
    var t := TakeAll(withdrawals, netAvail);
    paid := t.allowed;
    at := TakenFrom(withdrawals, netAvail);
    TakenOneWallet(withdrawals, netAvail);
    TakeAllOk(withdrawals, netAvail);
    assert paid[0] in paid;
    OnTheSpotNoMessage(withdrawals, netAvail);
    AnsweredMembers(t.answered, paid, env.pushWithdraw);
  }

  lemma WithdrawalSent(reserved: int, withdrawals: seq<Request>, env: Env)
    requires WithdrawalPass(reserved, withdrawals, env).sent.WithdrawBalance?
    ensures env.availWithdraw.Some? && env.pushWithdraw.Some?
    ensures var q, t := WithdrawalPass(reserved, withdrawals, env), TakeAll(withdrawals, env.availWithdraw.value - reserved);
            && t.amt != 0 && t.allowed != [] && q.sent == WithdrawBalance(t.allowed[0].wallet, t.amt)
            && q.msg == env.pushWithdraw && q.done == t.answered + Complete(t.allowed, env.pushWithdraw, false)
  {
  }

  lemma {:induction false} OnTheSpotNoMessage(withdrawals: seq<Request>, netAvail: int)
    ensures forall c :: c in TakeAll(withdrawals, netAvail).answered ==> c.msg == None
  {
    if withdrawals != [] {
      OnTheSpotNoMessage(withdrawals[..|withdrawals| - 1], netAvail);
    }
  }

  lemma AnsweredMembers(answered: seq<Completion>, allowed: seq<Request>, msg: Option<nat>)
    requires forall c :: c in answered ==> c.msg == None
    ensures forall r :: r in allowed ==> Completion(r.id, msg, false) in answered + Complete(allowed, msg, false)
    ensures forall c :: c in answered + Complete(allowed, msg, false) && c.msg.Some? ==>
              exists r :: r in allowed && c == Completion(r.id, msg, false)
  {
    var done := Complete(allowed, msg, false);
    forall r | r in allowed
      ensures Completion(r.id, msg, false) in answered + done
    {
      var i :| 0 <= i < |allowed| && allowed[i] == r;
      assert done[i] == Completion(r.id, msg, false);
    }
    forall c | c in answered + done && c.msg.Some?
      ensures exists r :: r in allowed && c == Completion(r.id, msg, false)
    {
      var i :| 0 <= i < |done| && done[i] == c;
      assert allowed[i] in allowed;
    }
  }

  lemma CompleteMember(reqs: seq<Request>, r: Request, msg: Option<nat>, failed: bool)
    requires r in reqs
    ensures Completion(r.id, msg, failed) in Complete(reqs, msg, failed)
  {
    var i :| 0 <= i < |reqs| && reqs[i] == r;
    assert Complete(reqs, msg, failed)[i] == Completion(r.id, msg, failed);
  }

  /** If the available funds cannot be read, every withdrawal is answered with a failure. */
  lemma UnknownFundsFail(reserved: int, withdrawals: seq<Request>, env: Env)
    requires env.availWithdraw.None?
    ensures var q := WithdrawalPass(reserved, withdrawals, env);
            && q.sent == Nothing && (forall c :: c in q.done ==> c.failed)
            && (forall r :: r in withdrawals ==> Completion(r.id, None, true) in q.done)
  {
    AllFail(withdrawals);
  }

  /**
   Otherwise a pass withdraws exactly if some withdrawal fits in what is not reserved and the
   message can be sent; if one fits and the message cannot be sent, all are answered with a failure.
   */
  lemma WithdrawsIff(reserved: int, withdrawals: seq<Request>, env: Env)
    requires NonNegative(withdrawals) && env.availWithdraw.Some?
    ensures var q := WithdrawalPass(reserved, withdrawals, env);
            q.sent != Nothing <==> SomeAllowed(withdrawals, env.availWithdraw.value - reserved) && env.pushWithdraw.Some?
    ensures SomeAllowed(withdrawals, env.availWithdraw.value - reserved) && env.pushWithdraw.None? ==>
              forall r :: r in withdrawals ==> Completion(r.id, None, true) in WithdrawalPass(reserved, withdrawals, env).done
  {
    var t := TakeAll(withdrawals, env.availWithdraw.value - reserved);
    TakenIff(withdrawals, env.availWithdraw.value - reserved);
    WithdrawalShape(reserved, withdrawals, env);
    if t.allowed != [] && env.pushWithdraw.None? {
      AllFail(withdrawals);
      LaterMembers(t.answered, Complete(withdrawals, None, true));
    }
  }

  /** A pass over withdrawals fails exactly if the funds are unknown, or one fits but cannot be sent. */
  lemma WithdrawalFailsIff(reserved: int, withdrawals: seq<Request>, env: Env)
    requires NonNegative(withdrawals)
    ensures !WithdrawalPass(reserved, withdrawals, env).ok <==>
              || env.availWithdraw.None?
              || (SomeAllowed(withdrawals, env.availWithdraw.value - reserved) && env.pushWithdraw.None?)
  {
    WithdrawalShape(reserved, withdrawals, env);
    if env.availWithdraw.Some? {
      TakenIff(withdrawals, env.availWithdraw.value - reserved);
    }
  }

  lemma {:induction false} AllOnTheSpot(withdrawals: seq<Request>, netAvail: int)
    requires NonNegative(withdrawals) && !SomeAllowed(withdrawals, netAvail)
    ensures var t := TakeAll(withdrawals, netAvail);
            && t.allowed == [] && t.amt == 0 && |t.answered| == |withdrawals|
            && forall k :: 0 <= k < |withdrawals| ==>
                 t.answered[k] == Completion(withdrawals[k].id, None, withdrawals[k].Amount() != 0)
  {
    if withdrawals != [] {
      var n := |withdrawals| - 1;
      forall i | 0 <= i < n
        ensures !(0 < withdrawals[..n][i].Amount() <= netAvail)
      {
        assert !(0 < withdrawals[i].Amount() <= netAvail);
      }
      AllOnTheSpot(withdrawals[..n], netAvail);
      assert withdrawals[n] in withdrawals && !(0 < withdrawals[n].Amount() <= netAvail);
    }
  }

  /** If no withdrawal fits, each is answered in order, with success exactly if it is for nothing. */
  lemma NoneFits(reserved: int, withdrawals: seq<Request>, env: Env)
    requires NonNegative(withdrawals) && env.availWithdraw.Some?
    requires !SomeAllowed(withdrawals, env.availWithdraw.value - reserved)
    ensures var q := WithdrawalPass(reserved, withdrawals, env);
            && q.ok && q.sent == Nothing && q.msg == None && q.reserved == reserved && |q.done| == |withdrawals|
            && forall k :: 0 <= k < |withdrawals| ==>
                 q.done[k] == Completion(withdrawals[k].id, None, withdrawals[k].Amount() != 0)
  {
    AllOnTheSpot(withdrawals, env.availWithdraw.value - reserved);
  }

  lemma LaterMembers(first: seq<Completion>, later: seq<Completion>)
    ensures forall c :: c in later ==> c in first + later
  {
  }

  lemma WithdrawalShape(reserved: int, withdrawals: seq<Request>, env: Env)
    requires NonNegative(withdrawals)
    ensures var q := WithdrawalPass(reserved, withdrawals, env);
            if env.availWithdraw.None? then q.sent == Nothing && !q.ok && q.done == Complete(withdrawals, None, true)
            else
              var t := TakeAll(withdrawals, env.availWithdraw.value - reserved);
              if t.allowed == [] then q.sent == Nothing && q.ok
              else if env.pushWithdraw.None? then
                q.sent == Nothing && !q.ok && q.done == t.answered + Complete(withdrawals, None, true)
              else q.sent.WithdrawBalance? && q.ok
  {
    if env.availWithdraw.Some? {
      TakeAllOk(withdrawals, env.availWithdraw.value - reserved);
    }
  }

  lemma AllFail(withdrawals: seq<Request>)
    ensures forall r :: r in withdrawals ==> Completion(r.id, None, true) in Complete(withdrawals, None, true)
    ensures forall c :: c in Complete(withdrawals, None, true) ==> c.failed
  {
    forall r | r in withdrawals
      ensures Completion(r.id, None, true) in Complete(withdrawals, None, true)
    {
      CompleteMember(withdrawals, r, None, true);
    }
  }

  /** A pass asks for another one exactly if it had something to do and could do it; else it does nothing. */
  lemma RunsAgainIff(s: FundState, env: Env)
    ensures ProcessSpec(s, env).again <==>
              s.msg == None && (s.reservations != [] || s.releases != [] || s.withdrawals != [])
    ensures !ProcessSpec(s, env).again ==>
              ProcessSpec(s, env).state == s && ProcessSpec(s, env).sent == Nothing && ProcessSpec(s, env).done == []
  {
  }

  // ----- over time -----

  /** Every message of a run that adds to escrow adds exactly what is missing then. */
  ghost predicate AddsExactly(w: World, es: seq<Event>)
    decreases |es|
  {
    es != [] ==>
      && (es[0].Pass? && ProcessSpec(w.funds, es[0].env).sent.AddBalance? ==>
            && w.avail + ProcessSpec(w.funds, es[0].env).sent.value == Apply(w, es[0]).funds.reserved
            && exists r :: r in w.funds.reservations && r.wallet == ProcessSpec(w.funds, es[0].env).sent.from)
      && AddsExactly(Apply(w, es[0]), es[1..])
  }

  lemma {:induction false} RunAddsExactly(w: World, es: seq<Event>)
    requires Solvent(w) && Possible(w, es)
    ensures AddsExactly(w, es)
    decreases |es|
  {
    if es != [] {
      if es[0].Pass? && ProcessSpec(w.funds, es[0].env).sent.AddBalance? {
        PassAddsWhatIsMissing(w.funds, es[0].env);
      }
      StepIsSolvent(w, es[0]);
      RunAddsExactly(Apply(w, es[0]), es[1..]);
    }
  }
}
