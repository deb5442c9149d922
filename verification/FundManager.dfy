/**
 The fund manager of one market address: queues of reservations, releases and withdrawals,
 processed in passes that send at most one message at a time.
 */
module FundManager {
  import opened Wrappers

  type Wallet = nat
  const UNDEF: Wallet := 0

  /** A queued request. Once its context has expired it counts as a request for nothing. */
  datatype Request = Request(id: nat, wallet: Wallet, amt: int, expired: bool)
  {
    function Amount(): int { if expired then 0 else amt }
  }

  datatype Completion = Completion(id: nat, msg: Option<nat>, failed: bool)

  /** What a pass sent to the chain. */
  datatype Sent = Nothing | AddBalance(from: Wallet, value: int) | WithdrawBalance(from: Wallet, value: int)

  /** What a pass gets from the chain: available funds and message IDs, or errors. */
  datatype Env = Env(availAdd: Option<int>, pushAdd: Option<nat>, availWithdraw: Option<int>, pushWithdraw: Option<nat>)

  datatype FundState = FundState(
    reserved: int, msg: Option<nat>,
    reservations: seq<Request>, releases: seq<Request>, withdrawals: seq<Request>)

  function Sum(reqs: seq<Request>): int {
    if reqs == [] then 0 else Sum(reqs[..|reqs| - 1]) + reqs[|reqs| - 1].Amount()
  }

  function Complete(reqs: seq<Request>, msg: Option<nat>, failed: bool): (done: seq<Completion>)
    ensures |done| == |reqs|
    ensures forall i :: 0 <= i < |reqs| ==> done[i] == Completion(reqs[i].id, msg, failed)
  {
    seq(|reqs|, i requires 0 <= i < |reqs| => Completion(reqs[i].id, msg, failed))
  }

  predicate IsDone(r: Request, done: seq<Completion>) {
    exists i :: 0 <= i < |done| && done[i].id == r.id
  }

  function Unprocessed(reqs: seq<Request>, done: seq<Completion>): seq<Request> {
    if reqs == [] then []
    else
      var last := reqs[|reqs| - 1];
      Unprocessed(reqs[..|reqs| - 1], done) + (if IsDone(last, done) then [] else [last])
  }

  method FilterOutProcessed(reqs: seq<Request>, done: seq<Completion>) returns (filtered: seq<Request>)
    ensures filtered == Unprocessed(reqs, done)
  {
    filtered := [];
    for i := 0 to |reqs|
      invariant filtered == Unprocessed(reqs[..i], done)
    {
      assert reqs[..i + 1][..i] == reqs[..i];
      if !IsDone(reqs[i], done) {
        filtered := filtered + [reqs[i]];
      }
    }
    assert reqs[..|reqs|] == reqs;
  }

  // ----- splitting reservations -----

  /** Reservations seen so far: covered by releases, to be added, or left for a later pass. */
  datatype Split = Split(release: int, addAmt: int, wallet: Wallet,
                         covered: seq<Request>, toAdd: seq<Request>, deferred: seq<Request>)

  function SplitAll(reservations: seq<Request>, released: int): Split {
    if reservations == [] then Split(released, 0, UNDEF, [], [], [])
    else SplitOne(SplitAll(reservations[..|reservations| - 1], released), reservations[|reservations| - 1])
  }

  function SplitOne(s: Split, r: Request): Split {
    if r.Amount() <= s.release then s.(release := s.release - r.Amount(), covered := s.covered + [r])
    else
      var wallet := if s.wallet == UNDEF then r.wallet else s.wallet;
      if wallet == r.wallet
      then s.(release := 0, addAmt := s.addAmt + r.Amount() - s.release, wallet := wallet, toAdd := s.toAdd + [r])
      else s.(wallet := wallet, deferred := s.deferred + [r])
  }

  method SplitReservations(reservations: seq<Request>, releases: seq<Request>)
    returns (toCancel: seq<Request>, toAdd: seq<Request>, delta: int)
    ensures var s := SplitAll(reservations, Sum(releases));
            toCancel == s.covered && toAdd == s.toAdd && delta == s.addAmt - s.release
  {
    toCancel, toAdd := [], [];
    var toAddAmt, releaseAmt := 0, 0;
    for i := 0 to |releases|
      invariant releaseAmt == Sum(releases[..i])
    {
      assert releases[..i + 1][..i] == releases[..i];
      releaseAmt := releaseAmt + releases[i].Amount();
    }
    assert releases[..|releases|] == releases;
    var batchWallet := UNDEF;
    ghost var deferred: seq<Request> := [];
    for i := 0 to |reservations|
      invariant SplitAll(reservations[..i], Sum(releases)) ==
                Split(releaseAmt, toAddAmt, batchWallet, toCancel, toAdd, deferred)
    {
      assert reservations[..i + 1][..i] == reservations[..i];
      var req := reservations[i];
      var amt := req.Amount();
      if amt <= releaseAmt {
        releaseAmt := releaseAmt - amt;
        toCancel := toCancel + [req];
        continue;
      }
      if batchWallet == UNDEF {
        batchWallet := req.wallet;
      }
      if batchWallet == req.wallet {
        toAddAmt := toAddAmt + (amt - releaseAmt);
        releaseAmt := 0;
        toAdd := toAdd + [req];
      } else {
        deferred := deferred + [req];
      }
    }
    assert reservations[..|reservations|] == reservations;
    delta := toAddAmt - releaseAmt;
  }

  // ----- processing reservations and releases -----

  /** The state change of a pass over reservations, or the failure of all its requests. */
  datatype Pass = Pass(ok: bool, reserved: int, msg: Option<nat>, sent: Sent, done: seq<Completion>)

  function NewReserved(reserved: int, s: Split): int {
    if reserved + s.addAmt - s.release < 0 then 0 else reserved + s.addAmt - s.release
  }

  function FailAll(reserved: int, reservations: seq<Request>, releases: seq<Request>): Pass {
    Pass(false, reserved, None, Nothing, Complete(reservations + releases, None, true))
  }

  function ReservationPass(reserved: int, reservations: seq<Request>, releases: seq<Request>, env: Env): Pass {
    var s := SplitAll(reservations, Sum(releases));
    var reserved' := NewReserved(reserved, s);
    var needed := s.toAdd != [] && reserved' > 0;
    if needed && env.availAdd.None? then FailAll(reserved, reservations, releases)
    else if !needed || reserved' <= env.availAdd.value then
      Pass(true, reserved', None, Nothing, Complete(releases, None, false) + Complete(s.covered + s.toAdd, None, false))
    else if env.pushAdd.None? then FailAll(reserved, reservations, releases)
    else
      Pass(true, reserved', env.pushAdd, AddBalance(s.toAdd[0].wallet, reserved' - env.availAdd.value),
           Complete(releases, None, false) + Complete(s.covered, None, false) + Complete(s.toAdd, env.pushAdd, false))
  }

  // ----- processing withdrawals -----

  /** Withdrawals seen so far; `answered` are those completed on the spot. */
  datatype Taken = Taken(amt: int, wallet: Wallet, allowed: seq<Request>, answered: seq<Completion>)

  function TakeAll(withdrawals: seq<Request>, netAvail: int): Taken {
    if withdrawals == [] then Taken(0, UNDEF, [], [])
    else TakeOne(TakeAll(withdrawals[..|withdrawals| - 1], netAvail), withdrawals[|withdrawals| - 1], netAvail)
  }

  function TakeOne(t: Taken, r: Request, netAvail: int): Taken {
    if r.Amount() == 0 then t.(answered := t.answered + [Completion(r.id, None, false)])
    else if t.amt + r.Amount() > netAvail then t.(answered := t.answered + [Completion(r.id, None, true)])
    else
      var wallet := if t.wallet == UNDEF then r.wallet else t.wallet;
      if r.wallet == wallet
      then Taken(t.amt + r.Amount(), wallet, t.allowed + [r], t.answered)
      else t.(wallet := wallet)
  }

  /** A failed push completes every withdrawal, also those already answered. */
  function WithdrawalPass(reserved: int, withdrawals: seq<Request>, env: Env): Pass {
    if env.availWithdraw.None? then Pass(false, reserved, None, Nothing, Complete(withdrawals, None, true))
    else
      var t := TakeAll(withdrawals, env.availWithdraw.value - reserved);
      if t.amt == 0 then Pass(true, reserved, None, Nothing, t.answered + Complete(t.allowed, None, false))
      else if env.pushWithdraw.None? || t.allowed == [] then
        Pass(false, reserved, None, Nothing, t.answered + Complete(withdrawals, None, true))
      else
        Pass(true, reserved, env.pushWithdraw, WithdrawBalance(t.allowed[0].wallet, t.amt),
             t.answered + Complete(t.allowed, env.pushWithdraw, false))
  }

  // ----- a whole pass -----

  datatype Outcome = Outcome(state: FundState, sent: Sent, done: seq<Completion>, again: bool)

  function AfterReservations(s: FundState, env: Env): (FundState, Pass) {
    if s.reservations == [] && s.releases == [] then (s, Pass(false, s.reserved, None, Nothing, []))
    else
      var p := ReservationPass(s.reserved, s.reservations, s.releases, env);
      (s.(reserved := p.reserved, msg := p.msg,
          reservations := Unprocessed(s.reservations, p.done), releases := Unprocessed(s.releases, p.done)), p)
  }

  function ProcessSpec(s: FundState, env: Env): Outcome {
    if s.msg.Some? || (s.reservations == [] && s.releases == [] && s.withdrawals == [])
    then Outcome(s, Nothing, [], false)
    else
      var (s1, p) := AfterReservations(s, env);
      if s.withdrawals != [] && s1.msg.None? && s1.reservations == [] then
        var q := WithdrawalPass(s1.reserved, s1.withdrawals, env);
        Outcome(s1.(msg := q.msg, withdrawals := Unprocessed(s1.withdrawals, q.done)), q.sent, p.done + q.done, true)
      else Outcome(s1, p.sent, p.done, true)
  }

  class FundedAddress {
    var amtReserved: int
    var msgCid: Option<nat>
    var reservations: seq<Request>
    var releases: seq<Request>
    var withdrawals: seq<Request>

    function View(): FundState
      reads this
    {
      FundState(amtReserved, msgCid, reservations, releases, withdrawals)
    }

    constructor ()
      ensures View() == FundState(0, None, [], [], [])
    {
      amtReserved, msgCid := 0, None;
      reservations, releases, withdrawals := [], [], [];
    }

    method Reserve(req: Request)
      modifies this
      ensures View() == old(View()).(reservations := old(reservations) + [req])
    {
      reservations := reservations + [req];
    }

    method Release(req: Request)
      modifies this
      ensures View() == old(View()).(releases := old(releases) + [req])
    {
      releases := releases + [req];
    }

    method Withdraw(req: Request)
      modifies this
      ensures View() == old(View()).(withdrawals := old(withdrawals) + [req])
    {
      withdrawals := withdrawals + [req];
    }

    /** The part of a pass that serves reservations and releases. */
    method ServeReservations(env: Env) returns (sent: Sent, done: seq<Completion>)
      requires msgCid.None? && (reservations != [] || releases != [])
      modifies this
      ensures var (s, p) := AfterReservations(old(View()), env); View() == s && sent == p.sent && done == p.done
    {
      var p := ProcessReservations(amtReserved, reservations, releases, env);
      if p.ok {
        msgCid := p.msg;
        amtReserved := p.reserved;
      }
      reservations := FilterOutProcessed(reservations, p.done);
      releases := FilterOutProcessed(releases, p.done);
      sent, done := p.sent, p.done;
    }

    /** The part of a pass that serves withdrawals. */
    method ServeWithdrawals(env: Env) returns (sent: Sent, done: seq<Completion>)
      requires msgCid.None?
      modifies this
      ensures var q := WithdrawalPass(old(amtReserved), old(withdrawals), env);
              && View() == old(View()).(msg := q.msg, withdrawals := Unprocessed(old(withdrawals), q.done))
              && sent == q.sent && done == q.done
    {
      var q := ProcessWithdrawals(amtReserved, withdrawals, env);
      if q.ok && q.msg.Some? {
        msgCid := q.msg;
      }
      withdrawals := FilterOutProcessed(withdrawals, q.done);
      sent, done := q.sent, q.done;
    }

    /** One pass over the queues: what it sends, whom it answers, and whether another pass follows. */
    method Process(env: Env) returns (sent: Sent, done: seq<Completion>, again: bool)
      modifies this
      ensures ProcessSpec(old(View()), env) == Outcome(View(), sent, done, again)
    {
      sent, done, again := Nothing, [], false;
      if msgCid.Some? {
        return;
      }
      var haveReservations := |reservations| > 0 || |releases| > 0;
      var haveWithdrawals := |withdrawals| > 0;
      if !haveReservations && !haveWithdrawals {
        return;
      }
      again := true;
      if haveReservations {
        sent, done := ServeReservations(env);
      }
      if haveWithdrawals && msgCid.None? && |reservations| == 0 {
        var withdrawSent, withdrawDone := ServeWithdrawals(env);
        sent, done := withdrawSent, done + withdrawDone;
      }
    }

    method ClearWaitState()
      modifies this
      ensures View() == old(View()).(msg := None)
    {
      msgCid := None;
    }
  }

  method ProcessReservations(reserved: int, reservations: seq<Request>, releases: seq<Request>, env: Env) returns (p: Pass)
    ensures p == ReservationPass(reserved, reservations, releases, env)
  {
    var toCancel, toAdd, delta := SplitReservations(reservations, releases);
    var reserved' := reserved + delta;
    if reserved' < 0 {
      reserved' := 0;
    }
    var amtToAdd := 0;
    if |toAdd| > 0 && reserved' > 0 {
      if env.availAdd.None? {
        return FailAll(reserved, reservations, releases);
      }
      amtToAdd := reserved' - env.availAdd.value;
    }
    var released := Complete(releases, None, false);
    if amtToAdd <= 0 {
      return Pass(true, reserved', None, Nothing, released + Complete(toCancel + toAdd, None, false));
    }
    if env.pushAdd.None? {
      return FailAll(reserved, reservations, releases);
    }
    p := Pass(true, reserved', env.pushAdd, AddBalance(toAdd[0].wallet, amtToAdd),
              released + Complete(toCancel, None, false) + Complete(toAdd, env.pushAdd, false));
  }

  method ProcessWithdrawals(reserved: int, withdrawals: seq<Request>, env: Env) returns (p: Pass)
    ensures p == WithdrawalPass(reserved, withdrawals, env)
  {
    if env.availWithdraw.None? {
      return Pass(false, reserved, None, Nothing, Complete(withdrawals, None, true));
    }
    var netAvail := env.availWithdraw.value - reserved;
    var withdrawalAmt, allowedAmt := 0, 0;
    var allowed: seq<Request>, answered: seq<Completion> := [], [];
    var batchWallet := UNDEF;
    for i := 0 to |withdrawals|
      invariant withdrawalAmt == allowedAmt
      invariant TakeAll(withdrawals[..i], netAvail) == Taken(withdrawalAmt, batchWallet, allowed, answered)
      invariant allowedAmt != 0 ==> allowed != []
    {
      assert withdrawals[..i + 1][..i] == withdrawals[..i];
      var req := withdrawals[i];
      var amt := req.Amount();
      if amt == 0 {
        answered := answered + [Completion(req.id, None, false)];
        continue;
      }
      var newWithdrawalAmt := withdrawalAmt + amt;
      if newWithdrawalAmt > netAvail {
        answered := answered + [Completion(req.id, None, true)];
        continue;
      }
      if batchWallet == UNDEF {
        batchWallet := req.wallet;
      }
      if req.wallet != batchWallet {
        continue;
      }
      withdrawalAmt := newWithdrawalAmt;
      allowed := allowed + [req];
      allowedAmt := allowedAmt + amt;
    }
    assert withdrawals[..|withdrawals|] == withdrawals;
    if allowedAmt == 0 {
      return Pass(true, reserved, None, Nothing, answered + Complete(allowed, None, false));
    }
    if env.pushWithdraw.None? {
      return Pass(false, reserved, None, Nothing, answered + Complete(withdrawals, None, true));
    }
    p := Pass(true, reserved, env.pushWithdraw, WithdrawBalance(allowed[0].wallet, allowedAmt),
              answered + Complete(allowed, env.pushWithdraw, false));
  }
}
