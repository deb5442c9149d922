/**
 The deals of a provider as clients of its fund manager. What the fund manager keeps reserved
 is, at every moment of every run, what the deals hold plus what was lost: releases that failed
 and grants whose deal had given up waiting.
 */
module FundLedger {
  import opened Wrappers
  import opened FundManager
  import opened FundSafety
  import opened FundRuns

  /** The call of the fund manager a deal waits for, or whose answer it has not recorded yet. */
  datatype Doing =
    | Idle
    | Reserving(ticket: nat, amt: int)
    | Granted(amt: int)
    | Refused
    | Releasing(ticket: nat)
    | Released

  /** A deal: the amount its record holds, and what it is doing. */
  datatype Account = Account(held: int, doing: Doing)
  {
    /** What the record holds once the answer of the fund manager is recorded. */
    function Claim(): int {
      match doing
      case Granted(amt) => held + amt
      case Released => 0
      case _ => held
    }

    predicate Waits() { doing.Reserving? || doing.Releasing? }
  }

  type Deals = map<nat, Account>

  /** The deals, whose call each waiting request is, and what is reserved for nobody. */
  datatype Book = Book(deals: Deals, calls: map<nat, nat>, lost: int)

  /** Requests are named by tickets; `tickets` counts those given out. */
  datatype Ledger = Ledger(funds: FundState, book: Book, tickets: nat)

  // ----- the sum over all deals -----

  ghost function TotalClaims(deals: Deals): int
    decreases |deals|
  {
    if deals == map[] then 0
    else
      var d :| d in deals;
      deals[d].Claim() + TotalClaims(deals - {d})
  }

  lemma {:induction false} ClaimsRemove(deals: Deals, d: nat)
    requires d in deals
    ensures TotalClaims(deals) == deals[d].Claim() + TotalClaims(deals - {d})
    decreases |deals|
  {
    var j :| j in deals && TotalClaims(deals) == deals[j].Claim() + TotalClaims(deals - {j});
    if j != d {
      ClaimsRemove(deals - {j}, d);
      ClaimsRemove(deals - {d}, j);
      assert deals - {j} - {d} == deals - {d} - {j};
    }
  }

  lemma ClaimsUpdate(deals: Deals, d: nat, a: Account)
    ensures TotalClaims(deals[d := a]) == TotalClaims(deals) - (if d in deals then deals[d].Claim() else 0) + a.Claim()
  {
    ClaimsRemove(deals[d := a], d);
    if d in deals {
      ClaimsRemove(deals, d);
      assert deals[d := a] - {d} == deals - {d};
    } else {
      assert deals[d := a] - {d} == deals;
    }
  }

  predicate AccountOk(a: Account) {
    a.held >= 0 && (a.doing.Reserving? || a.doing.Granted? ==> a.doing.amt >= 0)
  }

  ghost predicate AccountsOk(deals: Deals) {
    forall d :: d in deals ==> AccountOk(deals[d])
  }

  lemma {:induction false} TotalNonNegative(deals: Deals)
    requires AccountsOk(deals)
    ensures TotalClaims(deals) >= 0
    decreases |deals|
  {
    if deals != map[] {
      var d :| d in deals;
      ClaimsRemove(deals, d);
      TotalNonNegative(deals - {d});
    }
  }

  ghost function Owed(b: Book): int {
    TotalClaims(b.deals) + b.lost
  }

  // ----- answers of the fund manager -----

  function Answered(a: Account, failed: bool): Account {
    match a.doing
    case Reserving(_, amt) => a.(doing := if failed then Refused else Granted(amt))
    case Releasing(_) => a.(doing := Released)
    case _ => a
  }

  /** A call gets its answer, if its deal still waits for it. A failed release is only logged. */
  function Settle(b: Book, c: Completion): Book {
    if c.id !in b.calls || b.calls[c.id] !in b.deals then b
    else
      var d := b.calls[c.id];
      Book(b.deals[d := Answered(b.deals[d], c.failed)], b.calls - {c.id},
           b.lost + if b.deals[d].doing.Releasing? && c.failed then b.deals[d].held else 0)
  }

  function SettleAll(b: Book, done: seq<Completion>): Book {
    if done == [] then b else Settle(SettleAll(b, done[..|done| - 1]), done[|done| - 1])
  }

  lemma {:induction false} SettleConcat(b: Book, x: seq<Completion>, y: seq<Completion>)
    ensures SettleAll(b, x + y) == SettleAll(SettleAll(b, x), y)
  {
    if y == [] {
      assert x + y == x;
    } else {
      SettleConcat(b, x, y[..|y| - 1]);
      assert (x + y)[..|x + y| - 1] == x + y[..|y| - 1];
    }
  }

  predicate WaitsFor(a: Account, ticket: nat) {
    (a.doing.Reserving? || a.doing.Releasing?) && a.doing.ticket == ticket
  }

  /** Every call belongs to the deal that waits for it, and every deal that waits has a call. */
  ghost predicate CallsOk(b: Book) {
    && (forall t :: t in b.calls ==> b.calls[t] in b.deals && WaitsFor(b.deals[b.calls[t]], t))
    && (forall d :: d in b.deals && b.deals[d].Waits() ==>
          b.deals[d].doing.ticket in b.calls && b.calls[b.deals[d].doing.ticket] == d)
  }

  lemma SettleKeepsCalls(b: Book, c: Completion)
    requires CallsOk(b) && AccountsOk(b.deals)
    ensures CallsOk(Settle(b, c)) && AccountsOk(Settle(b, c).deals)
    ensures forall t :: t in b.calls && t != c.id ==>
              && t in Settle(b, c).calls && Settle(b, c).calls[t] == b.calls[t]
              && Settle(b, c).deals[b.calls[t]] == b.deals[b.calls[t]]
    ensures forall t :: t in Settle(b, c).calls ==> t in b.calls
  {
  }

  /** Who gets no answer is left alone. */
  lemma {:induction false} SettleOthers(b: Book, done: seq<Completion>)
    requires CallsOk(b) && AccountsOk(b.deals)
    ensures CallsOk(SettleAll(b, done)) && AccountsOk(SettleAll(b, done).deals)
    ensures forall t :: t in b.calls && Answers(done, t) == 0 ==>
              && t in SettleAll(b, done).calls && SettleAll(b, done).calls[t] == b.calls[t]
              && SettleAll(b, done).deals[b.calls[t]] == b.deals[b.calls[t]]
    ensures forall t :: t in SettleAll(b, done).calls ==> t in b.calls
  {
    if done != [] {
      SettleOthers(b, done[..|done| - 1]);
      SettleKeepsCalls(SettleAll(b, done[..|done| - 1]), done[|done| - 1]);
    }
  }

  /** The deal of a waiting request waits for exactly this request. */
  predicate Awaits(r: Request, b: Book, release: bool) {
    && r.id in b.calls && b.calls[r.id] in b.deals && !r.expired
    && var a := b.deals[b.calls[r.id]];
       if release then a.doing == Releasing(r.id) && r.amt == a.held > 0
       else a.doing == Reserving(r.id, r.amt) && r.amt >= 0
  }

  /** A request whose deal has given up: its context has ended, so it counts for nothing. */
  predicate Orphan(r: Request, b: Book) { r.id !in b.calls && r.expired && r.amt >= 0 }

  /** Requests of a queue are awaited or, in the queue of reservations, orphans; none is there twice. */
  ghost predicate QueueOk(reqs: seq<Request>, b: Book, release: bool) {
    && (forall r :: r in reqs ==> Awaits(r, b, release) || (!release && Orphan(r, b)))
    && (forall id: nat :: Count(reqs, id) <= 1)
  }

  function Effect(amt: int, release: bool, failed: bool): int {
    if failed then 0 else if release then -amt else amt
  }

  lemma SettleOne(b: Book, r: Request, msg: Option<nat>, failed: bool, release: bool)
    requires Awaits(r, b, release) || (!release && Orphan(r, b))
    ensures var b' := Settle(b, Completion(r.id, msg, failed));
            && Owed(b') == Owed(b) + Effect(r.Amount(), release, failed)
            && b'.lost == b.lost + if failed && release then r.Amount() else 0
  {
    if r.id in b.calls {
      var d := b.calls[r.id];
      ClaimsUpdate(b.deals, d, Answered(b.deals[d], failed));
    }
  }

  lemma QueuePrefix(reqs: seq<Request>, b: Book, release: bool)
    requires QueueOk(reqs, b, release) && reqs != []
    ensures QueueOk(reqs[..|reqs| - 1], b, release)
    ensures Count(reqs[..|reqs| - 1], reqs[|reqs| - 1].id) == 0
    ensures Awaits(reqs[|reqs| - 1], b, release) || (!release && Orphan(reqs[|reqs| - 1], b))
  {
    var init, last := reqs[..|reqs| - 1], reqs[|reqs| - 1];
    assert last in reqs && Count(reqs, last.id) <= 1;
    assert forall id: nat :: Count(init, id) <= Count(reqs, id);
  }

  lemma StillThere(b: Book, r: Request, done: seq<Completion>, release: bool)
    requires CallsOk(b) && AccountsOk(b.deals) && Answers(done, r.id) == 0
    ensures Awaits(r, b, release) ==> Awaits(r, SettleAll(b, done), release)
    ensures Orphan(r, b) ==> Orphan(r, SettleAll(b, done))
  {
    SettleOthers(b, done);
  }

  /** Answering a queue changes what is owed by its sum, and a failure loses the releases. */
  lemma {:induction false} SettleQueue(b: Book, reqs: seq<Request>, msg: Option<nat>, failed: bool, release: bool)
    requires CallsOk(b) && AccountsOk(b.deals) && QueueOk(reqs, b, release)
    ensures var b' := SettleAll(b, Complete(reqs, msg, failed));
            && Owed(b') == Owed(b) + Effect(Sum(reqs), release, failed)
            && b'.lost == b.lost + if failed && release then Sum(reqs) else 0
  {
    if reqs != [] {
      var init, r := reqs[..|reqs| - 1], reqs[|reqs| - 1];
      var done := Complete(init, msg, failed);
      QueuePrefix(reqs, b, release);
      SettleQueue(b, init, msg, failed, release);
      AnswersComplete(init, msg, failed, r.id);
      StillThere(b, r, done, release);
      assert Complete(reqs, msg, failed)[..|init|] == done;
      SettleOne(SettleAll(b, done), r, msg, failed, release);
    }
  }

  /** A queue stays right when only others are answered. */
  lemma QueueStays(b: Book, reqs: seq<Request>, done: seq<Completion>, release: bool)
    requires CallsOk(b) && AccountsOk(b.deals) && QueueOk(reqs, b, release)
    requires forall r :: r in reqs ==> Answers(done, r.id) == 0
    ensures QueueOk(reqs, SettleAll(b, done), release)
  {
    forall r | r in reqs
      ensures Awaits(r, SettleAll(b, done), release) || (!release && Orphan(r, SettleAll(b, done)))
    {
      StillThere(b, r, done, release);
    }
  }

  lemma {:induction false} UnprocessedCount(reqs: seq<Request>, done: seq<Completion>, id: nat)
    ensures Count(Unprocessed(reqs, done), id) <= Count(reqs, id)
  {
    if reqs != [] {
      var init, last := reqs[..|reqs| - 1], reqs[|reqs| - 1];
      UnprocessedCount(init, done, id);
      AppendRequest(Unprocessed(init, done), last, id);
      assert Unprocessed(init, done) + [] == Unprocessed(init, done);
    }
  }

  lemma UnprocessedOk(b: Book, reqs: seq<Request>, done: seq<Completion>, release: bool)
    requires CallsOk(b) && AccountsOk(b.deals) && QueueOk(reqs, b, release)
    ensures QueueOk(Unprocessed(reqs, done), SettleAll(b, done), release)
  {
    UnprocessedKeeps(reqs, done);
    forall id: nat
      ensures Count(Unprocessed(reqs, done), id) <= 1
    {
      UnprocessedCount(reqs, done, id);
    }
    QueueStays(b, Unprocessed(reqs, done), done, release);
  }

  // ----- a pass -----

  ghost predicate Disjoint(xs: seq<Request>, ys: seq<Request>) {
    forall x, y :: x in xs && y in ys ==> x.id != y.id
  }

  lemma {:induction false} CountZero(reqs: seq<Request>, id: nat)
    requires forall r :: r in reqs ==> r.id != id
    ensures Count(reqs, id) == 0
  {
    if reqs != [] {
      CountZero(reqs[..|reqs| - 1], id);
      assert reqs[|reqs| - 1] in reqs;
    }
  }

  /** Reservations and releases are different requests. */
  lemma QueuesDisjoint(b: Book, reservations: seq<Request>, releases: seq<Request>)
    requires QueueOk(reservations, b, false) && QueueOk(releases, b, true)
    ensures Disjoint(reservations, releases) && Disjoint(releases, reservations)
  {
  }

  lemma SettleFirst(b: Book, xs: seq<Request>, ys: seq<Request>, msg: Option<nat>, failed: bool, release: bool)
    requires CallsOk(b) && AccountsOk(b.deals) && QueueOk(ys, b, release) && Disjoint(xs, ys)
    ensures var b' := SettleAll(b, Complete(xs, msg, failed));
            CallsOk(b') && AccountsOk(b'.deals) && QueueOk(ys, b', release)
  {
    forall y | y in ys
      ensures Answers(Complete(xs, msg, failed), y.id) == 0
    {
      AnswersComplete(xs, msg, failed, y.id);
      CountZero(xs, y.id);
    }
    SettleOthers(b, Complete(xs, msg, failed));
    QueueStays(b, ys, Complete(xs, msg, failed), release);
  }

  /** Both queues fail: what is owed stays, and the releases are lost. */
  lemma SettleFailure(b: Book, reservations: seq<Request>, releases: seq<Request>)
    requires CallsOk(b) && AccountsOk(b.deals) && QueueOk(reservations, b, false) && QueueOk(releases, b, true)
    ensures var b' := SettleAll(b, Complete(reservations + releases, None, true));
            Owed(b') == Owed(b) && b'.lost == b.lost + Sum(releases)
  {
    var first := Complete(reservations, None, true);
    assert Complete(reservations + releases, None, true) == first + Complete(releases, None, true);
    SettleConcat(b, first, Complete(releases, None, true));
    SettleQueue(b, reservations, None, true, false);
    QueuesDisjoint(b, reservations, releases);
    SettleFirst(b, reservations, releases, None, true, true);
    SettleQueue(SettleAll(b, first), releases, None, true, true);
  }

  lemma SettleGranted(b: Book, xs: seq<Request>, ys: seq<Request>, msg: Option<nat>)
    requires CallsOk(b) && AccountsOk(b.deals) && QueueOk(xs, b, false) && QueueOk(ys, b, false) && Disjoint(xs, ys)
    ensures var b' := SettleAll(SettleAll(b, Complete(xs, None, false)), Complete(ys, msg, false));
            Owed(b') == Owed(b) + Sum(xs) + Sum(ys) && b'.lost == b.lost
  {
    SettleQueue(b, xs, None, false, false);
    SettleFirst(b, xs, ys, None, false, false);
    SettleQueue(SettleAll(b, Complete(xs, None, false)), ys, msg, false, false);
  }

  /** The releases and some of the reservations, the last of them with a message, are granted. */
  lemma SettleSuccess(b: Book, releases: seq<Request>, xs: seq<Request>, ys: seq<Request>, msg: Option<nat>)
    requires CallsOk(b) && AccountsOk(b.deals)
    requires QueueOk(releases, b, true) && QueueOk(xs, b, false) && QueueOk(ys, b, false) && Disjoint(xs, ys)
    ensures var b' := SettleAll(b, Complete(releases, None, false) + Complete(xs, None, false) + Complete(ys, msg, false));
            Owed(b') == Owed(b) - Sum(releases) + Sum(xs) + Sum(ys) && b'.lost == b.lost
  {
    var one, two := Complete(releases, None, false), Complete(xs, None, false);
    SettleConcat(b, one + two, Complete(ys, msg, false));
    SettleConcat(b, one, two);
    SettleQueue(b, releases, None, false, true);
    QueuesDisjoint(b, xs, releases);
    SettleFirst(b, releases, xs, None, false, false);
    QueuesDisjoint(b, ys, releases);
    SettleFirst(b, releases, ys, None, false, false);
    SettleGranted(SettleAll(b, one), xs, ys, msg);
  }

  /** The parts of a queue of reservations are queues, and have nothing in common. */
  lemma SplitQueues(reservations: seq<Request>, released: int, b: Book)
    requires QueueOk(reservations, b, false)
    ensures var s := SplitAll(reservations, released);
            QueueOk(s.covered, b, false) && QueueOk(s.toAdd, b, false) && Disjoint(s.covered, s.toAdd)
  {
    var s := SplitAll(reservations, released);
    SplitMembers(reservations, released);
    forall id: nat
      ensures Count(s.covered, id) + Count(s.toAdd, id) <= 1
    {
      SplitCount(reservations, released, id);
      assert Count(reservations, id) <= 1;
    }
    forall id: nat
      ensures Count(s.covered, id) <= 1 && Count(s.toAdd, id) <= 1
    {
      assert Count(s.covered, id) + Count(s.toAdd, id) <= 1;
    }
    forall x, y | x in s.covered && y in s.toAdd
      ensures x.id != y.id
    {
      CountMember(s.covered, x);
      CountMember(s.toAdd, y);
      assert Count(s.covered, x.id) + Count(s.toAdd, x.id) <= 1;
    }
  }

  lemma SplitMembers(reservations: seq<Request>, released: int)
    ensures var s := SplitAll(reservations, released);
            (forall r :: r in s.covered ==> r in reservations) && (forall r :: r in s.toAdd ==> r in reservations)
  {
    SplitWallets(reservations, released);
    var s := SplitAll(reservations, released);
    assert forall r :: r in s.covered ==> r in s.covered + s.toAdd + s.deferred;
    assert forall r :: r in s.toAdd ==> r in s.covered + s.toAdd + s.deferred;
  }

  /** Whom a successful pass answers: releases first, then covered and added reservations. */
  lemma PassDone(reserved: int, reservations: seq<Request>, releases: seq<Request>, env: Env)
    ensures var p := ReservationPass(reserved, reservations, releases, env);
            var s := SplitAll(reservations, Sum(releases));
            if p.ok then
              p.done == Complete(releases, None, false) + Complete(s.covered, None, false) + Complete(s.toAdd, p.msg, false)
            else p.done == Complete(reservations + releases, None, true)
  {
    var p := ReservationPass(reserved, reservations, releases, env);
    var s := SplitAll(reservations, Sum(releases));
    if p.ok && p.msg.None? {
      assert p.done == Complete(releases, None, false) + Complete(s.covered + s.toAdd, None, false);
      assert p.done == Complete(releases, None, false) + Complete(s.covered, None, false) + Complete(s.toAdd, None, false);
    }
  }

  /** What a pass of the fund manager changes for the deals. */
  lemma PassOwed(b: Book, reserved: int, reservations: seq<Request>, releases: seq<Request>, env: Env)
    requires CallsOk(b) && AccountsOk(b.deals) && QueueOk(reservations, b, false) && QueueOk(releases, b, true)
    ensures var s := SplitAll(reservations, Sum(releases));
            var fails := PassFails(reserved, reservations, releases, env);
            var b' := SettleAll(b, ReservationPass(reserved, reservations, releases, env).done);
            && Owed(b') == Owed(b) + (if fails then 0 else Sum(s.covered) + Sum(s.toAdd) - Sum(releases))
            && b'.lost == b.lost + if fails then Sum(releases) else 0
  {
    PassDone(reserved, reservations, releases, env);
    PassOutcome(reserved, reservations, releases, env);
    if PassFails(reserved, reservations, releases, env) {
      SettleFailure(b, reservations, releases);
    } else {
      var s := SplitAll(reservations, Sum(releases));
      SplitQueues(reservations, Sum(releases), b);
      SettleSuccess(b, releases, s.covered, s.toAdd, ReservationPass(reserved, reservations, releases, env).msg);
    }
  }

  // ----- the ledger over time -----

  /** A deal gives up when the context of its reservation ends before it has the answer. */
  datatype Event =
    | NewDeal(d: nat)
    | StartReserve(d: nat, amt: int, wallet: Wallet)
    | StartRelease(d: nat)
    | GiveUp(d: nat)
    | Record(d: nat)
    | AskWithdraw(r: Request)
    | Pass(env: Env)
    | WaitDone

  predicate Enabled(l: Ledger, e: Event) {
    var deals := l.book.deals;
    match e
    case NewDeal(d) => d !in deals
    case StartReserve(d, amt, _) => d in deals && deals[d].doing == Idle && amt >= 0
    case StartRelease(d) => d in deals && deals[d].doing == Idle && deals[d].held != 0
    case GiveUp(d) => d in deals && (deals[d].doing.Reserving? || deals[d].doing.Granted?)
    case Record(d) => d in deals && (deals[d].doing.Granted? || deals[d].doing.Refused? || deals[d].doing.Released?)
    case _ => true
  }

  function WithAccount(l: Ledger, d: nat, a: Account): Ledger {
    l.(book := l.book.(deals := l.book.deals[d := a]))
  }

  /** A call is queued under a new ticket. */
  function WithCall(l: Ledger, d: nat, doing: Doing): Ledger
    requires d in l.book.deals
  {
    l.(book := l.book.(deals := l.book.deals[d := l.book.deals[d].(doing := doing)], calls := l.book.calls[l.tickets := d]),
       tickets := l.tickets + 1)
  }

  /** The deal no longer waits; a request still queued has expired, a grant is lost. */
  function DoGiveUp(l: Ledger, d: nat): Ledger
    requires d in l.book.deals && (l.book.deals[d].doing.Reserving? || l.book.deals[d].doing.Granted?)
  {
    var a := l.book.deals[d];
    var deals := l.book.deals[d := Account(a.held, Idle)];
    if a.doing.Granted? then l.(book := l.book.(deals := deals, lost := l.book.lost + a.doing.amt))
    else
      l.(book := l.book.(deals := deals, calls := l.book.calls - {a.doing.ticket}),
         funds := l.funds.(reservations := Expired(l.funds.reservations, a.doing.ticket)))
  }

  function Apply(l: Ledger, e: Event): Ledger
    requires Enabled(l, e)
  {
    var deals, s := l.book.deals, l.funds;
    match e
    case NewDeal(d) => WithAccount(l, d, Account(0, Idle))
    case StartReserve(d, amt, wallet) =>
      WithCall(l, d, Reserving(l.tickets, amt))
        .(funds := s.(reservations := s.reservations + [Request(l.tickets, wallet, amt, false)]))
    case StartRelease(d) =>
      WithCall(l, d, Releasing(l.tickets))
        .(funds := s.(releases := s.releases + [Request(l.tickets, UNDEF, deals[d].held, false)]))
    case GiveUp(d) => DoGiveUp(l, d)
    case Record(d) => WithAccount(l, d, Account(deals[d].Claim(), Idle))
    case AskWithdraw(r) => l.(funds := s.(withdrawals := s.withdrawals + [r]))
    case Pass(env) =>
      if s.msg.Some? then l
      else Ledger(ProcessSpec(s, env).state, SettleAll(l.book, AfterReservations(s, env).1.done), l.tickets)
    case WaitDone => l.(funds := s.(msg := None))
  }

  ghost predicate TicketsOk(reqs: seq<Request>, tickets: nat) {
    forall r :: r in reqs ==> r.id < tickets
  }

  ghost predicate BookOk(b: Book, tickets: nat) {
    CallsOk(b) && AccountsOk(b.deals) && b.lost >= 0 && forall t :: t in b.calls ==> t < tickets
  }

  /** The fund manager keeps reserved exactly what the deals claim plus what was lost. */
  ghost predicate Inv(l: Ledger) {
    && BookOk(l.book, l.tickets)
    && QueueOk(l.funds.reservations, l.book, false) && TicketsOk(l.funds.reservations, l.tickets)
    && QueueOk(l.funds.releases, l.book, true) && TicketsOk(l.funds.releases, l.tickets)
    && l.funds.reserved == Owed(l.book)
  }

  // ----- a pass keeps the ledger -----

  lemma ReleasesPositive(releases: seq<Request>, b: Book)
    requires QueueOk(releases, b, true)
    ensures Sum(releases) >= 0 && (Sum(releases) == 0 <==> releases == [])
  {
    if releases != [] {
      QueuePrefix(releases, b, true);
      SumNonNegative(releases[..|releases| - 1]);
    }
  }

  lemma ReservedIsOwed(b: Book, reserved: int, reservations: seq<Request>, releases: seq<Request>, env: Env)
    requires CallsOk(b) && AccountsOk(b.deals) && b.lost >= 0 && reserved == Owed(b)
    requires QueueOk(reservations, b, false) && QueueOk(releases, b, true)
    ensures var b' := SettleAll(b, ReservationPass(reserved, reservations, releases, env).done);
            && ReservationPass(reserved, reservations, releases, env).reserved == Owed(b')
            && b'.lost == b.lost + if PassFails(reserved, reservations, releases, env) then Sum(releases) else 0
  {
    var p := ReservationPass(reserved, reservations, releases, env);
    PassOwed(b, reserved, reservations, releases, env);
    PassOutcome(reserved, reservations, releases, env);
    PassAccounting(reserved, reservations, releases, env);
    ReleasesPositive(releases, b);
    SettleOthers(b, p.done);
    TotalNonNegative(SettleAll(b, p.done).deals);
  }

  lemma UnprocessedTickets(reqs: seq<Request>, done: seq<Completion>, tickets: nat)
    requires TicketsOk(reqs, tickets)
    ensures TicketsOk(Unprocessed(reqs, done), tickets)
  {
    UnprocessedKeeps(reqs, done);
  }

  lemma SettleKeepsBook(b: Book, done: seq<Completion>, tickets: nat)
    requires BookOk(b, tickets) && SettleAll(b, done).lost >= 0
    ensures BookOk(SettleAll(b, done), tickets)
  {
    SettleOthers(b, done);
  }

  /** A release in the queue of a pass that fails. */
  predicate LosesReleases(l: Ledger, env: Env) {
    && l.funds.msg.None? && l.funds.releases != []
    && PassFails(l.funds.reserved, l.funds.reservations, l.funds.releases, env)
  }

  lemma PassQueues(l: Ledger, done: seq<Completion>)
    requires Inv(l) && SettleAll(l.book, done).lost >= 0
    ensures var b', q, p := SettleAll(l.book, done), Unprocessed(l.funds.reservations, done), Unprocessed(l.funds.releases, done);
            && BookOk(b', l.tickets)
            && QueueOk(q, b', false) && TicketsOk(q, l.tickets) && QueueOk(p, b', true) && TicketsOk(p, l.tickets)
  {
    SettleKeepsBook(l.book, done, l.tickets);
    UnprocessedOk(l.book, l.funds.reservations, done, false);
    UnprocessedOk(l.book, l.funds.releases, done, true);
    UnprocessedTickets(l.funds.reservations, done, l.tickets);
    UnprocessedTickets(l.funds.releases, done, l.tickets);
  }

  /** What a pass does to the ledger, if anything is queued that concerns it. */
  lemma PassEffect(l: Ledger, env: Env)
    requires l.funds.msg.None? && (l.funds.reservations != [] || l.funds.releases != [])
    ensures var l' := Apply(l, Event.Pass(env));
            var p := ReservationPass(l.funds.reserved, l.funds.reservations, l.funds.releases, env);
            && l'.book == SettleAll(l.book, p.done) && l'.tickets == l.tickets && l'.funds.reserved == p.reserved
            && l'.funds.reservations == Unprocessed(l.funds.reservations, p.done)
            && l'.funds.releases == Unprocessed(l.funds.releases, p.done)
  {
  }

  lemma PassIdle(l: Ledger, env: Env)
    requires l.funds.msg.Some? || (l.funds.reservations == [] && l.funds.releases == [])
    ensures var l' := Apply(l, Event.Pass(env));
            && l'.book == l.book && l'.tickets == l.tickets && l'.funds.reserved == l.funds.reserved
            && l'.funds.reservations == l.funds.reservations && l'.funds.releases == l.funds.releases
  {
  }

  /** A pass keeps the ledger, and loses something exactly if it fails with a release in its queue. */
  lemma PassKeeps(l: Ledger, env: Env)
    requires Inv(l)
    ensures var l' := Apply(l, Event.Pass(env));
            && Inv(l') && l'.book.lost >= l.book.lost
            && (l'.book.lost != l.book.lost <==> LosesReleases(l, env))
  {
    var s, b := l.funds, l.book;
    if s.msg.Some? || (s.reservations == [] && s.releases == []) {
      PassIdle(l, env);
    } else {
      ReservedIsOwed(b, s.reserved, s.reservations, s.releases, env);
      ReleasesPositive(s.releases, b);
      PassQueues(l, ReservationPass(s.reserved, s.reservations, s.releases, env).done);
      PassEffect(l, env);
    }
  }

  // ----- every step keeps the ledger -----

  /** A change of a deal that waits for nothing concerns no queue. */
  lemma QuietChange(b: Book, d: nat, a: Account, lost: int, tickets: nat)
    requires BookOk(b, tickets) && AccountOk(a) && !a.Waits() && lost >= 0
    requires d in b.deals ==> !b.deals[d].Waits()
    ensures var b' := b.(deals := b.deals[d := a], lost := lost);
            && BookOk(b', tickets)
            && Owed(b') == Owed(b) - (if d in b.deals then b.deals[d].Claim() else 0) + a.Claim() + lost - b.lost
            && forall reqs, release :: QueueOk(reqs, b, release) ==> QueueOk(reqs, b', release)
  {
    ClaimsUpdate(b.deals, d, a);
  }

  lemma NewCallBook(b: Book, d: nat, doing: Doing, t: nat)
    requires BookOk(b, t) && d in b.deals && b.deals[d].doing == Idle
    requires doing == Releasing(t) || (doing.Reserving? && doing.ticket == t && doing.amt >= 0)
    ensures var b' := b.(deals := b.deals[d := b.deals[d].(doing := doing)], calls := b.calls[t := d]);
            BookOk(b', t + 1) && Owed(b') == Owed(b)
  {
    ClaimsUpdate(b.deals, d, b.deals[d].(doing := doing));
  }

  lemma NewCallQueue(b: Book, d: nat, doing: Doing, t: nat, reqs: seq<Request>, release: bool)
    requires BookOk(b, t) && d in b.deals && b.deals[d].doing == Idle
    requires QueueOk(reqs, b, release) && TicketsOk(reqs, t)
    ensures var b' := b.(deals := b.deals[d := b.deals[d].(doing := doing)], calls := b.calls[t := d]);
            QueueOk(reqs, b', release) && TicketsOk(reqs, t + 1) && Count(reqs, t) == 0
  {
    CountZero(reqs, t);
  }

  lemma QueueAppend(reqs: seq<Request>, b: Book, release: bool, r: Request, tickets: nat)
    requires QueueOk(reqs, b, release) && Count(reqs, r.id) == 0 && Awaits(r, b, release)
    requires TicketsOk(reqs, tickets) && r.id < tickets
    ensures QueueOk(reqs + [r], b, release) && TicketsOk(reqs + [r], tickets)
  {
    forall id: nat
      ensures Count(reqs + [r], id) <= 1
    {
      AppendRequest(reqs, r, id);
      assert Count(reqs, id) <= 1;
    }
  }

  lemma ReserveKeeps(l: Ledger, d: nat, amt: int, wallet: Wallet)
    requires Inv(l) && Enabled(l, StartReserve(d, amt, wallet))
    ensures Inv(Apply(l, StartReserve(d, amt, wallet)))
  {
    var t := l.tickets;
    NewCallBook(l.book, d, Reserving(t, amt), t);
    NewCallQueue(l.book, d, Reserving(t, amt), t, l.funds.reservations, false);
    NewCallQueue(l.book, d, Reserving(t, amt), t, l.funds.releases, true);
    QueueAppend(l.funds.reservations, WithCall(l, d, Reserving(t, amt)).book, false, Request(t, wallet, amt, false), t + 1);
  }

  lemma ReleaseKeeps(l: Ledger, d: nat)
    requires Inv(l) && Enabled(l, StartRelease(d))
    ensures Inv(Apply(l, StartRelease(d)))
  {
    var t := l.tickets;
    NewCallBook(l.book, d, Releasing(t), t);
    NewCallQueue(l.book, d, Releasing(t), t, l.funds.reservations, false);
    NewCallQueue(l.book, d, Releasing(t), t, l.funds.releases, true);
    QueueAppend(l.funds.releases, WithCall(l, d, Releasing(t)).book, true,
                Request(t, UNDEF, l.book.deals[d].held, false), t + 1);
  }

  lemma {:induction false} ExpiredCount(reqs: seq<Request>, t: nat, id: nat)
    ensures Count(Expired(reqs, t), id) == Count(reqs, id)
  {
    if reqs != [] {
      ExpiredCount(reqs[..|reqs| - 1], t, id);
      assert Expired(reqs, t)[..|reqs| - 1] == Expired(reqs[..|reqs| - 1], t);
    }
  }

  /** The book once the deal has stopped waiting for its reservation. */
  function GivenUp(b: Book, d: nat): Book
    requires d in b.deals && b.deals[d].doing.Reserving?
  {
    b.(deals := b.deals[d := Account(b.deals[d].held, Idle)], calls := b.calls - {b.deals[d].doing.ticket})
  }

  lemma GivenUpBook(b: Book, d: nat, tickets: nat)
    requires BookOk(b, tickets) && d in b.deals && b.deals[d].doing.Reserving?
    ensures BookOk(GivenUp(b, d), tickets) && Owed(GivenUp(b, d)) == Owed(b)
  {
    ClaimsUpdate(b.deals, d, Account(b.deals[d].held, Idle));
  }

  lemma GivenUpReservations(b: Book, d: nat, tickets: nat, reqs: seq<Request>)
    requires BookOk(b, tickets) && d in b.deals && b.deals[d].doing.Reserving?
    requires QueueOk(reqs, b, false) && TicketsOk(reqs, tickets)
    ensures var q := Expired(reqs, b.deals[d].doing.ticket); QueueOk(q, GivenUp(b, d), false) && TicketsOk(q, tickets)
  {
    var t := b.deals[d].doing.ticket;
    var q := Expired(reqs, t);
    forall r | r in q
      ensures (Awaits(r, GivenUp(b, d), false) || Orphan(r, GivenUp(b, d))) && r.id < tickets
    {
      var i :| 0 <= i < |q| && q[i] == r;
      assert reqs[i] in reqs;
    }
    forall id: nat
      ensures Count(q, id) <= 1
    {
      ExpiredCount(reqs, t, id);
      assert Count(reqs, id) <= 1;
    }
  }

  lemma GivenUpReleases(b: Book, d: nat, tickets: nat, reqs: seq<Request>)
    requires BookOk(b, tickets) && d in b.deals && b.deals[d].doing.Reserving? && QueueOk(reqs, b, true)
    ensures QueueOk(reqs, GivenUp(b, d), true)
  {
  }

  lemma GiveUpKeeps(l: Ledger, d: nat)
    requires Inv(l) && Enabled(l, GiveUp(d))
    ensures Inv(Apply(l, GiveUp(d)))
  {
    var a := l.book.deals[d];
    if a.doing.Granted? {
      QuietChange(l.book, d, Account(a.held, Idle), l.book.lost + a.doing.amt, l.tickets);
    } else {
      GivenUpBook(l.book, d, l.tickets);
      GivenUpReservations(l.book, d, l.tickets, l.funds.reservations);
      GivenUpReleases(l.book, d, l.tickets, l.funds.releases);
    }
  }

  lemma StepKeeps(l: Ledger, e: Event)
    requires Inv(l) && Enabled(l, e)
    ensures Inv(Apply(l, e))
  {
    match e
    case NewDeal(d) => QuietChange(l.book, d, Account(0, Idle), l.book.lost, l.tickets);
    case StartReserve(d, amt, wallet) => ReserveKeeps(l, d, amt, wallet);
    case StartRelease(d) => ReleaseKeeps(l, d);
    case GiveUp(d) => GiveUpKeeps(l, d);
    case Record(d) => QuietChange(l.book, d, Account(l.book.deals[d].Claim(), Idle), l.book.lost, l.tickets);
    case AskWithdraw(_) =>
    case Pass(env) => PassKeeps(l, env);
    case WaitDone =>
  }

  // ----- runs -----

  ghost predicate Possible(l: Ledger, es: seq<Event>)
    decreases |es|
  {
    es != [] ==> Enabled(l, es[0]) && Possible(Apply(l, es[0]), es[1..])
  }

  ghost function Final(l: Ledger, es: seq<Event>): Ledger
    requires Possible(l, es)
    decreases |es|
  {
    if es == [] then l else Final(Apply(l, es[0]), es[1..])
  }

  const EMPTY := Ledger(FundState(0, None, [], [], []), Book(map[], map[], 0), 0)

  lemma {:induction false} RunKeeps(l: Ledger, es: seq<Event>)
    requires Inv(l) && Possible(l, es)
    ensures Inv(Final(l, es))
    decreases |es|
  {
    if es != [] {
      StepKeeps(l, es[0]);
      RunKeeps(Apply(l, es[0]), es[1..]);
    }
  }

  /** A step that reserves for nobody: a failing pass with a release queued, or giving up a grant. */
  predicate Loses(l: Ledger, e: Event)
    requires Enabled(l, e)
  {
    match e
    case Pass(env) => LosesReleases(l, env)
    case GiveUp(d) => l.book.deals[d].doing.Granted? && l.book.deals[d].doing.amt > 0
    case _ => false
  }

  ghost predicate NeverLoses(l: Ledger, es: seq<Event>)
    requires Possible(l, es)
    decreases |es|
  {
    es != [] ==> !Loses(l, es[0]) && NeverLoses(Apply(l, es[0]), es[1..])
  }

  lemma LostStep(l: Ledger, e: Event)
    requires Inv(l) && Enabled(l, e)
    ensures Apply(l, e).book.lost >= l.book.lost
    ensures Apply(l, e).book.lost == l.book.lost <==> !Loses(l, e)
  {
    match e
    case Pass(env) => PassKeeps(l, env);
    case GiveUp(d) => assert AccountOk(l.book.deals[d]);
    case _ =>
  }

  lemma {:induction false} LostIffLoses(l: Ledger, es: seq<Event>)
    requires Inv(l) && Possible(l, es)
    ensures Final(l, es).book.lost >= l.book.lost
    ensures Final(l, es).book.lost == l.book.lost <==> NeverLoses(l, es)
    decreases |es|
  {
    if es != [] {
      StepKeeps(l, es[0]);
      LostStep(l, es[0]);
      LostIffLoses(Apply(l, es[0]), es[1..]);
    }
  }

  lemma EmptyInv()
    ensures Inv(EMPTY)
  {
    assert Owed(EMPTY.book) == 0;
  }

  /**
   After any run from an empty fund manager, the reserved amount is at least the sum of what the
   deals hold, counting answers they have yet to record. It is equal exactly if no pass failed
   with a release in its queue and no deal gave up a reservation that had been granted.
   */
  lemma LedgerBalances(es: seq<Event>)
    requires Possible(EMPTY, es)
    ensures var l := Final(EMPTY, es);
            && l.funds.reserved >= TotalClaims(l.book.deals) >= 0
            && (l.funds.reserved == TotalClaims(l.book.deals) <==> NeverLoses(EMPTY, es))
  {
    EmptyInv();
    RunKeeps(EMPTY, es);
    LostIffLoses(EMPTY, es);
    TotalNonNegative(Final(EMPTY, es).book.deals);
  }

  // ----- how equality fails -----

  /** A run that leads from one ledger to another. */
  ghost predicate Leads(l: Ledger, es: seq<Event>, f: Ledger) {
    Possible(l, es) && Final(l, es) == f
  }

  lemma LeadsNext(l: Ledger, e: Event, l': Ledger, es: seq<Event>, f: Ledger)
    requires Enabled(l, e) && Apply(l, e) == l' && Leads(l', es, f)
    ensures Leads(l, [e] + es, f)
  {
    assert ([e] + es)[1..] == es;
  }

  /** One deal that holds and does what it does, with nothing queued and nothing lost. */
  function Lone(reserved: int, a: Account): Ledger {
    Ledger(FundState(reserved, None, [], [], []), Book(map[0 := a], map[], 0), 1)
  }

  function Asking(amt: int): Ledger {
    Ledger(FundState(0, None, [Request(0, 1, amt, false)], [], []),
           Book(map[0 := Account(0, Reserving(0, amt))], map[0 := 0], 0), 1)
  }

  lemma LonePass(amt: int)
    requires amt > 0
    ensures Apply(Asking(amt), Event.Pass(Env(Some(amt), None, None, None))) == Lone(amt, Account(0, Granted(amt)))
  {
    var req, env := Request(0, 1, amt, false), Env(Some(amt), None, None, None);
    var done := [Completion(0, None, false)];
    LoneSplit(req, env);
    assert done[..0] == [] && [req][..0] == [];
    assert Unprocessed([req], done) == [] by {
      assert done[0].id == req.id;
    }
    assert Asking(amt).book.calls - {0} == map[];
    assert SettleAll(Asking(amt).book, done) == Book(map[0 := Account(0, Granted(amt))], map[], 0);
  }

  lemma LoneSplit(req: Request, env: Env)
    requires !req.expired && req.amt > 0 && req.wallet == 1 && env.availAdd == Some(req.amt)
    ensures ReservationPass(0, [req], [], env) == FundManager.Pass(true, req.amt, None, Nothing, [Completion(req.id, None, false)])
  {
    assert [req][..0] == [];
    assert SplitAll([req], 0) == Split(0, req.amt, 1, [], [req], []);
    assert Complete([], None, false) + Complete([] + [req], None, false) == [Completion(req.id, None, false)];
  }

  lemma LeadsToGrant(amt: int, es: seq<Event>, f: Ledger) returns (run: seq<Event>)
    requires amt > 0 && Leads(Lone(amt, Account(0, Granted(amt))), es, f)
    ensures Leads(EMPTY, run, f)
  {
    var idle := Ledger(EMPTY.funds, Book(map[0 := Account(0, Idle)], map[], 0), 0);
    LonePass(amt);
    LeadsNext(Asking(amt), Event.Pass(Env(Some(amt), None, None, None)), Lone(amt, Account(0, Granted(amt))), es, f);
    run := [Event.Pass(Env(Some(amt), None, None, None))] + es;
    assert [] + [Request(0, 1, amt, false)] == [Request(0, 1, amt, false)];
    LeadsNext(idle, StartReserve(0, amt, 1), Asking(amt), run, f);
    run := [StartReserve(0, amt, 1)] + run;
    LeadsNext(EMPTY, NewDeal(0), idle, run, f);
    run := [NewDeal(0)] + run;
  }

  /** A deal is granted 5, and its context ends before it has the answer: 5 stay reserved for nobody. */
  lemma AbandonedGrant() returns (run: seq<Event>)
    ensures Possible(EMPTY, run)
    ensures Final(EMPTY, run).funds.reserved == 5 && TotalClaims(Final(EMPTY, run).book.deals) == 0
  {
    var granted := Lone(5, Account(0, Granted(5)));
    var f := Apply(granted, GiveUp(0));
    assert Leads(f, [], f);
    LeadsNext(granted, GiveUp(0), f, [], f);
    run := LeadsToGrant(5, [GiveUp(0)] + [], f);
    ClaimsUpdate(map[], 0, Account(0, Idle));
    assert f.book.deals == map[][0 := Account(0, Idle)];
  }

  /** The first deal releases the 5 it holds while another one asks for 10. */
  function Crowded(): Ledger {
    Ledger(FundState(5, None, [Request(2, 1, 10, false)], [Request(1, UNDEF, 5, false)], []),
           Book(map[0 := Account(5, Releasing(1)), 1 := Account(0, Reserving(2, 10))], map[1 := 0, 2 := 1], 0), 3)
  }

  function Leaving(): Ledger {
    Ledger(FundState(5, None, [], [Request(1, UNDEF, 5, false)], []),
           Book(map[0 := Account(5, Releasing(1)), 1 := Account(0, Idle)], map[1 := 0], 0), 2)
  }

  function Both(): Ledger {
    Ledger(FundState(5, None, [], [], []), Book(map[0 := Account(5, Idle), 1 := Account(0, Idle)], map[], 0), 1)
  }

  lemma CrowdedSteps()
    ensures Enabled(Lone(5, Account(5, Idle)), NewDeal(1)) && Apply(Lone(5, Account(5, Idle)), NewDeal(1)) == Both()
    ensures Enabled(Both(), StartRelease(0)) && Apply(Both(), StartRelease(0)) == Leaving()
    ensures Enabled(Leaving(), StartReserve(1, 10, 1)) && Apply(Leaving(), StartReserve(1, 10, 1)) == Crowded()
  {
    assert [] + [Request(1, UNDEF, 5, false)] == [Request(1, UNDEF, 5, false)];
    assert [] + [Request(2, 1, 10, false)] == [Request(2, 1, 10, false)];
  }

  lemma CrowdedInv()
    ensures Inv(Crowded())
  {
    HeldInv(Lone(5, Account(5, Idle)));
    CrowdedSteps();
    StepKeeps(Lone(5, Account(5, Idle)), NewDeal(1));
    StepKeeps(Both(), StartRelease(0));
    StepKeeps(Leaving(), StartReserve(1, 10, 1));
  }

  lemma LeadsToCrowd(es: seq<Event>, f: Ledger) returns (run: seq<Event>)
    requires Leads(Crowded(), es, f)
    ensures Leads(EMPTY, run, f)
  {
    CrowdedSteps();
    LeadsNext(Leaving(), StartReserve(1, 10, 1), Crowded(), es, f);
    run := [StartReserve(1, 10, 1)] + es;
    LeadsNext(Both(), StartRelease(0), Leaving(), run, f);
    run := [StartRelease(0)] + run;
    LeadsNext(Lone(5, Account(5, Idle)), NewDeal(1), Both(), run, f);
    run := [NewDeal(1)] + run;
    LeadsNext(Lone(5, Account(0, Granted(5))), Record(0), Lone(5, Account(5, Idle)), run, f);
    run := LeadsToGrant(5, [Record(0)] + run, f);
  }

  /** A deal holds 5 and releases them; the pass fails over the reservation of 10 of another deal. */
  lemma LeakedRelease() returns (run: seq<Event>)
    ensures Possible(EMPTY, run)
    ensures Final(EMPTY, run).funds.reserved > TotalClaims(Final(EMPTY, run).book.deals)
  {
    var env := Env(None, None, None, None);
    var f := Apply(Crowded(), Event.Pass(env));
    assert Leads(f, [], f);
    LeadsNext(Crowded(), Event.Pass(env), f, [], f);
    run := LeadsToCrowd([Event.Pass(env)] + [], f);
    CrowdedInv();
    FailingPass(Crowded(), env);
    PassKeeps(Crowded(), env);
  }

  lemma HeldInv(held: Ledger)
    requires held == Lone(5, Account(5, Idle))
    ensures Inv(held)
  {
    assert held.book.deals == map[][0 := Account(5, Idle)];
    ClaimsUpdate(map[], 0, Account(5, Idle));
  }

  lemma FailingPass(l: Ledger, env: Env)
    requires l.funds == FundState(5, None, [Request(2, 1, 10, false)], [Request(1, UNDEF, 5, false)], [])
    requires env.availAdd.None?
    ensures LosesReleases(l, env)
  {
    var req, rel := Request(2, 1, 10, false), Request(1, UNDEF, 5, false);
    assert [req][..0] == [] && [rel][..0] == [];
    assert Sum([rel]) == 5;
    assert SplitAll([req], 5) == Split(0, 5, 1, [], [req], []);
  }
}
