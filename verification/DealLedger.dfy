/**
 A deal that is handed off is one of the accounts of the ledger: in every run an account moves
 along the same few steps, and the calls a hand-off makes are such a path, from what the deal
 held before to what it holds after.
 */
module DealLedger {
  import opened Wrappers
  import opened FundManager
  import opened FundLedger
  import DealHandoff

  // ----- the account of one deal -----

  /** The steps of an account: ask, get the answer or give up, record. */
  predicate AccountNext(a: Account, a': Account) {
    match a.doing
    case Idle => a'.held == a.held && (a'.doing.Reserving? || (a'.doing.Releasing? && a.held != 0))
    case Reserving(_, amt) => a'.held == a.held && (a'.doing == Granted(amt) || a'.doing == Refused || a'.doing == Idle)
    case Granted(amt) => a' == Account(a.held + amt, Idle) || a' == Account(a.held, Idle)
    case Refused => a' == Account(a.held, Idle)
    case Releasing(_) => a' == Account(a.held, Released)
    case Released => a' == Account(0, Idle)
  }

  lemma {:induction false} SettleProjects(b: Book, done: seq<Completion>, d: nat)
    requires d in b.deals
    ensures d in SettleAll(b, done).deals
    ensures var a := SettleAll(b, done).deals[d];
            a == b.deals[d] || a == Answered(b.deals[d], false) || a == Answered(b.deals[d], true)
  {
    if done != [] {
      SettleProjects(b, done[..|done| - 1], d);
    }
  }

  /** Whatever happens in the ledger, a deal's account stays or takes one of its steps. */
  lemma AccountMoves(l: Ledger, e: Event, d: nat)
    requires Enabled(l, e) && d in l.book.deals
    ensures d in Apply(l, e).book.deals
    ensures Apply(l, e).book.deals[d] == l.book.deals[d] || AccountNext(l.book.deals[d], Apply(l, e).book.deals[d])
  {
    match e
    case Pass(env) => SettleProjects(l.book, AfterReservations(l.funds, env).1.done, d);
    case _ =>
  }

  ghost predicate IsPath(path: seq<Account>) {
    path != [] && forall i :: 0 <= i < |path| - 1 ==> AccountNext(path[i], path[i + 1])
  }

  // ----- the calls along a path -----

  /** Successful reservations and all releases, as the deal sees them when it records the answer. */
  function Calls(path: seq<Account>): seq<DealHandoff.Flow> {
    if |path| < 2 then []
    else
      var n := |path| - 1;
      Calls(path[..n]) +
        (match path[n - 1].doing
         case Granted(amt) => if path[n].held == path[n - 1].held + amt then [DealHandoff.Reserved(amt)] else []
         case Released => [DealHandoff.Released(path[n - 1].held)]
         case _ => [])
  }

  lemma CallsNext(path: seq<Account>, a: Account)
    requires path != []
    ensures var last := path[|path| - 1];
            Calls(path + [a]) == Calls(path) +
              (match last.doing
               case Granted(amt) => if a.held == last.held + amt then [DealHandoff.Reserved(amt)] else []
               case Released => [DealHandoff.Released(last.held)]
               case _ => [])
  {
    assert (path + [a])[..|path|] == path;
  }

  /** The deal asks for an amount, is granted it and records that. */
  function WithReserve(path: seq<Account>, amt: int, ticket: nat): seq<Account>
    requires path != []
  {
    var held := path[|path| - 1].held;
    path + [Account(held, Reserving(ticket, amt))] + [Account(held, Granted(amt))] + [Account(held + amt, Idle)]
  }

  /** The deal releases all it holds and records that. */
  function WithRelease(path: seq<Account>, ticket: nat): seq<Account>
    requires path != []
  {
    var held := path[|path| - 1].held;
    path + [Account(held, Releasing(ticket))] + [Account(held, Released)] + [Account(0, Idle)]
  }

  lemma ReserveIsPath(path: seq<Account>, amt: int, ticket: nat)
    requires IsPath(path) && path[|path| - 1].doing == Idle
    ensures var path' := WithReserve(path, amt, ticket);
            && IsPath(path') && path'[0] == path[0] && path'[|path'| - 1] == Account(path[|path| - 1].held + amt, Idle)
            && Calls(path') == Calls(path) + [DealHandoff.Reserved(amt)]
  {
    var held := path[|path| - 1].held;
    var one := path + [Account(held, Reserving(ticket, amt))];
    var two := one + [Account(held, Granted(amt))];
    CallsNext(path, Account(held, Reserving(ticket, amt)));
    CallsNext(one, Account(held, Granted(amt)));
    CallsNext(two, Account(held + amt, Idle));
  }

  lemma ReleaseIsPath(path: seq<Account>, ticket: nat)
    requires IsPath(path) && path[|path| - 1].doing == Idle && path[|path| - 1].held != 0
    ensures var path' := WithRelease(path, ticket);
            && IsPath(path') && path'[0] == path[0] && path'[|path'| - 1] == Account(0, Idle)
            && Calls(path') == Calls(path) + [DealHandoff.Released(path[|path| - 1].held)]
  {
    var held := path[|path| - 1].held;
    var one := path + [Account(held, Releasing(ticket))];
    var two := one + [Account(held, Released)];
    CallsNext(path, Account(held, Releasing(ticket)));
    CallsNext(one, Account(held, Released));
    CallsNext(two, Account(0, Idle));
  }

  /** `opens` tells whether the collateral is granted, `closes` whether all that is held is given back in the end. */
  function HandOffPath(held: int, collateral: int, opens: bool, closes: bool, ticket: nat): seq<Account> {
    var start := [Account(held, Idle)];
    var asked := if opens then WithReserve(start, collateral, ticket) else start;
    if closes && asked[|asked| - 1].held != 0 then WithRelease(asked, ticket + 1) else asked
  }

  /** The calls of a hand-off are a path of the deal's account. */
  lemma HandOffIsPath(held: int, collateral: int, opens: bool, closes: bool, ticket: nat)
    ensures var path := HandOffPath(held, collateral, opens, closes, ticket);
            var calls := DealHandoff.Openings(opens, collateral);
            var held' := held + if opens then collateral else 0;
            && IsPath(path) && path[0] == Account(held, Idle)
            && Calls(path) == (if closes then DealHandoff.Closed(calls, held') else calls)
            && path[|path| - 1] == Account(if closes then 0 else held', Idle)
  {
    var start := [Account(held, Idle)];
    var asked := if opens then WithReserve(start, collateral, ticket) else start;
    if opens {
      ReserveIsPath(start, collateral, ticket);
    }
    if closes && asked[|asked| - 1].held != 0 {
      ReleaseIsPath(asked, ticket + 1);
    }
  }
}
