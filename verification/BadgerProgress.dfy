/**
 Nothing hangs: whatever operations and moves have done to each other, all of them can finish; who
 waits for the lock gets it; who returns has done its work; and a closed store stays closed.
 */
module BadgerProgress {
  import opened Wrappers
  import opened BadgerMove
  import opened BadgerSafety
  import opened BadgerRuns

  /** A step of what is under way, in which nothing fails and no operation gives up. */
  predicate Smooth(e: Event) {
    match e
    case Access(_, _) | AccessMove(_) | Fail(_) | Close | FinishClose => false
    case Leave(_, ok) => ok
    case _ => true
  }

  ghost predicate Path(s: State, es: seq<Event>, f: State, content: Key -> Data) {
    && Possible(s, es, content) && Final(s, es, content) == f
    && forall i :: 0 <= i < |es| ==> Smooth(es[i])
  }

  lemma OneStep(s: State, e: Event, content: Key -> Data)
    requires Inv(s, content) && Enabled(s, e, content) && Smooth(e)
    ensures Path(s, [e], Apply(s, e, content), content) && Inv(Apply(s, e, content), content)
  {
    StepKeepsInv(s, e, content);
    assert [e][1..] == [];
  }

  lemma {:induction false} RunsCompose(s: State, a: seq<Event>, b: seq<Event>, content: Key -> Data)
    requires Possible(s, a, content) && Possible(Final(s, a, content), b, content)
    ensures Possible(s, a + b, content) && Final(s, a + b, content) == Final(Final(s, a, content), b, content)
    decreases |a|
  {
    if a == [] {
      assert a + b == b;
    } else {
      RunsCompose(Apply(s, a[0], content), a[1..], b, content);
      assert (a + b)[1..] == a[1..] + b;
    }
  }

  lemma Concat(s: State, a: seq<Event>, m: State, b: seq<Event>, f: State, content: Key -> Data)
    requires Path(s, a, m, content) && Path(m, b, f, content)
    ensures Path(s, a + b, f, content)
  {
    RunsCompose(s, a, b, content);
  }

  // ----- operations finish -----

  function NextOfOp(s: State, t: nat): Event
    requires t in s.inside
  {
    var op := s.inside[t];
    if op.Put? && op.inDb < |op.blocks| then WriteDb(t)
    else if op.Put? && s.next.Some? && op.inNext < |op.blocks| then WriteNext(t)
    else if op.Delete? && op.done < |op.keys| then DeleteKey(t)
    else Leave(t, true)
  }

  function OpWork(op: Op): int {
    match op
    case Put(blocks, inDb, inNext, _) => 2 * |blocks| - inDb - inNext
    case Delete(keys, done) => |keys| - done
    case Read => 0
  }

  /** The operation has done something, or has left; all else is as it was, except for the databases. */
  ghost predicate OpMovesOn(s: State, s': State, t: nat)
    requires t in s.inside
  {
    && s'.pending == s.pending && s'.movers == s.movers && s'.bs == s.bs
    && if t in s'.inside then s'.inside.Keys == s.inside.Keys && OpWork(s'.inside[t]) < OpWork(s.inside[t])
       else s'.inside.Keys == s.inside.Keys - {t}
  }

  lemma PutStep(s: State, t: nat, content: Key -> Data)
    requires Inv(s, content) && t in s.inside && s.inside[t].Put? && !NextOfOp(s, t).Leave?
    ensures var e := NextOfOp(s, t);
            Enabled(s, e, content) && Smooth(e) && OpMovesOn(s, Apply(s, e, content), t)
  {
    assert OpOk(s.inside[t], s.db.blocks, s.next, content);
  }

  lemma DeleteStep(s: State, t: nat, content: Key -> Data)
    requires Inv(s, content) && t in s.inside && s.inside[t].Delete? && !NextOfOp(s, t).Leave?
    ensures var e := NextOfOp(s, t);
            Enabled(s, e, content) && Smooth(e) && OpMovesOn(s, Apply(s, e, content), t)
  {
  }

  lemma LeaveStep(s: State, t: nat, content: Key -> Data)
    requires Inv(s, content) && t in s.inside && NextOfOp(s, t).Leave?
    ensures Enabled(s, Leave(t, true), content) && OpMovesOn(s, Apply(s, Leave(t, true), content), t)
  {
    NeverStuck(s);
    assert OpOk(s.inside[t], s.db.blocks, s.next, content);
  }

  lemma WorkIsNat(s: State, t: nat, content: Key -> Data)
    requires Inv(s, content) && t in s.inside
    ensures OpWork(s.inside[t]) >= 0
  {
    assert OpOk(s.inside[t], s.db.blocks, s.next, content);
  }

  lemma OpStep(s: State, t: nat, content: Key -> Data) returns (s': State)
    requires Inv(s, content) && t in s.inside
    ensures Path(s, [NextOfOp(s, t)], s', content) && Inv(s', content) && OpMovesOn(s, s', t)
  {
    if NextOfOp(s, t).Leave? {
      LeaveStep(s, t, content);
    } else if s.inside[t].Delete? {
      DeleteStep(s, t, content);
    } else {
      PutStep(s, t, content);
    }
    OneStep(s, NextOfOp(s, t), content);
    s' := Apply(s, NextOfOp(s, t), content);
  }

  /** An operation inside the lock can write all it has to write and return, whatever the others do. */
  lemma {:induction false} FinishOp(s: State, t: nat, content: Key -> Data) returns (es: seq<Event>, f: State)
    requires Inv(s, content) && t in s.inside
    ensures Path(s, es, f, content) && Inv(f, content)
    ensures f.pending == s.pending && f.movers == s.movers && f.bs == s.bs && f.inside.Keys == s.inside.Keys - {t}
    decreases OpWork(s.inside[t])
  {
    WorkIsNat(s, t, content);
    f := OpStep(s, t, content);
    es := [NextOfOp(s, t)];
    if t in f.inside {
      var m := f;
      var later;
      later, f := FinishOp(m, t, content);
      Concat(s, es, m, later, f, content);
      es := es + later;
    }
  }

  lemma {:induction false} FinishOps(s: State, content: Key -> Data) returns (es: seq<Event>, f: State)
    requires Inv(s, content)
    ensures Path(s, es, f, content) && Inv(f, content)
    ensures f.pending == s.pending && f.movers == s.movers && f.bs == s.bs && f.inside == map[]
    decreases |s.inside.Keys|
  {
    if s.inside == map[] {
      es, f := [], s;
    } else {
      var t :| t in s.inside.Keys;
      var a, m := FinishOp(s, t, content);
      es, f := FinishOps(m, content);
      Concat(s, a, m, es, f, content);
      es := a + es;
    }
  }

  // ----- moves finish -----

  function NextOfMover(s: State, t: nat): Event
    requires t in s.movers
  {
    match s.movers[t]
    case Called => CheckMove(t)
    case FirstWait | InstallWait | SwapWait | DeferWait | LastWait => HaveMove(t)
    case Opening | Swapped | Leftover => LockMove(t)
    case Installed => StartCopy(t)
    case Copying(todo, buf) =>
      if todo != {} then ReadBatch(t, todo) else if buf != map[] then WriteBatch(t, buf.Keys) else CopyDone(t)
  }

  function MoveWork(m: Mover): nat {
    match m
    case Called => 13
    case FirstWait => 12
    case Opening => 11
    case InstallWait => 10
    case Installed => 9
    case Copying(todo, buf) => if todo != {} then 8 else if buf != map[] then 7 else 6
    case SwapWait => 5
    case Swapped => 4
    case DeferWait => 3
    case Leftover => 2
    case LastWait => 1
  }

  /** The mover has moved on, or has returned; the other movers and the operations are as they were. */
  ghost predicate MoverMovesOn(s: State, s': State, t: nat)
    requires t in s.movers
  {
    && s'.inside == s.inside && s'.pending == s.pending && s'.bs == s.bs
    && if t in s'.movers then
         s'.movers == s.movers[t := s'.movers[t]] && Active(s'.movers[t]) && MoveWork(s'.movers[t]) < MoveWork(s.movers[t])
       else s'.movers == s.movers - {t}
  }

  lemma CopyStep(s: State, t: nat, content: Key -> Data)
    requires MoverInv(s.movers, s.moveState, s.next) && t in s.movers && s.movers[t].Copying?
    ensures var e := NextOfMover(s, t);
            Enabled(s, e, content) && Smooth(e) && MoverMovesOn(s, Apply(s, e, content), t)
  {
    assert Active(s.movers[t]);
    var m := s.movers[t];
    if m.todo != {} {
      assert m.todo - m.todo == {};
    } else if m.buf != map[] {
      assert m.buf - m.buf.Keys == map[];
    }
  }

  lemma HaveMoveStep(s: State, t: nat, content: Key -> Data)
    requires LockInv(s) && s.inside == map[] && t in s.movers && AwaitsLock(s.movers[t])
    ensures Enabled(s, HaveMove(t), content) && MoverMovesOn(s, Apply(s, HaveMove(t), content), t)
  {
    NeverStuck(s);
  }

  lemma LockMoveStep(s: State, t: nat, content: Key -> Data)
    requires t in s.movers && WantsLock(s.movers[t])
    ensures Enabled(s, LockMove(t), content) && MoverMovesOn(s, Apply(s, LockMove(t), content), t)
  {
  }

  lemma BeginStep(s: State, t: nat, content: Key -> Data)
    requires LockInv(s) && t in s.movers && s.movers[t].Called? && s.moveState == MoveNone
    ensures Enabled(s, CheckMove(t), content) && MoverMovesOn(s, Apply(s, CheckMove(t), content), t)
  {
    NeverStuck(s);
  }

  lemma StartCopyStep(s: State, t: nat, content: Key -> Data)
    requires t in s.movers && s.movers[t].Installed?
    ensures Enabled(s, StartCopy(t), content) && MoverMovesOn(s, Apply(s, StartCopy(t), content), t)
  {
  }

  lemma MoverCan(s: State, t: nat, content: Key -> Data)
    requires LockInv(s) && s.inside == map[] && t in s.movers && (Active(s.movers[t]) || s.moveState == MoveNone)
    ensures var e := NextOfMover(s, t);
            Enabled(s, e, content) && Smooth(e) && MoverMovesOn(s, Apply(s, e, content), t)
  {
    match s.movers[t] {
      case Called => BeginStep(s, t, content);
      case Installed => StartCopyStep(s, t, content);
      case Copying(_, _) => CopyStep(s, t, content);
      case Opening | Swapped | Leftover => LockMoveStep(s, t, content);
      case _ => HaveMoveStep(s, t, content);
    }
  }

  lemma MoverStep(s: State, t: nat, content: Key -> Data) returns (s': State)
    requires Inv(s, content) && s.inside == map[] && t in s.movers && (Active(s.movers[t]) || s.moveState == MoveNone)
    ensures Path(s, [NextOfMover(s, t)], s', content) && Inv(s', content) && MoverMovesOn(s, s', t)
  {
    MoverCan(s, t, content);
    OneStep(s, NextOfMover(s, t), content);
    s' := Apply(s, NextOfMover(s, t), content);
  }

  /** With nobody inside the lock, a move can go on to its end. */
  lemma {:induction false} FinishMove(s: State, t: nat, content: Key -> Data) returns (es: seq<Event>, f: State)
    requires Inv(s, content) && s.inside == map[] && t in s.movers && (Active(s.movers[t]) || s.moveState == MoveNone)
    ensures Path(s, es, f, content) && Inv(f, content)
    ensures f.pending == s.pending && f.bs == s.bs && f.inside == map[] && f.movers == s.movers - {t}
    decreases MoveWork(s.movers[t])
  {
    f := MoverStep(s, t, content);
    es := [NextOfMover(s, t)];
    if t in f.movers {
      var m := f;
      var later;
      later, f := FinishMove(m, t, content);
      assert s.movers[t := m.movers[t]] - {t} == s.movers - {t};
      Concat(s, es, m, later, f, content);
      es := es + later;
    }
  }

  lemma {:induction false} FinishMoves(s: State, content: Key -> Data) returns (es: seq<Event>, f: State)
    requires Inv(s, content) && s.inside == map[]
    ensures Path(s, es, f, content) && Inv(f, content)
    ensures f.pending == s.pending && f.bs == s.bs && f.inside == map[] && f.movers == map[]
    decreases |s.movers.Keys|
  {
    if s.movers == map[] {
      es, f := [], s;
    } else {
      var t :| t in s.movers.Keys && ((exists u :: u in s.movers && Active(s.movers[u])) ==> Active(s.movers[t]));
      var a, m := FinishMove(s, t, content);
      KeysGone(s.movers, t);
      es, f := FinishMoves(m, content);
      Concat(s, a, m, es, f, content);
      es := a + es;
    }
  }

  // ----- those in front of the lock finish -----

  lemma EnterStep(s: State, t: nat, content: Key -> Data) returns (s': State)
    requires Inv(s, content) && s.inside == map[] && s.movers == map[] && t in s.pending
    ensures Path(s, [LockDb(t)], s', content) && Inv(s', content)
    ensures s'.pending == s.pending - {t} && s'.inside.Keys == {t} && s'.movers == map[] && s'.bs == s.bs
  {
    OneStep(s, LockDb(t), content);
    s' := Apply(s, LockDb(t), content);
  }

  lemma {:induction false} FinishPending(s: State, content: Key -> Data) returns (es: seq<Event>, f: State)
    requires Inv(s, content) && s.inside == map[] && s.movers == map[]
    ensures Path(s, es, f, content) && Inv(f, content) && Quiet(f) && f.bs == s.bs
    decreases |s.pending.Keys|
  {
    if s.pending == map[] {
      es, f := [], s;
    } else {
      var t :| t in s.pending.Keys;
      var m := EnterStep(s, t, content);
      var a, n := FinishOp(m, t, content);
      KeysGone(s.pending, t);
      assert n.inside == map[];
      es, f := FinishPending(n, content);
      Concat(m, a, n, es, f, content);
      Concat(s, [LockDb(t)], m, a + es, f, content);
      es := [LockDb(t)] + (a + es);
    }
  }

  /** No operation and no move is under way, and no lock is held. */
  predicate Quiet(s: State) {
    && s.pending == map[] && s.inside == map[] && s.movers == map[]
    && s.rlock == 0 && s.viewers == 0 && s.moveState == MoveNone && s.next == None
  }

  /**
   After any run, everything under way can finish without failing: each operation writes all it
   has to write and returns, each move ends, and a store that is being closed can be closed.
   */
  lemma NothingHangs(s: State, run: seq<Event>, content: Key -> Data) returns (es: seq<Event>, f: State)
    requires Init(s, content) && Possible(s, run, content)
    ensures Path(Final(s, run, content), es, f, content) && Quiet(f)
    ensures f.bs == Final(s, run, content).bs
    ensures f.bs == Closing ==> Enabled(f, FinishClose, content) && Apply(f, FinishClose, content).bs == Closed
  {
    InitInv(s, content);
    RunKeepsInv(s, run, content);
    var s0 := Final(s, run, content);
    var a, s1 := FinishOps(s0, content);
    var b, s2 := FinishMoves(s1, content);
    es, f := FinishPending(s2, content);
    Concat(s1, b, s2, es, f, content);
    Concat(s0, a, s1, b + es, f, content);
    es := a + (b + es);
  }

  // ----- who gets the lock -----

  /**
   An operation enters the reader lock unless it is the first one and a move has or wants the lock;
   then it sleeps, and changes nothing else.
   */
  lemma EntersIff(s: State, t: nat, content: Key -> Data)
    requires LockInv(s) && Enabled(s, LockDb(t), content)
    ensures var s' := Apply(s, LockDb(t), content);
            if s.rlock > 0 || s.moveState != MoveLock then t in s'.inside && t !in s'.pending && s'.inside[t] == s.pending[t].op
            else s' == s.(pending := s.pending[t := Pending(s.pending[t].op, true)])
  {
  }

  /** Somebody asleep stays so exactly as long as a move has or wants the lock. */
  lemma WakesIff(s: State, t: nat, content: Key -> Data)
    requires t in s.pending && s.pending[t].asleep
    ensures Enabled(s, LockDb(t), content) <==> s.moveState != MoveLock
  {
  }

  lemma OperationWaits(s: State, e: Event, t: nat, content: Key -> Data)
    requires s.moveState == MoveLock && s.inside == map[] && t in s.movers && Enabled(s, e, content) && IsOperation(e)
    ensures var s' := Apply(s, e, content);
            s'.rlock == s.rlock || s.rlock != 0
    ensures var s' := Apply(s, e, content);
            t in s'.movers && s'.movers[t] == s.movers[t] && s'.next == s.next
  {
  }

  lemma MoverWaits(s: State, e: Event, t: nat, content: Key -> Data)
    requires MoverInv(s.movers, s.moveState, s.next) && t in s.movers && AwaitsLock(s.movers[t])
    requires Enabled(s, e, content) && !IsOperation(e) && e != HaveMove(t)
    ensures var s' := Apply(s, e, content);
            s'.rlock == s.rlock && t in s'.movers && s'.movers[t] == s.movers[t] && s'.next == s.next
  {
    assert Active(s.movers[t]) && s.moveState == MoveLock;
    if !e.Close? && !e.FinishClose? && e.t != t {
      assert !Active(s.movers[e.t]);
    }
  }

  lemma NotOvertaken(s: State, e: Event, t: nat, content: Key -> Data)
    requires LockInv(s) && Enabled(s, HaveMove(t), content) && Enabled(s, e, content) && e != HaveMove(t)
    ensures Enabled(Apply(s, e, content), HaveMove(t), content)
  {
    LockStep(s, e, content);
    NobodyInsideAt0(s);
    NeverStuck(Apply(s, e, content));
    if IsOperation(e) {
      assert Active(s.movers[t]);
      OperationWaits(s, e, t, content);
    } else {
      MoverWaits(s, e, t, content);
    }
  }

  /** Once the last reader has left, a move that waits for the lock can take it whatever the others do. */
  lemma {:induction false} NeverOvertaken(s: State, es: seq<Event>, t: nat, content: Key -> Data)
    requires Inv(s, content) && Enabled(s, HaveMove(t), content) && Possible(s, es, content) && HaveMove(t) !in es
    ensures Enabled(Final(s, es, content), HaveMove(t), content)
    decreases |es|
  {
    if es != [] {
      NotOvertaken(s, es[0], t, content);
      StepKeepsInv(s, es[0], content);
      NeverOvertaken(Apply(s, es[0], content), es[1..], t, content);
    }
  }

  // ----- what a return means -----

  /** The run ends with the successful return of an operation, which has not left before. */
  predicate EndsWithReturn(es: seq<Event>, t: nat) {
    && es != [] && es[|es| - 1] == Leave(t, true)
    && forall i :: 0 <= i < |es| - 1 ==> !(es[i].Leave? && es[i].t == t)
  }

  ghost predicate DeletesOnTheWay(s: State, es: seq<Event>, t: nat, k: Key, content: Key -> Data)
    requires Possible(s, es, content)
    decreases |es|
  {
    && es != []
    && ((es[0] == DeleteKey(t) && Deletes(s, es[0], k, content)) || DeletesOnTheWay(Apply(s, es[0], content), es[1..], t, k, content))
  }

  ghost predicate WritesOnTheWay(s: State, es: seq<Event>, t: nat, b: Block, content: Key -> Data)
    requires Possible(s, es, content)
    decreases |es|
  {
    && es != []
    && ((es[0] == WriteDb(t) && s.inside[t].blocks[s.inside[t].inDb] == b) || WritesOnTheWay(Apply(s, es[0], content), es[1..], t, b, content))
  }

  lemma DeletesGoOn(s: State, u: nat, t: nat)
    requires u in s.inside && s.inside[u].Delete? && s.inside[u].done < |s.inside[u].keys|
    requires t in s.inside && s.inside[t].Delete?
    ensures var s' := DoDelete(s, u);
            t in s'.inside && s'.inside[t] == Delete(s.inside[t].keys, s.inside[t].done + if u == t then 1 else 0)
  {
  }

  lemma DeleteGoesOn(s: State, e: Event, t: nat, content: Key -> Data)
    requires LockInv(s) && Enabled(s, e, content) && t in s.inside && s.inside[t].Delete? && !(e.Leave? && e.t == t)
    ensures var s' := Apply(s, e, content);
            t in s'.inside && s'.inside[t] == Delete(s.inside[t].keys, s.inside[t].done + if e == DeleteKey(t) then 1 else 0)
  {
    if !IsOperation(e) {
      MoverKeepsInside(s, e, content);
    } else if e.DeleteKey? {
      DeletesGoOn(s, e.t, t);
    } else {
      assert t !in s.pending;
      assert Apply(s, e, content).inside[t] == s.inside[t];
    }
  }

  lemma PutGoesOn(s: State, e: Event, t: nat, content: Key -> Data)
    requires LockInv(s) && Enabled(s, e, content) && t in s.inside && s.inside[t].Put? && !(e.Leave? && e.t == t)
    ensures var s' := Apply(s, e, content);
            && t in s'.inside && s'.inside[t].Put? && s'.inside[t].blocks == s.inside[t].blocks
            && s'.inside[t].inDb == s.inside[t].inDb + if e == WriteDb(t) then 1 else 0
  {
    if !IsOperation(e) {
      MoverKeepsInside(s, e, content);
    }
  }

  /** A delete that returns successfully has deleted each of its keys on the way. */
  lemma {:induction false} DeleteDoesAll(s: State, es: seq<Event>, t: nat, j: nat, content: Key -> Data)
    requires LockInv(s) && Possible(s, es, content) && EndsWithReturn(es, t)
    requires t in s.inside && s.inside[t].Delete? && s.inside[t].done <= j < |s.inside[t].keys|
    ensures DeletesOnTheWay(s, es, t, s.inside[t].keys[j], content)
    decreases |es|
  {
    if |es| > 1 && !(es[0] == DeleteKey(t) && j == s.inside[t].done) {
      DeleteGoesOn(s, es[0], t, content);
      LockStep(s, es[0], content);
      DeleteDoesAll(Apply(s, es[0], content), es[1..], t, j, content);
    }
  }

  /** A put that returns successfully has written each of its blocks on the way. */
  lemma {:induction false} PutDoesAll(s: State, es: seq<Event>, t: nat, j: nat, content: Key -> Data)
    requires LockInv(s) && Possible(s, es, content) && EndsWithReturn(es, t)
    requires t in s.inside && s.inside[t].Put? && s.inside[t].inDb <= j < |s.inside[t].blocks|
    ensures WritesOnTheWay(s, es, t, s.inside[t].blocks[j], content)
    decreases |es|
  {
    if |es| > 1 && !(es[0] == WriteDb(t) && j == s.inside[t].inDb) {
      PutGoesOn(s, es[0], t, content);
      LockStep(s, es[0], content);
      PutDoesAll(Apply(s, es[0], content), es[1..], t, j, content);
    }
  }

  // ----- closing -----

  predicate NeedsOpen(e: Event) { e.Access? || e.AccessMove? || e.Close? }

  /** A store that is closing is closed once, and takes no calls any more. */
  lemma {:induction false} ClosedForGood(s: State, es: seq<Event>, content: Key -> Data)
    requires s.bs != Open && Possible(s, es, content)
    ensures forall e :: e in es ==> !NeedsOpen(e)
    ensures Final(s, es, content).bs != Open && (s.bs == Closed ==> FinishClose !in es)
    decreases |es|
  {
    if es != [] {
      ClosedForGood(Apply(s, es[0], content), es[1..], content);
      assert es == [es[0]] + es[1..];
    }
  }
}
