/**
 The guarantees of the moving collection over whole runs: any number of operations and
 moves, interleaved in any way, with moves that succeed or fail.
 */
module BadgerRuns {
  import opened Wrappers
  import opened BadgerMove
  import opened BadgerSafety

  // ----- every step keeps the invariant -----

  predicate IsWrite(e: Event) { e.WriteDb? || e.WriteNext? || e.DeleteKey? }

  lemma WriteData(s: State, e: Event, content: Key -> Data)
    requires Inv(s, content) && Enabled(s, e, content) && IsWrite(e)
    ensures DataInv(Apply(s, e, content), content)
  {
    match e {
      case WriteDb(t) => WriteDbData(s, t, content);
      case WriteNext(t) => WriteNextData(s, t, content);
      case DeleteKey(t) => DeleteData(s, t, content);
    }
  }

  lemma OperationData(s: State, e: Event, content: Key -> Data)
    requires Inv(s, content) && Enabled(s, e, content) && IsOperation(e) && !IsWrite(e)
    ensures DataInv(Apply(s, e, content), content)
  {
    match e {
      case Access(t, op) => AccessData(s, t, op, content);
      case AccessMove(t) => AccessData(s, t, Read, content);
      case LockDb(t) => EnterData(s, t, content);
      case Leave(t, ok) => LeaveData(s, t, ok, content);
    }
  }

  lemma LockedData(s: State, t: nat, content: Key -> Data)
    requires Inv(s, content) && Enabled(s, HaveMove(t), content)
    ensures DataInv(DoLocked(s, t), content)
  {
    NobodyInside(s);
    if s.movers[t].FirstWait? {
      MoveData(s, t, Opening, Moving, content);
    } else if s.movers[t].InstallWait? {
      InstallData(s, t, content);
    } else if s.movers[t].SwapWait? {
      SwapData(s, t, content);
    } else if s.movers[t].DeferWait? && s.next.Some? {
      DropData(s, t, content);
    } else {
      ReturnData(s, t, MoveNone, content);
    }
  }

  lemma BackgroundData(s: State, e: Event, content: Key -> Data)
    requires Inv(s, content) && Enabled(s, e, content) && IsBackground(e)
    ensures DataInv(Apply(s, e, content), content)
  {
    match e {
      case StartCopy(t) => StartCopyData(s, t, content);
      case ReadBatch(t, keys) => ReadBatchData(s, t, keys, content);
      case WriteBatch(t, keys) => WriteBatchData(s, t, keys, content);
      case CopyDone(t) => CopyDoneData(s, t, content);
      case Fail(t) => MoveData(s, t, DeferWait, MoveLock, content);
    }
  }

  lemma MoverData(s: State, e: Event, content: Key -> Data)
    requires Inv(s, content) && Enabled(s, e, content) && !IsOperation(e) && !IsBackground(e)
    ensures DataInv(Apply(s, e, content), content)
  {
    match e {
      case CheckMove(t) =>
        MoveData(s, t, FirstWait, MoveLock, content);
        ReturnData(s, t, s.moveState, content);
      case LockMove(t) => MoveData(s, t, Awaiting(s.movers[t]), MoveLock, content);
      case HaveMove(t) => LockedData(s, t, content);
      case Close =>
      case FinishClose =>
    }
  }

  lemma StepKeepsInv(s: State, e: Event, content: Key -> Data)
    requires Inv(s, content) && Enabled(s, e, content)
    ensures Inv(Apply(s, e, content), content)
  {
    LockStep(s, e, content);
    if IsWrite(e) {
      WriteData(s, e, content);
    } else if IsOperation(e) {
      OperationData(s, e, content);
    } else if IsBackground(e) {
      BackgroundData(s, e, content);
    } else {
      MoverData(s, e, content);
    }
  }

  // ----- runs -----

  ghost predicate Init(s: State, content: Key -> Data) {
    && s.next == None && s.moveState == MoveNone && s.rlock == 0 && s.viewers == 0 && s.bs == Open
    && s.pending == map[] && s.inside == map[] && s.movers == map[]
    && s.db.id <= s.made && Truthful(s.db.blocks, content) && s.live <= s.db.blocks.Keys
  }

  ghost predicate Possible(s: State, es: seq<Event>, content: Key -> Data)
    decreases |es|
  {
    es != [] ==> Enabled(s, es[0], content) && Possible(Apply(s, es[0], content), es[1..], content)
  }

  ghost function Final(s: State, es: seq<Event>, content: Key -> Data): State
    requires Possible(s, es, content)
    decreases |es|
  {
    if es == [] then s else Final(Apply(s, es[0], content), es[1..], content)
  }

  lemma InitInv(s: State, content: Key -> Data)
    requires Init(s, content)
    ensures Inv(s, content)
  {
  }

  lemma {:induction false} RunKeepsInv(s: State, es: seq<Event>, content: Key -> Data)
    requires Inv(s, content) && Possible(s, es, content)
    ensures Inv(Final(s, es, content), content)
    decreases |es|
  {
    if es != [] {
      StepKeepsInv(s, es[0], content);
      RunKeepsInv(Apply(s, es[0], content), es[1..], content);
    }
  }

  // ----- no put is lost -----

  function Get(s: State, k: Key): Option<Data> {
    if k in s.db.blocks then Some(s.db.blocks[k]) else None
  }

  /** After any run, reading a block that was put and not deleted since returns its content. */
  lemma NoPutLost(s: State, es: seq<Event>, k: Key, content: Key -> Data)
    requires Init(s, content) && Possible(s, es, content)
    requires k in Final(s, es, content).live && content(k) != []
    ensures Get(Final(s, es, content), k) == Some(content(k))
  {
    InitInv(s, content);
    RunKeepsInv(s, es, content);
  }

  ghost predicate Deletes(s: State, e: Event, k: Key, content: Key -> Data)
    requires Enabled(s, e, content)
  {
    e.DeleteKey? && s.inside[e.t].keys[s.inside[e.t].done] == k
  }

  /** The history is what it claims: a key is live from the return of its put until it is deleted. */
  lemma LiveHistory(s: State, e: Event, k: Key, content: Key -> Data)
    requires Enabled(s, e, content)
    ensures k in Apply(s, e, content).live <==>
              || (k in s.live && !Deletes(s, e, k, content))
              || (e.Leave? && e.ok && s.inside[e.t].Put? && k in s.inside[e.t].kept)
  {
  }

  /** A put that has written a key keeps it as its own until somebody deletes that key. */
  lemma KeptHistory(s: State, e: Event, t: nat, k: Key, content: Key -> Data)
    requires Enabled(s, e, content) && t in s.inside && s.inside[t].Put? && t in Apply(s, e, content).inside
    requires t !in s.pending
    ensures Apply(s, e, content).inside[t].Put?
    ensures k in Apply(s, e, content).inside[t].kept <==>
              || (k in s.inside[t].kept && !Deletes(s, e, k, content))
              || (e == WriteDb(t) && s.inside[t].blocks[s.inside[t].inDb].key == k)
  {
    if !IsOperation(e) {
      MoverKeepsInside(s, e, content);
    }
  }

  lemma MoverKeepsInside(s: State, e: Event, content: Key -> Data)
    requires Enabled(s, e, content) && !IsOperation(e)
    ensures Apply(s, e, content).inside == s.inside
  {
  }

  ghost predicate NeverDeletes(s: State, es: seq<Event>, k: Key, content: Key -> Data)
    requires Possible(s, es, content)
    decreases |es|
  {
    es != [] ==> !Deletes(s, es[0], k, content) && NeverDeletes(Apply(s, es[0], content), es[1..], k, content)
  }

  /** A put that returned survives every continuation without a delete of its key. */
  lemma {:induction false} PutSurvives(s: State, es: seq<Event>, k: Key, content: Key -> Data)
    requires Inv(s, content) && Possible(s, es, content) && NeverDeletes(s, es, k, content)
    requires k in s.live && content(k) != []
    ensures Get(Final(s, es, content), k) == Some(content(k))
    decreases |es|
  {
    if es != [] {
      StepKeepsInv(s, es[0], content);
      LiveHistory(s, es[0], k, content);
      PutSurvives(Apply(s, es[0], content), es[1..], k, content);
    }
  }

  // ----- one mover, databases exchanged in private, orderly end -----

  lemma OneMoverAtATime(s: State, es: seq<Event>, content: Key -> Data)
    requires Init(s, content) && Possible(s, es, content)
    ensures OneMover(Final(s, es, content).movers)
  {
    InitInv(s, content);
    RunKeepsInv(s, es, content);
  }

  function Handles(s: State): (nat, Option<nat>) {
    (s.db.id, if s.next.Some? then Some(s.next.value.id) else None)
  }

  /** The databases are exchanged only under the exclusive lock, with no operation inside. */
  lemma ExchangeIsPrivate(s: State, e: Event, content: Key -> Data)
    requires Inv(s, content) && Enabled(s, e, content)
    requires Handles(Apply(s, e, content)) != Handles(s)
    ensures e.HaveMove? && s.rlock == 0 && s.inside == map[]
  {
    NobodyInsideAt0(s);
  }

  lemma NobodyInsideAt0(s: State)
    requires LockInv(s)
    ensures s.rlock == 0 ==> s.inside == map[]
  {
    if s.rlock == 0 {
      NobodyInside(s);
    }
  }

  /** However a move ends, it leaves no move in progress and no second database. */
  lemma MoverEndsClean(s: State, e: Event, t: nat, content: Key -> Data)
    requires Inv(s, content) && Enabled(s, e, content)
    requires t in s.movers && Active(s.movers[t]) && t !in Apply(s, e, content).movers
    ensures Apply(s, e, content).moveState == MoveNone && Apply(s, e, content).next == None
  {
    OnlyLockedReturns(s, e, t, content);
    assert NextFits(s.movers[t], s.next);
  }

  /** A move in progress ends only in its last locked step, with nothing left to drop. */
  lemma OnlyLockedReturns(s: State, e: Event, t: nat, content: Key -> Data)
    requires Enabled(s, e, content)
    requires t in s.movers && Active(s.movers[t]) && t !in Apply(s, e, content).movers
    ensures e == HaveMove(t) && (s.movers[t].LastWait? || (s.movers[t].DeferWait? && s.next.None?))
    ensures Apply(s, e, content) == DoReturn(s, t, MoveNone)
  {
    if !MayReturn(e) {
      MoversStay(s, e, content);
    } else {
      LockedReturns(s, e, t, content);
    }
  }

  predicate MayReturn(e: Event) { e.CheckMove? || e.HaveMove? }

  lemma MoversStay(s: State, e: Event, content: Key -> Data)
    requires Enabled(s, e, content) && !MayReturn(e)
    ensures s.movers.Keys <= Apply(s, e, content).movers.Keys
  {
  }

  lemma LockedReturns(s: State, e: Event, t: nat, content: Key -> Data)
    requires Enabled(s, e, content) && MayReturn(e)
    requires t in s.movers && Active(s.movers[t]) && t !in Apply(s, e, content).movers
    ensures e == HaveMove(t) && (s.movers[t].LastWait? || (s.movers[t].DeferWait? && s.next.None?))
    ensures Apply(s, e, content) == DoReturn(s, t, MoveNone)
  {
  }

  /** The database is closed only when nobody uses it any more. */
  lemma ClosedIsQuiet(s: State, es: seq<Event>, content: Key -> Data)
    requires Init(s, content) && Possible(s, es, content) && Final(s, es, content).bs == Closed
    ensures var f := Final(s, es, content); f.pending == map[] && f.inside == map[] && f.movers == map[]
  {
    InitInv(s, content);
    RunKeepsInv(s, es, content);
    var f := Final(s, es, content);
    assert f.pending.Keys == {} && f.inside.Keys == {} && f.movers.Keys == {};
  }
}
