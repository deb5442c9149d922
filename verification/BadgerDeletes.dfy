/**
 Deletes reach the current database only: a deleted block is gone at once, and stays away until it
 is put again, unless a move has already taken a copy of it; then it may come back.
 */
module BadgerDeletes {
  import opened Wrappers
  import opened BadgerMove
  import opened BadgerSafety
  import opened BadgerRuns

  /** A delete takes its key out of the current database, and nothing else. */
  lemma DeleteRemoves(s: State, e: Event, k: Key, content: Key -> Data)
    requires Enabled(s, e, content) && Deletes(s, e, k, content)
    ensures var s' := Apply(s, e, content);
            && Get(s', k) == None && k !in s'.live
            && (forall j: Key :: j != k ==> Get(s', j) == Get(s, j) && (j in s'.live <==> j in s.live))
            && s'.next == s.next
  {
  }

  /** A move that goes on to its swap has copied the key, or has read its data to write it next. */
  ghost predicate Taken(s: State, k: Key) {
    exists t :: t in s.movers && TakenBy(s.movers[t], s.next, k)
  }

  predicate TakenBy(m: Mover, next: Option<Db>, k: Key) {
    && (m.Installed? || m.Copying? || m.SwapWait?)
    && ((next.Some? && k in next.value.blocks) || (m.Copying? && k in m.buf && m.buf[k] != []))
  }

  ghost predicate Gone(s: State, k: Key) {
    k !in s.db.blocks && !Taken(s, k)
  }

  ghost predicate Writes(s: State, e: Event, k: Key, content: Key -> Data)
    requires Enabled(s, e, content)
  {
    || (e.WriteDb? && s.inside[e.t].blocks[s.inside[e.t].inDb].key == k)
    || (e.WriteNext? && s.inside[e.t].blocks[s.inside[e.t].inNext].key == k)
  }

  lemma OperationKeepsGone(s: State, e: Event, k: Key, content: Key -> Data)
    requires Gone(s, k) && Enabled(s, e, content) && IsOperation(e) && !Writes(s, e, k, content)
    ensures Gone(Apply(s, e, content), k)
  {
    var s' := Apply(s, e, content);
    forall t | t in s'.movers
      ensures !TakenBy(s'.movers[t], s'.next, k)
    {
      assert t in s.movers ==> !TakenBy(s.movers[t], s.next, k);
    }
  }

  lemma CopyKeepsGone(s: State, e: Event, k: Key, content: Key -> Data)
    requires Gone(s, k) && Enabled(s, e, content) && IsBackground(e) && LockInv(s)
    ensures Gone(Apply(s, e, content), k)
  {
    var s' := Apply(s, e, content);
    assert Active(s.movers[e.t]);
    forall t | t in s'.movers
      ensures !TakenBy(s'.movers[t], s'.next, k)
    {
      assert !TakenBy(s.movers[t], s.next, k);
      assert t != e.t ==> !Active(s.movers[t]);
    }
  }

  lemma HaveMoveKeepsGone(s: State, e: Event, k: Key, content: Key -> Data)
    requires Gone(s, k) && Enabled(s, e, content) && e.HaveMove? && LockInv(s)
    ensures Gone(Apply(s, e, content), k)
  {
    var s' := Apply(s, e, content);
    assert !TakenBy(s.movers[e.t], s.next, k);
    forall t | t in s'.movers
      ensures !TakenBy(s'.movers[t], s'.next, k)
    {
      assert !TakenBy(s.movers[t], s.next, k);
    }
  }

  lemma MoverKeepsGone(s: State, e: Event, k: Key, content: Key -> Data)
    requires Gone(s, k) && Enabled(s, e, content) && !IsOperation(e) && !IsBackground(e) && !e.HaveMove? && LockInv(s)
    ensures Gone(Apply(s, e, content), k)
  {
    var s' := Apply(s, e, content);
    forall t | t in s'.movers
      ensures !TakenBy(s'.movers[t], s'.next, k)
    {
      assert t in s.movers ==> !TakenBy(s.movers[t], s.next, k);
    }
  }

  ghost predicate NeverWrites(s: State, es: seq<Event>, k: Key, content: Key -> Data)
    requires Possible(s, es, content)
    decreases |es|
  {
    es != [] ==> !Writes(s, es[0], k, content) && NeverWrites(Apply(s, es[0], content), es[1..], k, content)
  }

  /** A key that is gone stays away until somebody puts it. */
  lemma {:induction false} GoneStays(s: State, es: seq<Event>, k: Key, content: Key -> Data)
    requires Inv(s, content) && Gone(s, k) && Possible(s, es, content) && NeverWrites(s, es, k, content)
    ensures Get(Final(s, es, content), k) == None
    decreases |es|
  {
    if es != [] {
      if IsOperation(es[0]) {
        OperationKeepsGone(s, es[0], k, content);
      } else if IsBackground(es[0]) {
        CopyKeepsGone(s, es[0], k, content);
      } else if es[0].HaveMove? {
        HaveMoveKeepsGone(s, es[0], k, content);
      } else {
        MoverKeepsGone(s, es[0], k, content);
      }
      StepKeepsInv(s, es[0], content);
      GoneStays(Apply(s, es[0], content), es[1..], k, content);
    }
  }

  // ----- a key that has been taken comes back -----

  /** A run without puts of the key after which it is read. */
  ghost predicate ComesBack(s: State, es: seq<Event>, k: Key, content: Key -> Data) {
    Possible(s, es, content) && NeverWrites(s, es, k, content) && Get(Final(s, es, content), k) != None
  }

  lemma BackBefore(s: State, e: Event, es: seq<Event>, k: Key, content: Key -> Data) returns (all: seq<Event>)
    requires Enabled(s, e, content) && !e.WriteDb? && !e.WriteNext? && ComesBack(Apply(s, e, content), es, k, content)
    ensures ComesBack(s, all, k, content)
  {
    all := [e] + es;
    assert all[1..] == es;
  }

  ghost predicate Undisturbed(s: State, t: nat) {
    s.inside == map[] && s.rlock == 0 && s.viewers > 0 && t in s.movers && s.next.Some?
  }

  lemma SwapBrings(s: State, t: nat, k: Key, content: Key -> Data) returns (es: seq<Event>)
    requires Undisturbed(s, t) && s.movers[t].SwapWait? && k in s.next.value.blocks
    ensures ComesBack(s, es, k, content)
  {
    assert ComesBack(Apply(s, HaveMove(t), content), [], k, content);
    es := BackBefore(s, HaveMove(t), [], k, content);
  }

  lemma CopyBrings(s: State, t: nat, k: Key, content: Key -> Data) returns (es: seq<Event>)
    requires Undisturbed(s, t) && s.movers[t].Copying?
    requires BuffersTruthful(s.movers, content) && Truthful(s.db.blocks, content)
    requires k in s.next.value.blocks || (k in s.movers[t].buf && s.movers[t].buf[k] != [])
    ensures ComesBack(s, es, k, content)
  {
    var m := s.movers[t];
    var s1 := DoReadBatch(s, t, m.todo);
    var s2 := DoWriteBatch(s1, t, s1.movers[t].buf.Keys);
    var s3 := DoMove(s2, t, SwapWait, MoveLock);
    ReadAll(s, t);
    WriteAll(s1, t);
    TakenWritten(s, t, k, content);
    es := SwapBrings(s3, t, k, content);
    es := BackBefore(s2, CopyDone(t), es, k, content);
    es := BackBefore(s1, WriteBatch(t, s1.movers[t].buf.Keys), es, k, content);
    es := BackBefore(s, ReadBatch(t, m.todo), es, k, content);
  }

  lemma ReadAll(s: State, t: nat)
    requires t in s.movers && s.movers[t].Copying?
    ensures DoReadBatch(s, t, s.movers[t].todo).movers[t].todo == {}
  {
  }

  lemma WriteAll(s: State, t: nat)
    requires t in s.movers && s.movers[t].Copying? && s.next.Some?
    ensures DoWriteBatch(s, t, s.movers[t].buf.Keys).movers[t].buf == map[]
  {
  }

  lemma TakenWritten(s: State, t: nat, k: Key, content: Key -> Data)
    requires t in s.movers && s.movers[t].Copying? && s.next.Some? && BuffersTruthful(s.movers, content)
    requires k in s.next.value.blocks || (k in s.movers[t].buf && s.movers[t].buf[k] != [])
    requires Truthful(s.db.blocks, content)
    ensures var s1 := DoReadBatch(s, t, s.movers[t].todo);
            k in DoWriteBatch(s1, t, s1.movers[t].buf.Keys).next.value.blocks
  {
    var s1 := DoReadBatch(s, t, s.movers[t].todo);
    if k in s.movers[t].buf {
      assert s.movers[t].buf[k] == content(k) && k in s1.movers[t].buf;
      assert s1.movers[t].buf[k] == content(k);
    }
  }

  lemma UndisturbedBrings(s: State, t: nat, k: Key, content: Key -> Data) returns (es: seq<Event>)
    requires Undisturbed(s, t) && BuffersTruthful(s.movers, content) && Truthful(s.db.blocks, content)
    requires TakenBy(s.movers[t], s.next, k)
    ensures ComesBack(s, es, k, content)
  {
    match s.movers[t] {
      case SwapWait => es := SwapBrings(s, t, k, content);
      case Copying(_, _) => es := CopyBrings(s, t, k, content);
      case Installed =>
        var s1 := Apply(s, StartCopy(t), content);
        es := CopyBrings(s1, t, k, content);
        es := BackBefore(s, StartCopy(t), es, k, content);
    }
  }

  /** Once all operations have left the lock, the move can go on to its end. */
  lemma {:induction false} TakenBrings(s: State, t: nat, k: Key, content: Key -> Data) returns (es: seq<Event>)
    requires Inv(s, content) && t in s.movers && TakenBy(s.movers[t], s.next, k)
    ensures ComesBack(s, es, k, content)
    decreases |s.inside|
  {
    NeverStuck(s);
    if s.inside == map[] {
      assert Active(s.movers[t]) && NextFits(s.movers[t], s.next);
      es := UndisturbedBrings(s, t, k, content);
    } else {
      var u :| u in s.inside;
      StepKeepsInv(s, Leave(u, false), content);
      LeaveShrinks(s, u);
      es := TakenBrings(Apply(s, Leave(u, false), content), t, k, content);
      es := BackBefore(s, Leave(u, false), es, k, content);
    }
  }

  lemma LeaveShrinks(s: State, u: nat)
    requires u in s.inside && s.rlock > 0 && s.viewers > 0
    ensures |DoLeave(s, u, false).inside| < |s.inside|
  {
    KeysGone(s.inside, u);
    assert |(s.inside - {u}).Keys| == |s.inside - {u}| && |s.inside.Keys| == |s.inside|;
  }

  /** Whatever follows, the key is not read unless it is put. */
  ghost predicate StaysAway(s: State, k: Key, content: Key -> Data) {
    forall es :: Possible(s, es, content) && NeverWrites(s, es, k, content) ==> Get(Final(s, es, content), k) == None
  }

  lemma StaysAwayIff(s: State, k: Key, content: Key -> Data)
    requires Inv(s, content) && k !in s.db.blocks
    ensures StaysAway(s, k, content) <==> !Taken(s, k)
  {
    if Taken(s, k) {
      var t :| t in s.movers && TakenBy(s.movers[t], s.next, k);
      var es := TakenBrings(s, t, k, content);
    } else {
      forall es | Possible(s, es, content) && NeverWrites(s, es, k, content)
        ensures Get(Final(s, es, content), k) == None
      {
        GoneStays(s, es, k, content);
      }
    }
  }

  lemma DeleteOnlyTouchesDb(s: State, e: Event, k: Key, content: Key -> Data)
    requires Enabled(s, e, content) && Deletes(s, e, k, content)
    ensures var s' := Apply(s, e, content);
            k !in s'.db.blocks && s'.movers == s.movers && s'.next == s.next && (Taken(s', k) <==> Taken(s, k))
  {
  }

  /**
   A delete lasts in every continuation in which its key is not put, exactly if no move that goes
   on to its swap has taken a copy of the block.
   */
  lemma DeleteLastsIff(s: State, e: Event, k: Key, content: Key -> Data)
    requires Inv(s, content) && Enabled(s, e, content) && Deletes(s, e, k, content)
    ensures StaysAway(Apply(s, e, content), k, content) <==> !Taken(s, k)
  {
    DeleteOnlyTouchesDb(s, e, k, content);
    StepKeepsInv(s, e, content);
    StaysAwayIff(Apply(s, e, content), k, content);
  }

  // ----- a deleted block that comes back -----

  const DATA: Data := [1]

  ghost predicate Leads(s: State, es: seq<Event>, f: State, content: Key -> Data) {
    Possible(s, es, content) && Final(s, es, content) == f
  }

  lemma Before(s: State, e: Event, s': State, es: seq<Event>, f: State, content: Key -> Data) returns (all: seq<Event>)
    requires Enabled(s, e, content) && Apply(s, e, content) == s' && Leads(s', es, f, content)
    ensures Leads(s, all, f, content)
  {
    all := [e] + es;
    assert all[1..] == es;
  }

  /** The store with a mover at a position of its move, and nothing else going on. */
  function Alone(db: Db, next: Option<Db>, mode: MoveState, m: Mover, live: set<Key>): State {
    State(db, next, if next.Some? || db.id == 1 then 1 else 0, mode, 0, Open, 1, map[], map[], map[1 := m], live)
  }

  function Empty(): State {
    State(Db(0, map[]), None, 0, MoveNone, 0, Open, 0, map[], map[], map[], {})
  }

  /** The store with the block k, and an operation in front of or inside the reader lock. */
  function Putting(k: Key, db: map<Key, Data>, inDb: nat, pending: bool): State
    requires inDb <= 1
  {
    var op := Put([Block(k, DATA)], inDb, 0, if inDb == 0 then {} else {k});
    if pending then Empty().(viewers := 1, pending := map[2 := Pending(op, false)])
    else Empty().(db := Db(0, db), viewers := 1, rlock := 1, inside := map[2 := op])
  }

  lemma PutFirst(k: Key, es: seq<Event>, f: State, content: Key -> Data) returns (all: seq<Event>)
    requires content(k) == DATA && Leads(Empty().(db := Db(0, map[k := DATA]), live := {k}), es, f, content)
    ensures Leads(Empty(), all, f, content)
  {
    var stored := Empty().(db := Db(0, map[k := DATA]), live := {k});
    all := Before(Putting(k, map[k := DATA], 1, false), Leave(2, true), stored, es, f, content);
    all := Before(Putting(k, map[], 0, false), WriteDb(2), Putting(k, map[k := DATA], 1, false), all, f, content);
    all := Before(Putting(k, map[], 0, true), LockDb(2), Putting(k, map[], 0, false), all, f, content);
    all := Before(Empty(), Access(2, Put([Block(k, DATA)], 0, 0, {})), Putting(k, map[], 0, true), all, f, content);
  }

  const NEXT := Some(Db(1, map[]))

  lemma MoveOpens(k: Key, es: seq<Event>, f: State, content: Key -> Data) returns (all: seq<Event>)
    requires Leads(Alone(Db(0, map[k := DATA]), NEXT, Moving, Installed, {k}), es, f, content)
    ensures Leads(Alone(Db(0, map[k := DATA]), None, Moving, Opening, {k}), all, f, content)
  {
    var db := Db(0, map[k := DATA]);
    all := Before(Alone(db, None, MoveLock, InstallWait, {k}), HaveMove(1), Alone(db, NEXT, Moving, Installed, {k}), es, f, content);
    all := Before(Alone(db, None, Moving, Opening, {k}), LockMove(1), Alone(db, None, MoveLock, InstallWait, {k}), all, f, content);
  }

  lemma MoveStarts(k: Key, es: seq<Event>, f: State, content: Key -> Data) returns (all: seq<Event>)
    requires Leads(Alone(Db(0, map[k := DATA]), None, Moving, Opening, {k}), es, f, content)
    ensures Leads(Empty().(db := Db(0, map[k := DATA]), live := {k}), all, f, content)
  {
    var db := Db(0, map[k := DATA]);
    var stored := Empty().(db := db, live := {k});
    all := Before(Alone(db, None, MoveLock, FirstWait, {k}), HaveMove(1), Alone(db, None, Moving, Opening, {k}), es, f, content);
    all := Before(Alone(db, None, MoveNone, Called, {k}), CheckMove(1), Alone(db, None, MoveLock, FirstWait, {k}), all, f, content);
    all := Before(stored, AccessMove(1), Alone(db, None, MoveNone, Called, {k}), all, f, content);
  }

  /** The copy has taken the block. */
  function Copied(k: Key, db: map<Key, Data>, live: set<Key>): State {
    Alone(Db(0, db), Some(Db(1, map[k := DATA])), Moving, Copying({}, map[]), live)
  }

  lemma CopyTakes(k: Key, es: seq<Event>, f: State, content: Key -> Data) returns (all: seq<Event>)
    requires Leads(Copied(k, map[k := DATA], {k}), es, f, content)
    ensures Leads(Alone(Db(0, map[k := DATA]), NEXT, Moving, Installed, {k}), all, f, content)
  {
    var db := Db(0, map[k := DATA]);
    var reading := Alone(db, NEXT, Moving, Copying({k}, map[]), {k});
    var read := Alone(db, NEXT, Moving, Copying({}, map[k := DATA]), {k});
    CopyReads(k);
    CopyWrites(k);
    all := Before(read, WriteBatch(1, {k}), Copied(k, map[k := DATA], {k}), es, f, content);
    all := Before(reading, ReadBatch(1, {k}), read, all, f, content);
    assert db.blocks.Keys == {k};
    all := Before(Alone(db, NEXT, Moving, Installed, {k}), StartCopy(1), reading, all, f, content);
  }

  lemma CopyReads(k: Key)
    ensures DoReadBatch(Alone(Db(0, map[k := DATA]), NEXT, Moving, Copying({k}, map[]), {k}), 1, {k}) ==
            Alone(Db(0, map[k := DATA]), NEXT, Moving, Copying({}, map[k := DATA]), {k})
  {
    var s := Alone(Db(0, map[k := DATA]), NEXT, Moving, Copying({k}, map[]), {k});
    assert DoReadBatch(s, 1, {k}).movers[1] == Copying({}, map[k := DATA]) by {
      assert DoReadBatch(s, 1, {k}).movers[1].todo == {};
      assert DoReadBatch(s, 1, {k}).movers[1].buf == map[k := DATA];
    }
  }

  lemma CopyWrites(k: Key)
    ensures DoWriteBatch(Alone(Db(0, map[k := DATA]), NEXT, Moving, Copying({}, map[k := DATA]), {k}), 1, {k}) ==
            Copied(k, map[k := DATA], {k})
  {
    var s := Alone(Db(0, map[k := DATA]), NEXT, Moving, Copying({}, map[k := DATA]), {k});
    assert DoWriteBatch(s, 1, {k}).next.value.blocks == map[k := DATA];
    assert DoWriteBatch(s, 1, {k}).movers[1].buf == map[];
  }

  function Removing(k: Key, done: nat): Op { Delete([k], done) }

  lemma DeleteGoesOn(k: Key, es: seq<Event>, f: State, content: Key -> Data) returns (all: seq<Event>)
    requires Leads(Copied(k, map[], {}), es, f, content)
    ensures Leads(Copied(k, map[k := DATA], {k}), all, f, content)
  {
    var s0, s4 := Copied(k, map[k := DATA], {k}), Copied(k, map[], {});
    var s1 := s0.(viewers := 2, pending := map[2 := Pending(Removing(k, 0), false)]);
    var s2 := s0.(viewers := 2, rlock := 1, inside := map[2 := Removing(k, 0)]);
    var s3 := s4.(viewers := 2, rlock := 1, inside := map[2 := Removing(k, 1)]);
    all := Before(s3, Leave(2, true), s4, es, f, content);
    all := Before(s2, DeleteKey(2), s3, all, f, content);
    all := Before(s1, LockDb(2), s2, all, f, content);
    all := Before(s0, Access(2, Removing(k, 0)), s1, all, f, content);
  }

  /** The old database is left, and the block is in the new one. */
  function Swapped(k: Key): State {
    Alone(Db(1, map[k := DATA]), None, Cleanup, Mover.Swapped, {})
  }

  lemma MoveEnds(k: Key, content: Key -> Data) returns (es: seq<Event>)
    ensures Leads(Copied(k, map[], {}), es, Swapped(k), content)
  {
    var s := Copied(k, map[], {});
    var s1 := s.(moveState := MoveLock, movers := map[1 := SwapWait]);
    es := Before(s1, HaveMove(1), Swapped(k), [], Swapped(k), content);
    es := Before(s, CopyDone(1), s1, es, Swapped(k), content);
  }

  /**
   From an empty store: a block is put, a move copies it, it is deleted, the move ends; and the
   block, though deleted and not put since, is there again.
   */
  lemma DeletedBlockReturns(k: Key, content: Key -> Data) returns (es: seq<Event>)
    requires content(k) == DATA
    ensures Init(Empty(), content) && Possible(Empty(), es, content)
    ensures Get(Final(Empty(), es, content), k) == Some(DATA) && k !in Final(Empty(), es, content).live
  {
    es := MoveEnds(k, content);
    es := DeleteGoesOn(k, es, Swapped(k), content);
    es := CopyTakes(k, es, Swapped(k), content);
    es := MoveOpens(k, es, Swapped(k), content);
    es := MoveStarts(k, es, Swapped(k), content);
    es := PutFirst(k, es, Swapped(k), content);
  }
}
