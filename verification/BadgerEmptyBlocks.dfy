/**
 The copy skips blocks without data, so a move drops them: a put is durable exactly when the
 block is not empty.
 */
module BadgerEmptyBlocks {
  import opened Wrappers
  import opened BadgerMove
  import opened BadgerSafety
  import opened BadgerRuns

  /** A run takes s to f without deleting k. */
  ghost predicate Leads(s: State, es: seq<Event>, f: State, k: Key, content: Key -> Data) {
    Possible(s, es, content) && NeverDeletes(s, es, k, content) && Final(s, es, content) == f
  }

  lemma Prepend(s: State, e: Event, s': State, es: seq<Event>, f: State, k: Key, content: Key -> Data)
    requires Enabled(s, e, content) && Apply(s, e, content) == s' && !e.DeleteKey?
    requires Leads(s', es, f, k, content)
    ensures Leads(s, [e] + es, f, k, content)
  {
    assert ([e] + es)[0] == e && ([e] + es)[1..] == es;
  }

  /** The store with the one empty block k, and a mover at position m. */
  function During(k: Key, m: Mover, mode: MoveState, next: Option<Db>): State {
    State(Db(0, map[k := []]), next, if next.Some? then 1 else 0, mode, 0, Open, 1, map[], map[], map[1 := m], {k})
  }

  function Holding(k: Key): State {
    State(Db(0, map[k := []]), None, 0, MoveNone, 0, Open, 0, map[], map[], map[], {k})
  }

  function Lost(k: Key): State {
    State(Db(1, map[]), None, 1, Cleanup, 0, Open, 1, map[], map[], map[1 := Swapped], {k})
  }

  const NEXT := Some(Db(1, map[]))

  lemma ReadsEmpty(k: Key, content: Key -> Data)
    ensures var s := During(k, Copying({k}, map[]), Moving, NEXT);
            && Enabled(s, ReadBatch(1, {k}), content)
            && Apply(s, ReadBatch(1, {k}), content) == During(k, Copying({}, map[k := []]), Moving, NEXT)
  {
    var s := During(k, Copying({k}, map[]), Moving, NEXT);
    assert DoReadBatch(s, 1, {k}).movers[1] == Copying({}, map[k := []]) by {
      assert DoReadBatch(s, 1, {k}).movers[1].todo == {};
      assert DoReadBatch(s, 1, {k}).movers[1].buf == map[k := []];
    }
  }

  lemma SkipsEmpty(k: Key, content: Key -> Data)
    ensures var s := During(k, Copying({}, map[k := []]), Moving, NEXT);
            && Enabled(s, WriteBatch(1, {k}), content)
            && Apply(s, WriteBatch(1, {k}), content) == During(k, Copying({}, map[]), Moving, NEXT)
  {
    var s := During(k, Copying({}, map[k := []]), Moving, NEXT);
    assert DoWriteBatch(s, 1, {k}).next.value.blocks == map[];
    assert DoWriteBatch(s, 1, {k}).movers[1].buf == map[];
  }

  lemma SwapLoses(k: Key, content: Key -> Data) returns (es: seq<Event>)
    requires content(k) == []
    ensures Leads(During(k, Copying({}, map[]), Moving, NEXT), es, Lost(k), k, content)
  {
    var s3 := During(k, Copying({}, map[]), Moving, NEXT);
    var s4 := During(k, SwapWait, MoveLock, NEXT);
    es := [];
    Prepend(s4, HaveMove(1), Lost(k), es, Lost(k), k, content);
    es := [HaveMove(1)] + es;
    Prepend(s3, CopyDone(1), s4, es, Lost(k), k, content);
    es := [CopyDone(1)] + es;
  }

  lemma CopyLoses(k: Key, content: Key -> Data) returns (es: seq<Event>)
    requires content(k) == []
    ensures Leads(During(k, Installed, Moving, NEXT), es, Lost(k), k, content)
  {
    var s0 := During(k, Installed, Moving, NEXT);
    var s1 := During(k, Copying({k}, map[]), Moving, NEXT);
    var s2 := During(k, Copying({}, map[k := []]), Moving, NEXT);
    var s3 := During(k, Copying({}, map[]), Moving, NEXT);
    es := SwapLoses(k, content);
    SkipsEmpty(k, content);
    Prepend(s2, WriteBatch(1, {k}), s3, es, Lost(k), k, content);
    es := [WriteBatch(1, {k})] + es;
    ReadsEmpty(k, content);
    Prepend(s1, ReadBatch(1, {k}), s2, es, Lost(k), k, content);
    es := [ReadBatch(1, {k})] + es;
    assert s0.db.blocks.Keys == {k};
    Prepend(s0, StartCopy(1), s1, es, Lost(k), k, content);
    es := [StartCopy(1)] + es;
  }

  lemma InstallLoses(k: Key, content: Key -> Data) returns (es: seq<Event>)
    requires content(k) == []
    ensures Leads(During(k, Opening, Moving, None), es, Lost(k), k, content)
  {
    es := CopyLoses(k, content);
    var s5 := During(k, Installed, Moving, NEXT);
    var s4 := During(k, InstallWait, MoveLock, None);
    var s3 := During(k, Opening, Moving, None);
    Prepend(s4, HaveMove(1), s5, es, Lost(k), k, content);
    es := [HaveMove(1)] + es;
    Prepend(s3, LockMove(1), s4, es, Lost(k), k, content);
    es := [LockMove(1)] + es;
  }

  lemma MoveLoses(k: Key, content: Key -> Data) returns (es: seq<Event>)
    requires content(k) == []
    ensures Leads(Holding(k), es, Lost(k), k, content)
  {
    es := InstallLoses(k, content);
    var s3 := During(k, Opening, Moving, None);
    var s2 := During(k, FirstWait, MoveLock, None);
    var s1 := During(k, Called, MoveNone, None);
    Prepend(s2, HaveMove(1), s3, es, Lost(k), k, content);
    es := [HaveMove(1)] + es;
    Prepend(s1, CheckMove(1), s2, es, Lost(k), k, content);
    es := [CheckMove(1)] + es;
    Prepend(Holding(k), AccessMove(1), s1, es, Lost(k), k, content);
    es := [AccessMove(1)] + es;
  }

  function EmptyStore(): State {
    State(Db(0, map[]), None, 0, MoveNone, 0, Open, 0, map[], map[], map[], {})
  }

  function Putting(k: Key, inDb: nat): Op
    requires inDb <= 1
  {
    Put([Block(k, [])], inDb, 0, if inDb == 0 then {} else {k})
  }

  /** Put an empty block into an empty store, move once: the block is gone. */
  lemma EmptyBlockLost(k: Key, content: Key -> Data) returns (es: seq<Event>)
    requires content(k) == []
    ensures Init(EmptyStore(), content) && Leads(EmptyStore(), es, Lost(k), k, content)
  {
    es := MoveLoses(k, content);
    var s0 := EmptyStore();
    var s1 := s0.(pending := map[0 := Pending(Putting(k, 0), false)], viewers := 1);
    var s2 := s0.(inside := map[0 := Putting(k, 0)], viewers := 1, rlock := 1);
    var s3 := s2.(db := Db(0, map[k := []]), inside := map[0 := Putting(k, 1)]);
    assert s3.inside - {0} == map[];
    Prepend(s3, Leave(0, true), Holding(k), es, Lost(k), k, content);
    es := [Leave(0, true)] + es;
    Prepend(s2, WriteDb(0), s3, es, Lost(k), k, content);
    es := [WriteDb(0)] + es;
    assert s1.pending - {0} == map[];
    Prepend(s1, LockDb(0), s2, es, Lost(k), k, content);
    es := [LockDb(0)] + es;
    Prepend(s0, Access(0, Putting(k, 0)), s1, es, Lost(k), k, content);
    es := [Access(0, Putting(k, 0))] + es;
  }

  /** In every run, whoever reads k after its put finds it. */
  ghost predicate Durable(k: Key, content: Key -> Data) {
    forall s: State, es: seq<Event> ::
      Init(s, content) && Possible(s, es, content) && k in Final(s, es, content).live ==>
        Get(Final(s, es, content), k).Some?
  }

  /** Puts of a block are durable if and only if the block has data. */
  lemma DurableIffNonEmpty(k: Key, content: Key -> Data)
    ensures Durable(k, content) <==> content(k) != []
  {
    if content(k) != [] {
      forall s: State, es: seq<Event> | Init(s, content) && Possible(s, es, content) && k in Final(s, es, content).live
        ensures Get(Final(s, es, content), k).Some?
      {
        NoPutLost(s, es, k, content);
      }
    } else {
      var es := EmptyBlockLost(k, content);
    }
  }
}
