/**
 The moving garbage collection of the badger block store, as a state machine.

 Operations (put, delete, read) run inside a counted reader lock. A move opens a second
 database, copies the first one into it in the background while puts write to both, and then
 swaps the two or gives up. A step is one critical section of the move mutex, one access to
 a database, or one batch of the copy; steps of any number of operations and moves interleave.
 */
module BadgerMove {
  import opened Wrappers

  type Key = nat
  type Data = seq<nat>

  datatype Block = Block(key: Key, data: Data)

  datatype Db = Db(id: nat, blocks: map<Key, Data>)

  datatype BsState = Open | Closing | Closed

  datatype MoveState = MoveNone | Moving | Cleanup | MoveLock

  /**
   What an operation does and how far it is. `kept` is history: the keys the put has written
   to the current database and that nobody has deleted since.
   */
  datatype Op =
    | Put(blocks: seq<Block>, inDb: nat, inNext: nat, kept: set<Key>)
    | Delete(keys: seq<Key>, done: nat)
    | Read

  /** An operation in front of the reader lock, possibly asleep until the move state changes. */
  datatype Pending = Pending(op: Op, asleep: bool)

  /** Where a call of the moving collection is. */
  datatype Mover =
    | Called                                  // has not looked at the move state yet
    | FirstWait                               // waits for the readers before it starts
    | Opening                                 // resolves paths and opens the new database
    | InstallWait                             // waits to publish the new database
    | Installed
    | Copying(todo: set<Key>, buf: map<Key, Data>)
    | SwapWait                                // waits to swap the databases
    | Swapped
    | DeferWait                               // waits in the deferred clean-up
    | Leftover                                // deletes the database of a failed move
    | LastWait

  /** `live` is history: the keys put successfully and not deleted since. */
  datatype State = State(
    db: Db, next: Option<Db>, made: nat,
    moveState: MoveState, rlock: nat,
    bs: BsState, viewers: nat,
    pending: map<nat, Pending>, inside: map<nat, Op>, movers: map<nat, Mover>,
    live: set<Key>)

  datatype Event =
    | Access(t: nat, op: Op)
    | AccessMove(t: nat)
    | LockDb(t: nat)
    | WriteDb(t: nat)
    | WriteNext(t: nat)
    | DeleteKey(t: nat)
    | Leave(t: nat, ok: bool)
    | CheckMove(t: nat)
    | LockMove(t: nat)
    | HaveMove(t: nat)
    | StartCopy(t: nat)
    | ReadBatch(t: nat, keys: set<Key>)
    | WriteBatch(t: nat, keys: set<Key>)
    | CopyDone(t: nat)
    | Fail(t: nat)
    | Close
    | FinishClose

  // ----- events -----

  ghost predicate FreshThread(s: State, t: nat) {
    t !in s.pending && t !in s.inside && t !in s.movers
  }

  /** Blocks are named by their content. */
  ghost predicate Honest(op: Op, content: Key -> Data) {
    op.Put? ==> forall i :: 0 <= i < |op.blocks| ==> op.blocks[i].data == content(op.blocks[i].key)
  }

  predicate NotStarted(op: Op) {
    match op
    case Put(_, inDb, inNext, kept) => inDb == 0 && inNext == 0 && kept == {}
    case Delete(_, done) => done == 0
    case Read => true
  }

  /** The put has written everything it must write. */
  predicate PutDone(s: State, op: Op) {
    op.Put? && op.inDb == |op.blocks| && (s.next.Some? ==> op.inNext == |op.blocks|)
  }

  /** The next thing the mover does is take the exclusive move lock. */
  predicate WantsLock(m: Mover) {
    m.Opening? || m.Swapped? || m.Leftover?
  }

  predicate AwaitsLock(m: Mover) {
    m.FirstWait? || m.InstallWait? || m.SwapWait? || m.DeferWait? || m.LastWait?
  }

  ghost predicate Enabled(s: State, e: Event, content: Key -> Data) {
    match e
    case Access(t, op) => s.bs == Open && FreshThread(s, t) && NotStarted(op) && Honest(op, content)
    case AccessMove(t) => s.bs == Open && FreshThread(s, t)
    case LockDb(t) => t in s.pending && (s.pending[t].asleep ==> s.moveState != MoveLock)
    case WriteDb(t) => t in s.inside && s.inside[t].Put? && s.inside[t].inDb < |s.inside[t].blocks|
    case WriteNext(t) =>
      && t in s.inside && s.inside[t].Put? && s.inside[t].inDb == |s.inside[t].blocks|
      && s.next.Some? && s.inside[t].inNext < |s.inside[t].blocks|
    case DeleteKey(t) => t in s.inside && s.inside[t].Delete? && s.inside[t].done < |s.inside[t].keys|
    case Leave(t, ok) =>
      && t in s.inside && s.rlock > 0 && s.viewers > 0
      && (ok && s.inside[t].Put? ==> PutDone(s, s.inside[t]))
      && (ok && s.inside[t].Delete? ==> s.inside[t].done == |s.inside[t].keys|)
    case CheckMove(t) => t in s.movers && s.movers[t].Called? && s.viewers > 0
    case LockMove(t) => t in s.movers && WantsLock(s.movers[t])
    case HaveMove(t) =>
      && t in s.movers && AwaitsLock(s.movers[t]) && s.rlock == 0
      && s.viewers > 0 && (s.movers[t].SwapWait? ==> s.next.Some?)
    case StartCopy(t) => t in s.movers && s.movers[t].Installed?
    case ReadBatch(t, keys) => t in s.movers && s.movers[t].Copying?
    case WriteBatch(t, keys) => t in s.movers && s.movers[t].Copying? && s.next.Some? && keys <= s.movers[t].buf.Keys
    case CopyDone(t) =>
      t in s.movers && s.movers[t].Copying? && s.movers[t].todo == {} && s.movers[t].buf == map[]
    case Fail(t) => t in s.movers && (s.movers[t].Opening? || s.movers[t].Installed? || s.movers[t].Copying?)
    case Close => s.bs == Open
    case FinishClose => s.bs == Closing && s.viewers == 0
  }

  // ----- what each event does -----

  function DoAccess(s: State, t: nat, op: Op): State {
    s.(pending := s.pending[t := Pending(op, false)], viewers := s.viewers + 1)
  }

  function DoAccessMove(s: State, t: nat): State {
    s.(movers := s.movers[t := Called], viewers := s.viewers + 1)
  }

  /** The reader lock: only the first reader has to wait for the move lock. */
  predicate MustSleep(s: State, t: nat)
    requires t in s.pending
  {
    !s.pending[t].asleep && s.rlock == 0 && s.moveState == MoveLock
  }

  function DoSleep(s: State, t: nat): State
    requires t in s.pending
  {
    s.(pending := s.pending[t := Pending(s.pending[t].op, true)])
  }

  function DoEnter(s: State, t: nat): State
    requires t in s.pending
  {
    s.(pending := s.pending - {t}, inside := s.inside[t := s.pending[t].op], rlock := s.rlock + 1)
  }

  function DoWriteDb(s: State, t: nat): State
    requires t in s.inside && s.inside[t].Put? && s.inside[t].inDb < |s.inside[t].blocks|
  {
    var op := s.inside[t];
    var b := op.blocks[op.inDb];
    s.(db := Db(s.db.id, s.db.blocks[b.key := b.data]),
       inside := s.inside[t := op.(inDb := op.inDb + 1, kept := op.kept + {b.key})])
  }

  function DoWriteNext(s: State, t: nat): State
    requires t in s.inside && s.inside[t].Put? && s.next.Some? && s.inside[t].inNext < |s.inside[t].blocks|
  {
    var op := s.inside[t];
    var b := op.blocks[op.inNext];
    s.(next := Some(Db(s.next.value.id, s.next.value.blocks[b.key := b.data])),
       inside := s.inside[t := op.(inNext := op.inNext + 1)])
  }

  /** A delete reaches the current database only. */
  function DoDelete(s: State, t: nat): State
    requires t in s.inside && s.inside[t].Delete? && s.inside[t].done < |s.inside[t].keys|
  {
    var op := s.inside[t];
    var k := op.keys[op.done];
    s.(db := Db(s.db.id, s.db.blocks - {k}), live := s.live - {k},
       inside := map u | u in s.inside :: if u == t then op.(done := op.done + 1) else Forget(s.inside[u], k))
  }

  function Forget(op: Op, k: Key): Op {
    if op.Put? then op.(kept := op.kept - {k}) else op
  }

  function DoLeave(s: State, t: nat, ok: bool): State
    requires t in s.inside && s.rlock > 0 && s.viewers > 0
  {
    s.(inside := s.inside - {t}, rlock := s.rlock - 1, viewers := s.viewers - 1,
       live := if ok && s.inside[t].Put? then s.live + s.inside[t].kept else s.live)
  }

  function DoMove(s: State, t: nat, m: Mover, mode: MoveState): State {
    s.(moveState := mode, movers := s.movers[t := m])
  }

  function DoInstall(s: State, t: nat): State {
    DoMove(s, t, Installed, Moving).(next := Some(Db(s.made + 1, map[])), made := s.made + 1)
  }

  function DoSwap(s: State, t: nat): State
    requires s.next.Some?
  {
    DoMove(s, t, Swapped, Cleanup).(db := s.next.value, next := None)
  }

  function DoDrop(s: State, t: nat): State {
    DoMove(s, t, Leftover, Cleanup).(next := None)
  }

  /** The mover is done; its call returns. */
  function DoReturn(s: State, t: nat, mode: MoveState): State
    requires s.viewers > 0
  {
    s.(moveState := mode, movers := s.movers - {t}, viewers := s.viewers - 1)
  }

  function DoReadBatch(s: State, t: nat, keys: set<Key>): State
    requires t in s.movers && s.movers[t].Copying?
  {
    var m := s.movers[t];
    var batch := map k | k in keys && k in s.db.blocks :: s.db.blocks[k];
    s.(movers := s.movers[t := Copying(m.todo - keys, m.buf + batch)])
  }

  /** Blocks without data are not copied. */
  function DoWriteBatch(s: State, t: nat, keys: set<Key>): State
    requires t in s.movers && s.movers[t].Copying? && s.next.Some? && keys <= s.movers[t].buf.Keys
  {
    var m := s.movers[t];
    var batch := map k | k in keys && m.buf[k] != [] :: m.buf[k];
    s.(next := Some(Db(s.next.value.id, s.next.value.blocks + batch)),
       movers := s.movers[t := Copying(m.todo, m.buf - keys)])
  }

  /** What a mover does with the exclusive lock, and the state in which it leaves the lock. */
  function DoLocked(s: State, t: nat): State
    requires t in s.movers && s.viewers > 0 && (s.movers[t].SwapWait? ==> s.next.Some?)
  {
    match s.movers[t]
    case FirstWait => DoMove(s, t, Opening, Moving)
    case InstallWait => DoInstall(s, t)
    case SwapWait => DoSwap(s, t)
    case DeferWait => if s.next.Some? then DoDrop(s, t) else DoReturn(s, t, MoveNone)
    case _ => DoReturn(s, t, MoveNone)
  }

  function Awaiting(m: Mover): Mover {
    match m
    case Opening => InstallWait
    case Swapped => DeferWait
    case _ => LastWait
  }

  function Apply(s: State, e: Event, content: Key -> Data): State
    requires Enabled(s, e, content)
  {
    match e
    case Access(t, op) => DoAccess(s, t, op)
    case AccessMove(t) => DoAccessMove(s, t)
    case LockDb(t) => if MustSleep(s, t) then DoSleep(s, t) else DoEnter(s, t)
    case WriteDb(t) => DoWriteDb(s, t)
    case WriteNext(t) => DoWriteNext(s, t)
    case DeleteKey(t) => DoDelete(s, t)
    case Leave(t, ok) => DoLeave(s, t, ok)
    case CheckMove(t) =>
      if s.moveState == MoveNone then DoMove(s, t, FirstWait, MoveLock) else DoReturn(s, t, s.moveState)
    case LockMove(t) => DoMove(s, t, Awaiting(s.movers[t]), MoveLock)
    case HaveMove(t) => DoLocked(s, t)
    case StartCopy(t) => DoMove(s, t, Copying(s.db.blocks.Keys, map[]), s.moveState)
    case ReadBatch(t, keys) => DoReadBatch(s, t, keys)
    case WriteBatch(t, keys) => DoWriteBatch(s, t, keys)
    case CopyDone(t) => DoMove(s, t, SwapWait, MoveLock)
    case Fail(t) => DoMove(s, t, DeferWait, MoveLock)
    case Close => s.(bs := Closing)
    case FinishClose => s.(bs := Closed)
  }
}
