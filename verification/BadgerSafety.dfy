/**
 What every interleaving of operations and moves keeps: one move at a time, databases
 exchanged only while no operation is inside the lock, and no put lost.
 */
module BadgerSafety {
  import opened Wrappers
  import opened BadgerMove

  // ----- the invariant -----

  /** The reader count and the viewer count are what they claim to count. */
  ghost predicate CountInv(pending: set<nat>, inside: set<nat>, movers: set<nat>, rlock: nat, viewers: nat, bs: BsState) {
    && (forall t :: t in pending ==> t !in inside && t !in movers)
    && (forall t :: t in inside ==> t !in movers)
    && rlock == |inside|
    && viewers == |pending| + |inside| + |movers|
    && (bs == Closed ==> viewers == 0)
  }

  predicate Active(m: Mover) { !m.Called? }

  function ModeOf(m: Mover): MoveState {
    match m
    case Called => MoveNone
    case Opening | Installed | Copying(_, _) => Moving
    case Swapped | Leftover => Cleanup
    case _ => MoveLock
  }

  /** Whether the second database exists, as far as the mover's position tells. */
  predicate NextFits(m: Mover, next: Option<Db>) {
    match m
    case Installed | Copying(_, _) | SwapWait => next.Some?
    case DeferWait => true
    case _ => next.None?
  }

  ghost predicate OneMover(movers: map<nat, Mover>) {
    forall t, u {:trigger Active(movers[t]), Active(movers[u])} ::
      t in movers && u in movers && Active(movers[t]) && Active(movers[u]) ==> t == u
  }

  ghost predicate MoverInv(movers: map<nat, Mover>, mode: MoveState, next: Option<Db>) {
    && OneMover(movers)
    && (forall t {:trigger Active(movers[t])} :: t in movers && Active(movers[t]) ==>
          mode == ModeOf(movers[t]) && NextFits(movers[t], next))
    && ((forall t {:trigger Active(movers[t])} :: t in movers ==> !Active(movers[t])) ==> mode == MoveNone && next == None)
  }

  /** The two databases are never the same one. */
  predicate IdInv(db: Db, next: Option<Db>, made: nat) {
    db.id <= made && (next.Some? ==> db.id < next.value.id <= made)
  }

  function KeysUpTo(blocks: seq<Block>, n: nat): set<Key>
    requires n <= |blocks|
  {
    if n == 0 then {} else KeysUpTo(blocks, n - 1) + {blocks[n - 1].key}
  }

  ghost predicate OpOk(op: Op, db: map<Key, Data>, next: Option<Db>, content: Key -> Data) {
    && Honest(op, content)
    && (op.Delete? ==> op.done <= |op.keys|)
    && (op.Put? ==>
          && op.inDb <= |op.blocks| && op.inNext <= |op.blocks|
          && op.kept <= db.Keys && op.kept <= KeysUpTo(op.blocks, op.inDb)
          && (next.Some? ==> KeysUpTo(op.blocks, op.inNext) <= next.value.blocks.Keys))
  }

  ghost predicate OpInv(inside: map<nat, Op>, db: map<Key, Data>, next: Option<Db>, content: Key -> Data) {
    forall t :: t in inside ==> OpOk(inside[t], db, next, content)
  }

  ghost predicate PendingInv(pending: map<nat, Pending>, content: Key -> Data) {
    forall t :: t in pending ==> NotStarted(pending[t].op) && Honest(pending[t].op, content)
  }

  ghost predicate Truthful(m: map<Key, Data>, content: Key -> Data) {
    forall k :: k in m ==> m[k] == content(k)
  }

  ghost predicate BuffersTruthful(movers: map<nat, Mover>, content: Key -> Data) {
    forall t :: t in movers && movers[t].Copying? ==> Truthful(movers[t].buf, content)
  }

  /** Every block put and not deleted since is in the current database, unless it is empty. */
  ghost predicate LiveStored(live: set<Key>, db: map<Key, Data>, content: Key -> Data) {
    forall k :: k in live && content(k) != [] ==> k in db
  }

  predicate Covered(m: Mover, next: Db, k: Key) {
    (m.Copying? || m.SwapWait?) ==> k in next.blocks || (m.Copying? && (k in m.todo || k in m.buf))
  }

  /** While a copy runs, a live block is in the new database or on its way there. */
  ghost predicate CoverInv(movers: map<nat, Mover>, next: Option<Db>, live: set<Key>, content: Key -> Data) {
    next.Some? ==>
      forall t, k :: t in movers && k in live && content(k) != [] ==> Covered(movers[t], next.value, k)
  }

  ghost predicate DataInv(s: State, content: Key -> Data) {
    && OpInv(s.inside, s.db.blocks, s.next, content)
    && PendingInv(s.pending, content)
    && Truthful(s.db.blocks, content)
    && (s.next.Some? ==> Truthful(s.next.value.blocks, content))
    && BuffersTruthful(s.movers, content)
    && LiveStored(s.live, s.db.blocks, content)
    && CoverInv(s.movers, s.next, s.live, content)
  }

  ghost predicate LockInv(s: State) {
    && CountInv(s.pending.Keys, s.inside.Keys, s.movers.Keys, s.rlock, s.viewers, s.bs)
    && MoverInv(s.movers, s.moveState, s.next)
    && IdInv(s.db, s.next, s.made)
  }

  ghost predicate Inv(s: State, content: Key -> Data) {
    LockInv(s) && DataInv(s, content)
  }

  // ----- counting -----

  lemma KeysPut<V>(m: map<nat, V>, k: nat, v: V)
    ensures m[k := v].Keys == m.Keys + {k}
    ensures k in m ==> m[k := v].Keys == m.Keys
  {
  }

  lemma KeysGone<V>(m: map<nat, V>, k: nat)
    requires k in m
    ensures (m - {k}).Keys == m.Keys - {k} && |m.Keys - {k}| == |m.Keys| - 1
  {
  }

  lemma NobodyInside(s: State)
    requires LockInv(s) && s.rlock == 0
    ensures s.inside == map[]
  {
    assert s.inside.Keys == {};
  }

  /** The counters never underflow, and the second database is there when it is swapped in. */
  lemma NeverStuck(s: State)
    requires LockInv(s)
    ensures s.inside != map[] ==> s.rlock > 0 && s.viewers > 0
    ensures s.movers != map[] ==> s.viewers > 0
    ensures forall t :: t in s.movers && s.movers[t].SwapWait? ==> s.next.Some?
  {
    assert forall t :: t in s.movers && s.movers[t].SwapWait? ==> Active(s.movers[t]);
    if s.inside != map[] {
      assert s.inside.Keys != {};
    }
    if s.movers != map[] {
      assert s.movers.Keys != {};
    }
  }

  lemma CountAccess(p: set<nat>, i: set<nat>, m: set<nat>, rlock: nat, viewers: nat, bs: BsState, t: nat)
    requires CountInv(p, i, m, rlock, viewers, bs) && bs == Open && t !in p + i + m
    ensures CountInv(p + {t}, i, m, rlock, viewers + 1, bs) && CountInv(p, i, m + {t}, rlock, viewers + 1, bs)
  {
  }

  lemma CountEnter(p: set<nat>, i: set<nat>, m: set<nat>, rlock: nat, viewers: nat, bs: BsState, t: nat)
    requires CountInv(p, i, m, rlock, viewers, bs) && t in p
    ensures CountInv(p - {t}, i + {t}, m, rlock + 1, viewers, bs)
  {
    assert t !in i;
  }

  lemma CountLeave(p: set<nat>, i: set<nat>, m: set<nat>, rlock: nat, viewers: nat, bs: BsState, t: nat)
    requires CountInv(p, i, m, rlock, viewers, bs)
    ensures t in i ==> rlock > 0 && viewers > 0 && CountInv(p, i - {t}, m, rlock - 1, viewers - 1, bs)
    ensures t in m ==> viewers > 0 && CountInv(p, i, m - {t}, rlock, viewers - 1, bs)
  {
  }

  // ----- movers -----

  /** The active mover moves on, or the first one starts. */
  lemma MoverPut(movers: map<nat, Mover>, mode: MoveState, next: Option<Db>, t: nat, m: Mover, next': Option<Db>)
    requires MoverInv(movers, mode, next) && t in movers
    requires Active(movers[t]) || mode == MoveNone
    requires Active(m) && NextFits(m, next')
    ensures MoverInv(movers[t := m], ModeOf(m), next')
  {
    var movers' := movers[t := m];
    assert t in movers' && Active(movers'[t]);
    forall u | u in movers' && Active(movers'[u])
      ensures u == t
    {
    }
  }

  lemma MoverGone(movers: map<nat, Mover>, mode: MoveState, next: Option<Db>, t: nat)
    requires MoverInv(movers, mode, next) && t in movers
    ensures Active(movers[t]) ==> MoverInv(movers - {t}, MoveNone, None)
    ensures !Active(movers[t]) ==> MoverInv(movers - {t}, mode, next)
  {
    var movers' := movers - {t};
    assert forall u :: u in movers' ==> u in movers && u != t;
    if !Active(movers[t]) && forall u :: u in movers' ==> !Active(movers'[u]) {
      forall u | u in movers
        ensures !Active(movers[u])
      {
        assert u != t ==> u in movers';
      }
    }
  }

  lemma MoverCalled(movers: map<nat, Mover>, mode: MoveState, next: Option<Db>, t: nat)
    requires MoverInv(movers, mode, next) && t !in movers
    ensures MoverInv(movers[t := Called], mode, next)
  {
    var movers' := movers[t := Called];
    if forall u :: u in movers' ==> !Active(movers'[u]) {
      forall u | u in movers
        ensures !Active(movers[u])
      {
        assert u in movers' && movers'[u] == movers[u];
      }
    }
  }

  // ----- the lock part of the invariant, event by event -----

  lemma AccessLock(s: State, t: nat, op: Op)
    requires LockInv(s) && s.bs == Open && FreshThread(s, t)
    ensures LockInv(DoAccess(s, t, op)) && LockInv(DoAccessMove(s, t))
  {
    KeysPut(s.pending, t, Pending(op, false));
    KeysPut(s.movers, t, Called);
    CountAccess(s.pending.Keys, s.inside.Keys, s.movers.Keys, s.rlock, s.viewers, s.bs, t);
    MoverCalled(s.movers, s.moveState, s.next, t);
  }

  lemma EnterLock(s: State, t: nat)
    requires LockInv(s) && t in s.pending
    ensures LockInv(DoSleep(s, t)) && LockInv(DoEnter(s, t))
  {
    KeysPut(s.pending, t, Pending(s.pending[t].op, true));
    KeysGone(s.pending, t);
    KeysPut(s.inside, t, s.pending[t].op);
    CountEnter(s.pending.Keys, s.inside.Keys, s.movers.Keys, s.rlock, s.viewers, s.bs, t);
  }

  /** Writing to the second database keeps it where it is. */
  lemma MoverNext(movers: map<nat, Mover>, mode: MoveState, next: Option<Db>, next': Option<Db>)
    requires MoverInv(movers, mode, next) && next.Some? && next'.Some?
    ensures MoverInv(movers, mode, next')
  {
  }

  lemma WriteDbLock(s: State, t: nat)
    requires LockInv(s) && t in s.inside && s.inside[t].Put? && s.inside[t].inDb < |s.inside[t].blocks|
    ensures LockInv(DoWriteDb(s, t))
  {
    KeysPut(s.inside, t, DoWriteDb(s, t).inside[t]);
  }

  lemma WriteNextLock(s: State, t: nat)
    requires LockInv(s) && t in s.inside && s.inside[t].Put? && s.next.Some?
    requires s.inside[t].inNext < |s.inside[t].blocks|
    ensures LockInv(DoWriteNext(s, t))
  {
    var s' := DoWriteNext(s, t);
    KeysPut(s.inside, t, s'.inside[t]);
    MoverNext(s.movers, s.moveState, s.next, s'.next);
  }

  lemma DeleteLock(s: State, t: nat)
    requires LockInv(s) && t in s.inside && s.inside[t].Delete? && s.inside[t].done < |s.inside[t].keys|
    ensures LockInv(DoDelete(s, t))
  {
    assert DoDelete(s, t).inside.Keys == s.inside.Keys;
  }

  lemma LeaveLock(s: State, t: nat, ok: bool)
    requires LockInv(s) && t in s.inside && s.rlock > 0 && s.viewers > 0
    ensures LockInv(DoLeave(s, t, ok))
  {
    KeysGone(s.inside, t);
    CountLeave(s.pending.Keys, s.inside.Keys, s.movers.Keys, s.rlock, s.viewers, s.bs, t);
  }

  lemma MoveLockInv(s: State, t: nat, m: Mover)
    requires LockInv(s) && t in s.movers && (Active(s.movers[t]) || s.moveState == MoveNone)
    requires Active(m) && NextFits(m, s.next)
    ensures LockInv(DoMove(s, t, m, ModeOf(m)))
  {
    KeysPut(s.movers, t, m);
    MoverPut(s.movers, s.moveState, s.next, t, m, s.next);
  }

  lemma ReturnLock(s: State, t: nat)
    requires LockInv(s) && t in s.movers && s.viewers > 0
    ensures !Active(s.movers[t]) ==> LockInv(DoReturn(s, t, s.moveState))
    ensures Active(s.movers[t]) && s.next.None? ==> LockInv(DoReturn(s, t, MoveNone))
  {
    KeysGone(s.movers, t);
    CountLeave(s.pending.Keys, s.inside.Keys, s.movers.Keys, s.rlock, s.viewers, s.bs, t);
    MoverGone(s.movers, s.moveState, s.next, t);
  }

  lemma InstallLock(s: State, t: nat)
    requires LockInv(s) && t in s.movers && s.movers[t].InstallWait?
    ensures LockInv(DoInstall(s, t))
  {
    KeysPut(s.movers, t, Installed);
    MoverPut(s.movers, s.moveState, s.next, t, Installed, DoInstall(s, t).next);
  }

  lemma SwapLock(s: State, t: nat)
    requires LockInv(s) && t in s.movers && s.movers[t].SwapWait? && s.next.Some?
    ensures LockInv(DoSwap(s, t))
  {
    KeysPut(s.movers, t, Swapped);
    MoverPut(s.movers, s.moveState, s.next, t, Swapped, None);
  }

  lemma DropLock(s: State, t: nat)
    requires LockInv(s) && t in s.movers && s.movers[t].DeferWait?
    ensures LockInv(DoDrop(s, t))
  {
    KeysPut(s.movers, t, Leftover);
    MoverPut(s.movers, s.moveState, s.next, t, Leftover, None);
  }

  /** The first three times a mover has the exclusive lock. */
  predicate Early(m: Mover) { m.FirstWait? || m.InstallWait? || m.SwapWait? }

  lemma EarlyLock(s: State, t: nat)
    requires LockInv(s) && t in s.movers && Early(s.movers[t])
    requires s.viewers > 0 && (s.movers[t].SwapWait? ==> s.next.Some?)
    ensures LockInv(DoLocked(s, t))
  {
    match s.movers[t] {
      case FirstWait => MoveLockInv(s, t, Opening);
      case InstallWait => InstallLock(s, t);
      case SwapWait => SwapLock(s, t);
    }
  }

  lemma LateLock(s: State, t: nat)
    requires LockInv(s) && t in s.movers && AwaitsLock(s.movers[t]) && !Early(s.movers[t]) && s.viewers > 0
    ensures LockInv(DoLocked(s, t))
  {
    if s.movers[t].DeferWait? && s.next.Some? {
      DropLock(s, t);
    } else {
      ReturnLock(s, t);
    }
  }

  lemma LockedLock(s: State, t: nat)
    requires LockInv(s) && t in s.movers && AwaitsLock(s.movers[t])
    requires s.viewers > 0 && (s.movers[t].SwapWait? ==> s.next.Some?)
    ensures LockInv(DoLocked(s, t))
  {
    if Early(s.movers[t]) {
      EarlyLock(s, t);
    } else {
      LateLock(s, t);
    }
  }

  lemma CopyLock(s: State, t: nat, keys: set<Key>)
    requires LockInv(s) && t in s.movers && s.movers[t].Copying?
    ensures LockInv(DoReadBatch(s, t, keys))
    ensures s.next.Some? && keys <= s.movers[t].buf.Keys ==> LockInv(DoWriteBatch(s, t, keys))
  {
    var r := DoReadBatch(s, t, keys);
    MoveLockInv(s, t, r.movers[t]);
    if s.next.Some? && keys <= s.movers[t].buf.Keys {
      var w := DoWriteBatch(s, t, keys);
      KeysPut(s.movers, t, w.movers[t]);
      MoverPut(s.movers, s.moveState, s.next, t, w.movers[t], w.next);
    }
  }

  /** Without a move in progress there is no second database. */
  lemma NoMoveNoNext(s: State)
    requires LockInv(s) && s.moveState == MoveNone
    ensures s.next == None && forall t :: t in s.movers ==> !Active(s.movers[t])
  {
  }

  predicate IsOperation(e: Event) {
    e.Access? || e.AccessMove? || e.LockDb? || e.WriteDb? || e.WriteNext? || e.DeleteKey? || e.Leave?
  }

  lemma LockStepOperation(s: State, e: Event, content: Key -> Data)
    requires LockInv(s) && Enabled(s, e, content) && IsOperation(e)
    ensures LockInv(Apply(s, e, content))
  {
    match e {
      case Access(t, op) => AccessLock(s, t, op);
      case AccessMove(t) => AccessLock(s, t, Read);
      case LockDb(t) => EnterLock(s, t);
      case WriteDb(t) => WriteDbLock(s, t);
      case WriteNext(t) => WriteNextLock(s, t);
      case DeleteKey(t) => DeleteLock(s, t);
      case Leave(t, ok) => LeaveLock(s, t, ok);
    }
  }

  lemma CheckLock(s: State, t: nat)
    requires LockInv(s) && t in s.movers && s.movers[t].Called? && s.viewers > 0
    ensures s.moveState == MoveNone ==> LockInv(DoMove(s, t, FirstWait, MoveLock))
    ensures LockInv(DoReturn(s, t, s.moveState))
  {
    ReturnLock(s, t);
    if s.moveState == MoveNone {
      NoMoveNoNext(s);
      MoveLockInv(s, t, FirstWait);
    }
  }

  lemma StartCopyLock(s: State, t: nat)
    requires LockInv(s) && t in s.movers && s.movers[t].Installed?
    ensures LockInv(DoMove(s, t, Copying(s.db.blocks.Keys, map[]), s.moveState))
  {
    assert Active(s.movers[t]);
    MoveLockInv(s, t, Copying(s.db.blocks.Keys, map[]));
  }

  /** The mover asks for the exclusive lock again. */
  lemma RelockInv(s: State, t: nat, m: Mover)
    requires LockInv(s) && t in s.movers && Active(s.movers[t]) && ModeOf(m) == MoveLock && Active(m)
    requires NextFits(s.movers[t], s.next) ==> NextFits(m, s.next)
    ensures LockInv(DoMove(s, t, m, MoveLock))
  {
    MoveLockInv(s, t, m);
  }

  predicate IsBackground(e: Event) {
    e.StartCopy? || e.ReadBatch? || e.WriteBatch? || e.CopyDone? || e.Fail?
  }

  lemma LockStepBackground(s: State, e: Event, content: Key -> Data)
    requires LockInv(s) && Enabled(s, e, content) && IsBackground(e)
    ensures LockInv(Apply(s, e, content))
  {
    match e {
      case StartCopy(t) => StartCopyLock(s, t);
      case ReadBatch(t, keys) => CopyLock(s, t, keys);
      case WriteBatch(t, keys) => CopyLock(s, t, keys);
      case CopyDone(t) => RelockInv(s, t, SwapWait);
      case Fail(t) => RelockInv(s, t, DeferWait);
    }
  }

  lemma LockStepForeground(s: State, e: Event, content: Key -> Data)
    requires LockInv(s) && Enabled(s, e, content) && !IsOperation(e) && !IsBackground(e)
    ensures LockInv(Apply(s, e, content))
  {
    match e {
      case CheckMove(t) => CheckLock(s, t);
      case LockMove(t) => RelockInv(s, t, Awaiting(s.movers[t]));
      case HaveMove(t) => LockedLock(s, t);
      case Close =>
      case FinishClose =>
    }
  }

  lemma LockStep(s: State, e: Event, content: Key -> Data)
    requires LockInv(s) && Enabled(s, e, content)
    ensures LockInv(Apply(s, e, content))
  {
    if IsOperation(e) {
      LockStepOperation(s, e, content);
    } else if IsBackground(e) {
      LockStepBackground(s, e, content);
    } else {
      LockStepForeground(s, e, content);
    }
  }

  // ----- the data part of the invariant, event by event -----

  lemma {:induction false} KeysUpToMonotone(blocks: seq<Block>, m: nat, n: nat)
    requires m <= n <= |blocks|
    ensures KeysUpTo(blocks, m) <= KeysUpTo(blocks, n)
  {
    if m < n {
      KeysUpToMonotone(blocks, m, n - 1);
    }
  }

  lemma AccessData(s: State, t: nat, op: Op, content: Key -> Data)
    requires DataInv(s, content) && NotStarted(op) && Honest(op, content) && t !in s.movers
    ensures DataInv(DoAccess(s, t, op), content) && DataInv(DoAccessMove(s, t), content)
  {
  }

  lemma EnterData(s: State, t: nat, content: Key -> Data)
    requires DataInv(s, content) && t in s.pending
    ensures DataInv(DoSleep(s, t), content) && DataInv(DoEnter(s, t), content)
  {
    assert OpOk(s.pending[t].op, s.db.blocks, s.next, content);
  }

  lemma WriteDbData(s: State, t: nat, content: Key -> Data)
    requires DataInv(s, content) && t in s.inside && s.inside[t].Put? && s.inside[t].inDb < |s.inside[t].blocks|
    ensures DataInv(DoWriteDb(s, t), content)
  {
    assert OpOk(s.inside[t], s.db.blocks, s.next, content);
  }

  lemma WriteNextData(s: State, t: nat, content: Key -> Data)
    requires DataInv(s, content) && t in s.inside && s.inside[t].Put? && s.next.Some?
    requires s.inside[t].inNext < |s.inside[t].blocks|
    ensures DataInv(DoWriteNext(s, t), content)
  {
    assert OpOk(s.inside[t], s.db.blocks, s.next, content);
  }

  lemma DeleteData(s: State, t: nat, content: Key -> Data)
    requires DataInv(s, content) && t in s.inside && s.inside[t].Delete? && s.inside[t].done < |s.inside[t].keys|
    ensures DataInv(DoDelete(s, t), content)
  {
    var s' := DoDelete(s, t);
    forall u | u in s'.inside
      ensures OpOk(s'.inside[u], s'.db.blocks, s'.next, content)
    {
      assert OpOk(s.inside[u], s.db.blocks, s.next, content);
    }
  }

  lemma LeaveData(s: State, t: nat, ok: bool, content: Key -> Data)
    requires DataInv(s, content) && t in s.inside && s.rlock > 0 && s.viewers > 0
    requires ok && s.inside[t].Put? ==> PutDone(s, s.inside[t])
    ensures DataInv(DoLeave(s, t, ok), content)
  {
    assert OpOk(s.inside[t], s.db.blocks, s.next, content);
  }

  /** A mover that neither starts copying nor gets ready to swap needs nothing of the data. */
  lemma MoveData(s: State, t: nat, m: Mover, mode: MoveState, content: Key -> Data)
    requires DataInv(s, content) && !m.Copying? && !m.SwapWait?
    ensures DataInv(DoMove(s, t, m, mode), content)
  {
  }

  lemma StartCopyData(s: State, t: nat, content: Key -> Data)
    requires DataInv(s, content)
    ensures DataInv(DoMove(s, t, Copying(s.db.blocks.Keys, map[]), s.moveState), content)
  {
  }

  lemma CopyDoneData(s: State, t: nat, content: Key -> Data)
    requires DataInv(s, content) && t in s.movers
    requires s.movers[t].Copying? && s.movers[t].todo == {} && s.movers[t].buf == map[]
    ensures DataInv(DoMove(s, t, SwapWait, MoveLock), content)
  {
    var s' := DoMove(s, t, SwapWait, MoveLock);
    if s.next.Some? {
      forall u, k | u in s'.movers && k in s'.live && content(k) != []
        ensures Covered(s'.movers[u], s'.next.value, k)
      {
        assert Covered(s.movers[u], s.next.value, k);
      }
    }
  }

  lemma ReadBatchData(s: State, t: nat, keys: set<Key>, content: Key -> Data)
    requires DataInv(s, content) && t in s.movers && s.movers[t].Copying?
    ensures DataInv(DoReadBatch(s, t, keys), content)
  {
    var s' := DoReadBatch(s, t, keys);
    if s.next.Some? {
      forall u, k | u in s'.movers && k in s'.live && content(k) != []
        ensures Covered(s'.movers[u], s'.next.value, k)
      {
        assert Covered(s.movers[u], s.next.value, k);
      }
    }
  }

  lemma WriteBatchData(s: State, t: nat, keys: set<Key>, content: Key -> Data)
    requires DataInv(s, content) && t in s.movers && s.movers[t].Copying? && s.next.Some?
    requires keys <= s.movers[t].buf.Keys
    ensures DataInv(DoWriteBatch(s, t, keys), content)
  {
    var s' := DoWriteBatch(s, t, keys);
    assert forall k :: k in s.next.value.blocks ==> k in s'.next.value.blocks;
    forall u, k | u in s'.movers && k in s'.live && content(k) != []
      ensures Covered(s'.movers[u], s'.next.value, k)
    {
      assert Covered(s.movers[u], s.next.value, k);
    }
  }

  lemma InstallData(s: State, t: nat, content: Key -> Data)
    requires DataInv(s, content) && MoverInv(s.movers, s.moveState, s.next) && s.inside == map[]
    requires t in s.movers && s.movers[t].InstallWait?
    ensures DataInv(DoInstall(s, t), content)
  {
    assert Active(s.movers[t]);
    assert forall u :: u in s.movers && u != t ==> !Active(s.movers[u]);
  }

  /** The heart of the matter: the swapped-in database holds every live block. */
  lemma SwapData(s: State, t: nat, content: Key -> Data)
    requires DataInv(s, content) && s.inside == map[]
    requires t in s.movers && s.movers[t].SwapWait? && s.next.Some?
    ensures DataInv(DoSwap(s, t), content)
  {
    forall k | k in s.live && content(k) != []
      ensures k in s.next.value.blocks
    {
      assert Covered(s.movers[t], s.next.value, k);
    }
  }

  lemma ReturnData(s: State, t: nat, mode: MoveState, content: Key -> Data)
    requires DataInv(s, content) && s.viewers > 0
    ensures DataInv(DoReturn(s, t, mode), content)
  {
  }

  lemma DropData(s: State, t: nat, content: Key -> Data)
    requires DataInv(s, content)
    ensures DataInv(DoDrop(s, t), content)
  {
    var s' := DoDrop(s, t);
    forall u | u in s'.inside
      ensures OpOk(s'.inside[u], s'.db.blocks, s'.next, content)
    {
      assert OpOk(s.inside[u], s.db.blocks, s.next, content);
    }
  }
}
