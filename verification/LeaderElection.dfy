/**
 Leader election over any number of electors, callers and pooled sessions. Each mutex region of an
 elector, each hand-out of a pooled session and each query is one atomic step, and the steps of
 different callers interleave freely.
 */
module LeaderElection {
  import opened Options
  import opened AdvisoryLocks
  import opened LockIds

  datatype Entry = Entry(conn: Session, id: int, refCount: int)

  /** Who asks: one lock key in one elector. */
  datatype Slot = Slot(elector: nat, key: Key)

  type CallId = nat

  /** Where a caller is between the start of TryAcquire and the end of Release. */
  datatype Phase =
    | Asked                             // before the first mutex region
    | Missed                            // the elector had no entry; needs a session
    | Connected(conn: Session)          // has a dedicated session
    | Locked(conn: Session)             // the server granted the lock; not stored yet
    | Holding                           // TryAcquire returned true
    | Unlocking(conn: Session, id: int) // Release deleted the entry
    | Closing(conn: Session)            // nothing left but to return the session to the pool

  datatype Call = Call(slot: Slot, phase: Phase)

  /** What keeps a session out of the pool. */
  datatype User = ByCall(c: CallId) | ByEntry(slot: Slot)

  /** `faulted`: some query failed and left its lock with a session that goes back to the pool.
      `hash`: how lock keys become lock ids (LockIds.LockId; nothing here depends on which). */
  datatype State = State(entries: map<Slot, Entry>, calls: map<CallId, Call>,
                         inUse: map<Session, User>, held: Locks, faulted: bool,
                         hash: Key -> int)

  // ----- The mutex regions, on one elector's map or on the maps of all of them -----

  /** TryAcquire, first region: one more reference to an entry that is there. */
  function Join<K>(locks: map<K, Entry>, key: K): map<K, Entry>
    requires key in locks
  {
    locks[key := locks[key].(refCount := locks[key].refCount + 1)]
  }

  /** TryAcquire, second region. */
  function Store<K>(locks: map<K, Entry>, key: K, conn: Session, id: int): map<K, Entry> {
    locks[key := Entry(conn, id, 1)]
  }

  /** Release: drops a reference, and the entry with the last one. */
  function Leave<K>(locks: map<K, Entry>, key: K): map<K, Entry> {
    if key !in locks then locks
    else if locks[key].refCount > 1 then locks[key := locks[key].(refCount := locks[key].refCount - 1)]
    else locks - {key}
  }

  class PgLeaderElector {
    var locks: map<Key, Entry>

    constructor ()
      ensures locks == map[]
    {
      locks := map[];
    }

    method JoinEntry(key: Key) returns (held: bool)
      modifies this
      ensures held == (key in old(locks))
      ensures locks == if held then Join(old(locks), key) else old(locks)
    {
      held := key in locks;
      if held {
        var entry := locks[key];
        locks := locks[key := entry.(refCount := entry.refCount + 1)];
      }
    }

    method StoreEntry(key: Key, conn: Session, id: int)
      modifies this
      ensures locks == Store(old(locks), key, conn, id)
    {
      locks := locks[key := Entry(conn, id, 1)];
    }

    /** The deleted entry, when this was the last reference. */
    method LeaveEntry(key: Key) returns (last: Option<Entry>)
      modifies this
      ensures locks == Leave(old(locks), key)
      ensures last ==
        if key in old(locks) && key !in locks
        then Some(old(locks)[key].(refCount := old(locks)[key].refCount - 1)) else None
    {
      last := None;
      if key in locks {
        var entry := locks[key];
        entry := entry.(refCount := entry.refCount - 1);
        locks := locks[key := entry];
        if entry.refCount <= 0 {
          locks := locks - {key};
          last := Some(entry);
        }
      }
    }

    /** Swaps the map, then unlocks entry by entry. `failing`: sessions whose unlock query reports a
        failure; `executed`: those of them whose query the server has executed all the same;
        `returned`: the sessions given back to the pool. */
    method Close(server: Server, failing: set<Session>, executed: set<Session>)
      returns (failed: bool, returned: set<Session>)
      modifies this, server
      ensures locks == map[]
      ensures failed <==> exists key :: key in old(locks) && old(locks)[key].conn in failing
      ensures returned == set key | key in old(locks) :: old(locks)[key].conn
      ensures forall id ::
        Lookup(server.held, id) == Spent(old(server.held), old(locks), old(locks).Keys, failing - executed, id)
    {
      var entries := locks;
      locks := map[];
      var left := entries.Keys;
      failed, returned := false, {};
      while left != {}
        invariant left <= entries.Keys && locks == map[]
        invariant failed <==> exists key :: key in entries && key !in left && entries[key].conn in failing
        invariant returned == set key | key in entries && key !in left :: entries[key].conn
        invariant forall id ::
          Lookup(server.held, id) == Spent(old(server.held), entries, entries.Keys - left, failing - executed, id)
        decreases left
      {
        var key :| key in left;
        var entry := entries[key];
        ghost var done := entries.Keys - left;
        UnlocksOneMore(old(server.held), server.held, entries, done, failing - executed, key);
        if entry.conn !in failing - executed {
          server.held := Unlock(server.held, entry.conn, entry.id);
        }
        failed, returned := failed || entry.conn in failing, returned + {entry.conn};
        left := left - {key};
        assert entries.Keys - left == done + {key};
      }
      assert entries.Keys - {} == entries.Keys;
    }
  }

  class Server {
    var held: Locks
  }

  function Lookup(held: Locks, id: int): Option<Hold> {
    if id in held then Some(held[id]) else None
  }

  /** The entries among `keys` whose unlock query lowers the count of that lock of that session. */
  function Freeing(entries: map<Key, Entry>, keys: set<Key>, skipped: set<Session>, conn: Session, id: int): set<Key>
  {
    if conn in skipped then {} else set key | key in keys && key in entries && Frees(entries[key], conn, id)
  }

  predicate Frees(entry: Entry, conn: Session, id: int) {
    entry.conn == conn && entry.id == id
  }

  /** What unlocking those entries leaves of one lock, in whatever order it happens. */
  function Spent(held: Locks, entries: map<Key, Entry>, keys: set<Key>, skipped: set<Session>, id: int): Option<Hold> {
    if id !in held then None
    else
      var n := |Freeing(entries, keys, skipped, held[id].session, id)|;
      if n > 0 && n >= held[id].count then None
      else Some(Hold(held[id].session, held[id].count - n))
  }

  lemma UnlocksOneMore(was: Locks, held: Locks, entries: map<Key, Entry>, keys: set<Key>, skipped: set<Session>,
                       key: Key)
    requires key in entries && key !in keys
    requires forall id :: Lookup(held, id) == Spent(was, entries, keys, skipped, id)
    ensures var entry := entries[key];
      var after := if entry.conn in skipped then held else Unlock(held, entry.conn, entry.id);
      forall id :: Lookup(after, id) == Spent(was, entries, keys + {key}, skipped, id)
  {
    var entry := entries[key];
    var after := if entry.conn in skipped then held else Unlock(held, entry.conn, entry.id);
    hide Freeing;
    forall id ensures Lookup(after, id) == Spent(was, entries, keys + {key}, skipped, id) {
      assert Lookup(held, id) == Spent(was, entries, keys, skipped, id);
      if id in was {
        FreeingGrows(entries, keys, skipped, was[id].session, id, key);
      }
    }
  }

  lemma FreeingGrows(entries: map<Key, Entry>, keys: set<Key>, skipped: set<Session>, conn: Session, id: int, key: Key)
    requires key in entries && key !in keys
    ensures |Freeing(entries, keys + {key}, skipped, conn, id)|
      == |Freeing(entries, keys, skipped, conn, id)|
           + (if conn !in skipped && Frees(entries[key], conn, id) then 1 else 0)
  {
    var before, after := Freeing(entries, keys, skipped, conn, id), Freeing(entries, keys + {key}, skipped, conn, id);
    if conn !in skipped && Frees(entries[key], conn, id) {
      assert after == before + {key};
    } else {
      assert after == before;
    }
  }

  /** The map of one elector, within the maps of all. */
  function MapOf(entries: map<Slot, Entry>, elector: nat): map<Key, Entry> {
    map slot | slot in entries && slot.elector == elector :: slot.key := entries[slot]
  }

  /** A mutex region acts on the map of its own elector as PgLeaderElector's method does, and on
      no other elector's map. */
  lemma RegionsAreLocal(entries: map<Slot, Entry>, slot: Slot, conn: Session, id: int, other: nat)
    requires other != slot.elector
    ensures slot in entries ==>
      && slot.key in MapOf(entries, slot.elector)
      && MapOf(Join(entries, slot), slot.elector) == Join(MapOf(entries, slot.elector), slot.key)
    ensures MapOf(Store(entries, slot, conn, id), slot.elector)
      == Store(MapOf(entries, slot.elector), slot.key, conn, id)
    ensures MapOf(Leave(entries, slot), slot.elector) == Leave(MapOf(entries, slot.elector), slot.key)
    ensures slot in entries ==> MapOf(Join(entries, slot), other) == MapOf(entries, other)
    ensures MapOf(Store(entries, slot, conn, id), other) == MapOf(entries, other)
    ensures MapOf(Leave(entries, slot), other) == MapOf(entries, other)
  {
  }

  // ----- Steps -----

  predicate Is(s: State, c: CallId, phase: Phase) {
    c in s.calls && s.calls[c].phase == phase
  }

  /** A call between being handed a session and asking for the lock, and so on. */
  predicate IsConnected(s: State, c: CallId) { c in s.calls && s.calls[c].phase.Connected? }
  predicate IsLocked(s: State, c: CallId) { c in s.calls && s.calls[c].phase.Locked? }
  predicate IsUnlocking(s: State, c: CallId) { c in s.calls && s.calls[c].phase.Unlocking? }
  predicate IsClosing(s: State, c: CallId) { c in s.calls && s.calls[c].phase.Closing? }

  function Move(s: State, c: CallId, phase: Phase): map<CallId, Call>
    requires c in s.calls
  {
    s.calls[c := s.calls[c].(phase := phase)]
  }

  function Begin(s: State, c: CallId, slot: Slot): State
    requires c !in s.calls
  {
    s.(calls := s.calls[c := Call(slot, Asked)])
  }

  function Check(s: State, c: CallId): State
    requires Is(s, c, Asked)
  {
    var slot := s.calls[c].slot;
    if slot in s.entries then s.(calls := Move(s, c, Holding), entries := Join(s.entries, slot))
    else s.(calls := Move(s, c, Missed))
  }

  /** The pool hands out a session nobody uses: an idle one, whatever locks it kept, or a new one. */
  function Connect(s: State, c: CallId, conn: Session): State
    requires Is(s, c, Missed) && conn !in s.inUse
  {
    s.(calls := Move(s, c, Connected(conn)), inUse := s.inUse[conn := ByCall(c)])
  }

  function NoConnection(s: State, c: CallId): State
    requires Is(s, c, Missed)
  {
    s.(calls := s.calls - {c})
  }

  function AskLock(s: State, c: CallId): State
    requires IsConnected(s, c)
  {
    var conn, id := s.calls[c].phase.conn, s.hash(s.calls[c].slot.key);
    s.(calls := Move(s, c, if CanLock(s.held, conn, id) then Locked(conn) else Closing(conn)),
       held := TryLock(s.held, conn, id))
  }

  /** The query reports a failure; the server may or may not have executed it. */
  function AskLockFails(s: State, c: CallId, executed: bool): State
    requires IsConnected(s, c)
  {
    var conn, id := s.calls[c].phase.conn, s.hash(s.calls[c].slot.key);
    s.(calls := Move(s, c, Closing(conn)), faulted := s.faulted || (executed && CanLock(s.held, conn, id)),
       held := if executed then TryLock(s.held, conn, id) else s.held)
  }

  function StoreIt(s: State, c: CallId): State
    requires IsLocked(s, c)
  {
    var conn, slot := s.calls[c].phase.conn, s.calls[c].slot;
    s.(calls := Move(s, c, Holding), inUse := s.inUse[conn := ByEntry(slot)],
       entries := Store(s.entries, slot, conn, s.hash(slot.key)))
  }

  /** Release, by a caller that holds. */
  function Release(s: State, c: CallId): State
    requires Is(s, c, Holding)
  {
    var slot := s.calls[c].slot;
    if slot in s.entries && s.entries[slot].refCount <= 1 then
      var entry := s.entries[slot];
      s.(calls := Move(s, c, Unlocking(entry.conn, entry.id)), inUse := s.inUse[entry.conn := ByCall(c)],
         entries := Leave(s.entries, slot))
    else s.(calls := s.calls - {c}, entries := Leave(s.entries, slot))
  }

  function AskUnlock(s: State, c: CallId): State
    requires IsUnlocking(s, c)
  {
    var at := s.calls[c].phase;
    s.(calls := Move(s, c, Closing(at.conn)), held := Unlock(s.held, at.conn, at.id))
  }

  function AskUnlockFails(s: State, c: CallId, executed: bool): State
    requires IsUnlocking(s, c)
  {
    var at := s.calls[c].phase;
    s.(calls := Move(s, c, Closing(at.conn)), faulted := s.faulted || !executed,
       held := if executed then Unlock(s.held, at.conn, at.id) else s.held)
  }

  /** conn.Close: the session is idle again, and the call returns. */
  function ReturnSession(s: State, c: CallId): State
    requires IsClosing(s, c)
  {
    s.(calls := s.calls - {c}, inUse := s.inUse - {s.calls[c].phase.conn})
  }

  /** The pool closes a session that nobody uses; the server frees what locks it had kept. */
  function DropIdle(s: State, conn: Session): State
    requires conn !in s.inUse
  {
    s.(held := map id | id in s.held && s.held[id].session != conn :: s.held[id])
  }

  predicate NoHolder(s: State, elector: nat) {
    forall c :: c in s.calls && s.calls[c].slot.elector == elector ==> !s.calls[c].phase.Holding?
  }

  /** Close swaps the elector's map for an empty one. Its callers call it without a holder;
      EmptyOnClose shows that there is then nothing left to unlock. */
  function Close(s: State, elector: nat): State
    requires NoHolder(s, elector)
  {
    s.(entries := map slot | slot in s.entries && slot.elector != elector :: s.entries[slot])
  }

  datatype Step =
    | SBegin(c: CallId, slot: Slot)
    | SCheck(c: CallId)
    | SConnect(c: CallId, conn: Session)
    | SNoConnection(c: CallId)
    | SAskLock(c: CallId)
    | SAskLockFails(c: CallId, executed: bool)
    | SStore(c: CallId)
    | SRelease(c: CallId)
    | SAskUnlock(c: CallId)
    | SAskUnlockFails(c: CallId, executed: bool)
    | SReturnSession(c: CallId)
    | SClose(elector: nat)
    | SDropIdle(conn: Session)

  /** A step of caller `c`. */
  predicate By(step: Step, c: CallId) {
    !step.SClose? && !step.SDropIdle? && step.c == c
  }

  predicate Enabled(s: State, step: Step) {
    match step
    case SBegin(c, _) => c !in s.calls
    case SCheck(c) => Is(s, c, Asked)
    case SConnect(c, conn) => Is(s, c, Missed) && conn !in s.inUse
    case SNoConnection(c) => Is(s, c, Missed)
    case SAskLock(c) => IsConnected(s, c)
    case SAskLockFails(c, _) => IsConnected(s, c)
    case SStore(c) => IsLocked(s, c)
    case SRelease(c) => Is(s, c, Holding)
    case SAskUnlock(c) => IsUnlocking(s, c)
    case SAskUnlockFails(c, _) => IsUnlocking(s, c)
    case SReturnSession(c) => IsClosing(s, c)
    case SClose(e) => NoHolder(s, e)
    case SDropIdle(conn) => conn !in s.inUse
  }

  function Do(s: State, step: Step): State
    requires Enabled(s, step)
  {
    match step
    case SBegin(c, slot) => Begin(s, c, slot)
    case SCheck(c) => Check(s, c)
    case SConnect(c, conn) => Connect(s, c, conn)
    case SNoConnection(c) => NoConnection(s, c)
    case SAskLock(c) => AskLock(s, c)
    case SAskLockFails(c, executed) => AskLockFails(s, c, executed)
    case SStore(c) => StoreIt(s, c)
    case SRelease(c) => Release(s, c)
    case SAskUnlock(c) => AskUnlock(s, c)
    case SAskUnlockFails(c, executed) => AskUnlockFails(s, c, executed)
    case SReturnSession(c) => ReturnSession(s, c)
    case SClose(e) => Close(s, e)
    case SDropIdle(conn) => DropIdle(s, conn)
  }

  predicate Init(s: State) {
    s.entries == map[] && s.calls == map[] && s.inUse == map[] && s.held == map[] && !s.faulted
  }

  // ----- The invariant -----

  predicate HasConn(phase: Phase) {
    phase.Connected? || phase.Locked? || phase.Unlocking? || phase.Closing?
  }

  /** A session out of the pool has exactly one user. */
  ghost predicate SessionsExclusive(s: State) {
    && (forall slot :: slot in s.entries ==>
          s.entries[slot].conn in s.inUse && s.inUse[s.entries[slot].conn] == ByEntry(slot))
    && (forall c :: c in s.calls && HasConn(s.calls[c].phase) ==>
          s.calls[c].phase.conn in s.inUse && s.inUse[s.calls[c].phase.conn] == ByCall(c))
  }

  /** The session of an entry, or of a call between lock and unlock, owns the lock. */
  ghost predicate LocksOwned(s: State) {
    && (forall slot :: slot in s.entries ==>
          s.entries[slot].id == s.hash(slot.key) && Owns(s.held, s.entries[slot].conn, s.hash(slot.key)))
    && (forall c :: c in s.calls && s.calls[c].phase.Locked? ==>
          Owns(s.held, s.calls[c].phase.conn, s.hash(s.calls[c].slot.key)))
    && (forall c :: c in s.calls && s.calls[c].phase.Unlocking? ==>
          Owns(s.held, s.calls[c].phase.conn, s.calls[c].phase.id))
  }

  function Holders(s: State, slot: Slot): set<CallId> {
    set c | c in s.calls && s.calls[c] == Call(slot, Holding)
  }

  /** The reference count of an entry is the number of its holders, and never 0. */
  ghost predicate Counted(s: State) {
    && (forall slot :: slot in s.entries ==>
          s.entries[slot].refCount == |Holders(s, slot)| && Holders(s, slot) != {})
    && (forall c :: c in s.calls && s.calls[c].phase.Holding? ==> s.calls[c].slot in s.entries)
  }

  /** Who accounts for a lock that the server has granted. */
  predicate Accounts(s: State, id: int, user: User) {
    match user
    case ByEntry(slot) => slot in s.entries && s.hash(slot.key) == id
    case ByCall(c) =>
      && c in s.calls
      && ((s.calls[c].phase.Locked? && s.hash(s.calls[c].slot.key) == id)
          || (s.calls[c].phase.Unlocking? && s.calls[c].phase.id == id))
  }

  /** Until a failed query leaves its lock, every granted lock is taken once and is somebody's. */
  ghost predicate Tidy(s: State) {
    !s.faulted ==> forall id :: id in s.held ==>
      && s.held[id].count == 1
      && s.held[id].session in s.inUse
      && Accounts(s, id, s.inUse[s.held[id].session])
  }

  ghost predicate Inv(s: State) {
    SessionsExclusive(s) && LocksOwned(s) && Counted(s) && Tidy(s)
  }

  /** The second region never overwrites a live entry, although the first one ran long before. */
  lemma StoreIsFresh(s: State, c: CallId)
    requires SessionsExclusive(s) && LocksOwned(s) && IsLocked(s, c)
    ensures s.calls[c].slot !in s.entries
  {
    var slot := s.calls[c].slot;
    if slot in s.entries {
      assert false;
    }
  }

  /** Close finds nothing to unlock when its elector has no holder. */
  lemma EmptyOnClose(s: State, e: nat)
    requires Counted(s) && NoHolder(s, e)
    ensures Enabled(s, SClose(e)) && Close(s, e) == s
    ensures forall slot :: slot in s.entries ==> slot.elector != e
  {
    forall slot | slot in s.entries ensures slot.elector != e {
      var c :| c in Holders(s, slot);
    }
    assert Close(s, e).entries == s.entries;
  }

  ghost predicate Ownership(s: State) {
    SessionsExclusive(s) && LocksOwned(s) && Tidy(s)
  }

  lemma CheckKeeps(s: State, c: CallId)
    requires Ownership(s) && Is(s, c, Asked)
    ensures Ownership(Check(s, c))
  {
    var t := Check(s, c);
    assert t.held == s.held && t.inUse == s.inUse && t.entries.Keys == s.entries.Keys;
  }

  lemma StoreKeeps(s: State, c: CallId)
    requires Ownership(s) && IsLocked(s, c)
    ensures Ownership(StoreIt(s, c))
  {
    StoreIsFresh(s, c);
  }

  lemma ReleaseKeeps(s: State, c: CallId)
    requires Ownership(s) && Is(s, c, Holding)
    ensures Ownership(Release(s, c))
  {
    ReleaseKeepsTidy(s, c);
    hide Tidy;
    var t := Release(s, c);
    assert t.held == s.held && t.entries.Keys <= s.entries.Keys;
  }

  lemma ReleaseKeepsTidy(s: State, c: CallId)
    requires SessionsExclusive(s) && LocksOwned(s) && Tidy(s) && Is(s, c, Holding)
    ensures Tidy(Release(s, c))
  {
  }

  lemma AskLockKeeps(s: State, c: CallId)
    requires Ownership(s) && IsConnected(s, c)
    ensures Ownership(AskLock(s, c))
  {
  }

  lemma AskLockFailsKeeps(s: State, c: CallId, executed: bool)
    requires Ownership(s) && IsConnected(s, c)
    ensures Ownership(AskLockFails(s, c, executed))
  {
  }

  lemma AskUnlockKeeps(s: State, c: CallId)
    requires Ownership(s) && IsUnlocking(s, c)
    ensures Ownership(AskUnlock(s, c))
  {
  }

  lemma AskUnlockFailsKeeps(s: State, c: CallId, executed: bool)
    requires Ownership(s) && IsUnlocking(s, c)
    ensures Ownership(AskUnlockFails(s, c, executed))
  {
  }

  lemma PoolKeeps(s: State, step: Step)
    requires Ownership(s) && Enabled(s, step)
    requires step.SBegin? || step.SNoConnection? || step.SConnect? || step.SReturnSession? || step.SDropIdle?
    ensures Ownership(Do(s, step))
  {
  }

  lemma StepKeepsOwnership(s: State, step: Step)
    requires Inv(s) && Enabled(s, step)
    ensures Ownership(Do(s, step))
  {
    match step
    case SCheck(c) => CheckKeeps(s, c);
    case SStore(c) => StoreKeeps(s, c);
    case SRelease(c) => ReleaseKeeps(s, c);
    case SAskLock(c) => AskLockKeeps(s, c);
    case SAskLockFails(c, executed) => AskLockFailsKeeps(s, c, executed);
    case SAskUnlock(c) => AskUnlockKeeps(s, c);
    case SAskUnlockFails(c, executed) => AskUnlockFailsKeeps(s, c, executed);
    case SClose(e) => EmptyOnClose(s, e);
    case _ => PoolKeeps(s, step);
  }

  /** The holders of a slot after a step: a mutex region adds or removes its own caller. */
  function HoldersAfter(s: State, step: Step, slot: Slot): set<CallId>
    requires Enabled(s, step)
  {
    match step
    case SCheck(c) => if s.calls[c].slot == slot && slot in s.entries then Holders(s, slot) + {c} else Holders(s, slot)
    case SStore(c) => if s.calls[c].slot == slot then Holders(s, slot) + {c} else Holders(s, slot)
    case SRelease(c) => Holders(s, slot) - {c}
    case _ => Holders(s, slot)
  }

  lemma HoldersChange(s: State, step: Step, slot: Slot)
    requires Enabled(s, step)
    ensures Holders(Do(s, step), slot) == HoldersAfter(s, step, slot)
  {
  }

  lemma CountAfterCheck(s: State, c: CallId, slot: Slot)
    requires Counted(s) && Is(s, c, Asked) && slot in s.entries
    ensures Check(s, c).entries[slot].refCount == |HoldersAfter(s, SCheck(c), slot)|
    ensures HoldersAfter(s, SCheck(c), slot) != {}
  {
    assert c !in Holders(s, slot);
  }

  lemma CountAfterStore(s: State, c: CallId, slot: Slot)
    requires Inv(s) && IsLocked(s, c) && slot in StoreIt(s, c).entries
    ensures StoreIt(s, c).entries[slot].refCount == |HoldersAfter(s, SStore(c), slot)|
    ensures HoldersAfter(s, SStore(c), slot) != {}
  {
    StoreIsFresh(s, c);
    if slot == s.calls[c].slot {
      assert Holders(s, slot) == {};
    }
  }

  lemma CountAfterRelease(s: State, c: CallId, slot: Slot)
    requires Counted(s) && Is(s, c, Holding) && slot in Release(s, c).entries
    ensures Release(s, c).entries[slot].refCount == |HoldersAfter(s, SRelease(c), slot)|
    ensures HoldersAfter(s, SRelease(c), slot) != {}
  {
    if s.calls[c].slot == slot {
      assert c in Holders(s, slot) && |Holders(s, slot) - {c}| == |Holders(s, slot)| - 1;
    } else {
      assert Holders(s, slot) - {c} == Holders(s, slot);
    }
  }

  lemma CountAfter(s: State, step: Step, slot: Slot)
    requires Inv(s) && Enabled(s, step) && slot in Do(s, step).entries
    ensures Do(s, step).entries[slot].refCount == |HoldersAfter(s, step, slot)|
    ensures HoldersAfter(s, step, slot) != {}
  {
    hide SessionsExclusive, LocksOwned, Tidy, Holders;
    match step
    case SCheck(c) => CountAfterCheck(s, c, slot);
    case SStore(c) => CountAfterStore(s, c, slot);
    case SRelease(c) => CountAfterRelease(s, c, slot);
    case SClose(e) => EmptyOnClose(s, e);
    case _ => EntriesStay(s, step);
  }

  lemma EntriesStay(s: State, step: Step)
    requires Enabled(s, step) && !step.SCheck? && !step.SStore? && !step.SRelease? && !step.SClose?
    ensures Do(s, step).entries == s.entries
  {
  }

  lemma HolderHasEntry(s: State, step: Step, c: CallId)
    requires Inv(s) && Enabled(s, step)
    requires c in Do(s, step).calls && Do(s, step).calls[c].phase.Holding?
    ensures Do(s, step).calls[c].slot in Do(s, step).entries
  {
    hide SessionsExclusive, LocksOwned, Tidy;
    var slot := Do(s, step).calls[c].slot;
    HoldersChange(s, step, slot);
    assert c in HoldersAfter(s, step, slot);
    match step
    case SRelease(other) =>
      // c still holds the slot that `other` leaves, so `other` was not its last holder
      assert s.calls[other].slot == slot ==> {c, other} <= Holders(s, slot);
      if s.calls[other].slot == slot && s.entries[slot].refCount <= 1 {
        TwoElements(Holders(s, slot), c, other);
      }
    case SClose(e) => EmptyOnClose(s, e);
    case _ =>
  }

  lemma TwoElements(s: set<CallId>, a: CallId, b: CallId)
    requires {a, b} <= s && a != b
    ensures |s| >= 2
  {
    assert b in s - {a} && |s - {a}| == |s| - 1;
  }

  lemma StepKeepsInv(s: State, step: Step)
    requires Inv(s) && Enabled(s, step)
    ensures Inv(Do(s, step))
  {
    StepKeepsOwnership(s, step);
    var t := Do(s, step);
    forall slot | slot in t.entries
      ensures t.entries[slot].refCount == |Holders(t, slot)| && Holders(t, slot) != {}
    {
      CountAfter(s, step, slot);
      HoldersChange(s, step, slot);
    }
    forall c | c in t.calls && t.calls[c].phase.Holding?
      ensures t.calls[c].slot in t.entries
    {
      HolderHasEntry(s, step, c);
    }
  }

  // ----- Runs -----

  ghost predicate Run(states: seq<State>, steps: seq<Step>) {
    && |states| == |steps| + 1
    && Init(states[0])
    && forall i :: 0 <= i < |steps| ==> Enabled(states[i], steps[i]) && states[i + 1] == Do(states[i], steps[i])
  }

  lemma {:induction false} RunKeepsInv(states: seq<State>, steps: seq<Step>, i: nat)
    requires Run(states, steps) && i < |states|
    ensures Inv(states[i])
    decreases i
  {
    if i > 0 {
      RunKeepsInv(states, steps, i - 1);
      StepKeepsInv(states[i - 1], steps[i - 1]);
    }
  }

  /** Whoever holds one lock id at one time does so in the same elector and for the same key, even
      if queries failed before and pooled sessions kept their locks. */
  lemma HoldersShareSlot(states: seq<State>, steps: seq<Step>, i: nat, c: CallId, d: CallId)
    requires Run(states, steps) && i < |states|
    requires Is(states[i], c, Holding) && Is(states[i], d, Holding)
    requires states[i].hash(states[i].calls[c].slot.key) == states[i].hash(states[i].calls[d].slot.key)
    ensures states[i].calls[c].slot == states[i].calls[d].slot
  {
    RunKeepsInv(states, steps, i);
    SameIdSameSlot(states[i], states[i].calls[c].slot, states[i].calls[d].slot);
  }

  lemma SameIdSameSlot(s: State, a: Slot, b: Slot)
    requires Inv(s) && a in s.entries && b in s.entries && s.hash(a.key) == s.hash(b.key)
    ensures a == b
  {
    assert s.entries[a].conn == s.held[s.hash(a.key)].session == s.entries[b].conn;
  }

  /** While anybody holds, the entry's dedicated session owns the server's lock, and the entry
      counts exactly the holders. */
  lemma HolderIsBacked(states: seq<State>, steps: seq<Step>, i: nat, c: CallId)
    requires Run(states, steps) && i < |states| && Is(states[i], c, Holding)
    ensures var s, slot := states[i], states[i].calls[c].slot;
      && slot in s.entries
      && Owns(s.held, s.entries[slot].conn, s.hash(slot.key))
      && s.entries[slot].conn in s.inUse && s.inUse[s.entries[slot].conn] == ByEntry(slot)
      && s.entries[slot].refCount == |Holders(s, slot)|
  {
    RunKeepsInv(states, steps, i);
  }

  /** When no failed query has left its lock and no call is under way, no lock is left behind. */
  lemma NothingLeaks(states: seq<State>, steps: seq<Step>, i: nat)
    requires Run(states, steps) && i < |states|
    requires !states[i].faulted && states[i].calls == map[]
    ensures states[i].held == map[] && states[i].entries == map[]
  {
    RunKeepsInv(states, steps, i);
    var s := states[i];
    forall slot ensures slot !in s.entries {
      if slot in s.entries {
        assert false;
      }
    }
    forall id ensures id !in s.held {
      if id in s.held {
        assert false;
      }
    }
  }

  // ----- What failed queries leave behind -----

  /** The leftovers of one lock after a step, when there were `n`: a lock query that was granted and yet
      reported a failure, and an unlock query that was never executed, leave one more; when the pool
      closes the session that has them, all are gone. */
  function LeakedAfter(n: nat, s: State, step: Step, id: int): nat
    requires Enabled(s, step)
  {
    match step
    case SAskLockFails(c, executed) =>
      if executed && s.hash(s.calls[c].slot.key) == id && CanLock(s.held, s.calls[c].phase.conn, id) then n + 1 else n
    case SAskUnlockFails(c, executed) => if !executed && s.calls[c].phase.id == id then n + 1 else n
    case SDropIdle(conn) => if Owns(s.held, conn, id) then 0 else n
    case _ => n
  }

  function Leaked(states: seq<State>, steps: seq<Step>, i: nat, id: int): nat
    requires Run(states, steps) && i < |states|
  {
    if i == 0 then 0 else LeakedAfter(Leaked(states, steps, i - 1, id), states[i - 1], steps[i - 1], id)
  }

  /** Some entry, or some call between lock and unlock, has the lock now. */
  predicate InHands(s: State, id: int) {
    id in s.held && s.held[id].session in s.inUse && Accounts(s, id, s.inUse[s.held[id].session])
  }

  /** The server's count of a lock is what was left behind, and one more while it is in use. */
  predicate Balanced(s: State, id: int, leaked: nat) {
    && (id in s.held ==> s.held[id].count > 0)
    && (if id in s.held then s.held[id].count else 0) == leaked + (if InHands(s, id) then 1 else 0)
  }

  /** A query of the call that has the session, or a session the pool closes. */
  predicate ChangesLocks(step: Step) {
    step.SAskLock? || step.SAskLockFails? || step.SAskUnlock? || step.SAskUnlockFails? || step.SDropIdle?
  }

  lemma QueryBalances(s: State, step: Step, id: int, leaked: nat)
    requires SessionsExclusive(s) && LocksOwned(s) && Enabled(s, step) && ChangesLocks(step)
    requires Balanced(s, id, leaked)
    ensures Balanced(Do(s, step), id, LeakedAfter(leaked, s, step, id))
  {
  }

  /** Store hands the lock from a call to its entry, and the last Release hands it back. */
  lemma RegionHands(s: State, step: Step, id: int)
    requires SessionsExclusive(s) && LocksOwned(s) && Enabled(s, step) && (step.SStore? || step.SRelease?)
    ensures InHands(Do(s, step), id) == InHands(s, id)
  {
    if step.SStore? {
      StoreIsFresh(s, step.c);
    }
  }

  lemma OtherHands(s: State, step: Step, id: int)
    requires SessionsExclusive(s) && Enabled(s, step)
    requires !ChangesLocks(step) && !step.SStore? && !step.SRelease? && !step.SClose?
    ensures InHands(Do(s, step), id) == InHands(s, id)
  {
  }

  lemma HandsStay(s: State, step: Step, id: int)
    requires Inv(s) && Enabled(s, step) && !ChangesLocks(step)
    ensures Do(s, step).held == s.held && InHands(Do(s, step), id) == InHands(s, id)
  {
    hide InHands, SessionsExclusive, LocksOwned, Counted, Tidy;
    match step
    case SStore(_) => RegionHands(s, step, id);
    case SRelease(_) => RegionHands(s, step, id);
    case SClose(e) => EmptyOnClose(s, e);
    case _ => OtherHands(s, step, id);
  }

  lemma StepBalances(s: State, step: Step, id: int, leaked: nat)
    requires Inv(s) && Enabled(s, step) && Balanced(s, id, leaked)
    ensures Balanced(Do(s, step), id, LeakedAfter(leaked, s, step, id))
  {
    if ChangesLocks(step) {
      QueryBalances(s, step, id, leaked);
    } else {
      HandsStay(s, step, id);
      hide Inv, InHands, Do;
    }
  }

  /** At every moment of every run. */
  lemma {:induction false} LockCounts(states: seq<State>, steps: seq<Step>, i: nat, id: int)
    requires Run(states, steps) && i < |states|
    ensures Balanced(states[i], id, Leaked(states, steps, i, id))
    decreases i
  {
    if i > 0 {
      LockCounts(states, steps, i - 1, id);
      RunKeepsInv(states, steps, i - 1);
      StepBalances(states[i - 1], steps[i - 1], id, Leaked(states, steps, i - 1, id));
    }
  }

  /** When no call is under way no elector has an entry, and the server still holds a lock exactly when
      failed queries have left it, as often as they did. */
  lemma LeaksExactly(states: seq<State>, steps: seq<Step>, i: nat, id: int)
    requires Run(states, steps) && i < |states| && states[i].calls == map[]
    ensures states[i].entries == map[]
    ensures id in states[i].held <==> Leaked(states, steps, i, id) > 0
    ensures id in states[i].held ==> states[i].held[id].count == Leaked(states, steps, i, id)
  {
    var s := states[i];
    LockCounts(states, steps, i, id);
    RunKeepsInv(states, steps, i);
    forall slot ensures slot !in s.entries {
      if slot in s.entries {
        assert false;
      }
    }
    assert !InHands(s, id);
  }

  /** One more step of a run. */
  lemma Next(states: seq<State>, steps: seq<Step>, step: Step) returns (longer: seq<State>, more: seq<Step>)
    requires Run(states, steps) && Enabled(states[|steps|], step)
    ensures Run(longer, more) && more == steps + [step]
    ensures longer == states + [Do(states[|steps|], step)]
  {
    longer, more := states + [Do(states[|steps|], step)], steps + [step];
  }

  /** Such a run: a lock query is granted but reports a failure, and TryAcquire returns. No call is
      under way then, and still no other session can take the lock, until the pool closes that one. */
  lemma LockLeaks(s: State, slot: Slot, conn: Session) returns (states: seq<State>, steps: seq<Step>)
    requires Init(s)
    ensures Run(states, steps) && states[0] == s
    ensures steps ==
      [SBegin(0, slot), SCheck(0), SConnect(0, conn), SAskLockFails(0, true), SReturnSession(0)]
    ensures states[5].calls == map[] && states[5].inUse == map[]
    ensures forall other :: CanLock(states[5].held, other, s.hash(slot.key)) <==> other == conn
    ensures Enabled(states[5], SDropIdle(conn)) && Do(states[5], SDropIdle(conn)).held == map[]
  {
    states, steps := [s], [];
    states, steps := Next(states, steps, SBegin(0, slot));
    states, steps := Next(states, steps, SCheck(0));
    states, steps := Next(states, steps, SConnect(0, conn));
    states, steps := Next(states, steps, SAskLockFails(0, true));
    states, steps := Next(states, steps, SReturnSession(0));
  }

  // ----- Closing an elector that still has a holder -----

  /** What Close does to one entry, whether or not somebody holds it. */
  function CloseEntry(s: State, slot: Slot): State
    requires slot in s.entries
  {
    var entry := s.entries[slot];
    s.(entries := s.entries - {slot}, held := Unlock(s.held, entry.conn, entry.id), inUse := s.inUse - {entry.conn})
  }

  /** At the id of one entry, PgLeaderElector's method does to the server what CloseEntry says: no other
      entry of the elector has that id. */
  lemma CloseUnlocksEach(s: State, slot: Slot)
    requires Inv(s) && slot in s.entries
    ensures var locks := MapOf(s.entries, slot.elector);
      Spent(s.held, locks, locks.Keys, {}, s.entries[slot].id) == Lookup(CloseEntry(s, slot).held, s.entries[slot].id)
  {
    var locks, entry := MapOf(s.entries, slot.elector), s.entries[slot];
    forall key | key in Freeing(locks, locks.Keys, {}, entry.conn, entry.id) ensures key == slot.key {
      SameIdSameSlot(s, Slot(slot.elector, key), slot);
    }
    assert locks[slot.key] == entry;
    assert Freeing(locks, locks.Keys, {}, entry.conn, entry.id) == {slot.key};
  }

  /** The precondition of Close is exact: every entry it would find has a holder, and all its holders are
      then left without an entry, and without the lock when that was taken once. */
  lemma CloseOrphansHolder(s: State, slot: Slot)
    requires Inv(s) && slot in s.entries
    ensures !NoHolder(s, slot.elector) && !Inv(CloseEntry(s, slot))
    ensures var t := CloseEntry(s, slot);
      && Holders(t, slot) == Holders(s, slot) != {}
      && slot !in t.entries
      && (s.hash(slot.key) in t.held <==> s.held[s.hash(slot.key)].count > 1)
  {
    var c :| c in Holders(s, slot);
    assert c in CloseEntry(s, slot).calls;
    assert Holders(CloseEntry(s, slot), slot) == Holders(s, slot);
  }

  /** The five steps by which a caller acquires a lock that its session may have. */
  function Acquire(s: State, c: CallId, slot: Slot, conn: Session): State
    requires c !in s.calls && slot !in s.entries && conn !in s.inUse && CanLock(s.held, conn, s.hash(slot.key))
  {
    StoreIt(AskLock(Connect(Check(Begin(s, c, slot), c), c, conn), c), c)
  }

  /** Whoever holds when Close comes, any other caller may then acquire the same lock, in whatever elector
      and beside the holder: through every free session when the server had counted the lock once, as it
      always has without faults, and else through the very session that Close gave back. */
  lemma CloseBreaksExclusion(s: State, c: CallId, slot: Slot, d: CallId, e: nat, conn: Session)
    requires Inv(s) && c in s.calls && s.calls[c] == Call(slot, Holding) && d !in s.calls
    requires conn !in CloseEntry(s, slot).inUse
    ensures var t, id := CloseEntry(s, slot), s.hash(slot.key);
      && Slot(e, slot.key) !in t.entries
      && (!s.faulted ==> s.held[id].count == 1)
      && (CanLock(t.held, conn, id) <==> s.held[id].count <= 1 || conn == s.entries[slot].conn)
      && (CanLock(t.held, conn, id) ==>
            var u := Acquire(t, d, Slot(e, slot.key), conn);
            u.calls[c] == Call(slot, Holding) && u.calls[d] == Call(Slot(e, slot.key), Holding))
  {
    if Slot(e, slot.key) in s.entries {
      SameIdSameSlot(s, Slot(e, slot.key), slot);
    }
  }

  // ----- TryAcquire and Release as their callers run them -----

  datatype Outcome = Acquired | NotAcquired | Failed

  /** The steps TryAcquire takes, by what it reports. */
  predicate TryPath(path: seq<Step>, c: CallId, slot: Slot, r: Outcome) {
    && |path| >= 2 && path[..2] == [SBegin(c, slot), SCheck(c)]
    && (path[2..] == [] ==> r == Acquired)
    && (path[2..] != [] ==> NewPath(path[2..], c, r))
  }

  predicate NewPath(path: seq<Step>, c: CallId, r: Outcome) {
    || (r == Failed && path == [SNoConnection(c)])
    || (path != [] && path[0].SConnect? && path[0].c == c && AskPath(path[1..], c, r))
  }

  predicate AskPath(path: seq<Step>, c: CallId, r: Outcome) {
    match r
    case Acquired => path == [SAskLock(c), SStore(c)]
    case NotAcquired => path == [SAskLock(c), SReturnSession(c)]
    case Failed => |path| == 2 && path[0].SAskLockFails? && path[0].c == c && path[1] == SReturnSession(c)
  }

  /** The steps Release takes: it asks the server only when it dropped the last reference. */
  predicate ReleasePath(path: seq<Step>, c: CallId, failed: bool) {
    && path != [] && path[0] == SRelease(c)
    && (|path| == 1 ==> !failed)
    && (|path| > 1 ==>
          && |path| == 3 && path[2] == SReturnSession(c)
          && if failed then path[1].SAskUnlockFails? && path[1].c == c else path[1] == SAskUnlock(c))
  }

  /** The shared state, with methods that take one caller through the code while the others go on. */
  class Cluster {
    var state: State
    /** What the others do between one atomic step of a caller and its next: any steps at all. */
    const schedule: nat -> seq<Step>
    var turn: nat
    /** The steps taken by the methods below. */
    ghost var path: seq<Step>

    constructor (hash: Key -> int, schedule: nat -> seq<Step>)
      ensures Init(state) && this.schedule == schedule && path == []
    {
      state, turn, path := State(map[], map[], map[], map[], false, hash), 0, [];
      this.schedule := schedule;
    }

    /** The next scheduled steps of anybody but `c`. */
    method Others(c: CallId)
      requires Inv(state)
      modifies this
      ensures Inv(state) && path == old(path)
      ensures c in state.calls <==> c in old(state).calls
      ensures c in state.calls ==> state.calls[c] == old(state).calls[c]
    {
      var steps := schedule(turn);
      turn := turn + 1;
      for i := 0 to |steps|
        invariant Inv(state) && path == old(path)
        invariant c in state.calls <==> c in old(state).calls
        invariant c in state.calls ==> state.calls[c] == old(state).calls[c]
      {
        if Enabled(state, steps[i]) && !By(steps[i], c) {
          StepKeepsInv(state, steps[i]);
          state := Do(state, steps[i]);
        }
      }
    }

    method Take(c: CallId, step: Step)
      requires Inv(state) && Enabled(state, step) && By(step, c)
      modifies this
      ensures Inv(state) && path == old(path) + [step]
      ensures c in state.calls <==> c in Do(old(state), step).calls
      ensures c in state.calls ==> state.calls[c] == Do(old(state), step).calls[c]
    {
      StepKeepsInv(state, step);
      state := Do(state, step);
      path := path + [step];
      Others(c);
    }

    method TryAcquire(c: CallId, slot: Slot) returns (r: Outcome, ghost steps: seq<Step>)
      requires Inv(state) && c !in state.calls
      modifies this
      ensures Inv(state)
      ensures r == Acquired ==> Is(state, c, Holding) && state.calls[c].slot == slot
      ensures r != Acquired ==> c !in state.calls
      ensures path == old(path) + steps && TryPath(steps, c, slot, r)
    {
      hide Inv;
      Take(c, SBegin(c, slot));
      var held := slot in state.entries;
      Take(c, SCheck(c));
      steps := [SBegin(c, slot), SCheck(c)];
      assert path == old(path) + steps;
      if held {
        return Acquired, steps;
      }
      ghost var more;
      r, more := AcquireNew(c);
      assert (steps + more)[2..] == more;
      steps := steps + more;
    }

    /** TryAcquire from the pool's hand-out on. */
    method AcquireNew(c: CallId) returns (r: Outcome, ghost steps: seq<Step>)
      requires Inv(state) && Is(state, c, Missed)
      modifies this
      ensures Inv(state)
      ensures r == Acquired ==> Is(state, c, Holding) && state.calls[c].slot == old(state).calls[c].slot
      ensures r != Acquired ==> c !in state.calls
      ensures path == old(path) + steps && steps != [] && NewPath(steps, c, r)
    {
      hide Inv;
      var conn: int :| 0 <= conn;
      if conn in state.inUse {
        Take(c, SNoConnection(c));
        return Failed, [SNoConnection(c)];
      }
      Take(c, SConnect(c, conn));
      ghost var more;
      r, more := AskForLock(c);
      steps := [SConnect(c, conn)] + more;
    }

    method AskForLock(c: CallId) returns (r: Outcome, ghost steps: seq<Step>)
      requires Inv(state) && IsConnected(state, c)
      modifies this
      ensures Inv(state)
      ensures r == Acquired ==> Is(state, c, Holding) && state.calls[c].slot == old(state).calls[c].slot
      ensures r != Acquired ==> c !in state.calls
      ensures path == old(path) + steps && AskPath(steps, c, r)
    {
      hide Inv;
      if * {
        var executed: bool :| true;
        Take(c, SAskLockFails(c, executed));
        Take(c, SReturnSession(c));
        return Failed, [SAskLockFails(c, executed), SReturnSession(c)];
      }
      Take(c, SAskLock(c));
      if state.calls[c].phase.Closing? {
        Take(c, SReturnSession(c));
        return NotAcquired, [SAskLock(c), SReturnSession(c)];
      }
      Take(c, SStore(c));
      return Acquired, [SAskLock(c), SStore(c)];
    }

    method Release(c: CallId) returns (failed: bool, ghost steps: seq<Step>)
      requires Inv(state) && Is(state, c, Holding)
      modifies this
      ensures Inv(state) && c !in state.calls
      ensures path == old(path) + steps && ReleasePath(steps, c, failed)
    {
      hide Inv;
      Take(c, SRelease(c));
      if c !in state.calls {
        return false, [SRelease(c)];
      }
      if * {
        var executed: bool :| true;
        Take(c, SAskUnlockFails(c, executed));
        failed, steps := true, [SRelease(c), SAskUnlockFails(c, executed), SReturnSession(c)];
      } else {
        Take(c, SAskUnlock(c));
        failed, steps := false, [SRelease(c), SAskUnlock(c), SReturnSession(c)];
      }
      Take(c, SReturnSession(c));
    }
  }
}
