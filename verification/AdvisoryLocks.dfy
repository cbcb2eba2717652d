/** PostgreSQL session-level advisory locks: each lock belongs to one session, which may take it
    again and then has to give it back as many times. */
module AdvisoryLocks {
  type Session = nat

  datatype Hold = Hold(session: Session, count: nat)
  type Locks = map<int, Hold>

  predicate Owns(held: Locks, s: Session, id: int) {
    id in held && held[id].session == s
  }

  predicate CanLock(held: Locks, s: Session, id: int) {
    id !in held || held[id].session == s
  }

  /** pg_try_advisory_lock */
  function TryLock(held: Locks, s: Session, id: int): Locks {
    if id !in held then held[id := Hold(s, 1)]
    else if held[id].session == s then held[id := Hold(s, held[id].count + 1)]
    else held
  }

  /** pg_advisory_unlock */
  function Unlock(held: Locks, s: Session, id: int): Locks {
    if !Owns(held, s, id) then held
    else if held[id].count <= 1 then held - {id}
    else held[id := Hold(s, held[id].count - 1)]
  }
}
