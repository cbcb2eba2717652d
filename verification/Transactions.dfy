/** A PostgreSQL transaction with savepoints, and the transaction manager that drives it. */
module Transactions {
  import opened Options
  import opened NestedTransactions

  datatype Savepoint = Mark(name: nat, snapshot: Db)

  /** The most recent savepoint of that name; an older one of the same name is hidden. */
  function Latest(stack: seq<Savepoint>, name: nat): (i: Option<nat>)
    ensures i.Some? ==> i.value < |stack| && stack[i.value].name == name
    ensures i.Some? ==> forall j :: i.value < j < |stack| ==> stack[j].name != name
    ensures i.None? ==> forall j :: 0 <= j < |stack| ==> stack[j].name != name
  {
    if stack == [] then None
    else if stack[|stack| - 1].name == name then Some(|stack| - 1)
    else Latest(stack[..|stack| - 1], name)
  }

  class Database {
    var data: Db
    /** What deferred constraints let COMMIT make permanent. */
    const accepts: Db -> bool

    constructor (data: Db, accepts: Db -> bool)
      ensures this.data == data && this.accepts == accepts
    {
      this.data, this.accepts := data, accepts;
    }
  }

  /** One open transaction. After a failed statement it is aborted: the server then refuses every
      statement but ROLLBACK and ROLLBACK TO. */
  class Tx {
    const db: Database
    var work: Db
    var stack: seq<Savepoint>
    var aborted: bool

    constructor Begin(db: Database)
      ensures this.db == db && work == db.data && stack == [] && !aborted
    {
      this.db, work, stack, aborted := db, db.data, [], false;
    }

    method Exec(run: Statement) returns (ok: bool)
      modifies this
      ensures stack == old(stack)
      ensures ok == (!old(aborted) && run(old(work)).Some?)
      ensures aborted == !ok
      ensures work == if ok then run(old(work)).value else old(work)
    {
      ok := !aborted && run(work).Some?;
      if ok {
        work := run(work).value;
      } else {
        aborted := true;
      }
    }

    method Query(test: Db -> bool) returns (answer: Option<bool>)
      ensures answer == if aborted then None else Some(test(work))
    {
      answer := if aborted then None else Some(test(work));
    }

    method Savepoint(name: nat) returns (ok: bool)
      modifies `stack
      ensures ok == !aborted
      ensures stack == if ok then old(stack) + [Mark(name, work)] else old(stack)
    {
      ok := !aborted;
      if ok {
        stack := stack + [Mark(name, work)];
      }
    }

    /** Later savepoints go, the named one stays. */
    method RollbackTo(name: nat) returns (ok: bool)
      modifies this
      ensures var at := Latest(old(stack), name);
        && ok == at.Some?
        && (ok ==> work == old(stack)[at.value].snapshot && !aborted && stack == old(stack)[..at.value + 1])
        && (!ok ==> aborted && work == old(work) && stack == old(stack))
    {
      var at := Latest(stack, name);
      ok := at.Some?;
      if ok {
        work, aborted, stack := stack[at.value].snapshot, false, stack[..at.value + 1];
      } else {
        aborted := true;
      }
    }

    /** The named savepoint goes, and every later one. */
    method Release(name: nat) returns (ok: bool)
      modifies `stack, `aborted
      ensures var at := Latest(old(stack), name);
        && ok == (!old(aborted) && at.Some?)
        && (ok ==> stack == old(stack)[..at.value] && !aborted)
        && (!ok ==> stack == old(stack) && aborted)
    {
      var at := Latest(stack, name);
      ok := !aborted && at.Some?;
      if ok {
        stack := stack[..at.value];
      } else {
        aborted := true;
      }
    }

    method Commit() returns (ok: bool)
      modifies db
      ensures ok == (!aborted && db.accepts(work))
      ensures db.data == if ok then work else old(db.data)
    {
      ok := !aborted && db.accepts(work);
      if ok {
        db.data := work;
      }
    }
  }

  /** The process-wide savepoint counter. Other transactions bump it too, at any time. */
  class SavepointCounter {
    var value: nat

    method Add() returns (n: nat)
      modifies this
      ensures old(value) < n == value
    {
      var byOthers: int :| 0 <= byOthers;
      value := value + byOthers + 1;
      n := value;
    }
  }

  ghost predicate Increasing(stack: seq<Savepoint>, bound: nat) {
    && (forall i, j :: 0 <= i < j < |stack| ==> stack[i].name < stack[j].name)
    && (forall i :: 0 <= i < |stack| ==> stack[i].name <= bound)
  }

  /** Whatever a block's callback left on the stack, the name of the block's own savepoint (the
      last one on entry) still means that savepoint: no leftover hides it. */
  lemma OwnSavepoint(entry: seq<Savepoint>, now: seq<Savepoint>, bound: nat)
    requires entry != [] && entry <= now && Increasing(now, bound)
    ensures Latest(now, entry[|entry| - 1].name) == Some(|entry| - 1)
  {
    var own := |entry| - 1;
    assert now[own] == entry[own];
  }

  /** What a context carries: the transaction it is inside of, if any. */
  datatype Context = Context(tx: Option<Tx>)

  class TxMgr {
    const db: Database
    const globalSpID: SavepointCounter

    constructor (db: Database, globalSpID: SavepointCounter)
      ensures this.db == db && this.globalSpID == globalSpID
    {
      this.db, this.globalSpID := db, globalSpID;
    }

    /** The callback, run with a context that carries `tx`, which all its statements use. */
    method Callback(p: Program, tx: Tx) returns (err: bool)
      requires Increasing(tx.stack, globalSpID.value)
      modifies tx, globalSpID, db
      ensures db.data == old(db.data)
      ensures Result(tx.work, tx.aborted, err) == Eval(p, old(tx.work), old(tx.aborted))
      ensures old(globalSpID.value) <= globalSpID.value && Increasing(tx.stack, globalSpID.value)
      ensures old(tx.stack) <= tx.stack
      decreases p, 0
    {
      match p
      case Return(e) =>
        err := e;
      case Exec(run, onOk, onErr) =>
        var ok := tx.Exec(run);
        err := Callback(if ok then onOk else onErr, tx);
      case Query(test, yes, no, onErr) =>
        var answer := tx.Query(test);
        err := Callback(if answer.None? then onErr else if answer.value then yes else no, tx);
      case RunInTx(body, onOk, onErr) =>
        var failed := RunInTx(Context(Some(tx)), body, true);
        err := Callback(if failed then onErr else onOk, tx);
    }

    /** A nested block. It leaves the savepoint stack as it found it when it reports success, and
        one stale savepoint when its callback failed. */
    method RunSavepoint(body: Program, tx: Tx) returns (err: bool)
      requires Increasing(tx.stack, globalSpID.value)
      modifies tx, globalSpID, db
      ensures db.data == old(db.data)
      ensures Result(tx.work, tx.aborted, err) == EvalBlock(body, old(tx.work), old(tx.aborted))
      ensures old(globalSpID.value) <= globalSpID.value && Increasing(tx.stack, globalSpID.value)
      ensures old(tx.stack) <= tx.stack
      ensures !err || old(tx.aborted) ==> tx.stack == old(tx.stack)
      ensures err && !tx.aborted ==>
        |tx.stack| == |old(tx.stack)| + 1 && tx.stack[|old(tx.stack)|].snapshot == old(tx.work)
      decreases body, 1
    {
      hide Eval, Latest;
      var sp := globalSpID.Add();
      var begun := tx.Savepoint(sp);
      if !begun {
        return true;
      }
      ghost var entry := tx.stack;
      err := Callback(body, tx);
      OwnSavepoint(entry, tx.stack, globalSpID.value);
      if err {
        var undone := tx.RollbackTo(sp);
        assert undone && tx.stack == entry;
        return true;
      }
      var released := tx.Release(sp);
      assert released ==> tx.stack == old(tx.stack);
      return !released;
    }

    /** The outermost block. `begun`: whether the pool could start a transaction. */
    method RunNewTx(p: Program, begun: bool) returns (err: bool)
      modifies db, globalSpID
      ensures var r := Eval(p, old(db.data), false);
        && err == !(begun && !r.err && !r.doomed && db.accepts(r.db))
        && db.data == if err then old(db.data) else r.db
      ensures var journal := Trace(p, old(db.data), false);
        && err == !(begun && !Returned(journal) && Clean(journal) && db.accepts(Kept(journal, old(db.data))))
        && (Clean(journal) ==> Apply(Survivors(journal), old(db.data)) == Some(Kept(journal, old(db.data))))
        && db.data == if err then old(db.data) else Kept(journal, old(db.data))
      decreases p, 1
    {
      JournalTheorem(p, db.data);
      if !begun {
        return true;
      }
      var tx := new Tx.Begin(db);
      err := Callback(p, tx);
      if err {
        return true; // ROLLBACK drops the transaction, and nothing was committed
      }
      var committed := tx.Commit();
      err := !committed;
    }

    /** A root of plain statements is all or nothing, and its callback's error undoes it. */
    method RunStatements(statements: seq<Statement>, e: bool, begun: bool) returns (err: bool)
      modifies db, globalSpID
      ensures var done := Apply(statements, old(db.data));
        && err == !(begun && !e && done.Some? && db.accepts(done.value))
        && db.data == if err then old(db.data) else done.value
    {
      StraightRuns(statements, e, db.data);
      err := RunNewTx(Straight(statements, e), begun);
    }

    /** So is a nested block of plain statements; its transaction goes on either way. */
    method RunNestedStatements(statements: seq<Statement>, e: bool, tx: Tx) returns (err: bool)
      requires Increasing(tx.stack, globalSpID.value)
      modifies tx, globalSpID, db
      ensures db.data == old(db.data)
      ensures old(tx.aborted) ==> err && tx.aborted && tx.work == old(tx.work)
      ensures !old(tx.aborted) ==>
        var done := Apply(statements, old(tx.work));
        && err == (e || done == None) && !tx.aborted
        && tx.work == if err then old(tx.work) else done.value
    {
      StraightRuns(statements, e, tx.work);
      err := RunSavepoint(Straight(statements, e), tx);
    }

    /** A root that goes on after failed blocks commits the blocks that worked out. */
    method RunBatches(batches: seq<Batch>, begun: bool) returns (err: bool)
      modifies db, globalSpID
      ensures err == !(begun && db.accepts(Successful(batches, old(db.data))))
      ensures db.data == if err then old(db.data) else Successful(batches, old(db.data))
    {
      BatchesRun(batches, db.data);
      err := RunNewTx(Batches(batches), begun);
    }

    /** Inside a transaction a savepoint, otherwise a new transaction. */
    method RunInTx(ctx: Context, p: Program, begun: bool) returns (err: bool)
      requires ctx.tx.Some? ==> Increasing(ctx.tx.value.stack, globalSpID.value)
      modifies db, globalSpID, if ctx.tx.Some? then {ctx.tx.value} else {}
      ensures ctx.tx.None? ==>
        var journal := Trace(p, old(db.data), false);
        && err == !(begun && !Returned(journal) && Clean(journal) && db.accepts(Kept(journal, old(db.data))))
        && db.data == if err then old(db.data) else Kept(journal, old(db.data))
      ensures ctx.tx.Some? ==>
        var tx := ctx.tx.value;
        && db.data == old(db.data)
        && Result(tx.work, tx.aborted, err) == EvalBlock(p, old(tx.work), old(tx.aborted))
        && old(tx.stack) <= tx.stack && (!err ==> tx.stack == old(tx.stack))
        && Increasing(tx.stack, globalSpID.value) && old(globalSpID.value) <= globalSpID.value
      ensures ctx.tx.Some? && !old(ctx.tx.value.aborted) ==>
        var tx, journal := ctx.tx.value, Trace(p, old(ctx.tx.value.work), false);
        && err == (Returned(journal) || !Clean(journal))
        && tx.aborted == (!Returned(journal) && !Clean(journal))
        && (!tx.aborted ==> tx.work == if err then old(tx.work) else Kept(journal, old(tx.work)))
      decreases p, 2
    {
      match ctx.tx
      case Some(tx) =>
        JournalTheorem(p, tx.work);
        err := RunSavepoint(p, tx);
      case None => err := RunNewTx(p, begun);
    }
  }
}
