/**
 Nested transactions: callbacks as programs, and what a nest of RunInTx blocks means
 without any savepoint.
 */
module NestedTransactions {
  import opened Options

  /** The contents of the database. */
  type Db = map<string, string>

  /** A statement computes the next contents, or the server rejects it. */
  type Statement = Db -> Option<Db>

  /** A callback, as the tree of choices it makes on what the server answers. After any
      error (of a statement, a query or a nested block) it may go on as it likes, so it may
      swallow the error or return it. */
  datatype Program =
    | Return(err: bool)
    | Exec(run: Statement, onOk: Program, onErr: Program)
    | Query(test: Db -> bool, yes: Program, no: Program, onErr: Program)
    | RunInTx(body: Program, onOk: Program, onErr: Program)

  /** `doomed`: a statement of this block failed and no rollback has undone it, so every further
      statement of the block fails too. */
  datatype Result = Result(db: Db, doomed: bool, err: bool)

  /** What a callback does to the contents. */
  function Eval(p: Program, db: Db, doomed: bool): Result
    decreases p, 0
  {
    match p
    case Return(err) => Result(db, doomed, err)
    case Exec(run, onOk, onErr) =>
      if doomed then Eval(onErr, db, true) else
      (match run(db)
       case Some(next) => Eval(onOk, next, false)
       case None => Eval(onErr, db, true))
    case Query(test, yes, no, onErr) =>
      if doomed then Eval(onErr, db, true)
      else if test(db) then Eval(yes, db, false)
      else Eval(no, db, false)
    case RunInTx(body, onOk, onErr) =>
      var block := EvalBlock(body, db, doomed);
      if block.err then Eval(onErr, block.db, block.doomed) else Eval(onOk, block.db, block.doomed)
  }

  /** A nested block is all or nothing: on an error of its callback it contributes nothing, and
      it reports an error when its callback hid a failed statement. */
  function EvalBlock(body: Program, db: Db, doomed: bool): Result
    decreases body, 1
  {
    if doomed then Result(db, true, true) else
    var inner := Eval(body, db, false);
    if inner.err then Result(db, false, true) else Result(inner.db, inner.doomed, inner.doomed)
  }

  /** The journal of a run: what was written, what was refused, the nested blocks, and whether the
      callback returned an error in the end. */
  datatype Journal =
    | End(err: bool)
    | Wrote(run: Statement, rest: Journal)
    | Refused(rest: Journal)
    | Block(inside: Journal, rest: Journal)

  /** Whether the callback returned an error. */
  predicate Returned(j: Journal) {
    match j
    case End(err) => err
    case Wrote(_, rest) => Returned(rest)
    case Refused(rest) => Returned(rest)
    case Block(_, rest) => Returned(rest)
  }

  /** No refusal outside the blocks whose callbacks returned an error, which were rolled back. */
  predicate Clean(j: Journal) {
    match j
    case End(_) => true
    case Wrote(_, rest) => Clean(rest)
    case Refused(_) => false
    case Block(inside, rest) => (Returned(inside) || Clean(inside)) && Clean(rest)
  }

  /** The writes in no block whose callback returned an error, in the order they were made. */
  function Survivors(j: Journal): seq<Statement> {
    match j
    case End(_) => []
    case Wrote(run, rest) => [run] + Survivors(rest)
    case Refused(rest) => Survivors(rest)
    case Block(inside, rest) => (if Returned(inside) then [] else Survivors(inside)) + Survivors(rest)
  }

  /** What the surviving writes make of the contents. */
  function Kept(j: Journal, db: Db): Db {
    match Apply(Survivors(j), db) case Some(next) => next case None => db
  }

  /** The journal of a callback, from the server's answers and the journals of its nested blocks alone. */
  function Trace(p: Program, db: Db, doomed: bool): Journal {
    match p
    case Return(err) => End(err)
    case Exec(run, onOk, onErr) =>
      if doomed || run(db).None? then Refused(Trace(onErr, db, true))
      else Wrote(run, Trace(onOk, run(db).value, false))
    case Query(test, yes, no, onErr) =>
      if doomed then Refused(Trace(onErr, db, true))
      else Trace(if test(db) then yes else no, db, false)
    case RunInTx(body, onOk, onErr) =>
      if doomed then Refused(Trace(onErr, db, true))
      else
        var inside := Trace(body, db, false);
        Block(inside,
              if Returned(inside) then Trace(onErr, db, false)
              else if Clean(inside) then Trace(onOk, Kept(inside, db), false)
              else Trace(onErr, db, true))
  }

  /** Applies statements one after another; None when one of them is refused. */
  function Apply(statements: seq<Statement>, db: Db): Option<Db> {
    if statements == [] then Some(db) else
    match statements[0](db)
    case None => None
    case Some(next) => Apply(statements[1..], next)
  }

  lemma {:induction false} ApplyConcat(a: seq<Statement>, b: seq<Statement>, db: Db)
    ensures Apply(a + b, db) ==
      match Apply(a, db) { case None => None case Some(mid) => Apply(b, mid) }
  {
    if a == [] {
      assert a + b == b;
    } else {
      assert (a + b)[1..] == a[1..] + b;
      match a[0](db)
      case None =>
      case Some(next) => ApplyConcat(a[1..], b, next);
    }
  }

  /** Once a statement of a block has failed, nothing the block does can hide it or write; `other`:
      the contents do not matter any more. */
  lemma {:induction false} DoomedStaysDoomed(p: Program, db: Db, other: Db)
    ensures Eval(p, db, true).doomed && Eval(p, db, true).db == db
    ensures Eval(p, db, true).err == Returned(Trace(p, other, true))
  {
    match p
    case Return(_) =>
    case Exec(_, _, onErr) => DoomedStaysDoomed(onErr, db, other);
    case Query(_, _, _, onErr) => DoomedStaysDoomed(onErr, db, other);
    case RunInTx(_, _, onErr) => DoomedStaysDoomed(onErr, db, other);
  }

  /** A run ends free of failed statements exactly when its journal is clean, it returns the error that
      its journal ends with, and when clean its result is what the surviving writes, and only they, make
      of the contents. */
  lemma {:induction false} JournalTheorem(p: Program, db: Db)
    ensures var r, journal := Eval(p, db, false), Trace(p, db, false);
      && r.err == Returned(journal)
      && (!r.doomed <==> Clean(journal))
      && (!r.doomed ==> Apply(Survivors(journal), db) == Some(r.db))
  {
    match p
    case Return(_) =>
    case Exec(run, onOk, onErr) =>
      match run(db) {
        case None => DoomedStaysDoomed(onErr, db, db);
        case Some(next) =>
          JournalTheorem(onOk, next);
          var rest := Survivors(Trace(onOk, next, false));
          assert ([run] + rest)[1..] == rest;
      }
    case Query(test, yes, no, onErr) =>
      JournalTheorem(if test(db) then yes else no, db);
    case RunInTx(body, onOk, onErr) =>
      JournalTheorem(body, db);
      var inner, block := Eval(body, db, false), EvalBlock(body, db, false);
      var next := if block.err then onErr else onOk;
      if block.doomed {
        DoomedStaysDoomed(next, block.db, db);
      } else {
        JournalTheorem(next, block.db);
        var inside := if inner.err then [] else Survivors(Trace(body, db, false));
        ApplyConcat(inside, Survivors(Trace(next, block.db, false)), db);
      }
  }

  // ----- Plain callbacks -----

  /** Executes the statements one after another, returns the first refusal, and in the end `err`. */
  function Straight(statements: seq<Statement>, err: bool): Program {
    if statements == [] then Return(err)
    else Exec(statements[0], Straight(statements[1..], err), Return(true))
  }

  lemma {:induction false} StraightRuns(statements: seq<Statement>, err: bool, db: Db)
    ensures var r, done := Eval(Straight(statements, err), db, false), Apply(statements, db);
      && r.err == (err || done == None)
      && r.doomed == (done == None)
      && (done.Some? ==> r.db == done.value)
  {
    if statements != [] {
      match statements[0](db)
      case None =>
      case Some(next) => StraightRuns(statements[1..], err, next);
    }
  }

  /** A block of statements, and the error its callback returns in the end. */
  datatype Batch = Batch(statements: seq<Statement>, err: bool)

  /** Runs each batch in a nested block and goes on whatever becomes of it. */
  function Batches(batches: seq<Batch>): Program {
    if batches == [] then Return(false)
    else
      var rest := Batches(batches[1..]);
      RunInTx(Straight(batches[0].statements, batches[0].err), rest, rest)
  }

  /** The batches that work out, one after another. */
  function Successful(batches: seq<Batch>, db: Db): Db {
    if batches == [] then db
    else
      var done := Apply(batches[0].statements, db);
      Successful(batches[1..], if batches[0].err || done == None then db else done.value)
  }

  lemma {:induction false} BatchesRun(batches: seq<Batch>, db: Db)
    ensures Eval(Batches(batches), db, false) == Result(Successful(batches, db), false, false)
  {
    if batches != [] {
      var done := Apply(batches[0].statements, db);
      StraightRuns(batches[0].statements, batches[0].err, db);
      BatchesRun(batches[1..], if batches[0].err || done == None then db else done.value);
    }
  }

  /** A callback that never goes on after a refused statement: every refusal is returned. */
  predicate Propagates(p: Program) {
    match p
    case Return(_) => true
    case Exec(_, onOk, onErr) => Propagates(onOk) && GivesUp(onErr)
    case Query(_, yes, no, onErr) => Propagates(yes) && Propagates(no) && GivesUp(onErr)
    case RunInTx(body, onOk, onErr) => Propagates(body) && Propagates(onOk) && Propagates(onErr)
  }

  predicate GivesUp(p: Program) {
    p.Return? && p.err
  }

  /** Such callbacks never see the aborted mode: whenever one ends doomed it returned the error,
      so the enclosing block (or the root) rolls the failure back. */
  lemma {:induction false} PropagatingNeverHides(p: Program, db: Db)
    requires Propagates(p)
    ensures Eval(p, db, false).doomed ==> Eval(p, db, false).err
  {
    match p
    case Return(_) =>
    case Exec(run, onOk, onErr) =>
      match run(db) {
        case None =>
        case Some(next) => PropagatingNeverHides(onOk, next);
      }
    case Query(test, yes, no, onErr) =>
      PropagatingNeverHides(if test(db) then yes else no, db);
    case RunInTx(body, onOk, onErr) =>
      PropagatingNeverHides(body, db);
      var block := EvalBlock(body, db, false);
      PropagatingNeverHides(if block.err then onErr else onOk, block.db);
  }
}
