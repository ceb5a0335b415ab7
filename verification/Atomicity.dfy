/** Transactions inside transactions. A service opens one for a whole request, the repositories it calls open
    their own, and either may already be running inside one that the context carries. */
module Atomicity {
  import opened Prelude
  import opened Model
  import opened Transactions
  import opened Store

  /** What the code run inside a transaction does. `Nested` is a transaction the store opens, a savepoint when
      one is already open; `Within` joins the one the context carries and opens one only when there is none. */
  datatype Body =
    | Statement(step: DB -> Result<DB>)
    | Then(first: Body, second: Body)
    | Nested(body: Body)
    | Within(body: Body)

  /** The tables afterwards and the error returned, if any. */
  datatype Outcome = Outcome(state: DB, err: Option<Error>)

  /** Inside an open transaction: a failing body keeps what it had written, unless a savepoint undoes it. */
  function Run(b: Body, db: DB): Outcome {
    match b
    case Statement(step) => (match step(db) case Ok(next) => Outcome(next, None) case Err(e) => Outcome(db, Some(e)))
    case Then(first, second) =>
      var half := Run(first, db);
      if half.err.Some? then half else Run(second, half.state)
    case Nested(body) =>
      var end := Run(body, db);
      if end.err.Some? then end.(state := db) else end
    case Within(body) => Run(body, db)
  }

  /** The statements alone, in order. */
  function Steps(b: Body): seq<DB -> Result<DB>> {
    match b
    case Statement(step) => [step]
    case Then(first, second) => Steps(first) + Steps(second)
    case Nested(body) => Steps(body)
    case Within(body) => Steps(body)
  }

  /** One flat transaction: every statement in turn, or the first error. */
  function AllOrNothing(steps: seq<DB -> Result<DB>>, db: DB): Result<DB> {
    if steps == [] then Ok(db)
    else
      var next :- steps[0](db);
      AllOrNothing(steps[1..], next)
  }

  lemma {:induction false} AllOrNothingAppend(a: seq<DB -> Result<DB>>, b: seq<DB -> Result<DB>>, db: DB)
    ensures AllOrNothing(a + b, db) == match AllOrNothing(a, db) case Ok(mid) => AllOrNothing(b,
        mid) case Err(e) => Err(e)
  {
    if a == [] {
      assert a + b == b;
    } else {
      assert (a + b)[0] == a[0] && (a + b)[1..] == a[1..] + b;
      if a[0](db).Ok? {
        AllOrNothingAppend(a[1..], b, a[0](db).value);
      }
    }
  }

  /** Nesting is unobservable except in what a failure leaves behind inside the transaction. */
  lemma {:induction false} NestingIsFlat(b: Body, db: DB)
    ensures match AllOrNothing(Steps(b), db)
            case Ok(next) => Run(b, db) == Outcome(next, None)
            case Err(e) => Run(b, db).err == Some(e)
    decreases b
  {
    match b {
      case Statement(step) =>
        assert [step][0] == step && [step][1..] == [];
      case Then(first, second) =>
        NestingIsFlat(first, db);
        AllOrNothingAppend(Steps(first), Steps(second), db);
        if Run(first, db).err.None? {
          NestingIsFlat(second, Run(first, db).state);
        }
      case Nested(body) => NestingIsFlat(body, db);
      case Within(body) => NestingIsFlat(body, db);
    }
  }

  /** Savepoints are needed for that exception: without one the first half of a failing body is still there. */
  lemma FailureLeavesHalf(db: DB, a: Audit)
    ensures var half := Then(Statement((s: DB) => Ok(s.(audits := s.audits + [a]))),
        Statement((s: DB) => Err(StorageFault)));
            Run(half, db).state != db && Run(Within(half), db).state != db && Run(Nested(half), db).state == db
  {
    var half := Then(Statement((s: DB) => Ok(s.(audits := s.audits + [a]))), Statement((s: DB) => Err(StorageFault)));
    assert Run(half, db).state.audits == db.audits + [a];
  }

  /** Runs a body on the stored tables, opening, joining and ending transactions as the repositories do. */
  method Execute(b: Body, db: Database) returns (err: Option<Error>)
    requires db.savepoints != []
    modifies db
    ensures db.savepoints == old(db.savepoints) && db.agenda == old(db.agenda) && db.history == old(db.history)
        && db.own == old(db.own)
    ensures Outcome(db.State(), err) == Run(b, old(db.State()))
    decreases b
  {
    match b {
      case Statement(step) =>
        var next := step(db.State());
        match next {
          case Ok(state) =>
            db.Load(state);
            err := None;
          case Err(e) =>
            err := Some(e);
        }
      case Then(first, second) =>
        err := Execute(first, db);
        if err.None? {
          err := Execute(second, db);
        }
      case Nested(body) =>
        db.Begin();
        err := Execute(body, db);
        db.End(err);
      case Within(body) =>
        err := Execute(body, db);
    }
  }

  /** A request's transaction, however its repositories nest theirs: the flat effect of all its statements as one
      committed state, or on the first error the tables and the history exactly as they were. */
  method WithinTransaction(b: Body, db: Database) returns (err: Option<Error>)
    requires db.savepoints == [] && db.history != []
    modifies db
    ensures db.savepoints == [] && db.agenda == old(db.agenda)
    ensures match AllOrNothing(Steps(b), old(db.State()))
            case Ok(next) =>
              err.None? && db.State() == next && db.history == old(db.history) + [next]
                  && db.own == old(db.own) + {|old(db.history)|}
            case Err(e) =>
              err == Some(e) && db.State() == old(db.State()) && db.history == old(db.history) && db.own == old(db.own)
  {
    NestingIsFlat(b, db.State());
    db.Begin();
    err := Execute(b, db);
    db.End(err);
  }

  // ---- The application's own transactions ----

  function Audited(step: DB -> Result<DB>, entry: Audit): Body {
    Then(Statement(step), Statement((s: DB) => Ok(s.(audits := s.audits + [entry]))))
  }

  function GateStatement(w: RowWrite<Gate>): DB -> Result<DB> {
    (s: DB) => var rows :- ApplyWrite(s.gates, w); Ok(s.(gates := rows))
  }

  function DirectiveStatement(w: RowWrite<Directive>): DB -> Result<DB> {
    (s: DB) => var rows :- ApplyWrite(s.directives, w); Ok(s.(directives := rows))
  }

  function ReceiptStatement(w: RowWrite<Receipt>): DB -> Result<DB> {
    (s: DB) => var rows :- ApplyReceipt(s.receipts, w); Ok(s.(receipts := rows))
  }

  function ApprovalStatement(a: Option<Approval>): DB -> Result<DB> {
    (s: DB) => var log :- ApplyApproval(s.approvals, a); Ok(s.(approvals := log))
  }

  function ThenGate(b: Body, w: RowWrite<Gate>): Body {
    if w.Skip? then b else Then(b, Audited(GateStatement(w), w.entry))
  }

  /** A directive's transition: the repository's transaction inside the service's, then the gate if it moves. */
  function DirectiveBody(tx: Tx): Body
    requires tx.directive.Write?
  {
    var row := Statement(DirectiveStatement(tx.directive));
    var entry := Statement((s: DB) => Ok(s.(audits := s.audits + [tx.directive.entry])));
    ThenGate(Nested(Then(row, Then(Statement(ApprovalStatement(tx.approval)), entry))), tx.gate)
  }

  /** A receipt's outcome: up to three rows, each followed by its entry, in the service's transaction. */
  function OutcomeBody(tx: Tx): Body
    requires tx.receipt.Write?
  {
    var own := Audited(ReceiptStatement(tx.receipt), tx.receipt.entry);
    ThenGate(if tx.directive.Skip? then own else Then(own, Audited(DirectiveStatement(tx.directive),
        tx.directive.entry)), tx.gate)
  }

  lemma AuditedRuns(step: DB -> Result<DB>, entry: Audit, db: DB)
    ensures var r := step(db);
            Run(Audited(step, entry), db) ==
            if r.Ok? then Outcome(r.value.(audits := r.value.audits + [entry]), None) else Outcome(db, Some(r.error))
  {
  }

  lemma ThenGateRuns(b: Body, w: RowWrite<Gate>, db: DB)
    ensures var half := Run(b, db);
            if half.err.Some? then Run(ThenGate(b, w), db) == half
            else
              var r := ApplyWrite(half.state.gates, w);
              if r.Ok? then Run(ThenGate(b, w), db) ==
                  Outcome(half.state.(gates := r.value, audits := half.state.audits + Entry(w)), None)
              else Run(ThenGate(b, w), db).err == Some(r.error)
  {
    hide Apply;
    var half := Run(b, db);
    if w.Skip? {
      assert ApplyWrite(half.state.gates, w) == Ok(half.state.gates);
    } else {
      AuditedRuns(GateStatement(w), w.entry, half.state);
    }
  }

  /** The one-step commit the protocol uses is what a directive's nested statements amount to, error for error. */
  lemma DirectiveCommitIsNested(db: DB, tx: Tx)
    requires tx.receipt.Skip? && tx.directive.Write?
    ensures match Commit(db, tx)
            case Ok(next) => Run(DirectiveBody(tx), db) == Outcome(next, None)
            case Err(e) => Run(DirectiveBody(tx), db).err == Some(e)
  {
    hide Apply, StageTaken;
    var row := Statement(DirectiveStatement(tx.directive));
    var entry := Statement((s: DB) => Ok(s.(audits := s.audits + [tx.directive.entry])));
    var record := Statement(ApprovalStatement(tx.approval));
    var inner := Then(row, Then(record, entry));
    ThenGateRuns(Nested(inner), tx.gate, db);
    if Run(row, db).err.None? {
      var s := Run(row, db).state;
      if Run(record, s).err.None? {
        var t := Run(record, s).state;
        assert Run(Then(record, entry), s) == Outcome(t.(audits := t.audits + [tx.directive.entry]), None);
      } else {
        assert Run(Then(record, entry), s) == Run(record, s);
      }
    }
  }

  /** And likewise for a receipt's outcome. */
  lemma OutcomeCommitIsNested(db: DB, tx: Tx)
    requires tx.receipt.Write? && tx.approval.None?
    ensures match Commit(db, tx)
            case Ok(next) => Run(OutcomeBody(tx), db) == Outcome(next, None)
            case Err(e) => Run(OutcomeBody(tx), db).err == Some(e)
  {
    hide Apply, LinkClash;
    var own := Audited(ReceiptStatement(tx.receipt), tx.receipt.entry);
    AuditedRuns(ReceiptStatement(tx.receipt), tx.receipt.entry, db);
    if tx.directive.Skip? {
      ThenGateRuns(own, tx.gate, db);
    } else {
      var two := Then(own, Audited(DirectiveStatement(tx.directive), tx.directive.entry));
      ThenGateRuns(two, tx.gate, db);
      AuditedRuns(DirectiveStatement(tx.directive), tx.directive.entry, Run(own, db).state);
    }
  }
}
