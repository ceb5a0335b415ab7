/** What one database transaction of the application can do: at most one row per table, each
    with its audit entry, and at most one approval record. `Commit` is its all-or-nothing effect. */
module Transactions {
  import opened Prelude
  import opened Model

  /** The three statements the generic store issues against a table. */
  datatype Change<+T> =
    | Insert(id: Id, row: Row<T>)
    | Overwrite(id: Id, expected: nat, row: Row<T>)
    | SoftDelete(id: Id)

  /** A statement and the audit entry written after it. */
  datatype RowWrite<+T> = Skip | Write(change: Change<T>, entry: Audit)

  datatype Tx = Tx(
    receipt: RowWrite<Receipt>, directive: RowWrite<Directive>, approval: Option<Approval>, gate: RowWrite<Gate>)

  const NO_WRITES := Tx(Skip, Skip, None, Skip)

  predicate CodeTaken<T>(t: Table<T>, code: string) {
    exists k :: k in t && t[k].code == code
  }

  predicate LinkTaken(t: Table<Receipt>, self: Id, link: string) {
    exists k :: k in t && k != self && t[k].body.relatedCode == link
  }

  /** Unique indexes count soft-deleted rows; updates and deletes do not see them. An update
      rewrites every column except the key, the code and the soft-delete mark. */
  function Apply<T>(t: Table<T>, c: Change<T>): Result<Table<T>> {
    match c
    case Insert(id, row) =>
      if id in t || CodeTaken(t, row.code) then Err(DuplicateKey) else Ok(t[id := row])
    case Overwrite(id, expected, row) =>
      if Live(t, id) && t[id].version == expected then
        Ok(t[id := row.(code := t[id].code, deleted := false)])
      else
        Err(VersionConflict)
    case SoftDelete(id) =>
      if Live(t, id) then Ok(t[id := t[id].(deleted := true)]) else Err(NotFound)
  }

  /** Receipts carry a second unique index, on the linked directive's code. */
  predicate LinkClash(t: Table<Receipt>, c: Change<Receipt>) {
    match c
    case Insert(id, row) => LinkTaken(t, id, row.body.relatedCode)
    case Overwrite(id, expected, row) => Live(t, id) && t[id].version == expected
        && LinkTaken(t, id, row.body.relatedCode)
    case SoftDelete(_) => false
  }

  function ApplyWrite<T>(t: Table<T>, w: RowWrite<T>): Result<Table<T>> {
    if w.Skip? then Ok(t) else Apply(t, w.change)
  }

  function ApplyReceipt(t: Table<Receipt>, w: RowWrite<Receipt>): Result<Table<Receipt>> {
    if w.Write? && LinkClash(t, w.change) then Err(DuplicateKey) else ApplyWrite(t, w)
  }

  predicate StageTaken(approvals: seq<Approval>, a: Approval) {
    exists k :: 0 <= k < |approvals| && approvals[k].directiveId == a.directiveId && approvals[k].stage == a.stage
  }

  function ApplyApproval(approvals: seq<Approval>, a: Option<Approval>): Result<seq<Approval>> {
    if a.None? then Ok(approvals)
    else if StageTaken(approvals, a.value) then Err(DuplicateKey)
    else Ok(approvals + [a.value])
  }

  function Entry<T>(w: RowWrite<T>): seq<Audit> {
    if w.Skip? then [] else [w.entry]
  }

  function Commit(db: DB, tx: Tx): Result<DB> {
    var receipts :- ApplyReceipt(db.receipts, tx.receipt);
    var directives :- ApplyWrite(db.directives, tx.directive);
    var approvals :- ApplyApproval(db.approvals, tx.approval);
    var gates :- ApplyWrite(db.gates, tx.gate);
    Ok(DB(gates, directives, receipts, approvals, db.audits + Entry(tx.receipt) + Entry(tx.directive) + Entry(tx.gate)))
  }

  ghost predicate UniqueCodes<T>(t: Table<T>) {
    forall a, b :: a in t && b in t && t[a].code == t[b].code ==> a == b
  }

  ghost predicate UniqueLinks(t: Table<Receipt>) {
    forall a, b :: a in t && b in t && t[a].body.relatedCode == t[b].body.relatedCode ==> a == b
  }

  ghost predicate UniqueStages(s: seq<Approval>) {
    forall a, b :: 0 <= a < |s| && 0 <= b < |s| && s[a].directiveId == s[b].directiveId && s[a].stage == s[b].stage ==>
        a == b
  }

  /** What the database's own unique indexes keep true, whatever the application sends. */
  ghost predicate Indexed(db: DB) {
    UniqueCodes(db.gates) && UniqueCodes(db.directives) && UniqueCodes(db.receipts)
    && UniqueLinks(db.receipts) && UniqueStages(db.approvals)
  }

  lemma WriteKeepsCodes<T>(t: Table<T>, w: RowWrite<T>)
    requires UniqueCodes(t) && ApplyWrite(t, w).Ok?
    ensures UniqueCodes(ApplyWrite(t, w).value)
  {
  }

  lemma WriteKeepsLinks(t: Table<Receipt>, w: RowWrite<Receipt>)
    requires UniqueLinks(t) && ApplyReceipt(t, w).Ok?
    ensures UniqueLinks(ApplyReceipt(t, w).value)
  {
  }

  lemma ApprovalKeepsStages(s: seq<Approval>, a: Option<Approval>)
    requires UniqueStages(s) && ApplyApproval(s, a).Ok?
    ensures UniqueStages(ApplyApproval(s, a).value)
  {
  }

  lemma CommitKeepsIndexes(db: DB, tx: Tx)
    requires Indexed(db) && Commit(db, tx).Ok?
    ensures Indexed(Commit(db, tx).value)
  {
    hide Apply, LinkClash, UniqueCodes, UniqueLinks, UniqueStages, StageTaken;
    WriteKeepsCodes(db.gates, tx.gate);
    WriteKeepsCodes(db.directives, tx.directive);
    WriteKeepsCodes(db.receipts, tx.receipt);
    WriteKeepsLinks(db.receipts, tx.receipt);
    ApprovalKeepsStages(db.approvals, tx.approval);
  }

  /** A live row is the one its code resolves to. */
  lemma ResolvesTo<T>(t: Table<T>, id: Id)
    requires UniqueCodes(t) && Live(t, id)
    ensures FindByCode(t, t[id].code) == Some(Keyed(id, t[id]))
  {
    assert CarriesCode(t, id, t[id].code);
  }

  /** A transaction with one written row: its statement, then its entry. */
  lemma CommitOnlyGate(db: DB, c: Change<Gate>, entry: Audit)
    ensures var r := Commit(db, NO_WRITES.(gate := Write(c, entry)));
            match Apply(db.gates, c)
            case Ok(gates) => r == Ok(db.(gates := gates, audits := db.audits + [entry]))
            case Err(e) => r == Err(e)
  {
    assert db.audits + [] + [] + [entry] == db.audits + [entry];
  }

  lemma CommitOnlyDirective(db: DB, c: Change<Directive>, entry: Audit)
    ensures var r := Commit(db, NO_WRITES.(directive := Write(c, entry)));
            match Apply(db.directives, c)
            case Ok(directives) => r == Ok(db.(directives := directives, audits := db.audits + [entry]))
            case Err(e) => r == Err(e)
  {
    assert db.audits + [] + [entry] + [] == db.audits + [entry];
  }

  lemma CommitOnlyReceipt(db: DB, c: Change<Receipt>, entry: Audit)
    ensures var r := Commit(db, NO_WRITES.(receipt := Write(c, entry)));
            match ApplyReceipt(db.receipts, Write(c, entry))
            case Ok(receipts) => r == Ok(db.(receipts := receipts, audits := db.audits + [entry]))
            case Err(e) => r == Err(e)
  {
    assert db.audits + [entry] + [] + [] == db.audits + [entry];
  }

  /** A directive's transition, statement by statement. */
  lemma CommitDirectiveThenGate(db: DB, c: Change<Directive>, approval: Option<Approval>, audit: Audit,
      gate: RowWrite<Gate>)
    ensures var r := Commit(db, Tx(Skip, Write(c, audit), approval, gate));
            if Apply(db.directives, c).Err? then r == Err(Apply(db.directives, c).error)
            else if ApplyApproval(db.approvals, approval).Err?
                then r == Err(ApplyApproval(db.approvals, approval).error)
            else if ApplyWrite(db.gates, gate).Err? then r == Err(ApplyWrite(db.gates, gate).error)
            else r == Ok(DB(ApplyWrite(db.gates, gate).value, Apply(db.directives, c).value, db.receipts,
                            ApplyApproval(db.approvals, approval).value, db.audits + [audit] + Entry(gate)))
  {
    assert db.audits + [] + [audit] == db.audits + [audit];
  }

  /** A receipt's transition, statement by statement. */
  lemma CommitReceiptThenLinks(db: DB, own: RowWrite<Receipt>, directive: RowWrite<Directive>, gate: RowWrite<Gate>)
    requires own.Write?
    ensures var r := Commit(db, Tx(own, directive, None, gate));
            if ApplyReceipt(db.receipts, own).Err? then r == Err(ApplyReceipt(db.receipts, own).error)
            else if ApplyWrite(db.directives, directive).Err? then r == Err(ApplyWrite(db.directives, directive).error)
            else if ApplyWrite(db.gates, gate).Err? then r == Err(ApplyWrite(db.gates, gate).error)
            else r == Ok(DB(ApplyWrite(db.gates, gate).value, ApplyWrite(db.directives, directive).value,
                ApplyReceipt(db.receipts, own).value,
                            db.approvals, db.audits + [own.entry] + Entry(directive) + Entry(gate)))
  {
  }
}
