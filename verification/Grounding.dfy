/** What a committed transaction means against the state it commits on: which status moves it makes,
    and which writes to the three tables and the approval log always come together. */
module Grounding {
  import opened Prelude
  import opened Text
  import opened Status
  import opened Model
  import opened Transactions
  import opened Planning
  import opened Protocol
  import opened Evolution

  /** The audit entry tells the truth: it starts from the stored status and follows the graph. */
  ghost predicate Faithful<T>(t: Table<T>, w: RowWrite<T>, kind: Kind) {
    Shaped(w, kind)
    && (w.Write? && w.change.Overwrite? ==>
          && w.change.id in t
          && w.entry.before == t[w.change.id].status
          && (w.entry.before == w.entry.after || CanTransition(kind, w.entry.before, w.entry.after)))
  }

  /** The business columns of a directive: everything but the signatures. */
  function Business(b: Directive): Directive {
    b.(submittedBy := "", submittedAt := None, approvedBy := "", approvedAt := None)
  }

  /** A receipt's columns copied from its directive. */
  predicate Copies(r: Receipt, d: Directive) {
    r.facility == d.facility && r.category == d.category && r.riskLevel == d.riskLevel
  }

  predicate Started(s: Status) {
    s == Executing || s == Completed || s == Aborted
  }

  ghost predicate CopiedFrom(db: DB, d: Id, r: Receipt) {
    d in db.directives && db.directives[d].code == r.relatedCode && Copies(r, db.directives[d].body)
        && Started(db.directives[d].status)
  }

  predicate Signed(a: Option<Approval>, id: Id, stage: Stage, actor: string, from: Status, to: Status) {
    a.Some? && a.value.directiveId == id && a.value.stage == stage && a.value.actor == actor
    && a.value.fromState == from && a.value.toState == to && DirectiveRoleAllowed(to, a.value.role)
  }

  /** The receipt write that belongs to an outcome recorded on the directive with this code. */
  predicate Settles(t: Table<Receipt>, w: RowWrite<Receipt>, code: string, outcome: Status) {
    w.Write? && w.change.Overwrite? && w.change.id in t
    && t[w.change.id].status == Pending && t[w.change.id].body.relatedCode == code
    && w.change.row.status == outcome
  }

  predicate DirectiveMove(db: DB, id: Id, was: Row<Directive>, row: Row<Directive>, tx: Tx) {
    if row.status == was.status then
      was.status == Draft && tx.approval.None? && tx.receipt.Skip?
      && row.body.submittedBy == was.body.submittedBy && row.body.approvedBy == was.body.approvedBy
    else
      Business(row.body) == Business(was.body)
      && match row.status
         case Pending =>
           && tx.receipt.Skip? && row.body.approvedBy == was.body.approvedBy
           && Signed(tx.approval, id, SubmittedStage, row.body.submittedBy, Draft, Pending)
         case Approved =>
           && tx.receipt.Skip? && row.body.submittedBy == was.body.submittedBy
           && row.body.submittedBy != "" && !EqualFold(row.body.submittedBy, row.body.approvedBy)
           && Signed(tx.approval, id, ApprovedStage, row.body.approvedBy, Pending, Approved)
         case Executing => tx.receipt.Skip? && tx.approval.None? && row.body == was.body
         case Completed => tx.approval.None? && row.body == was.body
             && Settles(db.receipts, tx.receipt, was.code, Confirmed)
         case Aborted =>
           && tx.approval.None? && row.body == was.body
           && (tx.receipt.Skip? || (was.status == Executing && Settles(db.receipts, tx.receipt, was.code, Failed)))
         case _ => false
  }

  predicate DirectiveStep(db: DB, tx: Tx) {
    match tx.directive
    case Skip => tx.approval.None?
    case Write(Insert(id, row), _) => tx.approval.None? && tx.receipt.Skip?
    case Write(SoftDelete(_), _) => tx.approval.None? && tx.receipt.Skip?
    case Write(Overwrite(id, _, row), _) => id in db.directives && DirectiveMove(db, id, db.directives[id], row, tx)
  }

  ghost predicate DirectiveEnds(tx: Tx, outcome: Status) {
    tx.directive.Write? && tx.directive.change.Overwrite? && tx.directive.change.row.status == outcome
  }

  ghost predicate ReceiptMove(db: DB, was: Row<Receipt>, row: Row<Receipt>, tx: Tx) {
    row.body.relatedCode == was.body.relatedCode
    && if row.status == was.status then
         was.status == Pending && tx.directive.Skip? && (exists d :: CopiedFrom(db, d, row.body))
       else
         && row.body.facility == was.body.facility && row.body.category == was.body.category
             && row.body.riskLevel == was.body.riskLevel
         && match row.status
            case Confirmed => DirectiveEnds(tx, Completed)
            case Failed => DirectiveEnds(tx, Aborted)
            case Cancelled => tx.directive.Skip? && was.status == Failed
            case _ => false
  }

  ghost predicate ReceiptStep(db: DB, tx: Tx) {
    match tx.receipt
    case Skip => true
    case Write(Insert(_, row), _) => tx.directive.Skip? && exists d :: CopiedFrom(db, d, row.body)
    case Write(SoftDelete(_), _) => tx.directive.Skip?
    case Write(Overwrite(id, _, row), _) => id in db.receipts && ReceiptMove(db, db.receipts[id], row, tx)
  }

  ghost predicate Grounded(db: DB, tx: Tx) {
    && Faithful(db.gates, tx.gate, GateUnit)
    && Faithful(db.directives, tx.directive, OperationDirective)
    && Faithful(db.receipts, tx.receipt, ExecutionConfirmation)
    && DirectiveStep(db, tx)
    && ReceiptStep(db, tx)
  }

  predicate Ended(s: Status) {
    s == Completed || s == Aborted
  }

  /** From submission on the business columns are frozen; a started directive stays started, an ended one ended. */
  predicate DirectiveLater(r: Row<Directive>, s: Row<Directive>) {
    r.status != Draft ==>
      && Business(s.body) == Business(r.body)
      && s.status != Draft
      && (Started(r.status) ==> Started(s.status))
      && (Ended(r.status) ==> s.status == r.status)
  }

  ghost predicate DirectivesLater(a: DB, b: DB) {
    forall id :: id in a.directives && id in b.directives ==> DirectiveLater(a.directives[id], b.directives[id])
  }

  ghost predicate Linked(db: DB, r: Id, d: Id) {
    r in db.receipts && d in db.directives && db.directives[d].code == db.receipts[r].body.relatedCode
  }

  /** Stored directive codes are normalised and every receipt's link is one of them. */
  ghost predicate LinksStored(db: DB) {
    && (forall d :: d in db.directives ==> Norm(db.directives[d].code) == db.directives[d].code)
    && (forall r :: r in db.receipts ==> exists d :: Linked(db, r, d))
  }

  lemma LinkIsNormal(db: DB, r: Id)
    requires LinksStored(db) && r in db.receipts
    ensures Norm(db.receipts[r].body.relatedCode) == db.receipts[r].body.relatedCode
  {
    var d :| Linked(db, r, d);
  }

  // ---- One lemma per operation: planned on rows that are current, the transaction is grounded ----

  lemma GateCallGrounded(db: DB, tx: Tx, v: Views, call: Call, who: Caller)
    requires call.GateCreate? || call.GateUpdate? || call.GateTransition? || call.GateDelete?
    requires Plan(call, v, who) == Ok(tx)
    requires HasExpected(call) ==> v.own == db
    ensures Grounded(db, tx)
  {
    hide EqualFold, BusinessFieldsMissing, PayloadOf;
    PlanIsShaped(call, v, who);
  }

  lemma DirectiveEditGrounded(db: DB, tx: Tx, v: Views, call: Call, who: Caller)
    requires call.DirectiveCreate? || call.DirectiveUpdate? || call.DirectiveDelete?
    requires Plan(call, v, who) == Ok(tx)
    requires HasExpected(call) ==> v.own == db
    ensures Grounded(db, tx)
  {
    hide EqualFold, BusinessFieldsMissing, PayloadOf, GateUnfit, LinkedGate;
    PlanIsShaped(call, v, who);
  }

  lemma MoveGateFaithful(t: Table<Gate>, g: Keyed<Gate>, target: Status, action: Action, who: Caller)
    requires !GateBlocked(g.row, target) && action != CreateAction && action != DeleteAction
    requires MoveGate(g, target, action, who).Write? ==> g.id in t && t[g.id] == g.row
    ensures Faithful(t, MoveGate(g, target, action, who), GateUnit)
  {
  }

  lemma DirectiveTransitionGrounded(db: DB, tx: Tx, id: Id, gate: Option<Keyed<Gate>>, expected: nat, target: Status,
      who: Caller)
    requires PlanDirectiveTransition(id, Find(db.directives, id), gate, expected, target, who) == Ok(tx)
    requires tx.gate.Write? ==> gate.Some? && gate.value.id in db.gates && db.gates[gate.value.id] == gate.value.row
    ensures Grounded(db, tx)
  {
    hide EqualFold, MoveGate, GateBlocked;
    if gate.Some? && ReachesGate(db.directives[id].status, target) {
      hide DispatchTarget;
      MoveGateFaithful(db.gates, gate.value, DispatchTarget(db.directives[id], gate.value.row, target),
          DirectiveExecution, who);
    }
  }

  lemma ReceiptTransitionGrounded(db: DB, tx: Tx, id: Id, d: Option<Keyed<Directive>>, gate: Option<Keyed<Gate>>,
      expected: nat, target: Status, who: Caller)
    requires LinksStored(db)
    requires PlanReceiptTransition(id, Find(db.receipts, id), d, gate, expected, target, who) == Ok(tx)
    requires tx.directive.Write? ==>
               && d.Some? && d.value.id in db.directives && db.directives[d.value.id] == d.value.row
               && d.value.row.code == Norm(db.receipts[id].body.relatedCode)
    requires tx.gate.Write? ==> gate.Some? && gate.value.id in db.gates && db.gates[gate.value.id] == gate.value.row
    ensures Grounded(db, tx)
  {
    hide EqualFold, MoveGate, GateBlocked, GateAfterOutcome, Norm, LinksStored;
    LinkIsNormal(db, id);
    if tx.directive.Write? {
      MoveGateFaithful(db.gates, gate.value, GateAfterOutcome(d.value.row, target), ExecutionOutcome, who);
    }
  }

  /** A directive found executing when it was read is still the source of the copied columns at commit. */
  lemma CopiedFromRead(key: DB, link: DB, db: DB, code: string, d: Keyed<Directive>, r: Receipt)
    requires TableLater(key.directives, link.directives) && TableLater(link.directives, db.directives)
        && DirectivesLater(link, db)
    requires LinkedDirective(key, link, code) == Some(d) && d.row.status == Executing
    requires r.relatedCode == d.row.code && Copies(r, d.row.body)
    ensures CopiedFrom(db, d.id, r) && d.row.code == Norm(code)
  {
    assert CarriesCode(key.directives, d.id, Norm(code));
  }

  lemma ReceiptCreateGrounded(db: DB, tx: Tx, newId: Id, code: string, f: Fields, d: Option<Keyed<Directive>>,
      alreadyLinked: bool, who: Caller)
    requires PlanReceiptCreate(newId, code, f, d, alreadyLinked, who) == Ok(tx)
    requires d.Some? && forall r: Receipt :: r.relatedCode == d.value.row.code && Copies(r, d.value.row.body) ==>
        CopiedFrom(db, d.value.id, r)
    ensures Grounded(db, tx)
  {
    hide BusinessFieldsMissing, PayloadOf, Norm, CopiedFrom;
    NormIdempotent(code);
    assert CopiedFrom(db, d.value.id, tx.receipt.change.row.body);
  }

  lemma ReceiptUpdateGrounded(db: DB, tx: Tx, id: Id, f: Fields, d: Option<Keyed<Directive>>, expected: nat,
      who: Caller)
    requires PlanReceiptUpdate(id, Find(db.receipts, id), d, expected, f, who) == Ok(tx)
    requires d.Some? && d.value.row.code == db.receipts[id].body.relatedCode
    requires forall r: Receipt :: r.relatedCode == d.value.row.code && Copies(r, d.value.row.body) ==>
        CopiedFrom(db, d.value.id, r)
    ensures Grounded(db, tx)
  {
    hide BusinessFieldsMissing, PayloadOf, Norm, CopiedFrom, EqualFold;
    assert CopiedFrom(db, d.value.id, tx.receipt.change.row.body);
  }

  lemma ReceiptEditGrounded(db: DB, tx: Tx, v: Views, call: Call, who: Caller)
    requires call.ReceiptCreate? || call.ReceiptUpdate?
    requires Plan(call, v, who) == Ok(tx)
    requires HasExpected(call) ==> v.own == db
    requires LinksStored(db) && TableLater(v.key.directives, v.link.directives)
        && TableLater(v.link.directives, db.directives)
    requires DirectivesLater(v.link, db)
    ensures Grounded(db, tx)
  {
    hide BusinessFieldsMissing, Norm, LinkedDirective, CopiedFrom, Grounded, TableLater, DirectivesLater, EqualFold,
        HasReceipt;
    var link := if call.ReceiptCreate? then call.fields.relatedCode else db.receipts[call.id].body.relatedCode;
    var d := LinkedDirective(v.key, v.link, link);
    forall r: Receipt | r.relatedCode == d.value.row.code && Copies(r, d.value.row.body)
      ensures CopiedFrom(db, d.value.id, r)
    {
      CopiedFromRead(v.key, v.link, db, link, d.value, r);
    }
    if call.ReceiptCreate? {
      ReceiptCreateGrounded(db, tx, call.newId, call.code, call.fields, d,
          HasReceipt(v.far.receipts, d.value.row.code), who);
    } else {
      LinkIsNormal(db, call.id);
      CopiedFromRead(v.key, v.link, db, link, d.value, tx.receipt.change.row.body);
      ReceiptUpdateGrounded(db, tx, call.id, call.fields, d, call.expected, who);
    }
  }

  lemma ReceiptDeleteGrounded(db: DB, tx: Tx, id: Id, current: Option<Row<Receipt>>, who: Caller)
    requires PlanReceiptDelete(id, current, who) == Ok(tx)
    ensures Grounded(db, tx)
  {
  }
}
