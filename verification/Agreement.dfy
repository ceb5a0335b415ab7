/** Receipts and directives agree in every state, soft-deleted rows included. */
module Agreement {
  import opened Prelude
  import opened Text
  import opened Status
  import opened Model
  import opened Transactions
  import opened Evolution
  import opened Grounding

  predicate StatusesAgree(receipt: Status, directive: Status) {
    && (receipt == Pending || receipt == Confirmed || receipt == Failed || receipt == Cancelled)
    && (receipt == Confirmed <==> directive == Completed)
    && (receipt == Failed || receipt == Cancelled ==> directive == Aborted)
    && (receipt == Pending ==> directive == Executing || directive == Aborted)
  }

  ghost predicate ConfirmedBy(db: DB, r: Id, d: Id) {
    Linked(db, r, d) && db.receipts[r].status == Confirmed
  }

  /** Linked rows agree, and a completed directive has its confirmed receipt. */
  ghost predicate InAgreement(db: DB) {
    && (forall r, d :: Linked(db, r, d) ==> StatusesAgree(db.receipts[r].status, db.directives[d].status))
    && (forall d :: d in db.directives && db.directives[d].status == Completed ==> exists r :: ConfirmedBy(db, r, d))
  }

  ghost predicate Written<T>(t: Table<T>, w: RowWrite<T>, u: Table<T>) {
    ApplyWrite(t, w) == Ok(u)
  }

  /** A commit, table by table. */
  lemma CommitEffect(db: DB, tx: Tx)
    requires Commit(db, tx).Ok?
    ensures var b := Commit(db, tx).value;
            && Written(db.receipts, tx.receipt, b.receipts)
                && (tx.receipt.Write? ==> !LinkClash(db.receipts, tx.receipt.change))
            && Written(db.directives, tx.directive, b.directives)
            && Written(db.gates, tx.gate, b.gates)
            && Ok(b.approvals) == ApplyApproval(db.approvals, tx.approval)
            && b.audits == db.audits + Entry(tx.receipt) + Entry(tx.directive) + Entry(tx.gate)
  {
  }

  lemma InsertedReceiptAgrees(db: DB, tx: Tx, b: DB, r: Id, d: Id)
    requires Indexed(db) && LinksStored(db) && InAgreement(db) && Grounded(db, tx)
    requires Written(db.receipts, tx.receipt, b.receipts) && Written(db.directives, tx.directive, b.directives)
    requires tx.receipt.Write? ==> !LinkClash(db.receipts, tx.receipt.change)
    requires Linked(b, r, d) && r !in db.receipts
    ensures StatusesAgree(b.receipts[r].status, b.directives[d].status)
  {
    hide DirectiveStep, LinksStored;
    var x :| CopiedFrom(db, x, tx.receipt.change.row.body);
    assert x == d;
  }

  lemma InsertedDirectiveUnlinked(db: DB, tx: Tx, b: DB, r: Id, d: Id)
    requires LinksStored(db) && Grounded(db, tx)
    requires Written(db.receipts, tx.receipt, b.receipts) && Written(db.directives, tx.directive, b.directives)
    requires d !in db.directives && r in db.receipts
    ensures !Linked(b, r, d)
  {
    var x :| Linked(db, r, x);
  }

  predicate Rewrites<T>(w: RowWrite<T>, id: Id) {
    w.Write? && w.change.Overwrite? && w.change.id == id
  }

  /** The status of an existing row after a commit. */
  function StatusAfter<T>(t: Table<T>, w: RowWrite<T>, id: Id): Status
    requires id in t
  {
    if Rewrites(w, id) then w.change.row.status else t[id].status
  }

  lemma WrittenRow<T>(t: Table<T>, w: RowWrite<T>, u: Table<T>, id: Id)
    requires Written(t, w, u) && id in t
    ensures id in u && u[id].status == StatusAfter(t, w, id) && u[id].code == t[id].code
    ensures !Rewrites(w, id) ==> u[id].body == t[id].body
    ensures Rewrites(w, id) ==> u[id].body == w.change.row.body
  {
  }

  lemma NewRowStatus<T>(t: Table<T>, w: RowWrite<T>, u: Table<T>, id: Id)
    requires Written(t, w, u) && id !in t && id in u
    ensures w.Write? && w.change.Insert? && w.change.id == id && u[id] == w.change.row
  {
  }

  /** A directive that has a receipt is executing, completed or aborted, so only an outcome can move it. */
  lemma MovedDirectiveAgrees(db: DB, tx: Tx, r: Id, d: Id)
    requires UniqueLinks(db.receipts) && Linked(db, r, d)
    requires StatusesAgree(db.receipts[r].status, db.directives[d].status)
    requires Grounded(db, tx) && Rewrites(tx.directive, d)
    ensures StatusesAgree(StatusAfter(db.receipts, tx.receipt, r), StatusAfter(db.directives, tx.directive, d))
  {
    hide ReceiptStep, Norm, EqualFold, Business, Signed;
  }

  lemma MovedReceiptAgrees(db: DB, tx: Tx, r: Id, d: Id)
    requires UniqueCodes(db.directives) && Linked(db, r, d)
    requires StatusesAgree(db.receipts[r].status, db.directives[d].status)
    requires Grounded(db, tx) && Rewrites(tx.receipt, r) && !Rewrites(tx.directive, d)
    ensures StatusesAgree(StatusAfter(db.receipts, tx.receipt, r), StatusAfter(db.directives, tx.directive, d))
  {
    hide Norm, EqualFold, Business, Signed, CopiedFrom;
  }

  lemma OldPairAgrees(db: DB, tx: Tx, b: DB, r: Id, d: Id)
    requires Indexed(db) && InAgreement(db) && Grounded(db, tx)
    requires Written(db.receipts, tx.receipt, b.receipts) && Written(db.directives, tx.directive, b.directives)
    requires Linked(b, r, d) && r in db.receipts && d in db.directives
    ensures StatusesAgree(b.receipts[r].status, b.directives[d].status)
  {
    hide Written, Faithful, DirectiveStep, StatusesAgree;
    WrittenRow(db.receipts, tx.receipt, b.receipts, r);
    WrittenRow(db.directives, tx.directive, b.directives, d);
    assert Linked(db, r, d);
    hide *;
    if Rewrites(tx.directive, d) {
      MovedDirectiveAgrees(db, tx, r, d);
    } else if Rewrites(tx.receipt, r) {
      MovedReceiptAgrees(db, tx, r, d);
    }
  }

  lemma CompletedHasReceipt(db: DB, tx: Tx, b: DB, d: Id)
    requires Indexed(db) && InAgreement(db) && Grounded(db, tx)
    requires Written(db.receipts, tx.receipt, b.receipts) && Written(db.directives, tx.directive, b.directives)
    requires d in b.directives && b.directives[d].status == Completed
    ensures exists r :: ConfirmedBy(b, r, d)
  {
    hide Written, Norm, EqualFold, Business, Signed, StatusesAgree, UniqueCodes, CopiedFrom;
    if d in db.directives {
      WrittenRow(db.directives, tx.directive, b.directives, d);
      var r :| r in db.receipts && Linked(db, r, d) && StatusAfter(db.receipts, tx.receipt, r) == Confirmed;
      WrittenRow(db.receipts, tx.receipt, b.receipts, r);
      assert ConfirmedBy(b, r, d);
    } else {
      NewRowStatus(db.directives, tx.directive, b.directives, d);
    }
  }

  lemma LinkKept(db: DB, tx: Tx, b: DB, r: Id)
    requires LinksStored(db) && Grounded(db, tx)
    requires Written(db.receipts, tx.receipt, b.receipts) && Written(db.directives, tx.directive, b.directives)
    requires r in b.receipts
    ensures exists d :: Linked(b, r, d)
  {
    hide Norm, EqualFold, Business, Signed, Shaped;
    if r in db.receipts {
      var d :| Linked(db, r, d);
      WrittenRow(db.directives, tx.directive, b.directives, d);
      WrittenRow(db.receipts, tx.receipt, b.receipts, r);
      assert Linked(b, r, d);
    } else {
      var d :| CopiedFrom(db, d, tx.receipt.change.row.body);
      assert Linked(b, r, d);
    }
  }

  lemma CodesNormal(db: DB, tx: Tx, b: DB, d: Id)
    requires LinksStored(db) && Shaped(tx.directive, OperationDirective)
        && Written(db.directives, tx.directive, b.directives)
    requires d in b.directives
    ensures Norm(b.directives[d].code) == b.directives[d].code
  {
    hide Norm;
  }

  lemma AgreementKept(db: DB, tx: Tx)
    requires Indexed(db) && LinksStored(db) && InAgreement(db) && Grounded(db, tx) && Commit(db, tx).Ok?
    ensures LinksStored(Commit(db, tx).value) && InAgreement(Commit(db, tx).value)
  {
    hide Commit, Written, Faithful, DirectiveStep, ReceiptStep, StatusesAgree, Indexed, Norm, LinkClash, ApplyApproval,
        Entry, Shaped;
    var b := Commit(db, tx).value;
    CommitEffect(db, tx);
    FaithfulIsShaped(db, tx);
    forall r, d | Linked(b, r, d)
      ensures StatusesAgree(b.receipts[r].status, b.directives[d].status)
    {
      hide LinksStored, InAgreement, Grounded, Linked;
      if r !in db.receipts {
        InsertedReceiptAgrees(db, tx, b, r, d);
      } else if d !in db.directives {
        InsertedDirectiveUnlinked(db, tx, b, r, d);
      } else {
        OldPairAgrees(db, tx, b, r, d);
      }
    }
    forall d | d in b.directives && b.directives[d].status == Completed
      ensures exists r :: ConfirmedBy(b, r, d)
    {
      CompletedHasReceipt(db, tx, b, d);
    }
    forall r | r in b.receipts
      ensures exists d :: Linked(b, r, d)
    {
      LinkKept(db, tx, b, r);
    }
    forall d | d in b.directives
      ensures Norm(b.directives[d].code) == b.directives[d].code
    {
      CodesNormal(db, tx, b, d);
    }
  }

  lemma FaithfulIsShaped(db: DB, tx: Tx)
    requires Grounded(db, tx)
    ensures ShapedTx(tx)
  {
    hide Shaped, DirectiveStep, ReceiptStep;
  }
}
