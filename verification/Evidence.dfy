/** Two-person evidence: which approval records exist for a directive in each status. */
module Evidence {
  import opened Prelude
  import opened Text
  import opened Status
  import opened Model
  import opened Transactions
  import opened Grounding
  import opened Agreement

  predicate RecordOf(s: seq<Approval>, k: int, d: Id, stage: Stage) {
    0 <= k < |s| && s[k].directiveId == d && s[k].stage == stage
  }

  /** Record `k` is the submission of this directive, by its submitter, in a permitted role. */
  predicate SubmissionAt(s: seq<Approval>, k: int, d: Id, b: Directive) {
    0 <= k < |s| && Signed(Some(s[k]), d, SubmittedStage, b.submittedBy, Draft, Pending)
  }

  predicate ApprovalAt(s: seq<Approval>, k: int, d: Id, b: Directive) {
    0 <= k < |s| && Signed(Some(s[k]), d, ApprovedStage, b.approvedBy, Pending, Approved)
  }

  predicate TwoPersons(b: Directive) {
    b.submittedBy != "" && !EqualFold(b.submittedBy, b.approvedBy)
  }

  predicate Approvable(s: Status) {
    s == Approved || s == Executing || s == Completed
  }

  ghost predicate EvidenceFor(s: seq<Approval>, d: Id, row: Row<Directive>) {
    && (row.status == Draft || row.status == Pending || row.status == Aborted || Approvable(row.status))
    && (row.status == Draft ==> forall k :: !RecordOf(s, k, d, SubmittedStage))
    && (row.status == Draft || row.status == Pending ==> forall k :: !RecordOf(s, k, d, ApprovedStage))
    && (row.status != Draft ==> exists k :: SubmissionAt(s, k, d, row.body))
    && (Approvable(row.status) ==> exists k :: ApprovalAt(s, k, d, row.body))
    && (forall k :: RecordOf(s, k, d, ApprovedStage) ==> ApprovalAt(s, k, d, row.body) && TwoPersons(row.body))
  }

  ghost predicate Evidenced(db: DB) {
    && (forall k :: 0 <= k < |db.approvals| ==> db.approvals[k].directiveId in db.directives)
    && (forall d :: d in db.directives ==> EvidenceFor(db.approvals, d, db.directives[d]))
  }

  /** A directive no approval was added for keeps its evidence, as long as its signatures and status class stay. */
  lemma UnsignedKeeps(s: seq<Approval>, t: seq<Approval>, d: Id, row: Row<Directive>, next: Row<Directive>)
    requires EvidenceFor(s, d, row) && s <= t
    requires forall k :: |s| <= k < |t| ==> t[k].directiveId != d
    requires next.body.submittedBy == row.body.submittedBy && next.body.approvedBy == row.body.approvedBy
    requires next.status == row.status || CanTransition(OperationDirective, row.status, next.status)
    requires next.status != row.status ==> next.status != Pending && next.status != Approved
    ensures EvidenceFor(t, d, next)
  {
    hide EqualFold, Signed;
    assert forall k, stage :: RecordOf(t, k, d, stage) ==> RecordOf(s, k, d, stage);
    if row.status != Draft {
      var k :| SubmissionAt(s, k, d, row.body);
      assert SubmissionAt(t, k, d, next.body);
    }
    if Approvable(row.status) {
      var k :| ApprovalAt(s, k, d, row.body);
      assert ApprovalAt(t, k, d, next.body);
    }
  }

  lemma SubmissionAdds(s: seq<Approval>, a: Approval, d: Id, row: Row<Directive>, next: Row<Directive>)
    requires EvidenceFor(s, d, row) && row.status == Draft && next.status == Pending
    requires Signed(Some(a), d, SubmittedStage, next.body.submittedBy, Draft, Pending)
    ensures EvidenceFor(s + [a], d, next)
  {
    hide EqualFold;
    assert SubmissionAt(s + [a], |s|, d, next.body);
    assert forall k :: RecordOf(s + [a], k, d, ApprovedStage) ==> RecordOf(s, k, d, ApprovedStage);
  }

  lemma ApprovalAdds(s: seq<Approval>, a: Approval, d: Id, row: Row<Directive>, next: Row<Directive>)
    requires EvidenceFor(s, d, row) && row.status == Pending && next.status == Approved
    requires next.body.submittedBy == row.body.submittedBy && TwoPersons(next.body)
    requires Signed(Some(a), d, ApprovedStage, next.body.approvedBy, Pending, Approved)
    ensures EvidenceFor(s + [a], d, next)
  {
    hide EqualFold;
    var k :| SubmissionAt(s, k, d, row.body);
    assert SubmissionAt(s + [a], k, d, next.body);
    assert ApprovalAt(s + [a], |s|, d, next.body);
    assert forall k :: RecordOf(s + [a], k, d, ApprovedStage) && k < |s| ==> RecordOf(s, k, d, ApprovedStage);
  }

  lemma EvidenceRow(db: DB, tx: Tx, b: DB, d: Id)
    requires Evidenced(db) && Grounded(db, tx)
    requires Written(db.directives, tx.directive, b.directives)
        && Ok(b.approvals) == ApplyApproval(db.approvals, tx.approval)
    requires d in b.directives
    ensures EvidenceFor(b.approvals, d, b.directives[d])
  {
    hide EvidenceFor, EqualFold, ReceiptStep, Business, Settles;
    if d !in db.directives {
      NewRowStatus(db.directives, tx.directive, b.directives, d);
      NewHasNone(db.approvals, d, b.directives[d]);
    } else {
      var row := db.directives[d];
      WrittenRow(db.directives, tx.directive, b.directives, d);
      hide Written;
      if Rewrites(tx.directive, d) && row.status == Draft && b.directives[d].status == Pending {
        SubmissionAdds(db.approvals, tx.approval.value, d, row, b.directives[d]);
      } else if Rewrites(tx.directive, d) && row.status == Pending && b.directives[d].status == Approved {
        ApprovalAdds(db.approvals, tx.approval.value, d, row, b.directives[d]);
      } else {
        UnsignedKeeps(db.approvals, b.approvals, d, row, b.directives[d]);
      }
    }
  }

  lemma NewHasNone(s: seq<Approval>, d: Id, row: Row<Directive>)
    requires row.status == Draft && forall k :: 0 <= k < |s| ==> s[k].directiveId != d
    ensures EvidenceFor(s, d, row)
  {
  }

  lemma EvidenceKept(db: DB, tx: Tx)
    requires Evidenced(db) && Grounded(db, tx) && Commit(db, tx).Ok?
    ensures Evidenced(Commit(db, tx).value)
  {
    hide Commit, EvidenceFor, EqualFold, ReceiptStep, Business, Settles, Written, Faithful;
    var b := Commit(db, tx).value;
    CommitEffect(db, tx);
    forall d | d in b.directives
      ensures EvidenceFor(b.approvals, d, b.directives[d])
    {
      EvidenceRow(db, tx, b, d);
    }
    forall k | 0 <= k < |b.approvals|
      ensures b.approvals[k].directiveId in b.directives
    {
      WrittenRow(db.directives, tx.directive, b.directives, b.approvals[k].directiveId);
    }
  }
}
