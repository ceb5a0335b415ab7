/** What every committed transaction keeps, from the compare-and-set rule and the unique indexes alone,
    whatever version a client sends. */
module Evolution {
  import opened Prelude
  import opened Text
  import opened Status
  import opened Model
  import opened Transactions
  import opened Planning
  import opened Protocol

  /** The shape of a planned write: versions advance by one and the entry names the row it accompanies. */
  ghost predicate Shaped<T>(w: RowWrite<T>, kind: Kind) {
    w.Write? ==>
      && w.entry.kind == kind
      && match w.change
         case Insert(id, row) =>
           && w.entry.entityId == id && w.entry.action == CreateAction
           && w.entry.before == Blank && w.entry.after == row.status == Initial(kind)
           && row.version == 1 && !row.deleted && Norm(row.code) == row.code
         case Overwrite(id, expected, row) =>
           && w.entry.entityId == id && w.entry.action != CreateAction && w.entry.action != DeleteAction
           && row.version == expected + 1 && w.entry.after == row.status
         case SoftDelete(id) =>
           w.entry.entityId == id && w.entry.action == DeleteAction
  }

  ghost predicate ShapedTx(tx: Tx) {
    Shaped(tx.gate, GateUnit) && Shaped(tx.directive, OperationDirective) && Shaped(tx.receipt, ExecutionConfirmation)
  }

  lemma DirectiveTransitionIsShaped(id: Id, current: Option<Row<Directive>>, gate: Option<Keyed<Gate>>, expected: nat,
      target: Status, who: Caller)
    requires PlanDirectiveTransition(id, current, gate, expected, target, who).Ok?
    ensures ShapedTx(PlanDirectiveTransition(id, current, gate, expected, target, who).value)
  {
    hide EqualFold, CanTransition, ApprovalFor, DispatchTarget;
  }

  lemma ReceiptTransitionIsShaped(id: Id, current: Option<Row<Receipt>>, d: Option<Keyed<Directive>>,
      gate: Option<Keyed<Gate>>, expected: nat, target: Status, who: Caller)
    requires PlanReceiptTransition(id, current, d, gate, expected, target, who).Ok?
    ensures ShapedTx(PlanReceiptTransition(id, current, d, gate, expected, target, who).value)
  {
    hide CanTransition, GateAfterOutcome;
  }

  lemma PlanIsShaped(call: Call, v: Views, who: Caller)
    requires Plan(call, v, who).Ok?
    ensures ShapedTx(Plan(call, v, who).value)
  {
    hide BusinessFieldsMissing, EqualFold, CanTransition, PayloadOf, LinkedDirective, LinkedGate, HasReceipt, Norm,
        TrimSpace,
         PlanDirectiveTransition, PlanReceiptTransition;
    if call.DirectiveTransition? {
      var current := Find(v.own.directives, call.id);
      var gate := if current.None? then None else LinkedGate(v.far, current.value.body.relatedCode);
      DirectiveTransitionIsShaped(call.id, current, gate, call.expected, call.target, who);
    }
    if call.ReceiptTransition? {
      var current := Find(v.own.receipts, call.id);
      var d := if current.None? then None else LinkedDirective(v.key, v.link, current.value.body.relatedCode);
      var gate := if d.None? then None else LinkedGate(v.far, d.value.row.body.relatedCode);
      ReceiptTransitionIsShaped(call.id, current, d, gate, call.expected, call.target, who);
    }
    if call.GateCreate? || call.DirectiveCreate? || call.ReceiptCreate? {
      NormIdempotent(call.code);
    }
  }

  /** A row may change only with its version, never its code, and not at all once soft-deleted. */
  ghost predicate RowLater<T>(r: Row<T>, s: Row<T>) {
    && s.code == r.code
    && r.version <= s.version
    && (r.version == s.version ==> s.(deleted := r.deleted) == r)
    && (r.deleted ==> s == r)
  }

  ghost predicate TableLater<T>(t: Table<T>, u: Table<T>) {
    forall id :: id in t ==> id in u && RowLater(t[id], u[id])
  }

  ghost predicate Later(a: DB, b: DB) {
    && TableLater(a.gates, b.gates)
    && TableLater(a.directives, b.directives)
    && TableLater(a.receipts, b.receipts)
    && a.approvals <= b.approvals
    && a.audits <= b.audits
  }

  lemma LaterReflexive(a: DB)
    ensures Later(a, a)
  {
  }

  lemma LaterTransitive(a: DB, b: DB, c: DB)
    requires Later(a, b) && Later(b, c)
    ensures Later(a, c)
  {
  }

  lemma WriteIsLater<T>(t: Table<T>, w: RowWrite<T>, kind: Kind)
    requires Shaped(w, kind) && ApplyWrite(t, w).Ok?
    ensures TableLater(t, ApplyWrite(t, w).value)
  {
  }

  lemma CommitIsLater(db: DB, tx: Tx)
    requires ShapedTx(tx) && Commit(db, tx).Ok?
    ensures Later(db, Commit(db, tx).value)
  {
    hide Apply, LinkClash, StageTaken, TableLater, Shaped;
    WriteIsLater(db.gates, tx.gate, GateUnit);
    WriteIsLater(db.directives, tx.directive, OperationDirective);
    WriteIsLater(db.receipts, tx.receipt, ExecutionConfirmation);
  }

  lemma StepIsLater(h: seq<DB>, e: Event)
    requires InOrder(h, e)
    ensures Later(Now(h), After(h, e))
    ensures Indexed(Now(h)) ==> Indexed(After(h, e))
  {
    hide Plan, Commit, Indexed, Later;
    if Commits(h, e) {
      PlanIsShaped(e.call, ViewsAt(h, e), e.who);
      CommitIsLater(Now(h), Planned(h, e).value);
      if Indexed(Now(h)) {
        CommitKeepsIndexes(Now(h), Planned(h, e).value);
      }
    } else {
      LaterReflexive(Now(h));
    }
  }

  ghost predicate Ordered(h: seq<DB>) {
    && (forall i :: 0 <= i < |h| ==> Indexed(h[i]))
    && (forall i, j :: 0 <= i <= j < |h| ==> Later(h[i], h[j]))
  }

  lemma RunPrefix(h: seq<DB>, es: seq<Event>, n: nat)
    requires IsRun(h, es) && n <= |es|
    ensures IsRun(h[..n + 1], es[..n])
    ensures Honest(h, es) ==> Honest(h[..n + 1], es[..n])
  {
    assert forall i :: 0 <= i < n ==> Upto(h[..n + 1], i) == Upto(h, i);
  }

  /** Evolution of whole runs, with no assumption about clients: whatever the interleaving, rows are
      never lost, codes never change, versions never go back, and a soft-deleted row is never written again. */
  lemma {:induction false} RunIsOrdered(h: seq<DB>, es: seq<Event>)
    requires IsRun(h, es) && Indexed(h[0])
    ensures Ordered(h)
  {
    hide After, Indexed, Later;
    var n := |es|;
    if n == 0 {
      LaterReflexive(h[0]);
    } else {
      var g := h[..n];
      RunPrefix(h, es, n - 1);
      RunIsOrdered(g, es[..n - 1]);
      StepIsLater(g, es[n - 1]);
      assert h[n] == After(g, es[n - 1]);
      forall i, j | 0 <= i <= j < |h|
        ensures Later(h[i], h[j])
      {
        if j < n {
          assert Later(g[i], g[j]);
        } else if i < n {
          assert Later(g[i], g[n - 1]);
          LaterTransitive(h[i], h[n - 1], h[n]);
        } else {
          LaterReflexive(h[n]);
        }
      }
      forall i | 0 <= i < |h|
        ensures Indexed(h[i])
      {
        assert i < n ==> h[i] == g[i];
      }
    }
  }

  /** A lookup by code that found a row finds the same key for as long as that row lives. */
  lemma LookupStable<T>(t: Table<T>, u: Table<T>, code: string)
    requires TableLater(t, u) && UniqueCodes(u)
    requires FindByCode(t, code).Some? && Live(u, FindByCode(t, code).value.id)
    ensures FindByCode(u, code) == Some(Keyed(FindByCode(t, code).value.id, u[FindByCode(t, code).value.id]))
  {
    ResolvesTo(u, FindByCode(t, code).value.id);
  }
}
