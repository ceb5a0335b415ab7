/** What racing requests can and cannot do to each other: which request is behind each status change, which rows
    a deletion reaches, and when a receipt's copied columns are right. */
module Races {
  import opened Prelude
  import opened Text
  import opened Status
  import opened Model
  import opened Transactions
  import opened Planning
  import opened Protocol
  import opened Evolution
  import opened OptimisticLock
  import opened Grounding
  import opened Agreement
  import opened Evidence
  import opened Journal
  import opened Reachability
  import opened Outcomes

  ghost predicate CommittedAt(h: seq<DB>, es: seq<Event>, m: nat)
    requires IsRun(h, es) && m < |es|
  {
    Commits(Upto(h, m), es[m])
  }

  /** A step of a sound run: what is known of it wherever its request commits. */
  lemma StepAt(h: seq<DB>, es: seq<Event>, except: set<Id>, m: nat)
    requires IsRun(h, es) && Honest(h, es) && Starts(h[0], except) && m < |es|
    ensures Now(Upto(h, m)) == h[m] && h[m + 1] == After(Upto(h, m), es[m])
    ensures Consistent(h[m]) && Indexed(h[m]) && DirectivesLater(h[m], h[m + 1])
    ensures !CommittedAt(h, es, m) ==> h[m + 1] == h[m]
    ensures CommittedAt(h, es, m) ==>
              var p := Planned(Upto(h, m), es[m]);
              p.Ok? && Grounded(h[m], p.value) && Commit(h[m], p.value) == Ok(h[m + 1])
  {
    hide Starts, Shown, Consistent, Journaled, ColumnsCopied, LinksStored, Plan, Commit, Grounded, Indexed,
        DirectivesLater, Later;
    PrefixSound(h, es, except, m);
    assert Shown(Upto(h, m), es[m]);
    if CommittedAt(h, es, m) {
      StepIsGrounded(Upto(h, m), es[m]);
    }
  }

  // ---- Which request is behind a status change ----

  /** The call may bring directive `d` to status `s`: a transition of it by someone in a suitable role, or the
      outcome of a receipt. */
  predicate MayMove(call: Call, who: Caller, d: Id, s: Status) {
    match s
    case Pending => IsDirectiveTransition(call, d, s) && who.role in {Operator, Admin}
    case Approved => IsDirectiveTransition(call, d, s) && who.role in {Reviewer, Admin}
    case Executing => IsDirectiveTransition(call, d, s) && who.role in {Operator, Admin}
    case Completed => call.ReceiptTransition? && call.target == Confirmed
    case Aborted =>
      || (IsDirectiveTransition(call, d, s) && who.role in {Operator, Reviewer, Admin})
      || (call.ReceiptTransition? && call.target == Failed)
    case _ => false
  }

  predicate IsDirectiveTransition(call: Call, d: Id, target: Status) {
    call.DirectiveTransition? && call.id == d && call.target == target
  }

  lemma TransitionMoves(id: Id, current: Option<Row<Directive>>, gate: Option<Keyed<Gate>>, expected: nat,
      target: Status, who: Caller)
    requires PlanDirectiveTransition(id, current, gate, expected, target, who).Ok?
    ensures var tx := PlanDirectiveTransition(id, current, gate, expected, target, who).value;
            && tx.receipt.Skip? && Overwrites(tx.directive, id, expected) && tx.directive.change.row.status == target
            && tx.directive.entry.before != tx.directive.entry.after
            && MayMove(DirectiveTransition(id, expected, target), who, id, target)
  {
    hide EqualFold, MoveGate, GateBlocked, ApprovalFor, DispatchTarget;
  }

  lemma OutcomeMoves(id: Id, current: Option<Row<Receipt>>, d: Option<Keyed<Directive>>, gate: Option<Keyed<Gate>>,
      expected: nat, target: Status, who: Caller)
    requires PlanReceiptTransition(id, current, d, gate, expected, target, who).Ok?
    ensures var tx := PlanReceiptTransition(id, current, d, gate, expected, target, who).value;
            && Overwrites(tx.receipt, id, expected) && tx.receipt.change.row.status == target
            && tx.receipt.entry.before != tx.receipt.entry.after
            && (tx.directive.Write? ==>
                  && tx.directive.change.Overwrite? && tx.directive.change.row.status == OutcomeFor(target)
                  && MayMove(ReceiptTransition(id, expected, target), who, tx.directive.change.id, OutcomeFor(target)))
  {
    hide MoveGate, GateBlocked, GateAfterOutcome;
  }

  lemma EditMoves(call: Call, v: Views, who: Caller)
    requires Plan(call, v, who).Ok? && !call.DirectiveTransition? && !call.ReceiptTransition?
    ensures var tx := Plan(call, v, who).value;
            && (tx.directive.Write? && tx.directive.change.Overwrite? ==>
                tx.directive.entry.before == tx.directive.entry.after)
            && (tx.receipt.Write? && tx.receipt.change.Overwrite? ==>
                  call.ReceiptUpdate? && tx.receipt.change.id == call.id
                      && tx.receipt.entry.before == tx.receipt.entry.after)
            && (call.ReceiptUpdate? ==> Overwrites(tx.receipt, call.id, call.expected))
  {
    hide BusinessFieldsMissing, EqualFold, PayloadOf, LinkedDirective, LinkedGate, HasReceipt, Norm, TrimSpace,
        GateUnfit, CanTransition;
  }

  /** The requests that overwrite a directive or a receipt, and what they make of its status. */
  lemma PlanMoves(call: Call, v: Views, who: Caller)
    requires Plan(call, v, who).Ok?
    ensures var w := Plan(call, v, who).value.directive;
            w.Write? && w.change.Overwrite? && w.entry.before != w.entry.after ==>
                MayMove(call, who, w.change.id, w.change.row.status)
    ensures var w := Plan(call, v, who).value.receipt;
            w.Write? && w.change.Overwrite? ==>
              && (call.ReceiptUpdate? || call.ReceiptTransition?) && w.change.id == call.id
              && (call.ReceiptTransition? <==> w.entry.before != w.entry.after)
              && (call.ReceiptTransition? ==> w.change.row.status == call.target)
    ensures call.ReceiptUpdate? ==> Overwrites(Plan(call, v, who).value.receipt, call.id, call.expected)
    ensures call.DirectiveTransition? ==>
              var w := Plan(call, v, who).value.directive;
              Overwrites(w, call.id, call.expected) && w.entry.before != w.entry.after
                  && w.change.row.status == call.target
    ensures call.ReceiptTransition? ==>
              var w := Plan(call, v, who).value.receipt;
                  Overwrites(w, call.id, call.expected) && w.change.row.status == call.target
  {
    hide PlanGateCreate, PlanGateUpdate, PlanGateTransition, PlanGateDelete, PlanDirectiveCreate, PlanDirectiveUpdate,
      PlanDirectiveDelete, PlanReceiptCreate, PlanReceiptUpdate, PlanReceiptDelete, PlanDirectiveTransition,
      PlanReceiptTransition, FindByCode, MayMove;
    if call.DirectiveTransition? {
      var current := Find(v.own.directives, call.id);
      var gate := if current.None? then None else LinkedGate(v.far, current.value.body.relatedCode);
      TransitionMoves(call.id, current, gate, call.expected, call.target, who);
    } else if call.ReceiptTransition? {
      var current := Find(v.own.receipts, call.id);
      var d := if current.None? then None else LinkedDirective(v.key, v.link, current.value.body.relatedCode);
      var gate := if d.None? then None else LinkedGate(v.far, d.value.row.body.relatedCode);
      OutcomeMoves(call.id, current, d, gate, call.expected, call.target, who);
    } else {
      EditMoves(call, v, who);
    }
  }

  lemma CommitMoves(db: DB, tx: Tx, next: DB, d: Id)
    requires Grounded(db, tx) && Commit(db, tx) == Ok(next) && d in db.directives
    ensures d in next.directives
    ensures next.directives[d].status != db.directives[d].status ==>
              && Rewrites(tx.directive, d) && tx.directive.entry.before == db.directives[d].status
              && tx.directive.entry.after == tx.directive.change.row.status == next.directives[d].status
    ensures forall r :: next.directives[d].status != db.directives[d].status && Rewrites(tx.receipt, r) ==>
        Linked(db, r, d)
  {
    hide Commit, ReceiptStep, Written, EqualFold, Signed;
    CommitEffect(db, tx);
    WrittenRow(db.directives, tx.directive, next.directives, d);
  }

  /** Every status change of a directive has an author: in any interleaving, a step that changes it is a committed
      transition of that very directive to that status by someone in a role that allows it, or the outcome of a
      receipt linked to it. */
  lemma EveryMoveHasAnAuthor(h: seq<DB>, es: seq<Event>, except: set<Id>, m: nat, d: Id)
    requires IsRun(h, es) && Honest(h, es) && Starts(h[0], except) && m < |es| && d in h[m].directives
    ensures d in h[m + 1].directives
    ensures h[m + 1].directives[d].status != h[m].directives[d].status ==>
              && CommittedAt(h, es, m) && MayMove(es[m].call, es[m].who, d, h[m + 1].directives[d].status)
              && (es[m].call.ReceiptTransition? ==> Linked(h[m], es[m].call.id, d))
  {
    hide Starts, Honest, Commits, Plan, Commit, Grounded, Consistent, Indexed, MayMove, DirectivesLater;
    StepAt(h, es, except, m);
    if CommittedAt(h, es, m) {
      var e, past := es[m], Upto(h, m);
      var tx := Planned(past, e).value;
      CommitMoves(h[m], tx, h[m + 1], d);
      PlanMoves(e.call, ViewsAt(past, e), e.who);
      assert e.call.ReceiptTransition? ==> Rewrites(tx.receipt, e.call.id);
    }
  }

  // ---- What a deletion reaches ----

  /** The two aggregates whose deletion is allowed in the initial status only. */
  predicate Transitions(call: Call, kind: Kind, id: Id) {
    match kind
    case GateUnit => false
    case OperationDirective => call.DirectiveTransition? && call.id == id
    case ExecutionConfirmation => call.ReceiptTransition? && call.id == id
  }

  predicate Deletes(call: Call, kind: Kind, id: Id) {
    match kind
    case GateUnit => false
    case OperationDirective => call == DirectiveDelete(id)
    case ExecutionConfirmation => call == ReceiptDelete(id)
  }

  lemma ReceiptMoves(db: DB, tx: Tx, next: DB, r: Id)
    requires Grounded(db, tx) && Commit(db, tx) == Ok(next) && r in db.receipts
    ensures r in next.receipts
    ensures next.receipts[r].status != db.receipts[r].status ==>
              Rewrites(tx.receipt, r) && tx.receipt.entry.before != tx.receipt.entry.after
  {
    hide Commit, ReceiptStep, DirectiveStep, Written;
    CommitEffect(db, tx);
    WrittenRow(db.receipts, tx.receipt, next.receipts, r);
  }

  lemma MayMoveFromDraft(call: Call, who: Caller, d: Id, s: Status)
    requires MayMove(call, who, d, s) && CanTransition(OperationDirective, Draft, s)
    ensures Transitions(call, OperationDirective, d)
  {
  }

  /** A committed transition takes its row out of the initial status. */
  lemma TransitionLands(db: DB, tx: Tx, next: DB, kind: Kind, id: Id, expected: nat)
    requires Grounded(db, tx) && Commit(db, tx) == Ok(next) && kind != GateUnit
    requires kind == OperationDirective ==>
        Overwrites(tx.directive, id, expected) && tx.directive.entry.before != tx.directive.entry.after
    requires kind == ExecutionConfirmation ==>
        Overwrites(tx.receipt, id, expected) && tx.receipt.entry.before != tx.receipt.entry.after
    ensures TableKind(next, kind, id).At? && TableKind(next, kind, id).status != Initial(kind)
  {
    hide Commit, ReceiptStep, DirectiveStep;
    CommitEffect(db, tx);
  }

  /** A row leaves its initial status only by a transition of its own, and that takes it out of it. */
  lemma LeavesInitialIff(h: seq<DB>, es: seq<Event>, except: set<Id>, m: nat, kind: Kind, id: Id)
    requires IsRun(h, es) && Honest(h, es) && Starts(h[0], except) && m < |es|
    requires kind != GateUnit && TableKind(h[m], kind, id).At? && TableKind(h[m], kind, id).status == Initial(kind)
    ensures TableKind(h[m + 1], kind, id).At?
    ensures TableKind(h[m + 1], kind, id).status != Initial(kind) <==>
        CommittedAt(h, es, m) && Transitions(es[m].call, kind, id)
  {
    hide Starts, Honest, Commits, Plan, Commit, Grounded, Consistent, Indexed, MayMove, DirectivesLater, Targets;
    StepAt(h, es, except, m);
    EveryHistoryIsWalk(h, es, except, m, kind, id);
    if CommittedAt(h, es, m) {
      var e, past := es[m], Upto(h, m);
      var tx := Planned(past, e).value;
      PlanMoves(e.call, ViewsAt(past, e), e.who);
      if Transitions(e.call, kind, id) {
        TransitionLands(h[m], tx, h[m + 1], kind, id, e.call.expected);
      } else if kind == OperationDirective {
        CommitMoves(h[m], tx, h[m + 1], id);
        if h[m + 1].directives[id].status != Draft {
          MayMoveFromDraft(e.call, e.who, id, h[m + 1].directives[id].status);
        }
      } else {
        ReceiptMoves(h[m], tx, h[m + 1], id);
      }
    }
  }

  ghost predicate MovedWithin(h: seq<DB>, es: seq<Event>, a: nat, b: nat, kind: Kind, id: Id)
    requires IsRun(h, es) && b <= |es|
  {
    exists m :: a <= m < b && CommittedAt(h, es, m) && Transitions(es[m].call, kind, id)
  }

  lemma NeverInitialAgain(kind: Kind, from: Status)
    requires kind != GateUnit
    ensures !CanTransition(kind, from, Initial(kind))
  {
  }

  lemma {:induction false} StillInitialIff(h: seq<DB>, es: seq<Event>, except: set<Id>, a: nat, b: nat, kind: Kind,
      id: Id)
    requires IsRun(h, es) && Honest(h, es) && Starts(h[0], except) && a <= b <= |es|
    requires kind != GateUnit && TableKind(h[a], kind, id).At? && TableKind(h[a], kind, id).status == Initial(kind)
    ensures TableKind(h[b], kind, id).At?
    ensures TableKind(h[b], kind, id).status == Initial(kind) <==> !MovedWithin(h, es, a, b, kind, id)
    decreases b - a
  {
    hide Starts, Honest, IsRun, CommittedAt, Transitions, Targets, TableKind;
    if a < b {
      var m := b - 1;
      RunLength(h, es);
      StillInitialIff(h, es, except, a, m, kind, id);
      if TableKind(h[m], kind, id).status == Initial(kind) {
        LeavesInitialIff(h, es, except, m, kind, id);
        assert MovedWithin(h, es, a, b, kind, id) <==> CommittedAt(h, es, m) && Transitions(es[m].call, kind, id);
      } else {
        EveryHistoryIsWalk(h, es, except, m, kind, id);
        NeverInitialAgain(kind, TableKind(h[m], kind, id).status);
      }
    }
  }

  /** A deletion was planned on a live row in its initial status, and commits on that row while it lives. */
  lemma DeletionCommits(h: seq<DB>, e: Event, kind: Kind, id: Id)
    requires InOrder(h, e) && Commits(h, e) && Deletes(e.call, kind, id)
    ensures var read := TableKind(h[e.own], kind, id);
            read.At? && !read.deleted && read.status == Initial(kind)
    ensures var was := TableKind(Now(h), kind, id);
            was.At? && !was.deleted && TableKind(After(h, e), kind, id) == was.(deleted := true)
  {
    hide EqualFold, Norm;
  }

  /** What a deletion reaches: a committed deletion of a directive deletes a draft, and one of a receipt a pending
      receipt, if and only if no transition of that row committed since the request read it. */
  lemma DeletionReachesInitialIff(h: seq<DB>, es: seq<Event>, except: set<Id>, i: nat, kind: Kind, id: Id)
    requires IsRun(h, es) && Honest(h, es) && Starts(h[0], except) && i < |es|
    requires Deletes(es[i].call, kind, id) && CommittedAt(h, es, i)
    ensures TableKind(h[i], kind, id).At? && !TableKind(h[i], kind, id).deleted
    ensures TableKind(h[i + 1], kind, id) == TableKind(h[i], kind, id).(deleted := true)
    ensures TableKind(h[i], kind, id).status == Initial(kind) <==>
              forall m :: es[i].own <= m < i && Transitions(es[m].call, kind, id) ==> !CommittedAt(h, es, m)
  {
    hide Starts, Honest, Commits, After, Transitions, TableKind;
    var past, e := Upto(h, i), es[i];
    assert Now(past) == h[i] && h[i + 1] == After(past, e) && past[e.own] == h[e.own];
    DeletionCommits(past, e, kind, id);
    StillInitialIff(h, es, except, e.own, i, kind, id);
  }

  /** Every state of a run of honest clients is itself a start of runs, so what holds of starts holds of it. */
  lemma EveryStateStarts(h: seq<DB>, es: seq<Event>, except: set<Id>, i: nat)
    requires IsRun(h, es) && Honest(h, es) && Starts(h[0], except) && i < |h|
    ensures Starts(h[i], except)
  {
    hide After, Shown, Consistent, ColumnsCopied, Indexed, Later, DirectivesOrdered, Journaled;
    RunIsSound(h, es, except);
  }

  // ---- When a receipt's copied columns are right ----

  ghost predicate UpdatedWithin(h: seq<DB>, es: seq<Event>, i: nat, r: Id)
    requires IsRun(h, es) && i <= |es|
  {
    exists m :: 0 <= m < i && CommittedAt(h, es, m) && Updates(es[m].call, r)
  }

  predicate Updates(call: Call, r: Id) {
    call.ReceiptUpdate? && call.id == r
  }

  lemma ReceiptColumns(db: DB, tx: Tx, next: DB, r: Id)
    requires Grounded(db, tx) && Commit(db, tx) == Ok(next) && r in db.receipts
    ensures r in next.receipts && next.receipts[r].body.relatedCode == db.receipts[r].body.relatedCode
    ensures if Rewrites(tx.receipt, r) && tx.receipt.entry.before == tx.receipt.entry.after
            then exists x :: CopiedFrom(db, x, next.receipts[r].body)
            else forall b: Directive :: Copies(next.receipts[r].body, b) <==> Copies(db.receipts[r].body, b)
  {
    hide Commit, DirectiveStep, Written, EqualFold, CopiedFrom;
    CommitEffect(db, tx);
    WrittenRow(db.receipts, tx.receipt, next.receipts, r);
  }

  lemma BusinessIsCopied(r: Receipt, b: Directive, c: Directive)
    requires Business(b) == Business(c)
    ensures Copies(r, b) <==> Copies(r, c)
  {
    assert Business(b).facility == b.facility && Business(b).category == b.category
        && Business(b).riskLevel == b.riskLevel;
  }

  lemma ColumnsInStep(db: DB, tx: Tx, next: DB, r: Id, d: Id)
    requires Grounded(db, tx) && Commit(db, tx) == Ok(next) && Linked(db, r, d)
    requires Indexed(db) && InAgreement(db) && DirectivesLater(db, next)
    ensures Linked(next, r, d)
    ensures Copies(next.receipts[r].body, next.directives[d].body) <==>
              || (Rewrites(tx.receipt, r) && tx.receipt.entry.before == tx.receipt.entry.after)
              || Copies(db.receipts[r].body, db.directives[d].body)
  {
    ReceiptColumns(db, tx, next, r);
    CommitMoves(db, tx, next, d);
    CommitEffect(db, tx);
    WrittenRow(db.directives, tx.directive, next.directives, d);
    hide Grounded, Commit, Written, Rewrites;
    assert StatusesAgree(db.receipts[r].status, db.directives[d].status);
    BusinessIsCopied(next.receipts[r].body, db.directives[d].body, next.directives[d].body);
  }

  /** From a start where the two are linked: the columns agree when they did, or after any committed update. */
  lemma {:induction false} ColumnsSinceStart(h: seq<DB>, es: seq<Event>, except: set<Id>, i: nat, r: Id, d: Id)
    requires IsRun(h, es) && Honest(h, es) && Starts(h[0], except) && i < |h| && Linked(h[0], r, d)
    ensures Linked(h[i], r, d)
    ensures Copies(h[i].receipts[r].body, h[i].directives[d].body) <==>
              Copies(h[0].receipts[r].body, h[0].directives[d].body) || UpdatedWithin(h, es, i, r)
  {
    hide Starts, Honest, Commits, Plan, Commit, Grounded, LinksStored, Evidenced, GateWords, Indexed, DirectivesLater,
        Copies, IsRun, Linked, InAgreement;
    RunLength(h, es);
    if i > 0 {
      var m := i - 1;
      ColumnsSinceStart(h, es, except, m, r, d);
      StepAt(h, es, except, m);
      assert UpdatedWithin(h, es, i, r) <==>
          UpdatedWithin(h, es, m, r) || (CommittedAt(h, es, m) && Updates(es[m].call, r));
      if CommittedAt(h, es, m) {
        var e, past := es[m], Upto(h, m);
        InOrderAt(h, es, m);
        var tx := Planned(past, e).value;
        PlanMoves(e.call, ViewsAt(past, e), e.who);
        assert Rewrites(tx.receipt, r) && tx.receipt.entry.before == tx.receipt.entry.after <==> Updates(e.call, r);
        ColumnsInStep(h[m], tx, h[i], r, d);
      }
    }
  }

  lemma InOrderAt(h: seq<DB>, es: seq<Event>, m: nat)
    requires IsRun(h, es) && m < |es|
    ensures InOrder(Upto(h, m), es[m])
  {
  }

  lemma SameLink(db: DB, r: Id, d: Id, x: Id)
    requires Indexed(db) && Linked(db, r, d) && Linked(db, r, x)
    ensures d == x
  {
  }

  /** When a receipt's facility, category and risk level are its directive's: in every state of every run, if and only
      if they were at the start, or the receipt was created since, or an update of it has committed. */
  lemma ReceiptColumnsAgreeIff(h: seq<DB>, es: seq<Event>, except: set<Id>, i: nat, r: Id, d: Id)
    requires IsRun(h, es) && Honest(h, es) && Starts(h[0], except) && i < |h| && Linked(h[i], r, d)
    ensures r in h[0].receipts ==> Linked(h[0], r, d)
    ensures Copies(h[i].receipts[r].body, h[i].directives[d].body) <==>
              || r !in h[0].receipts
              || Copies(h[0].receipts[r].body, h[0].directives[d].body)
              || UpdatedWithin(h, es, i, r)
  {
    hide Honest, InAgreement, Evidenced, GateWords, After, Copies, Shown, Journaled, DirectivesOrdered, Later;
    if r in h[0].receipts {
      var x :| Linked(h[0], r, x);
      ColumnsSinceStart(h, es, except, i, r, x);
      PrefixSound(h, es, except, i);
      SameLink(h[i], r, d, x);
    } else {
      var kept := except * h[0].receipts.Keys;
      assert ColumnsCopied(h[0], kept);
      ReceiptColumnsAgree(h, es, kept, i, r, d);
    }
  }
}
