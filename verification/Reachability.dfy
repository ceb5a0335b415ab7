/** The invariants of every run of honest clients: the induction that joins optimistic locking to
    agreement, evidence and the journal. */
module Reachability {
  import opened Prelude
  import opened Text
  import opened Status
  import opened Model
  import opened Transactions
  import opened Planning
  import opened Protocol
  import opened Evolution
  import opened OptimisticLock
  import opened Grounding
  import opened Agreement
  import opened Evidence
  import opened Journal

  predicate GateWord(s: Status) {
    s == Open || s == Closed || s == Moving || s == Locked
  }

  ghost predicate GateWords(db: DB) {
    forall g :: g in db.gates ==> GateWord(db.gates[g].status)
  }

  ghost predicate Consistent(db: DB) {
    LinksStored(db) && InAgreement(db) && Evidenced(db) && GateWords(db)
  }

  /** Receipts, except the listed ones, carry the facility, category and risk level of their directive. */
  ghost predicate ColumnsCopied(db: DB, except: set<Id>) {
    forall r, d :: r !in except && Linked(db, r, d) ==> Copies(db.receipts[r].body, db.directives[d].body)
  }

  lemma GateWordsKept(db: DB, tx: Tx)
    requires GateWords(db) && Grounded(db, tx) && Commit(db, tx).Ok?
    ensures GateWords(Commit(db, tx).value)
  {
    hide Commit, DirectiveStep, ReceiptStep;
    CommitEffect(db, tx);
  }

  lemma DirectivesLaterKept(db: DB, tx: Tx)
    requires Grounded(db, tx) && Commit(db, tx).Ok?
    ensures DirectivesLater(db, Commit(db, tx).value)
  {
    hide Commit, ReceiptStep, Settles, Signed, EqualFold;
    CommitEffect(db, tx);
  }

  lemma ColumnsKept(db: DB, tx: Tx, except: set<Id>)
    requires Indexed(db) && LinksStored(db) && InAgreement(db) && ColumnsCopied(db, except) && Grounded(db, tx)
        && Commit(db, tx).Ok?
    ensures ColumnsCopied(Commit(db, tx).value, except)
  {
    hide Commit, Written, Faithful, DirectiveStep, ReceiptStep, Norm, LinkClash, ApplyApproval, Entry, Indexed;
    var b := Commit(db, tx).value;
    CommitEffect(db, tx);
    DirectivesLaterKept(db, tx);
    forall r, d | r !in except && Linked(b, r, d)
      ensures Copies(b.receipts[r].body, b.directives[d].body)
    {
      ColumnsOfPair(db, tx, b, except, r, d);
    }
  }

  lemma ColumnsOfPair(db: DB, tx: Tx, b: DB, except: set<Id>, r: Id, d: Id)
    requires Indexed(db) && LinksStored(db) && InAgreement(db) && ColumnsCopied(db, except) && Grounded(db, tx)
    requires Written(db.receipts, tx.receipt, b.receipts) && Written(db.directives, tx.directive, b.directives)
    requires DirectivesLater(db, b) && r !in except && Linked(b, r, d)
    ensures Copies(b.receipts[r].body, b.directives[d].body)
  {
    hide Faithful, DirectiveStep, EqualFold, Norm, InAgreement;
    if r !in db.receipts {
      var x :| CopiedFrom(db, x, tx.receipt.change.row.body);
      assert x == d;
    } else if d !in db.directives {
      InsertedDirectiveUnlinked(db, tx, b, r, d);
    } else {
      OldColumns(db, tx, b, except, r, d);
    }
  }

  lemma OldColumns(db: DB, tx: Tx, b: DB, except: set<Id>, r: Id, d: Id)
    requires Indexed(db) && InAgreement(db) && ColumnsCopied(db, except) && Grounded(db, tx)
    requires Written(db.receipts, tx.receipt, b.receipts) && Written(db.directives, tx.directive, b.directives)
    requires DirectivesLater(db, b) && r !in except && Linked(b, r, d) && r in db.receipts && d in db.directives
    ensures Copies(b.receipts[r].body, b.directives[d].body)
  {
    hide Faithful, DirectiveStep, EqualFold, Written;
    WrittenRow(db.directives, tx.directive, b.directives, d);
    WrittenRow(db.receipts, tx.receipt, b.receipts, r);
    assert Linked(db, r, d);
    assert StatusesAgree(db.receipts[r].status, db.directives[d].status);
    assert Business(b.directives[d].body) == Business(db.directives[d].body);
  }

  ghost predicate DirectivesOrdered(h: seq<DB>) {
    forall i, j :: 0 <= i <= j < |h| ==> DirectivesLater(h[i], h[j])
  }

  lemma SettledPlan(h: seq<DB>, e: Event, tx: Tx) returns (v: Views)
    requires Ordered(h) && InOrder(h, e) && Commits(h, e) && Shown(h, e) && !IsDelete(e.call) && Planned(h, e) == Ok(tx)
    ensures v == ReadsAtCommit(h, e, tx) && Plan(e.call, v, e.who) == Ok(tx) && v.own == Now(h)
  {
    hide Plan, Commit, Shown, Ordered;
    ReadsSettleAtCommit(h, e);
    v := ReadsAtCommit(h, e, tx);
  }

  lemma DirectiveTransitionStep(h: seq<DB>, e: Event, tx: Tx)
    requires Ordered(h) && InOrder(h, e) && Commits(h, e) && Shown(h, e) && Planned(h, e) == Ok(tx)
    requires e.call.DirectiveTransition?
    ensures Grounded(Now(h), tx)
  {
    hide Commits, Planned, Shown, Ordered, Grounded, PlanDirectiveTransition, FindByCode;
    var v := SettledPlan(h, e, tx);
    var db, id := Now(h), e.call.id;
    var current := Find(db.directives, id);
    var gate := if current.None? then None else LinkedGate(v.far, current.value.body.relatedCode);
    DirectiveTransitionWrites(id, current, gate, e.call.expected, e.call.target, e.who);
    DirectiveTransitionGrounded(db, tx, id, gate, e.call.expected, e.call.target, e.who);
  }

  lemma ReceiptTransitionStep(h: seq<DB>, e: Event, tx: Tx)
    requires Ordered(h) && InOrder(h, e) && Commits(h, e) && Shown(h, e) && Planned(h, e) == Ok(tx)
    requires e.call.ReceiptTransition? && LinksStored(Now(h))
    ensures Grounded(Now(h), tx)
  {
    hide Commits, Planned, Shown, Ordered, Grounded, PlanReceiptTransition, FindByCode, LinksStored, Norm;
    var v := SettledPlan(h, e, tx);
    var db, id := Now(h), e.call.id;
    var current := Find(db.receipts, id);
    if current.None? {
      NoCurrentReceipt(id, None, None, e.call.expected, e.call.target, e.who);
    } else {
      var d := LinkedDirective(v.key, v.link, current.value.body.relatedCode);
      var gate := if d.None? then None else LinkedGate(v.far, d.value.row.body.relatedCode);
      ReceiptTransitionWrites(id, current, d, gate, e.call.expected, e.call.target, e.who);
      ReceiptTransitionGrounded(db, tx, id, d, gate, e.call.expected, e.call.target, e.who);
    }
  }

  lemma ReceiptEditStep(h: seq<DB>, e: Event, tx: Tx)
    requires Ordered(h) && DirectivesOrdered(h) && InOrder(h, e) && Commits(h, e) && Shown(h, e)
        && Planned(h, e) == Ok(tx)
    requires e.call.ReceiptCreate? || e.call.ReceiptUpdate?
    requires LinksStored(Now(h))
    ensures Grounded(Now(h), tx)
  {
    hide Commits, Planned, Shown, Grounded, Plan, LinksStored, Indexed, TableLater, DirectivesLater;
    var v := SettledPlan(h, e, tx);
    assert Later(h[e.key], h[e.link]) && Later(h[e.link], Now(h)) && Later(Now(h), Now(h));
    assert DirectivesLater(h[e.link], Now(h)) && DirectivesLater(Now(h), Now(h));
    ReceiptEditGrounded(Now(h), tx, v, e.call, e.who);
  }

  lemma DeleteStep(h: seq<DB>, e: Event, tx: Tx)
    requires InOrder(h, e) && Planned(h, e) == Ok(tx) && IsDelete(e.call)
    ensures Grounded(Now(h), tx)
  {
    hide Grounded;
    if e.call.GateDelete? {
      GateCallGrounded(Now(h), tx, ViewsAt(h, e), e.call, e.who);
    } else if e.call.DirectiveDelete? {
      DirectiveEditGrounded(Now(h), tx, ViewsAt(h, e), e.call, e.who);
    } else {
      ReceiptDeleteGrounded(Now(h), tx, e.call.id, Find(h[e.own].receipts, e.call.id), e.who);
    }
  }

  /** Every transaction an honest client commits is grounded in the state it commits on. */
  lemma StepIsGrounded(h: seq<DB>, e: Event)
    requires InOrder(h, e) && Commits(h, e) && Shown(h, e)
    requires Ordered(h) && DirectivesOrdered(h) && LinksStored(Now(h))
    ensures Grounded(Now(h), Planned(h, e).value)
  {
    hide Planned, Shown, Ordered, DirectivesOrdered, Grounded, Plan, LinksStored;
    var tx := Planned(h, e).value;
    if IsDelete(e.call) {
      DeleteStep(h, e, tx);
    } else if e.call.DirectiveTransition? {
      DirectiveTransitionStep(h, e, tx);
    } else if e.call.ReceiptTransition? {
      ReceiptTransitionStep(h, e, tx);
    } else if e.call.ReceiptCreate? || e.call.ReceiptUpdate? {
      ReceiptEditStep(h, e, tx);
    } else {
      var v := SettledPlan(h, e, tx);
      if e.call.DirectiveCreate? || e.call.DirectiveUpdate? {
        DirectiveEditGrounded(Now(h), tx, v, e.call, e.who);
      } else {
        GateCallGrounded(Now(h), tx, v, e.call, e.who);
      }
    }
  }

  /** What one step keeps. */
  lemma StepKeeps(h: seq<DB>, e: Event, origin: DB, except: set<Id>)
    requires Ordered(h) && DirectivesOrdered(h) && InOrder(h, e) && Shown(h, e)
    requires Indexed(Now(h)) && Consistent(Now(h)) && Journaled(origin, Now(h)) && ColumnsCopied(Now(h), except)
    ensures Consistent(After(h, e)) && Journaled(origin, After(h, e)) && ColumnsCopied(After(h, e), except)
    ensures DirectivesLater(Now(h), After(h, e))
  {
    hide Planned, Shown, Ordered, DirectivesOrdered, Grounded, Commit, LinksStored, InAgreement, Evidenced, GateWords,
         Journaled, ColumnsCopied, Indexed;
    if Commits(h, e) {
      hide DirectivesLater;
      StepIsGrounded(h, e);
      var db, tx := Now(h), Planned(h, e).value;
      AgreementKept(db, tx);
      EvidenceKept(db, tx);
      GateWordsKept(db, tx);
      ColumnsKept(db, tx, except);
      DirectivesLaterKept(db, tx);
      JournalKept(origin, db, tx);
    }
  }

  /** All invariants of a run, over the states it has gone through. */
  ghost predicate Sound(h: seq<DB>, except: set<Id>)
    requires h != []
  {
    && Ordered(h)
    && DirectivesOrdered(h)
    && (forall i :: 0 <= i < |h| ==> Consistent(h[i]))
    && (forall i :: 0 <= i < |h| ==> Journaled(h[0], h[i]))
    && (forall i :: 0 <= i < |h| ==> ColumnsCopied(h[i], except))
  }

  /** Where runs may start: an empty or a seeded database, for instance. */
  ghost predicate Starts(db: DB, except: set<Id>) {
    Indexed(db) && Consistent(db) && ColumnsCopied(db, except)
  }

  lemma DirectivesLaterTransitive(a: DB, b: DB, c: DB)
    requires Later(a, b) && DirectivesLater(a, b) && DirectivesLater(b, c)
    ensures DirectivesLater(a, c)
  {
  }

  lemma DirectivesLaterReflexive(a: DB)
    ensures DirectivesLater(a, a)
  {
  }

  lemma JournaledAtStart(db: DB)
    ensures Journaled(db, db)
  {
  }

  lemma ExtendDirectivesOrdered(h: seq<DB>, b: DB)
    requires h != [] && Ordered(h) && DirectivesOrdered(h) && DirectivesLater(Now(h), b)
    ensures DirectivesOrdered(h + [b])
  {
    hide Later, DirectivesLater, Indexed;
    var k := h + [b];
    forall i, j | 0 <= i <= j < |k|
      ensures DirectivesLater(k[i], k[j])
    {
      if i < |h| == j {
        assert Later(h[i], Now(h)) && DirectivesLater(h[i], Now(h));
        DirectivesLaterTransitive(h[i], Now(h), b);
      } else if i == |h| {
        DirectivesLaterReflexive(b);
      } else {
        assert DirectivesLater(h[i], h[j]);
      }
    }
  }

  /** Every run of honest clients is sound, in every interleaving of any number of requests. */
  lemma {:induction false} RunIsSound(h: seq<DB>, es: seq<Event>, except: set<Id>)
    requires IsRun(h, es) && Honest(h, es) && Starts(h[0], except)
    ensures Sound(h, except)
  {
    hide Indexed, Consistent, Journaled, ColumnsCopied, Ordered, DirectivesOrdered, After, Shown;
    RunIsOrdered(h, es);
    var n := |es|;
    if n == 0 {
      assert h == [h[0]];
      JournaledAtStart(h[0]);
      OneState(h[0]);
    } else {
      var g := h[..n];
      RunPrefix(h, es, n - 1);
      RunIsSound(g, es[..n - 1], except);
      assert Upto(h, n - 1) == g && Now(g) == g[n - 1];
      OrderedAt(g, n - 1);
      StepKeeps(g, es[n - 1], h[0], except);
      ExtendDirectivesOrdered(g, h[n]);
      assert g + [h[n]] == h;
      assert forall i :: 0 <= i < n ==> h[i] == g[i];
    }
  }

  lemma OneState(a: DB)
    ensures DirectivesOrdered([a])
  {
  }

  lemma OrderedAt(h: seq<DB>, i: nat)
    requires Ordered(h) && i < |h|
    ensures Indexed(h[i])
  {
  }
}
