/** Results about whole runs, drawn from the invariants. */
module Outcomes {
  import opened Prelude
  import opened Text
  import opened Status
  import opened Model
  import opened Transactions
  import opened Planning
  import opened Protocol
  import opened Evolution
  import opened Grounding
  import opened Agreement
  import opened Evidence
  import opened Journal
  import opened Reachability

  // ---- Single outcome ----

  /** The request asks to end a directive it found executing: an abort, a confirmation or a failure. */
  ghost predicate EndsDirective(h: seq<DB>, e: Event, d: Id)
    requires InOrder(h, e)
  {
    var p := Planned(h, e);
    && p.Ok?
    && Rewrites(p.value.directive, d)
    && p.value.directive.entry.before == Executing && Ended(p.value.directive.entry.after)
  }

  lemma EndedAfterCommit(db: DB, tx: Tx, d: Id)
    requires Grounded(db, tx) && Commit(db, tx).Ok?
    requires Rewrites(tx.directive, d) && tx.directive.entry.before == Executing && Ended(tx.directive.entry.after)
    ensures d in db.directives && db.directives[d].status == Executing
    ensures d in Commit(db, tx).value.directives && Ended(Commit(db, tx).value.directives[d].status)
  {
    hide Commit, DirectiveStep, ReceiptStep, Written;
    CommitEffect(db, tx);
    WrittenRow(db.directives, tx.directive, Commit(db, tx).value.directives, d);
  }

  lemma EndingStep(h: seq<DB>, e: Event, d: Id)
    requires InOrder(h, e) && Commits(h, e) && Shown(h, e) && EndsDirective(h, e, d)
    requires Ordered(h) && DirectivesOrdered(h) && LinksStored(Now(h))
    ensures d in Now(h).directives && Now(h).directives[d].status == Executing
    ensures d in After(h, e).directives && Ended(After(h, e).directives[d].status)
  {
    hide Planned, Ordered, DirectivesOrdered, LinksStored, Shown, Grounded, Commit;
    StepIsGrounded(h, e);
    EndedAfterCommit(Now(h), Planned(h, e).value, d);
  }

  lemma PrefixSound(h: seq<DB>, es: seq<Event>, except: set<Id>, i: nat)
    requires IsRun(h, es) && Honest(h, es) && Starts(h[0], except) && i < |h|
    ensures Sound(h, except) && Sound(Upto(h, i), except)
    ensures LinksStored(h[i]) && Now(Upto(h, i)) == h[i]
  {
    hide Starts, After, Shown, Ordered, DirectivesOrdered, Journaled, ColumnsCopied, LinksStored;
    RunIsSound(h, es, except);
    RunPrefix(h, es, i);
    RunIsSound(Upto(h, i), es[..i], except);
    assert Consistent(h[i]);
  }

  /** Single outcome: of any two requests that would end the same executing directive, at most one
      commits, and the other leaves every table and both logs exactly as they were. */
  lemma SingleOutcome(h: seq<DB>, es: seq<Event>, except: set<Id>, i: nat, j: nat, d: Id)
    requires IsRun(h, es) && Honest(h, es) && Starts(h[0], except) && i < j < |es|
    requires EndsDirective(Upto(h, i), es[i], d) && EndsDirective(Upto(h, j), es[j], d)
    requires Commits(Upto(h, i), es[i])
    ensures !Commits(Upto(h, j), es[j]) && h[j + 1] == h[j]
  {
    hide Starts, EndsDirective, Shown, Ordered, Journaled, ColumnsCopied, LinksStored, Planned, Commits, Consistent;
    PrefixSound(h, es, except, i);
    PrefixSound(h, es, except, j);
    hide DirectivesOrdered;
    EndingStep(Upto(h, i), es[i], d);
    if Commits(Upto(h, j), es[j]) {
      EndingStep(Upto(h, j), es[j], d);
      EndedStays(h, i + 1, j, d);
      assert false;
    }
  }

  lemma EndedStays(h: seq<DB>, i: nat, j: nat, d: Id)
    requires Ordered(h) && DirectivesOrdered(h) && i <= j < |h|
    requires d in h[i].directives && Ended(h[i].directives[d].status)
    ensures d in h[j].directives && h[j].directives[d].status == h[i].directives[d].status
  {
    hide Indexed;
    assert Later(h[i], h[j]) && DirectivesLater(h[i], h[j]);
  }

  // ---- Agreement ----

  /** In every state of every run, soft-deleted rows included, a directive is completed exactly when a
      receipt linked to it is confirmed, and there is never more than one receipt linked to it. */
  lemma CompletedIffConfirmed(h: seq<DB>, es: seq<Event>, except: set<Id>, i: nat, d: Id)
    requires IsRun(h, es) && Honest(h, es) && Starts(h[0], except) && i < |h| && d in h[i].directives
    ensures h[i].directives[d].status == Completed <==> exists r :: ConfirmedBy(h[i], r, d)
    ensures forall r :: Linked(h[i], r, d) ==> StatusesAgree(h[i].receipts[r].status, h[i].directives[d].status)
    ensures forall r, s :: Linked(h[i], r, d) && Linked(h[i], s, d) ==> r == s
  {
    hide Starts, After, Shown, Journaled, ColumnsCopied, DirectivesOrdered, Evidenced, GateWords, UniqueStages, Later;
    RunIsSound(h, es, except);
    assert Consistent(h[i]) && Indexed(h[i]);
  }

  // ---- One receipt per directive ----

  /** A receipt whose checks passed is created exactly when its key, code and link are still unused, soft-deleted
      receipts included: the check on existing receipts sees neither those nor ones created since it ran, the
      unique index sees both. */
  lemma ReceiptCreatedIffUnused(h: seq<DB>, e: Event)
    requires InOrder(h, e) && e.call.ReceiptCreate? && Planned(h, e).Ok? && !e.fault
    ensures LinkOf(h, e).Some?
    ensures var t := Now(h).receipts;
            Commits(h, e) <==>
              e.call.newId !in t && !CodeTaken(t, Norm(e.call.code))
                  && (forall r :: r in t ==> t[r].body.relatedCode != LinkOf(h, e).value)
  {
    hide LinkedDirective, HasReceipt, BusinessFieldsMissing, Norm;
  }

  /** The directive code a creation links its receipt to. */
  ghost function LinkOf(h: seq<DB>, e: Event): Option<string>
    requires InOrder(h, e)
  {
    var p := Planned(h, e);
    if p.Ok? && p.value.receipt.Write? && p.value.receipt.change.Insert?
        then Some(p.value.receipt.change.row.body.relatedCode) else None
  }

  lemma LinkStaysInStep(h: seq<DB>, e: Event, r: Id)
    requires InOrder(h, e) && Shown(h, e) && Ordered(h) && DirectivesOrdered(h) && LinksStored(Now(h))
    requires r in Now(h).receipts
    ensures r in After(h, e).receipts && After(h, e).receipts[r].body.relatedCode == Now(h).receipts[r].body.relatedCode
  {
    hide Planned, Shown, Ordered, DirectivesOrdered, LinksStored, Commit, DirectiveStep;
    if Commits(h, e) {
      StepIsGrounded(h, e);
      var db, tx := Now(h), Planned(h, e).value;
      CommitEffect(db, tx);
      WrittenRow(db.receipts, tx.receipt, Commit(db, tx).value.receipts, r);
    }
  }

  /** The link of a stored receipt never changes. */
  lemma {:induction false} LinkStays(h: seq<DB>, es: seq<Event>, except: set<Id>, i: nat, j: nat, r: Id)
    requires IsRun(h, es) && Honest(h, es) && Starts(h[0], except) && i <= j < |h| && r in h[i].receipts
    ensures r in h[j].receipts && h[j].receipts[r].body.relatedCode == h[i].receipts[r].body.relatedCode
    decreases j - i
  {
    hide Starts, After, Shown, Ordered, DirectivesOrdered, Journaled, ColumnsCopied, LinksStored, Consistent;
    if i < j {
      LinkStays(h, es, except, i, j - 1, r);
      PrefixSound(h, es, except, j - 1);
      assert Shown(Upto(h, j - 1), es[j - 1]);
      LinkStaysInStep(Upto(h, j - 1), es[j - 1], r);
      assert h[j] == After(Upto(h, j - 1), es[j - 1]);
    }
  }

  /** Of any two creations linked to the same directive at most one commits, even when both passed the check before
      either committed, and even when the first receipt is deleted before the second creation. */
  lemma OneReceiptEver(h: seq<DB>, es: seq<Event>, except: set<Id>, i: nat, j: nat)
    requires IsRun(h, es) && Honest(h, es) && Starts(h[0], except) && i < j < |es|
    requires es[i].call.ReceiptCreate? && es[j].call.ReceiptCreate?
    requires LinkOf(Upto(h, i), es[i]).Some? && LinkOf(Upto(h, i), es[i]) == LinkOf(Upto(h, j), es[j])
    requires Commits(Upto(h, i), es[i])
    ensures !Commits(Upto(h, j), es[j]) && h[j + 1] == h[j]
  {
    hide Starts, Honest, Plan, Norm, Shown;
    var first := Upto(h, i);
    var r := es[i].call.newId;
    CreatedAt(first, es[i]);
    assert h[i + 1] == After(first, es[i]);
    LinkStays(h, es, except, i + 1, j, r);
    if !es[j].fault && Planned(Upto(h, j), es[j]).Ok? {
      ReceiptCreatedIffUnused(Upto(h, j), es[j]);
      assert Now(Upto(h, j)) == h[j];
    }
  }

  lemma CreatedAt(h: seq<DB>, e: Event)
    requires InOrder(h, e) && e.call.ReceiptCreate? && Commits(h, e)
    ensures var t := After(h, e).receipts;
            e.call.newId in t && LinkOf(h, e) == Some(t[e.call.newId].body.relatedCode)
  {
    hide LinkedDirective, HasReceipt, BusinessFieldsMissing, Norm;
  }

  // ---- Frozen after draft ----

  /** Once a directive has left draft its business columns, gate link and target state never change. */
  lemma FrozenAfterDraft(h: seq<DB>, es: seq<Event>, except: set<Id>, i: nat, j: nat, d: Id)
    requires IsRun(h, es) && Honest(h, es) && Starts(h[0], except) && i <= j < |h|
    requires d in h[i].directives && h[i].directives[d].status != Draft
    ensures d in h[j].directives && Business(h[j].directives[d].body) == Business(h[i].directives[d].body)
  {
    hide Starts, After, Shown, Journaled, ColumnsCopied, Consistent, Indexed;
    RunIsSound(h, es, except);
    assert Later(h[i], h[j]) && DirectivesLater(h[i], h[j]);
  }

  /** So every receipt, except those that started otherwise, keeps its directive's facility, category and risk level. */
  lemma ReceiptColumnsAgree(h: seq<DB>, es: seq<Event>, except: set<Id>, i: nat, r: Id, d: Id)
    requires IsRun(h, es) && Honest(h, es) && Starts(h[0], except) && i < |h|
    requires r !in except && Linked(h[i], r, d)
    ensures Copies(h[i].receipts[r].body, h[i].directives[d].body)
  {
    hide Starts, After, Shown, Journaled, Consistent, Indexed, Ordered, DirectivesOrdered;
    RunIsSound(h, es, except);
    assert ColumnsCopied(h[i], except);
  }

  // ---- Journal ----

  function TableKind(db: DB, kind: Kind, id: Id): Track {
    match kind
    case GateUnit => TrackOf(db.gates, id)
    case OperationDirective => TrackOf(db.directives, id)
    case ExecutionConfirmation => TrackOf(db.receipts, id)
  }

  /** Audit replay: in every state the entries written so far carry each row from its start to what is stored. */
  lemma AuditReplays(h: seq<DB>, es: seq<Event>, except: set<Id>, i: nat, kind: Kind, id: Id)
    requires IsRun(h, es) && Honest(h, es) && Starts(h[0], except) && i < |h|
    ensures h[0].audits <= h[i].audits
    ensures Replay(kind, id, TableKind(h[0], kind, id), h[i].audits[|h[0].audits|..]) == TableKind(h[i], kind, id)
  {
    hide Starts, After, Shown, Consistent, Indexed, Ordered, DirectivesOrdered, ColumnsCopied, Replay, TrackOf;
    RunIsSound(h, es, except);
    assert Journaled(h[0], h[i]);
  }

  /** Version conservation, exactly one delete entry for a deleted row and none otherwise, and bounded status changes.
      */
  lemma EntriesAccounted(h: seq<DB>, es: seq<Event>, except: set<Id>, i: nat, kind: Kind, id: Id)
    requires IsRun(h, es) && Honest(h, es) && Starts(h[0], except) && i < |h| && TableKind(h[i], kind, id).At?
    requires TableKind(h[0], kind, id).At? ==>
        TableKind(h[0], kind, id).version == 1 && !TableKind(h[0], kind, id).deleted
    ensures h[0].audits <= h[i].audits
    ensures var log := h[i].audits[|h[0].audits|..];
            && TableKind(h[i], kind, id).version == 1 + CountUpdates(kind, id, log)
            && CountDeletes(kind, id, log) == (if TableKind(h[i], kind, id).deleted then 1 else 0)
            && (kind == OperationDirective ==> CountMoves(kind, id, log) <= 4)
            && (kind == ExecutionConfirmation ==> CountMoves(kind, id, log) <= 2)
  {
    hide IsRun, Honest, Starts, Replay, CountUpdates, CountDeletes, CountMoves;
    AuditReplays(h, es, except, i, kind, id);
    var log := h[i].audits[|h[0].audits|..];
    var start := TableKind(h[0], kind, id);
    VersionIsCount(kind, id, start, log);
    DeletedOnce(kind, id, start, log);
    MovesBounded(kind, id, start, log);
  }

  // ---- Walks in the transition graphs ----

  lemma GroundedWalk(db: DB, tx: Tx, kind: Kind, id: Id)
    requires Grounded(db, tx) && Commit(db, tx).Ok? && TableKind(db, kind, id).At?
    ensures var t, u := TableKind(db, kind, id), TableKind(Commit(db, tx).value, kind, id);
            u.At? && (u.status == t.status || CanTransition(kind, t.status, u.status))
  {
    hide Commit, DirectiveStep, ReceiptStep, Written;
    var b := Commit(db, tx).value;
    CommitEffect(db, tx);
    match kind
    case GateUnit => WrittenRow(db.gates, tx.gate, b.gates, id);
    case OperationDirective => WrittenRow(db.directives, tx.directive, b.directives, id);
    case ExecutionConfirmation => WrittenRow(db.receipts, tx.receipt, b.receipts, id);
  }

  /** Graph conformance: from each state of a run to the next, every row stays or moves along an edge of its graph,
      whichever service wrote it and whatever was interleaved. */
  lemma EveryHistoryIsWalk(h: seq<DB>, es: seq<Event>, except: set<Id>, i: nat, kind: Kind, id: Id)
    requires IsRun(h, es) && Honest(h, es) && Starts(h[0], except) && i < |es| && TableKind(h[i], kind, id).At?
    ensures var t, u := TableKind(h[i], kind, id), TableKind(h[i + 1], kind, id);
            u.At? && (u.status == t.status || CanTransition(kind, t.status, u.status))
  {
    hide Starts, Shown, Ordered, DirectivesOrdered, Journaled, ColumnsCopied, LinksStored, Planned, Commit, Grounded,
        TrackOf, Consistent;
    PrefixSound(h, es, except, i);
    var past := Upto(h, i);
    assert Shown(past, es[i]) && h[i + 1] == After(past, es[i]);
    if Commits(past, es[i]) {
      StepIsGrounded(past, es[i]);
      GroundedWalk(h[i], Planned(past, es[i]).value, kind, id);
    }
  }

  /** What may come next, status by status. From each state of an honest run to the next, a gate that changes goes from
      open or closed to moving or locked, from moving to anywhere else, and from locked to closed only; */
  lemma GateNext(h: seq<DB>, es: seq<Event>, except: set<Id>, i: nat, g: Id)
    requires IsRun(h, es) && Honest(h, es) && Starts(h[0], except) && i < |es| && g in h[i].gates
    ensures g in h[i + 1].gates
    ensures var s, t := h[i].gates[g].status, h[i + 1].gates[g].status;
            s != t ==>
              && (s == Open || s == Closed ==> t == Moving || t == Locked)
              && (s == Moving ==> t == Open || t == Closed || t == Locked)
              && (s == Locked ==> t == Closed)
              && (s == Open || s == Closed || s == Moving || s == Locked)
  {
    hide Honest, IsRun, Starts, Targets;
    RunLength(h, es);
    EveryHistoryIsWalk(h, es, except, i, GateUnit, g);
    EdgesWritten(h[i].gates[g].status, h[i + 1].gates[g].status);
  }

  /** a directive goes from draft to pending, from there to approved, from there to executing and from there to
      completed, or from any but the draft to aborted; completed and aborted are final; */
  lemma DirectiveNext(h: seq<DB>, es: seq<Event>, except: set<Id>, i: nat, d: Id)
    requires IsRun(h, es) && Honest(h, es) && Starts(h[0], except) && i < |es| && d in h[i].directives
    ensures d in h[i + 1].directives
    ensures var s, t := h[i].directives[d].status, h[i + 1].directives[d].status;
            s != t ==>
              && (s == Draft ==> t == Pending)
              && (s == Pending ==> t == Approved || t == Aborted)
              && (s == Approved ==> t == Executing || t == Aborted)
              && (s == Executing ==> t == Completed || t == Aborted)
              && (s == Draft || s == Pending || s == Approved || s == Executing)
  {
    hide Honest, IsRun, Starts, Targets;
    RunLength(h, es);
    EveryHistoryIsWalk(h, es, except, i, OperationDirective, d);
    EdgesWritten(h[i].directives[d].status, h[i + 1].directives[d].status);
  }

  /** and a receipt goes from pending to confirmed or failed, and from failed to cancelled; confirmed and cancelled are
      final. */
  lemma ReceiptNext(h: seq<DB>, es: seq<Event>, except: set<Id>, i: nat, r: Id)
    requires IsRun(h, es) && Honest(h, es) && Starts(h[0], except) && i < |es| && r in h[i].receipts
    ensures r in h[i + 1].receipts
    ensures var s, t := h[i].receipts[r].status, h[i + 1].receipts[r].status;
            s != t ==>
              && (s == Pending ==> t == Confirmed || t == Failed)
              && (s == Failed ==> t == Cancelled)
              && (s == Pending || s == Failed)
  {
    hide Honest, IsRun, Starts, Targets;
    RunLength(h, es);
    EveryHistoryIsWalk(h, es, except, i, ExecutionConfirmation, r);
    EdgesWritten(h[i].receipts[r].status, h[i + 1].receipts[r].status);
  }

  /** A gate closed or locked in one state and open in a later one has been moving in between. */
  lemma {:induction false} GateOpensThroughMoving(h: seq<DB>, es: seq<Event>, except: set<Id>, i: nat, j: nat, g: Id)
      returns (m: nat)
    requires IsRun(h, es) && Honest(h, es) && Starts(h[0], except) && i <= j < |h|
    requires g in h[i].gates && (h[i].gates[g].status == Closed || h[i].gates[g].status == Locked)
    requires g in h[j].gates && h[j].gates[g].status == Open
    ensures i < m < j && g in h[m].gates && h[m].gates[g].status == Moving
    decreases j - i
  {
    hide Honest, IsRun, Starts;
    RunLength(h, es);
    EveryHistoryIsWalk(h, es, except, i, GateUnit, g);
    if h[i + 1].gates[g].status == Moving {
      m := i + 1;
    } else {
      m := GateOpensThroughMoving(h, es, except, i + 1, j, g);
    }
  }

  lemma RunLength(h: seq<DB>, es: seq<Event>)
    requires IsRun(h, es)
    ensures |h| == |es| + 1
  {
  }

  // ---- Deletion and links ----

  /** Deletion is final: the row never changes again and no later entry names it. */
  lemma DeletionIsFinal(h: seq<DB>, es: seq<Event>, except: set<Id>, i: nat, j: nat, kind: Kind, id: Id)
    requires IsRun(h, es) && Honest(h, es) && Starts(h[0], except) && i <= j < |h|
    requires TableKind(h[i], kind, id).At? && TableKind(h[i], kind, id).deleted
    ensures TableKind(h[j], kind, id) == TableKind(h[i], kind, id)
    ensures h[i].audits <= h[j].audits
    ensures forall k :: |h[i].audits| <= k < |h[j].audits| ==> !Names(h[j].audits[k], kind, id)
  {
    hide Honest, Starts, After, Replay, Shown;
    AuditReplays(h, es, except, i, kind, id);
    AuditReplays(h, es, except, j, kind, id);
    LogGrows(h, es, except, i, j);
    var n := |h[0].audits|;
    var log, m := h[j].audits[n..], |h[i].audits| - n;
    assert log[..m] == h[i].audits[n..];
    SilentAfterDelete(kind, id, TableKind(h[0], kind, id), log, m);
    assert forall k :: |h[i].audits| <= k < |h[j].audits| ==> h[j].audits[k] == log[k - n];
  }

  /** A directive whose receipt was deleted before it was confirmed can never be completed, only aborted, and never gets
      another receipt: the deleted row keeps its place in the unique index. */
  lemma DeletedReceiptBlocks(h: seq<DB>, es: seq<Event>, except: set<Id>, i: nat, j: nat, r: Id, d: Id)
    requires IsRun(h, es) && Honest(h, es) && Starts(h[0], except) && i <= j < |h|
    requires Linked(h[i], r, d) && h[i].receipts[r].deleted && h[i].receipts[r].status != Confirmed
    ensures Linked(h[j], r, d) && h[j].receipts[r].deleted
    ensures h[j].directives[d].status == Executing || h[j].directives[d].status == Aborted
    ensures forall x :: Linked(h[j], x, d) ==> x == r
    ensures j < |es| && es[j].call.ReceiptCreate? && LinkOf(Upto(h, j), es[j]) == Some(h[j].directives[d].code) ==>
              !Commits(Upto(h, j), es[j])
  {
    hide Starts, Honest, After, Plan, Shown, Replay, Norm, ConfirmedBy, StatusesAgree, Indexed, Consistent;
    DeletionIsFinal(h, es, except, i, j, ExecutionConfirmation, r);
    LinkStays(h, es, except, i, j, r);
    PrefixSound(h, es, except, j);
    assert Later(h[i], h[j]);
    CompletedIffConfirmed(h, es, except, j, d);
    NotConfirmed(h[j].receipts[r].status, h[j].directives[d].status);
    if j < |es| && es[j].call.ReceiptCreate? && LinkOf(Upto(h, j), es[j]) == Some(h[j].directives[d].code)
        && Commits(Upto(h, j), es[j]) {
      ReceiptCreatedIffUnused(Upto(h, j), es[j]);
      assert false;
    }
  }

  lemma NotConfirmed(receipt: Status, directive: Status)
    requires StatusesAgree(receipt, directive) && receipt != Confirmed
    ensures directive == Executing || directive == Aborted
  {
  }

  lemma LogGrows(h: seq<DB>, es: seq<Event>, except: set<Id>, i: nat, j: nat)
    requires IsRun(h, es) && Starts(h[0], except) && i <= j < |h|
    ensures h[i].audits <= h[j].audits && h[i].approvals <= h[j].approvals
  {
    hide After, Consistent, ColumnsCopied, Indexed;
    RunIsOrdered(h, es);
    assert Later(h[i], h[j]);
  }

  ghost predicate NormalCodes<T>(t: Table<T>) {
    forall id :: id in t ==> Norm(t[id].code) == t[id].code
  }

  ghost predicate CodesNormalised(db: DB) {
    NormalCodes(db.gates) && NormalCodes(db.directives) && NormalCodes(db.receipts)
  }

  lemma WrittenCodes<T>(t: Table<T>, w: RowWrite<T>, u: Table<T>, kind: Kind)
    requires NormalCodes(t) && Written(t, w, u) && Shaped(w, kind)
    ensures NormalCodes(u)
  {
    hide Norm;
  }

  /** Codes are stored trimmed and upper-cased, so the normalisation a lookup applies always meets them, whatever
      the clients send. */
  lemma {:induction false} CodesStayNormalised(h: seq<DB>, es: seq<Event>, i: nat)
    requires IsRun(h, es) && CodesNormalised(h[0]) && i < |h|
    ensures CodesNormalised(h[i])
  {
    hide Plan, Commit, NormalCodes, Written;
    if i > 0 {
      CodesStayNormalised(h, es, i - 1);
      var past, e := Upto(h, i - 1), es[i - 1];
      assert h[i] == After(past, e) && Now(past) == h[i - 1];
      if Commits(past, e) {
        var tx := Planned(past, e).value;
        PlanIsShaped(e.call, ViewsAt(past, e), e.who);
        CommitEffect(h[i - 1], tx);
        WrittenCodes(h[i - 1].gates, tx.gate, h[i].gates, GateUnit);
        WrittenCodes(h[i - 1].directives, tx.directive, h[i].directives, OperationDirective);
        WrittenCodes(h[i - 1].receipts, tx.receipt, h[i].receipts, ExecutionConfirmation);
      }
    }
  }

  /** Referential stability, whatever the clients send: a code once resolved resolves for ever to the same row or to
      nothing. */
  lemma LinksResolveAlike(h: seq<DB>, es: seq<Event>, i: nat, j: nat, code: string)
    requires IsRun(h, es) && Indexed(h[0]) && i <= j < |h|
    ensures FindByCode(h[i].gates, code).Some? && FindByCode(h[j].gates, code).Some? ==>
              FindByCode(h[i].gates, code).value.id == FindByCode(h[j].gates, code).value.id
    ensures FindByCode(h[i].directives, code).Some? && FindByCode(h[j].directives, code).Some? ==>
              FindByCode(h[i].directives, code).value.id == FindByCode(h[j].directives, code).value.id
  {
    hide After, FindByCode;
    RunIsOrdered(h, es);
    assert Later(h[i], h[j]) && Indexed(h[j]);
    SameKey(h[i].gates, h[j].gates, code);
    SameKey(h[i].directives, h[j].directives, code);
  }

  lemma SameKey<T>(t: Table<T>, u: Table<T>, code: string)
    requires TableLater(t, u) && UniqueCodes(u)
    ensures FindByCode(t, code).Some? && FindByCode(u, code).Some? ==>
        FindByCode(t, code).value.id == FindByCode(u, code).value.id
  {
    if FindByCode(t, code).Some? && FindByCode(u, code).Some? {
      assert CarriesCode(t, FindByCode(t, code).value.id, code) && CarriesCode(u, FindByCode(u, code).value.id, code);
    }
  }
}
