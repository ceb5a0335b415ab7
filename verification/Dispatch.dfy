/** What starting, aborting, confirming and failing do to the gate, and that an executing directive
    can always be brought to an end. */
module Dispatch {
  import opened Prelude
  import opened Text
  import opened Status
  import opened Model
  import opened Transactions
  import opened Planning
  import opened Protocol
  import opened Evolution
  import opened OptimisticLock
  import opened Agreement
  import opened Reachability

  /** A request served alone: all its reads and its transaction see the same state. */
  ghost function Serially(db: DB, call: Call, who: Caller): Result<DB> {
    var tx :- Plan(call, Views(db, db, db, db), who);
    Commit(db, tx)
  }

  lemma GateAfterMove(t: Table<Gate>, g: Keyed<Gate>, target: Status, action: Action, who: Caller, u: Table<Gate>)
    requires g.id in t && t[g.id] == g.row && Written(t, MoveGate(g, target, action, who), u)
    ensures g.id in u && u[g.id].status == target && u[g.id].code == g.row.code
  {
  }

  lemma DirectiveAfterCommit(t: Table<Directive>, id: Id, expected: nat, row: Row<Directive>, entry: Audit,
      u: Table<Directive>)
    requires Written(t, Rewrite(id, expected, row, entry), u)
    ensures id in u && u[id].status == row.status
  {
  }

  /** Starting leaves the gate unlocked and moving or at the target; aborting from executing leaves it locked. */
  lemma TransitionLeavesGate(db: DB, id: Id, expected: nat, target: Status, who: Caller, gate: Option<Keyed<Gate>>,
      tx: Tx, b: DB)
    requires PlanDirectiveTransition(id, Find(db.directives, id), gate, expected, target, who) == Ok(tx)
        && Commit(db, tx) == Ok(b)
    requires gate.Some? ==> gate.value.id in db.gates && db.gates[gate.value.id] == gate.value.row
    requires ReachesGate(db.directives[id].status, target)
    ensures gate.Some? && gate.value.id in b.gates && id in b.directives && b.directives[id].status == target
    ensures var s := b.gates[gate.value.id].status;
            && s == DispatchTarget(db.directives[id], gate.value.row, target)
            && if target == Executing then s != Locked && (s == Moving || s == db.directives[id].body.gateState)
                else s == Locked
  {
    hide Commit, Written, MoveGate, GateBlocked, EqualFold, DirectiveRoleAllowed, ApprovalFor, RawEntry, Rewrite;
    CommitEffect(db, tx);
    var d := db.directives[id];
    GateAfterMove(db.gates, gate.value, DispatchTarget(d, gate.value.row, target), DirectiveExecution, who, b.gates);
    DirectiveAfterCommit(db.directives, id, expected, DirectiveAfter(d, target, who),
        RawEntry(who, OperationDirective, id, d.status, target), b.directives);
  }

  /** Serial gate outcome of starting or aborting a directive. */
  lemma SerialTransitionGate(db: DB, id: Id, expected: nat, target: Status, who: Caller)
    requires Serially(db, DirectiveTransition(id, expected, target), who).Ok?
    requires Live(db.directives, id) && ReachesGate(db.directives[id].status, target)
    ensures var g := LinkedGate(db, db.directives[id].body.relatedCode);
            var b := Serially(db, DirectiveTransition(id, expected, target), who).value;
            && g.Some? && g.value.id in b.gates
            && var s := b.gates[g.value.id].status;
               if target == Executing then s != Locked && (s == Moving || s == db.directives[id].body.gateState)
                   else s == Locked
  {
    hide PlanDirectiveTransition, Commit, FindByCode;
    var gate := LinkedGate(db, db.directives[id].body.relatedCode);
    var tx := PlanDirectiveTransition(id, Find(db.directives, id), gate, expected, target, who).value;
    TransitionLeavesGate(db, id, expected, target, who, gate, tx, Commit(db, tx).value);
  }

  /** Starting sets the gate moving exactly when it is not already where the directive wants it: a gate standing
      at the target is left there. */
  lemma StartMovesGateIff(db: DB, id: Id, expected: nat, who: Caller)
    requires Serially(db, DirectiveTransition(id, expected, Executing), who).Ok?
    ensures Live(db.directives, id) && LinkedGate(db, db.directives[id].body.relatedCode).Some?
    ensures var g := LinkedGate(db, db.directives[id].body.relatedCode).value;
            var b := Serially(db, DirectiveTransition(id, expected, Executing), who).value;
            && g.id in b.gates
            && (b.gates[g.id].status == Moving <==>
                g.row.status != db.directives[id].body.gateState || g.row.status == Moving)
  {
    hide PlanDirectiveTransition, Commit, FindByCode, GateBlocked;
    NoCurrentDirective(id, expected, Executing, who);
    var gate := LinkedGate(db, db.directives[id].body.relatedCode);
    var tx := PlanDirectiveTransition(id, Find(db.directives, id), gate, expected, Executing, who).value;
    TransitionLeavesGate(db, id, expected, Executing, who, gate, tx, Commit(db, tx).value);
  }

  lemma OutcomeLeavesGate(db: DB, id: Id, expected: nat, target: Status, who: Caller, d: Option<Keyed<Directive>>,
      gate: Option<Keyed<Gate>>, tx: Tx, b: DB)
    requires PlanReceiptTransition(id, Find(db.receipts, id), d, gate, expected, target, who) == Ok(tx)
        && Commit(db, tx) == Ok(b)
    requires gate.Some? ==> gate.value.id in db.gates && db.gates[gate.value.id] == gate.value.row
    requires Live(db.receipts, id) && db.receipts[id].status == Pending
    ensures d.Some? && gate.Some? && gate.value.id in b.gates
    ensures b.gates[gate.value.id].status == (if target == Confirmed then d.value.row.body.gateState else Locked)
    ensures d.value.id in b.directives && b.directives[d.value.id].status ==
        (if target == Confirmed then Completed else Aborted)
  {
    hide Commit, Written, MoveGate, GateBlocked, Rewrite, AuditEntry, ReceiptAfter;
    CommitEffect(db, tx);
    GateAfterMove(db.gates, gate.value, GateAfterOutcome(d.value.row, target), ExecutionOutcome, who, b.gates);
    DirectiveAfterCommit(db.directives, d.value.id, d.value.row.version, d.value.row.(status := OutcomeFor(target)),
      AuditEntry(who, ExecutionOutcome, OperationDirective, d.value.id, d.value.row.status, OutcomeFor(target)),
          b.directives);
  }

  /** Serial outcome of a pending receipt: directive and gate land together. */
  lemma SerialOutcomeGate(db: DB, id: Id, expected: nat, target: Status, who: Caller)
    requires Serially(db, ReceiptTransition(id, expected, target), who).Ok?
    requires Live(db.receipts, id) && db.receipts[id].status == Pending
    ensures var b := Serially(db, ReceiptTransition(id, expected, target), who).value;
            var d := LinkedDirective(db, db, db.receipts[id].body.relatedCode);
            && d.Some? && d.value.id in b.directives
            && b.directives[d.value.id].status == (if target == Confirmed then Completed else Aborted)
            && var g := LinkedGate(db, d.value.row.body.relatedCode);
               && g.Some? && g.value.id in b.gates
               && b.gates[g.value.id].status == (if target == Confirmed then d.value.row.body.gateState else Locked)
  {
    hide PlanReceiptTransition, Commit, FindByCode, LinkedDirective;
    var d := LinkedDirective(db, db, db.receipts[id].body.relatedCode);
    var gate := if d.None? then None else LinkedGate(db, d.value.row.body.relatedCode);
    var tx := PlanReceiptTransition(id, Find(db.receipts, id), d, gate, expected, target, who).value;
    OutcomeLeavesGate(db, id, expected, target, who, d, gate, tx, Commit(db, tx).value);
  }

  /** Interleaved gate outcome: whenever a directive's transition writes a gate, it is the gate the
      directive is linked to at commit, and it lands where the serial run would put it. */
  lemma InterleavedTransitionGate(h: seq<DB>, e: Event, tx: Tx)
    requires Ordered(h) && InOrder(h, e) && Commits(h, e) && Shown(h, e) && Planned(h, e) == Ok(tx) && tx.gate.Write?
    requires e.call.DirectiveTransition?
    ensures Live(Now(h).directives, e.call.id)
    ensures var g := LinkedGate(Now(h), Now(h).directives[e.call.id].body.relatedCode);
            && g.Some? && g.value.id in After(h, e).gates
            && After(h, e).gates[g.value.id].status == (if e.call.target == Aborted then Locked else Moving)
  {
    hide Commits, Shown, Ordered, Planned, PlanDirectiveTransition, Commit, FindByCode;
    var v := SettledPlan(h, e, tx);
    assert After(h, e) == Commit(Now(h), tx).value && Commit(Now(h), tx).Ok? by { AfterIs(h, e, tx); }
    var db, id := Now(h), e.call.id;
    NoCurrentDirective(id, e.call.expected, e.call.target, who := e.who);
    var gate := LinkedGate(db, db.directives[id].body.relatedCode);
    GateWriteReaches(id, Find(db.directives, id), gate, e.call.expected, e.call.target, e.who);
    TransitionLeavesGate(db, id, e.call.expected, e.call.target, e.who, gate, tx, After(h, e));
  }

  lemma AfterIs(h: seq<DB>, e: Event, tx: Tx)
    requires InOrder(h, e) && Commits(h, e) && Planned(h, e) == Ok(tx)
    ensures Commit(Now(h), tx) == Ok(After(h, e))
  {
    hide Plan, Commit;
  }

  lemma NoCurrentDirective(id: Id, expected: nat, target: Status, who: Caller)
    ensures PlanDirectiveTransition(id, None, None, expected, target, who).Err?
  {
  }

  lemma GateWriteReaches(id: Id, current: Option<Row<Directive>>, gate: Option<Keyed<Gate>>, expected: nat,
      target: Status, who: Caller)
    requires PlanDirectiveTransition(id, current, gate, expected, target, who).Ok?
    requires PlanDirectiveTransition(id, current, gate, expected, target, who).value.gate.Write?
    ensures current.Some? && ReachesGate(current.value.status, target)
    ensures target == Executing ==>
        gate.Some? && gate.value.row.status != current.value.body.gateState && gate.value.row.status != Moving
  {
    hide EqualFold, RawEntry, ApprovalFor;
  }

  /** Interleaved gate outcome of a receipt. */
  lemma InterleavedOutcomeGate(h: seq<DB>, e: Event, tx: Tx)
    requires Ordered(h) && InOrder(h, e) && Commits(h, e) && Shown(h, e) && Planned(h, e) == Ok(tx) && tx.gate.Write?
    requires e.call.ReceiptTransition?
    ensures Live(Now(h).receipts, e.call.id)
    ensures var d := LinkedDirective(Now(h), Now(h), Now(h).receipts[e.call.id].body.relatedCode);
            && d.Some?
            && var g := LinkedGate(Now(h), d.value.row.body.relatedCode);
               && g.Some? && g.value.id in After(h, e).gates
               && After(h, e).gates[g.value.id].status ==
                   (if e.call.target == Confirmed then d.value.row.body.gateState else Locked)
  {
    hide Commits, Shown, Ordered, Planned, PlanReceiptTransition, Commit, FindByCode, LinkedDirective;
    var v := SettledPlan(h, e, tx);
    AfterIs(h, e, tx);
    var db, id := Now(h), e.call.id;
    NoCurrentReceipt(id, None, None, e.call.expected, e.call.target, e.who);
    var d := LinkedDirective(v.key, v.link, db.receipts[id].body.relatedCode);
    var gate := if d.None? then None else LinkedGate(v.far, d.value.row.body.relatedCode);
    ReceiptTransitionWrites(id, Find(db.receipts, id), d, gate, e.call.expected, e.call.target, e.who);
    DirectiveWritePending(id, Find(db.receipts, id), d, gate, e.call.expected, e.call.target, e.who);
    OutcomeLeavesGate(db, id, e.call.expected, e.call.target, e.who, d, gate, tx, After(h, e));
  }

  lemma DirectiveWritePending(id: Id, current: Option<Row<Receipt>>, d: Option<Keyed<Directive>>,
      gate: Option<Keyed<Gate>>, expected: nat, target: Status, who: Caller)
    requires PlanReceiptTransition(id, current, d, gate, expected, target, who).Ok?
    requires PlanReceiptTransition(id, current, d, gate, expected, target, who).value.directive.Write?
    ensures current.Some? && current.value.status == Pending
  {
  }

  // ---- Progress ----

  lemma RewriteApplies<T>(t: Table<T>, id: Id, row: Row<T>, entry: Audit)
    requires Live(t, id)
    ensures ApplyWrite(t, Rewrite(id, t[id].version, row, entry)).Ok?
  {
  }

  lemma MoveApplies(t: Table<Gate>, g: Keyed<Gate>, target: Status, action: Action, who: Caller)
    requires Live(t, g.id) && t[g.id] == g.row
    ensures ApplyWrite(t, MoveGate(g, target, action, who)).Ok?
  {
  }

  lemma Lockable(g: Row<Gate>)
    requires GateWord(g.status)
    ensures !GateBlocked(g, Locked)
  {
  }

  lemma CommitIsOk(db: DB, tx: Tx)
    requires tx.receipt.Write? ==> ApplyWrite(db.receipts, tx.receipt).Ok? && !LinkClash(db.receipts, tx.receipt.change)
    requires ApplyWrite(db.directives, tx.directive).Ok? && ApplyWrite(db.gates, tx.gate).Ok? && tx.approval.None?
    ensures Commit(db, tx).Ok?
  {
    hide Apply, LinkClash;
  }

  /** Progress: in a consistent state a live executing directive with a live gate can be aborted at its current
      version. */
  lemma CanAbort(db: DB, id: Id, who: Caller)
    requires GateWords(db) && Live(db.directives, id) && db.directives[id].status == Executing
    requires LinkedGate(db, db.directives[id].body.relatedCode).Some?
    requires who.role == Operator || who.role == Reviewer || who.role == Admin
    ensures Serially(db, DirectiveTransition(id, db.directives[id].version, Aborted), who).Ok?
  {
    hide Commit, ApplyWrite, FindByCode, MoveGate, GateBlocked, Rewrite, Norm;
    var d := db.directives[id];
    var gate := LinkedGate(db, d.body.relatedCode).value;
    Lockable(gate.row);
    var tx := Plan(DirectiveTransition(id, d.version, Aborted), Views(db, db, db, db), who).value;
    RewriteApplies(db.directives, id, DirectiveAfter(d, Aborted, who),
        RawEntry(who, OperationDirective, id, d.status, Aborted));
    MoveApplies(db.gates, gate, Locked, DirectiveExecution, who);
    CommitIsOk(db, tx);
  }

  lemma NoClash(t: Table<Receipt>, id: Id, row: Row<Receipt>)
    requires UniqueLinks(t) && id in t && row.body.relatedCode == t[id].body.relatedCode
    ensures !LinkClash(t, Overwrite(id, t[id].version, row))
  {
  }

  /** Progress, exactly: a live pending receipt of a live executing directive with a live gate can be
      settled at its current version if and only if the gate is, or may move, where the outcome puts it. */
  lemma CanSettleIff(db: DB, id: Id, target: Status, who: Caller)
    requires Indexed(db) && Live(db.receipts, id) && db.receipts[id].status == Pending
    requires target == Confirmed || target == Failed
    requires var d := LinkedDirective(db, db, db.receipts[id].body.relatedCode);
             d.Some? && d.value.row.status == Executing && LinkedGate(db, d.value.row.body.relatedCode).Some?
    ensures var d := LinkedDirective(db, db, db.receipts[id].body.relatedCode).value;
            var g := LinkedGate(db, d.row.body.relatedCode).value;
            var goal := if target == Confirmed then d.row.body.gateState else Locked;
            Serially(db, ReceiptTransition(id, db.receipts[id].version, target), who).Ok? <==>
                (g.row.status == goal || CanTransition(GateUnit, g.row.status, goal))
  {
    hide Commit, ApplyWrite, FindByCode, MoveGate, Rewrite, Norm, UniqueCodes, UniqueStages, LinkClash;
    var r := db.receipts[id];
    var d := LinkedDirective(db, db, r.body.relatedCode).value;
    var gate := LinkedGate(db, d.row.body.relatedCode).value;
    var p := Plan(ReceiptTransition(id, r.version, target), Views(db, db, db, db), who);
    if p.Ok? {
      var own := ReceiptAfter(r, target, who);
      RewriteApplies(db.receipts, id, own, AuditEntry(who, TransitionAction, ExecutionConfirmation, id, r.status,
          target));
      RewriteApplies(db.directives, d.id, d.row.(status := OutcomeFor(target)),
        AuditEntry(who, ExecutionOutcome, OperationDirective, d.id, d.row.status, OutcomeFor(target)));
      MoveApplies(db.gates, gate, GateAfterOutcome(d.row, target), ExecutionOutcome, who);
      OwnRewrite(db.receipts, id, own, AuditEntry(who, TransitionAction, ExecutionConfirmation, id, r.status, target));
      CommitIsOk(db, p.value);
    }
  }

  lemma OwnRewrite(t: Table<Receipt>, id: Id, row: Row<Receipt>, entry: Audit)
    requires UniqueLinks(t) && id in t && row.body.relatedCode == t[id].body.relatedCode
    ensures Rewrite(id, t[id].version, row, entry).Write?
    ensures !LinkClash(t, Rewrite(id, t[id].version, row, entry).change)
  {
    NoClash(t, id, row.(version := t[id].version + 1));
  }

  /** So a pending receipt can always be failed, and confirmed while the gate is moving towards any position. */
  lemma CanFailAndConfirm(db: DB, id: Id, who: Caller)
    requires Indexed(db) && GateWords(db) && Live(db.receipts, id) && db.receipts[id].status == Pending
    requires var d := LinkedDirective(db, db, db.receipts[id].body.relatedCode);
             d.Some? && d.value.row.status == Executing && LinkedGate(db, d.value.row.body.relatedCode).Some?
    ensures Serially(db, ReceiptTransition(id, db.receipts[id].version, Failed), who).Ok?
    ensures var d := LinkedDirective(db, db, db.receipts[id].body.relatedCode).value;
            (LinkedGate(db, d.row.body.relatedCode).value.row.status == Moving && GateWord(d.row.body.gateState)) ==>
              Serially(db, ReceiptTransition(id, db.receipts[id].version, Confirmed), who).Ok?
  {
    hide Serially, FindByCode, Indexed, Norm, LinkedDirective;
    CanSettleIff(db, id, Failed, who);
    CanSettleIff(db, id, Confirmed, who);
    var d := LinkedDirective(db, db, db.receipts[id].body.relatedCode).value;
    Lockable(LinkedGate(db, d.row.body.relatedCode).value.row);
  }
}
