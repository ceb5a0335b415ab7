/** When each request, served alone at its current version, is answered with success, and what a refusal means: written
    out from the stored rows, for every reachable state. */
module Acceptance {
  import opened Prelude
  import opened Text
  import opened Status
  import opened Model
  import opened Transactions
  import opened Planning
  import opened Protocol
  import opened Evolution
  import opened Grounding
  import opened Dispatch
  import opened Effects

  predicate FieldsGiven(code: string, f: Fields) {
    TrimSpace(code) != "" && TrimSpace(f.name) != "" && TrimSpace(f.facility) != "" && TrimSpace(f.owner) != ""
  }

  /** Neither the key nor the code is used, soft-deleted rows counted. */
  ghost predicate Unused<T>(t: Table<T>, id: Id, code: string) {
    id !in t && forall k :: k in t ==> t[k].code != Norm(code)
  }

  predicate LiveAt<T>(t: Table<T>, id: Id, version: nat) {
    id in t && !t[id].deleted && t[id].version == version
  }

  ghost predicate NoRecord(db: DB, d: Id, stage: Stage) {
    forall k :: 0 <= k < |db.approvals| ==> !(db.approvals[k].directiveId == d && db.approvals[k].stage == stage)
  }

  /** A live, unlocked gate of the facility carries the code. */
  ghost predicate FitGate(db: DB, f: Fields) {
    exists g :: GateAt(db, g, f.relatedCode) && db.gates[g].status != Locked
      && SameLetters(TrimSpace(f.facility), db.gates[g].body.facility)
  }

  ghost predicate MayStart(db: DB, d: Row<Directive>) {
    exists g :: GateAt(db, g, d.body.relatedCode) && db.gates[g].status != Locked
      && (db.gates[g].status == d.body.gateState || db.gates[g].status in {Open, Closed, Moving})
  }

  ghost predicate MayLock(db: DB, d: Row<Directive>) {
    exists g :: GateAt(db, g, d.body.relatedCode) && db.gates[g].status in {Open, Closed, Moving, Locked}
  }

  ghost predicate MayTransition(db: DB, id: Id, d: Row<Directive>, target: Status, who: Caller) {
    match target
    case Pending => d.status == Draft && who.role in {Operator, Admin} && NoRecord(db, id, SubmittedStage)
    case Approved =>
      && d.status == Pending && who.role in {Reviewer, Admin} && NoRecord(db, id, ApprovedStage)
      && d.body.submittedBy != "" && !SameLetters(d.body.submittedBy, who.actor)
    case Executing => d.status == Approved && who.role in {Operator, Admin} && MayStart(db, d)
    case Aborted =>
      && who.role in {Operator, Reviewer, Admin}
      && (d.status == Pending || d.status == Approved || (d.status == Executing && MayLock(db, d)))
    case _ => false
  }

  /** The directive the code leads to is executing, and this holds of it. */
  ghost predicate MaySettle(db: DB, link: string, target: Status) {
    exists d, g :: ExecutingAt(db, db, d, link) && GateAt(db, g, db.directives[d].body.relatedCode)
      && var goal := if target == Confirmed then db.directives[d].body.gateState else Locked;
         db.gates[g].status == goal || GateEdge(db.gates[g].status, goal)
  }

  ghost predicate Unlinked(db: DB, link: string) {
    forall r :: r in db.receipts ==> db.receipts[r].body.relatedCode != link
  }

  /** The request is answered with success. */
  ghost predicate Acceptable(db: DB, call: Call, who: Caller) {
    match call
    case GateCreate(id, code, f, reservoir) =>
      && FieldsGiven(code, f) && Unused(db.gates, id, code)
      && reservoir.Some? && SameLetters(TrimSpace(f.facility), reservoir.value.facility)
    case GateUpdate(id, expected, f, reservoir) =>
      && LiveAt(db.gates, id, expected) && FieldsGiven(db.gates[id].code, f)
      && SameLetters(TrimSpace(f.relatedCode), db.gates[id].body.relatedCode)
      && reservoir.Some? && SameLetters(TrimSpace(f.facility), reservoir.value.facility)
    case GateTransition(id, expected, target) => LiveAt(db.gates, id, expected) && GateEdge(db.gates[id].status, target)
    case GateDelete(id) => id in db.gates && !db.gates[id].deleted
    case DirectiveCreate(id, code, f) => FieldsGiven(code, f) && Unused(db.directives, id, code) && FitGate(db, f)
    case DirectiveUpdate(id, expected, f) =>
      && LiveAt(db.directives, id, expected) && db.directives[id].status == Draft
      && FieldsGiven(db.directives[id].code, f) && FitGate(db, f)
    case DirectiveTransition(id, expected, target) =>
      LiveAt(db.directives, id, expected) && MayTransition(db, id, db.directives[id], target, who)
    case DirectiveDelete(id) => id in db.directives && !db.directives[id].deleted && db.directives[id].status == Draft
    case ReceiptCreate(id, code, f) =>
      && FieldsGiven(code, f) && Unused(db.receipts, id, code)
      && (exists d :: ExecutingAt(db, db, d, f.relatedCode)) && Unlinked(db, Norm(f.relatedCode))
    case ReceiptUpdate(id, expected, f) =>
      && LiveAt(db.receipts, id, expected) && db.receipts[id].status == Pending && FieldsGiven(db.receipts[id].code, f)
      && SameLetters(TrimSpace(f.relatedCode), db.receipts[id].body.relatedCode)
      && exists d :: ExecutingAt(db, db, d, db.receipts[id].body.relatedCode)
    case ReceiptTransition(id, expected, target) =>
      && LiveAt(db.receipts, id, expected)
      && ((db.receipts[id].status == Pending && target in {Confirmed, Failed}
           && MaySettle(db, db.receipts[id].body.relatedCode, target))
          || (db.receipts[id].status == Failed && target == Cancelled))
    case ReceiptDelete(id) => id in db.receipts && !db.receipts[id].deleted && db.receipts[id].status == Pending
  }

  // ---- Lookups ----

  lemma GateLookup(db: DB, code: string)
    requires UniqueCodes(db.gates)
    ensures forall g :: GateAt(db, g, code) <==> LinkedGate(db, code).Some? && LinkedGate(db, code).value.id == g
    ensures LinkedGate(db, code).Some? ==> LinkedGate(db, code).value.row == db.gates[LinkedGate(db, code).value.id]
  {
    hide Norm;
    LinkedGateAt(db, code);
    forall g | GateAt(db, g, code)
      ensures LinkedGate(db, code).Some? && LinkedGate(db, code).value.id == g
    {
      ResolvesTo(db.gates, g);
    }
  }

  lemma ExecutingLookup(db: DB, code: string)
    requires UniqueCodes(db.directives)
    ensures var d := LinkedDirective(db, db, code);
            && (forall x :: ExecutingAt(db, db, x, code) <==>
                d.Some? && d.value.id == x && d.value.row.status == Executing)
            && ((exists x :: ExecutingAt(db, db, x, code)) <==> d.Some? && d.value.row.status == Executing)
            && (d.Some? ==>
                Live(db.directives, d.value.id) && d.value.row == db.directives[d.value.id]
                && d.value.row.code == Norm(code))
  {
    hide Norm;
    LinkedExecuting(db, db, code);
    forall x | ExecutingAt(db, db, x, code)
      ensures LinkedDirective(db, db, code) == Some(Keyed(x, db.directives[x]))
    {
      ResolvesTo(db.directives, x);
    }
  }

  lemma ServesIff(db: DB, call: Call, who: Caller)
    ensures Serially(db, call, who).Ok? <==>
              Plan(call, Views(db, db, db, db), who).Ok? && Commit(db, Plan(call, Views(db, db, db, db), who).value).Ok?
  {
    hide Plan, Commit;
  }

  // ---- One kind of request at a time ----

  lemma GateCallServed(db: DB, call: Call, who: Caller)
    requires call.GateCreate? || call.GateUpdate? || call.GateTransition? || call.GateDelete?
    ensures Serially(db, call, who).Ok? <==> Acceptable(db, call, who)
  {
    hide EqualFold, SameLetters, CanTransition, Norm, TrimSpace, AuditEntry, RawEntry, Commit;
    FoldsAreLetterwise();
    AllEdgesWritten();
    ServesIff(db, call, who);
    var p := Plan(call, Views(db, db, db, db), who);
    if p.Ok? {
      CommitOnlyGate(db, p.value.gate.change, p.value.gate.entry);
    }
  }

  lemma DirectiveEditServed(db: DB, call: Call, who: Caller)
    requires UniqueCodes(db.gates) && (call.DirectiveCreate? || call.DirectiveUpdate? || call.DirectiveDelete?)
    ensures Serially(db, call, who).Ok? <==> Acceptable(db, call, who)
  {
    hide EqualFold, SameLetters, Norm, TrimSpace, AuditEntry, RawEntry, Commit, LinkedGate, GateAt;
    FoldsAreLetterwise();
    ServesIff(db, call, who);
    if !call.DirectiveDelete? {
      GateLookup(db, call.fields.relatedCode);
    }
    var p := Plan(call, Views(db, db, db, db), who);
    if p.Ok? {
      CommitOnlyDirective(db, p.value.directive.change, p.value.directive.entry);
    }
  }

  lemma ReceiptCreateServed(db: DB, id: Id, code: string, f: Fields, who: Caller)
    requires Indexed(db)
    ensures Serially(db, ReceiptCreate(id, code, f), who).Ok? <==> Acceptable(db, ReceiptCreate(id, code, f), who)
  {
    hide Norm, TrimSpace, AuditEntry, Commit, LinkedDirective, ExecutingAt;
    var call := ReceiptCreate(id, code, f);
    ServesIff(db, call, who);
    NormIdempotent(f.relatedCode);
    ExecutingLookup(db, f.relatedCode);
    var p := Plan(call, Views(db, db, db, db), who);
    if p.Ok? {
      CommitOnlyReceipt(db, p.value.receipt.change, p.value.receipt.entry);
    }
  }

  lemma ReceiptUpdateServed(db: DB, id: Id, expected: nat, f: Fields, who: Caller)
    requires Indexed(db) && LinksStored(db)
    ensures Serially(db, ReceiptUpdate(id, expected, f), who).Ok? <==>
        Acceptable(db, ReceiptUpdate(id, expected, f), who)
  {
    hide EqualFold, SameLetters, Norm, TrimSpace, AuditEntry, Commit, LinkedDirective, ExecutingAt, LinksStored;
    var call := ReceiptUpdate(id, expected, f);
    FoldsAreLetterwise();
    ServesIff(db, call, who);
    if id in db.receipts {
      LinkIsNormal(db, id);
      ExecutingLookup(db, db.receipts[id].body.relatedCode);
    }
    var p := Plan(call, Views(db, db, db, db), who);
    if p.Ok? {
      CommitOnlyReceipt(db, p.value.receipt.change, p.value.receipt.entry);
      NoClash(db.receipts, id, p.value.receipt.change.row);
    }
  }

  lemma ReceiptDeleteServed(db: DB, id: Id, who: Caller)
    ensures Serially(db, ReceiptDelete(id), who).Ok? <==> Acceptable(db, ReceiptDelete(id), who)
  {
    hide AuditEntry, Commit;
    ServesIff(db, ReceiptDelete(id), who);
    var p := Plan(ReceiptDelete(id), Views(db, db, db, db), who);
    if p.Ok? {
      CommitOnlyReceipt(db, p.value.receipt.change, p.value.receipt.entry);
    }
  }

  lemma TransitionPlanned(id: Id, current: Option<Row<Directive>>, gate: Option<Keyed<Gate>>, expected: nat,
      target: Status, who: Caller)
    ensures PlanDirectiveTransition(id, current, gate, expected, target, who).Ok? <==>
              current.Some? && var d := current.value;
              match target
              case Pending => d.status == Draft && who.role in {Operator, Admin}
              case Approved =>
                && d.status == Pending && who.role in {Reviewer, Admin}
                && d.body.submittedBy != "" && !SameLetters(d.body.submittedBy, who.actor)
              case Executing =>
                && d.status == Approved && who.role in {Operator, Admin} && gate.Some?
                && gate.value.row.status != Locked
                && (gate.value.row.status == d.body.gateState || gate.value.row.status in {Open, Closed, Moving})
              case Aborted =>
                && who.role in {Operator, Reviewer, Admin}
                && (d.status == Pending || d.status == Approved
                    || (d.status == Executing && gate.Some? && gate.value.row.status in {Open, Closed, Moving, Locked}))
              case _ => false
  {
    hide EqualFold, SameLetters, CanTransition, RawEntry, AuditEntry, MoveGate, ApprovalFor, DirectiveAfter;
    AllEdgesWritten();
    if current.Some? {
      EqualFoldIff(current.value.body.submittedBy, who.actor);
    }
  }

  lemma TransitionWrites(id: Id, current: Option<Row<Directive>>, gate: Option<Keyed<Gate>>, expected: nat,
      target: Status, who: Caller)
    requires PlanDirectiveTransition(id, current, gate, expected, target, who).Ok?
    ensures var tx := PlanDirectiveTransition(id, current, gate, expected, target, who).value;
            && tx.receipt.Skip? && tx.directive.Write? && tx.directive.change.Overwrite?
            && tx.directive.change.id == id && tx.directive.change.expected == expected
            && (tx.gate.Write? ==>
                  && gate.Some? && tx.gate.change.Overwrite?
                  && tx.gate.change.id == gate.value.id && tx.gate.change.expected == gate.value.row.version)
            && (tx.approval.Some? <==> target == Pending || target == Approved)
            && (tx.approval.Some? ==>
                  tx.approval.value.directiveId == id
                  && tx.approval.value.stage == if target == Pending then SubmittedStage else ApprovedStage)
  {
    hide EqualFold, CanTransition, RawEntry, AuditEntry, GateBlocked, DirectiveAfter, DispatchTarget;
  }

  lemma DirectiveTransitionServed(db: DB, id: Id, expected: nat, target: Status, who: Caller)
    requires UniqueCodes(db.gates)
    ensures Serially(db, DirectiveTransition(id, expected, target), who).Ok? <==>
              Acceptable(db, DirectiveTransition(id, expected, target), who)
  {
    hide SameLetters, Norm, Commit, LinkedGate, GateAt, PlanDirectiveTransition;
    var call := DirectiveTransition(id, expected, target);
    ServesIff(db, call, who);
    var current := Find(db.directives, id);
    var gate := if current.None? then None else LinkedGate(db, current.value.body.relatedCode);
    TransitionPlanned(id, current, gate, expected, target, who);
    if current.Some? {
      GateLookup(db, current.value.body.relatedCode);
      GateLive(db, current.value.body.relatedCode);
      var p := Plan(call, Views(db, db, db, db), who);
      if p.Ok? {
        TransitionWrites(id, current, gate, expected, target, who);
        CommitDirectiveThenGate(db, p.value.directive.change, p.value.approval, p.value.directive.entry, p.value.gate);
      }
    }
  }

  lemma GateLive(db: DB, code: string)
    ensures var g := LinkedGate(db, code);
            g.Some? ==> Live(db.gates, g.value.id) && db.gates[g.value.id] == g.value.row
  {
    hide Norm;
    LinkedGateAt(db, code);
  }

  lemma OutcomeRefused(id: Id, r: Option<Row<Receipt>>, d: Option<Keyed<Directive>>, gate: Option<Keyed<Gate>>,
      expected: nat, target: Status, who: Caller)
    requires r.None?
      || (r.value.status != Pending && !(r.value.status == Failed && target == Cancelled))
      || (r.value.status == Pending && target != Confirmed && target != Failed)
      || (r.value.status == Pending && !(d.Some? && d.value.row.status == Executing && gate.Some?))
    ensures PlanReceiptTransition(id, r, d, gate, expected, target, who).Err?
  {
    hide CanTransition;
    AllEdgesWritten();
  }

  lemma OutcomeWrites(id: Id, r: Row<Receipt>, d: Option<Keyed<Directive>>, gate: Option<Keyed<Gate>>, expected: nat,
      target: Status, who: Caller)
    requires PlanReceiptTransition(id, Some(r), d, gate, expected, target, who).Ok?
    ensures var w := PlanReceiptTransition(id, Some(r), d, gate, expected, target, who).value.receipt;
            w.Write? && w.change.Overwrite? && w.change.id == id && w.change.expected == expected
            && w.change.row.body.relatedCode == r.body.relatedCode
  {
  }

  lemma CancelPlanned(id: Id, r: Row<Receipt>, d: Option<Keyed<Directive>>, gate: Option<Keyed<Gate>>, expected: nat,
      who: Caller)
    requires r.status == Failed
    ensures var p := PlanReceiptTransition(id, Some(r), d, gate, expected, Cancelled, who);
            p.Ok? && p.value == NO_WRITES.(receipt := p.value.receipt)
  {
  }

  /** A transaction that compares a version other than the receipt's is refused. */
  lemma StaleReceipt(db: DB, tx: Tx)
    requires tx.receipt.Write? && tx.receipt.change.Overwrite?
    requires !LiveAt(db.receipts, tx.receipt.change.id, tx.receipt.change.expected)
    ensures Commit(db, tx).Err?
  {
  }

  lemma SettlingServed(db: DB, id: Id, target: Status, who: Caller)
    requires Indexed(db) && id in db.receipts && !db.receipts[id].deleted && db.receipts[id].status == Pending
    requires target == Confirmed || target == Failed
    requires var d := LinkedDirective(db, db, db.receipts[id].body.relatedCode);
             d.Some? && d.value.row.status == Executing && LinkedGate(db, d.value.row.body.relatedCode).Some?
    ensures Serially(db, ReceiptTransition(id, db.receipts[id].version, target), who).Ok? <==>
              MaySettle(db, db.receipts[id].body.relatedCode, target)
  {
    hide Serially, Norm, LinkedGate, GateAt, LinkedDirective, ExecutingAt, CanTransition;
    var link := db.receipts[id].body.relatedCode;
    var d := LinkedDirective(db, db, link).value;
    CanSettleIff(db, id, target, who);
    AllEdgesWritten();
    ExecutingLookup(db, link);
    GateLookup(db, d.row.body.relatedCode);
    var g := LinkedGate(db, d.row.body.relatedCode).value;
    assert ExecutingAt(db, db, d.id, link) && GateAt(db, g.id, d.row.body.relatedCode);
  }

  lemma ReceiptTransitionServed(db: DB, id: Id, expected: nat, target: Status, who: Caller)
    requires Indexed(db)
    ensures Serially(db, ReceiptTransition(id, expected, target), who).Ok? <==>
              Acceptable(db, ReceiptTransition(id, expected, target), who)
  {
    hide Norm, Commit, LinkedGate, GateAt, LinkedDirective, ExecutingAt, PlanReceiptTransition, MaySettle, Indexed;
    var call := ReceiptTransition(id, expected, target);
    ServesIff(db, call, who);
    var r := Find(db.receipts, id);
    var d := if r.None? then None else LinkedDirective(db, db, r.value.body.relatedCode);
    var gate := if d.None? then None else LinkedGate(db, d.value.row.body.relatedCode);
    var p := Plan(call, Views(db, db, db, db), who);
    if r.None? {
      OutcomeRefused(id, r, d, gate, expected, target, who);
    } else {
      if p.Ok? {
        OutcomeWrites(id, r.value, d, gate, expected, target, who);
        if r.value.version != expected {
          StaleReceipt(db, p.value);
        }
      }
      if r.value.status == Pending {
        if (target == Confirmed || target == Failed) && d.Some? && d.value.row.status == Executing && gate.Some? {
          if r.value.version == expected {
            SettlingServed(db, id, target, who);
          }
        } else {
          OutcomeRefused(id, r, d, gate, expected, target, who);
          NotSettled(db, r.value.body.relatedCode, target);
        }
      } else if r.value.status == Failed && target == Cancelled {
        CancelPlanned(id, r.value, d, gate, expected, who);
        CancelCommits(db, p.value, r.value);
      } else {
        OutcomeRefused(id, r, d, gate, expected, target, who);
      }
    }
  }

  lemma CancelCommits(db: DB, tx: Tx, r: Row<Receipt>)
    requires Indexed(db) && tx == NO_WRITES.(receipt := tx.receipt)
    requires tx.receipt.Write? && tx.receipt.change.Overwrite? && Find(db.receipts, tx.receipt.change.id) == Some(r)
    requires tx.receipt.change.row.body.relatedCode == r.body.relatedCode
    ensures Commit(db, tx).Ok? <==> r.version == tx.receipt.change.expected
  {
    CommitOnlyReceipt(db, tx.receipt.change, tx.receipt.entry);
  }

  lemma NotSettled(db: DB, link: string, target: Status)
    requires Indexed(db)
    ensures MaySettle(db, link, target) ==>
              var d := LinkedDirective(db, db, link);
              d.Some? && d.value.row.status == Executing && LinkedGate(db, d.value.row.body.relatedCode).Some?
  {
    hide Norm, LinkedGate, GateAt, LinkedDirective, ExecutingAt;
    if MaySettle(db, link, target) {
      ExecutingLookup(db, link);
      var d := LinkedDirective(db, db, link);
      var x, g :| ExecutingAt(db, db, x, link) && GateAt(db, g, db.directives[x].body.relatedCode);
      GateLookup(db, db.directives[x].body.relatedCode);
    }
  }

  /** When a request is served: alone in any reachable state, it is answered with success if and only if the stored rows
      meet the written-out condition. */
  lemma ServedIff(db: DB, call: Call, who: Caller)
    requires Indexed(db) && LinksStored(db)
    ensures Serially(db, call, who).Ok? <==> Acceptable(db, call, who)
  {
    hide Serially, Acceptable, LinksStored;
    match call
    case GateCreate(_, _, _, _) => GateCallServed(db, call, who);
    case GateUpdate(_, _, _, _) => GateCallServed(db, call, who);
    case GateTransition(_, _, _) => GateCallServed(db, call, who);
    case GateDelete(_) => GateCallServed(db, call, who);
    case DirectiveCreate(_, _, _) => DirectiveEditServed(db, call, who);
    case DirectiveUpdate(_, _, _) => DirectiveEditServed(db, call, who);
    case DirectiveTransition(id, expected, target) => DirectiveTransitionServed(db, id, expected, target, who);
    case DirectiveDelete(_) => DirectiveEditServed(db, call, who);
    case ReceiptCreate(id, code, f) => ReceiptCreateServed(db, id, code, f, who);
    case ReceiptUpdate(id, expected, f) => ReceiptUpdateServed(db, id, expected, f, who);
    case ReceiptTransition(id, expected, target) => ReceiptTransitionServed(db, id, expected, target, who);
    case ReceiptDelete(id) => ReceiptDeleteServed(db, id, who);
  }

  /** And what it then does. */
  lemma ServedEffect(db: DB, call: Call, who: Caller)
    requires Serially(db, call, who).Ok?
    ensures Becomes(db, Serially(db, call, who).value, call, Views(db, db, db, db), who)
  {
    hide Plan, Commit, Becomes;
    var v := Views(db, db, db, db);
    PlanBecomes(db, Serially(db, call, who).value, call, v, who, Plan(call, v, who).value);
  }
}
