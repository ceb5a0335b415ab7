/** What each request does once it commits, column by column: the reference the services and their plans are held to,
    in any interleaving. */
module Effects {
  import opened Prelude
  import opened Text
  import opened Status
  import opened Model
  import opened Transactions
  import opened Planning
  import opened Protocol
  import opened Evolution
  import opened OptimisticLock
  import opened Reachability

  ghost predicate GateAt(db: DB, g: Id, code: string) {
    g in db.gates && !db.gates[g].deleted && db.gates[g].code == Norm(code)
  }

  ghost predicate DirectiveAt(db: DB, d: Id, code: string) {
    d in db.directives && !db.directives[d].deleted && db.directives[d].code == Norm(code)
  }

  /** The text columns a client sends, trimmed. */
  predicate TextGiven(p: Payload, f: Fields) {
    p.name == TrimSpace(f.name) && p.owner == TrimSpace(f.owner) && p.details == f.details
  }

  predicate GateGiven(b: Gate, f: Fields) {
    && b.facility == TrimSpace(f.facility) && b.category == TrimSpace(f.category) && b.riskLevel == f.riskLevel
    && TextGiven(b.payload, f)
  }

  predicate DirectiveGiven(b: Directive, f: Fields) {
    && b.facility == TrimSpace(f.facility) && b.category == TrimSpace(f.category) && b.riskLevel == f.riskLevel
    && b.relatedCode == Norm(f.relatedCode) && TextGiven(b.payload, f)
  }

  predicate Unsigned(b: Directive) {
    b.submittedBy == "" && b.submittedAt == None && b.approvedBy == "" && b.approvedAt == None
  }

  predicate SameSignatures(a: Directive, b: Directive) {
    && a.submittedBy == b.submittedBy && a.submittedAt == b.submittedAt
    && a.approvedBy == b.approvedBy && a.approvedAt == b.approvedAt
  }

  /** Everything but one row of one table is as it was, and these entries are added. */
  predicate OnlyGate(a: DB, b: DB, id: Id, entry: Audit) {
    && id in b.gates && b.gates == a.gates[id := b.gates[id]] && b.audits == a.audits + [entry]
    && b.directives == a.directives && b.receipts == a.receipts && b.approvals == a.approvals
  }

  predicate OnlyDirective(a: DB, b: DB, id: Id, entry: Audit) {
    && id in b.directives && b.directives == a.directives[id := b.directives[id]] && b.audits == a.audits + [entry]
    && b.gates == a.gates && b.receipts == a.receipts && b.approvals == a.approvals
  }

  predicate OnlyReceipt(a: DB, b: DB, id: Id, entry: Audit) {
    && id in b.receipts && b.receipts == a.receipts[id := b.receipts[id]] && b.audits == a.audits + [entry]
    && b.gates == a.gates && b.directives == a.directives && b.approvals == a.approvals
  }

  predicate NewRow<T>(t: Table<T>, u: Table<T>, id: Id, code: string, status: Status) {
    && id !in t && id in u
    && u[id].code == Norm(code) && u[id].status == status && u[id].version == 1 && !u[id].deleted
  }

  /** The row was live, and only its version and the columns in `body` may differ. */
  predicate EditedRow<T>(t: Table<T>, u: Table<T>, id: Id) {
    && id in t && !t[id].deleted && id in u
    && u[id].code == t[id].code && u[id].status == t[id].status && u[id].version == t[id].version + 1 && !u[id].deleted
  }

  /** The row was live, and its status and version change, nothing else but perhaps columns in `body`. */
  predicate MovedRow<T>(t: Table<T>, u: Table<T>, id: Id, target: Status) {
    && id in t && !t[id].deleted && id in u
    && u[id].code == t[id].code && u[id].status == target && u[id].version == t[id].version + 1 && !u[id].deleted
  }

  predicate DeletedRow<T(==)>(t: Table<T>, u: Table<T>, id: Id) {
    id in t && !t[id].deleted && id in u && u[id] == t[id].(deleted := true)
  }

  // ---- Gates ----

  predicate GateCreated(a: DB, b: DB, id: Id, code: string, f: Fields, who: Caller) {
    && OnlyGate(a, b, id, AuditEntry(who, CreateAction, GateUnit, id, Blank, Open))
    && NewRow(a.gates, b.gates, id, code, Open)
    && GateGiven(b.gates[id].body, f) && b.gates[id].body.relatedCode == Norm(f.relatedCode)
  }

  predicate GateUpdated(a: DB, b: DB, id: Id, f: Fields, reservoir: Option<Reservoir>, who: Caller) {
    && EditedRow(a.gates, b.gates, id)
    && OnlyGate(a, b, id, AuditEntry(who, UpdateAction, GateUnit, id, a.gates[id].status, a.gates[id].status))
    && GateGiven(b.gates[id].body, f) && reservoir.Some? && b.gates[id].body.relatedCode == reservoir.value.code
  }

  predicate GateMoved(a: DB, b: DB, id: Id, target: Status, who: Caller) {
    && MovedRow(a.gates, b.gates, id, target) && b.gates[id].body == a.gates[id].body
    && OnlyGate(a, b, id, RawEntry(who, GateUnit, id, a.gates[id].status, target))
  }

  predicate GateDeleted(a: DB, b: DB, id: Id, read: DB, who: Caller) {
    && DeletedRow(a.gates, b.gates, id) && id in read.gates
    && OnlyGate(a, b, id, AuditEntry(who, DeleteAction, GateUnit, id, read.gates[id].status, Removed))
  }

  // ---- Directives ----

  predicate DirectiveCreated(a: DB, b: DB, id: Id, code: string, f: Fields, who: Caller) {
    && OnlyDirective(a, b, id, AuditEntry(who, CreateAction, OperationDirective, id, Blank, Draft))
    && NewRow(a.directives, b.directives, id, code, Draft)
    && DirectiveGiven(b.directives[id].body, f) && Unsigned(b.directives[id].body)
    && b.directives[id].body.gateState == (if f.gateState == Blank then Closed else f.gateState)
  }

  predicate DirectiveUpdated(a: DB, b: DB, id: Id, f: Fields, who: Caller) {
    && EditedRow(a.directives, b.directives, id) && a.directives[id].status == Draft
    && OnlyDirective(a, b, id, AuditEntry(who, UpdateAction, OperationDirective, id, Draft, Draft))
    && DirectiveGiven(b.directives[id].body, f) && SameSignatures(b.directives[id].body, a.directives[id].body)
    && b.directives[id].body.gateState == (if f.gateState == Blank then a.directives[id].body.gateState
        else f.gateState)
  }

  predicate DirectiveDeleted(a: DB, b: DB, id: Id, who: Caller) {
    && DeletedRow(a.directives, b.directives, id)
    && OnlyDirective(a, b, id, AuditEntry(who, DeleteAction, OperationDirective, id, Draft, Removed))
  }

  /** A submission signs the first column pair, an approval the second, and each leaves one record; nothing else
      signs. */
  predicate SignedBy(a: DB, b: DB, id: Id, target: Status, who: Caller)
    requires id in a.directives && id in b.directives
  {
    var was, next := a.directives[id].body, b.directives[id].body;
    match target
    case Pending =>
      && next == was.(submittedBy := who.actor, submittedAt := Some(who.now))
      && b.approvals == a.approvals
           + [Approval(id, SubmittedStage, who.actor, who.role, who.requestId, Draft, Pending, who.now)]
    case Approved =>
      && next == was.(approvedBy := who.actor, approvedAt := Some(who.now))
      && b.approvals == a.approvals
           + [Approval(id, ApprovedStage, who.actor, who.role, who.requestId, Pending, Approved, who.now)]
    case _ => next == was && b.approvals == a.approvals
  }

  /** Where starting or aborting wants the gate it read. */
  function Wanted(d: Row<Directive>, gate: Row<Gate>, target: Status): Status {
    if target == Aborted then Locked else if gate.status == d.body.gateState then gate.status else Moving
  }

  /** A gate already where it is wanted is left alone; another is moved there, with an entry of its own. */
  predicate GateFollows(a: DB, b: DB, g: Id, read: Row<Gate>, goal: Status, before: seq<Audit>, action: Action,
      who: Caller) {
    if read.status == goal then b.gates == a.gates && b.audits == before
    else
      && g in a.gates && a.gates[g] == read && MovedRow(a.gates, b.gates, g, goal) && b.gates[g].body == read.body
      && b.gates == a.gates[g := b.gates[g]]
      && b.audits == before + [AuditEntry(who, action, GateUnit, g, read.status, goal)]
  }

  ghost predicate DirectiveMoved(a: DB, b: DB, id: Id, target: Status, far: DB, who: Caller) {
    && MovedRow(a.directives, b.directives, id, target) && SignedBy(a, b, id, target, who)
    && b.directives == a.directives[id := b.directives[id]] && b.receipts == a.receipts
    && var d := a.directives[id];
       var audits := a.audits + [RawEntry(who, OperationDirective, id, d.status, target)];
       if target == Executing || (d.status == Executing && target == Aborted) then
         exists g :: GateAt(far, g, d.body.relatedCode)
           && GateFollows(a, b, g, far.gates[g], Wanted(d, far.gates[g], target), audits, DirectiveExecution, who)
       else
         b.gates == a.gates && b.audits == audits
  }

  // ---- Receipts ----

  predicate ReceiptGiven(b: Receipt, d: Row<Directive>, f: Fields) {
    && b.facility == d.body.facility && b.category == d.body.category && b.riskLevel == d.body.riskLevel
    && b.relatedCode == d.code && TextGiven(b.payload, f)
  }

  /** The directive whose key `key` gives for the code and whose row `link` has, found executing. */
  ghost predicate ExecutingAt(key: DB, link: DB, d: Id, code: string) {
    DirectiveAt(key, d, code) && d in link.directives && !link.directives[d].deleted
        && link.directives[d].status == Executing
  }

  ghost predicate ReceiptCreated(a: DB, b: DB, id: Id, code: string, f: Fields, v: Views, who: Caller) {
    && OnlyReceipt(a, b, id, AuditEntry(who, CreateAction, ExecutionConfirmation, id, Blank, Pending))
    && NewRow(a.receipts, b.receipts, id, code, Pending)
    && b.receipts[id].body.confirmedBy == "" && b.receipts[id].body.confirmedAt == None
    && exists d :: ExecutingAt(v.key, v.link, d, f.relatedCode)
        && ReceiptGiven(b.receipts[id].body, v.link.directives[d], f)
  }

  ghost predicate ReceiptUpdated(a: DB, b: DB, id: Id, f: Fields, v: Views, who: Caller) {
    && EditedRow(a.receipts, b.receipts, id) && a.receipts[id].status == Pending
    && OnlyReceipt(a, b, id, AuditEntry(who, UpdateAction, ExecutionConfirmation, id, Pending, Pending))
    && b.receipts[id].body.confirmedBy == a.receipts[id].body.confirmedBy
    && b.receipts[id].body.confirmedAt == a.receipts[id].body.confirmedAt
    && exists d ::
         ExecutingAt(v.key, v.link, d, a.receipts[id].body.relatedCode)
         && ReceiptGiven(b.receipts[id].body, v.link.directives[d], f)
  }

  predicate ReceiptDeleted(a: DB, b: DB, id: Id, who: Caller) {
    && DeletedRow(a.receipts, b.receipts, id)
    && OnlyReceipt(a, b, id, AuditEntry(who, DeleteAction, ExecutionConfirmation, id, Pending, Removed))
  }

  /** A confirmation signs the receipt; any other move keeps every column but status and version. */
  predicate ConfirmedOrKept(was: Receipt, next: Receipt, target: Status, who: Caller) {
    next == if target == Confirmed then was.(confirmedBy := who.actor, confirmedAt := Some(who.now)) else was
  }

  ghost predicate ReceiptMoved(a: DB, b: DB, id: Id, target: Status, far: DB, who: Caller) {
    && MovedRow(a.receipts, b.receipts, id, target)
    && ConfirmedOrKept(a.receipts[id].body, b.receipts[id].body, target, who)
    && b.receipts == a.receipts[id := b.receipts[id]] && b.approvals == a.approvals
    && var r := a.receipts[id];
       var audits := a.audits + [AuditEntry(who, TransitionAction, ExecutionConfirmation, id, r.status, target)];
       if r.status == Pending then
         exists d, g :: SettledWith(a, b, d, g, r.body.relatedCode, target, far, audits, who)
       else
         b.directives == a.directives && b.gates == a.gates && b.audits == audits
  }

  /** The directive of a pending receipt ends with it, and its gate goes to the target, or is locked. */
  ghost predicate SettledWith(a: DB, b: DB, d: Id, g: Id, link: string, target: Status, far: DB, audits: seq<Audit>,
      who: Caller) {
    var outcome := if target == Confirmed then Completed else Aborted;
    && ExecutingAt(a, a, d, link)
    && MovedRow(a.directives, b.directives, d, outcome) && b.directives[d].body == a.directives[d].body
    && b.directives == a.directives[d := b.directives[d]]
    && GateAt(far, g, a.directives[d].body.relatedCode)
    && GateFollows(a, b, g, far.gates[g], if target == Confirmed then a.directives[d].body.gateState else Locked,
         audits + [AuditEntry(who, ExecutionOutcome, OperationDirective, d, Executing, outcome)], ExecutionOutcome, who)
  }

  /** What the call makes of state `a`, given what it read of rows other than its own. */
  ghost predicate Becomes(a: DB, b: DB, call: Call, v: Views, who: Caller) {
    match call
    case GateCreate(id, code, f, _) => GateCreated(a, b, id, code, f, who)
    case GateUpdate(id, _, f, reservoir) => GateUpdated(a, b, id, f, reservoir, who)
    case GateTransition(id, _, target) => GateMoved(a, b, id, target, who)
    case GateDelete(id) => GateDeleted(a, b, id, v.own, who)
    case DirectiveCreate(id, code, f) => DirectiveCreated(a, b, id, code, f, who)
    case DirectiveUpdate(id, _, f) => DirectiveUpdated(a, b, id, f, who)
    case DirectiveTransition(id, _, target) => DirectiveMoved(a, b, id, target, v.far, who)
    case DirectiveDelete(id) => DirectiveDeleted(a, b, id, who)
    case ReceiptCreate(id, code, f) => ReceiptCreated(a, b, id, code, f, v, who)
    case ReceiptUpdate(id, _, f) => ReceiptUpdated(a, b, id, f, v, who)
    case ReceiptTransition(id, _, target) => ReceiptMoved(a, b, id, target, v.far, who)
    case ReceiptDelete(id) => ReceiptDeleted(a, b, id, who)
  }

  // ---- Proofs, one kind of request at a time ----

  lemma GateCallBecomes(a: DB, b: DB, call: Call, v: Views, who: Caller, tx: Tx)
    requires call.GateCreate? || call.GateUpdate? || call.GateTransition? || call.GateDelete?
    requires Plan(call, v, who) == Ok(tx) && Commit(a, tx) == Ok(b) && (HasExpected(call) ==> v.own == a)
    ensures Becomes(a, b, call, v, who)
  {
    hide EqualFold, BusinessFieldsMissing, CanTransition, Norm, TrimSpace, AuditEntry, RawEntry, Commit;
    CommitOnlyGate(a, tx.gate.change, tx.gate.entry);
  }

  lemma DirectiveEditBecomes(a: DB, b: DB, call: Call, v: Views, who: Caller, tx: Tx)
    requires call.DirectiveCreate? || call.DirectiveUpdate? || call.DirectiveDelete?
    requires Plan(call, v, who) == Ok(tx) && Commit(a, tx) == Ok(b) && (HasExpected(call) ==> v.own == a)
    ensures Becomes(a, b, call, v, who)
  {
    hide EqualFold, BusinessFieldsMissing, Norm, TrimSpace, AuditEntry, RawEntry, Commit, LinkedGate, GateUnfit;
    CommitOnlyDirective(a, tx.directive.change, tx.directive.entry);
  }

  lemma ReceiptEditBecomes(a: DB, b: DB, call: Call, v: Views, who: Caller, tx: Tx)
    requires call.ReceiptCreate? || call.ReceiptUpdate? || call.ReceiptDelete?
    requires Plan(call, v, who) == Ok(tx) && Commit(a, tx) == Ok(b) && (HasExpected(call) ==> v.own == a)
    ensures Becomes(a, b, call, v, who)
  {
    hide EqualFold, BusinessFieldsMissing, Norm, TrimSpace, AuditEntry, RawEntry, Commit, HasReceipt, FindByCode,
        LinkClash;
    CommitOnlyReceipt(a, tx.receipt.change, tx.receipt.entry);
    if call.ReceiptCreate? {
      hide PlanReceiptUpdate, PlanReceiptDelete;
      LinkedExecuting(v.key, v.link, call.fields.relatedCode);
    } else if call.ReceiptUpdate? {
      hide PlanReceiptCreate, PlanReceiptDelete;
      LinkedExecuting(v.key, v.link, a.receipts[call.id].body.relatedCode);
    }
  }

  lemma LinkedExecuting(key: DB, link: DB, code: string)
    ensures var d := LinkedDirective(key, link, code);
            d.Some? ==>
              && DirectiveAt(key, d.value.id, code) && d.value.id in link.directives
              && !link.directives[d.value.id].deleted && link.directives[d.value.id] == d.value.row
              && (d.value.row.status == Executing ==> ExecutingAt(key, link, d.value.id, code))
  {
    hide Norm;
    var hit := FindByCode(key.directives, Norm(code));
    if hit.Some? {
      assert CarriesCode(key.directives, hit.value.id, Norm(code));
    }
  }

  lemma LinkedGateAt(db: DB, code: string)
    ensures var g := LinkedGate(db, code);
            g.Some? ==> GateAt(db, g.value.id, code) && db.gates[g.value.id] == g.value.row
  {
    hide Norm;
    var hit := FindByCode(db.gates, Norm(code));
    if hit.Some? {
      assert CarriesCode(db.gates, hit.value.id, Norm(code));
    }
  }

  lemma MovedGateFollows(a: DB, b: DB, w: RowWrite<Gate>, g: Keyed<Gate>, goal: Status, before: seq<Audit>,
      action: Action, who: Caller)
    requires w == MoveGate(g, goal, action, who) && ApplyWrite(a.gates, w) == Ok(b.gates)
        && b.audits == before + Entry(w)
    requires w.Write? ==> g.id in a.gates && a.gates[g.id] == g.row
    ensures GateFollows(a, b, g.id, g.row, goal, before, action, who)
  {
    hide AuditEntry;
  }

  lemma DirectiveTransitionBecomes(a: DB, b: DB, id: Id, expected: nat, target: Status, gate: Option<Keyed<Gate>>,
      far: DB, who: Caller, tx: Tx)
    requires PlanDirectiveTransition(id, Find(a.directives, id), gate, expected, target, who) == Ok(tx)
        && Commit(a, tx) == Ok(b)
    requires Live(a.directives, id) ==> gate == LinkedGate(far, a.directives[id].body.relatedCode)
    requires tx.gate.Write? ==> far == a
    ensures DirectiveMoved(a, b, id, target, far, who)
  {
    hide EqualFold, Norm, AuditEntry, RawEntry, Commit, CanTransition, DirectiveRoleAllowed, LinkedGate, GateBlocked,
        MoveGate,
      GateFollows;
    var d := a.directives[id];
    EdgesWritten(d.status, target);
    LinkedGateAt(far, d.body.relatedCode);
    CommitDirectiveThenGate(a, tx.directive.change, tx.approval, tx.directive.entry, tx.gate);
    if ReachesGate(d.status, target) {
      var before := a.audits + [RawEntry(who, OperationDirective, id, d.status, target)];
      var g := gate.value;
      StayIfWanted(g, DispatchTarget(d, g.row, target), who);
      MovedGateFollows(a, b, tx.gate, g, Wanted(d, g.row, target), before, DirectiveExecution, who);
      assert GateAt(far, g.id, d.body.relatedCode);
    }
  }

  lemma StayIfWanted(g: Keyed<Gate>, goal: Status, who: Caller)
    ensures g.row.status == goal <==> MoveGate(g, goal, DirectiveExecution, who).Skip?
  {
  }

  lemma ReceiptTransitionBecomes(a: DB, b: DB, id: Id, expected: nat, target: Status, d: Option<Keyed<Directive>>,
      gate: Option<Keyed<Gate>>,
      far: DB, who: Caller, tx: Tx)
    requires PlanReceiptTransition(id, Find(a.receipts, id), d, gate, expected, target, who) == Ok(tx)
        && Commit(a, tx) == Ok(b)
    requires Live(a.receipts, id) && tx.directive.Write? ==>
               && d == LinkedDirective(a, a, a.receipts[id].body.relatedCode)
               && d.Some? && gate == LinkedGate(far, d.value.row.body.relatedCode)
    requires tx.gate.Write? ==> far == a
    ensures ReceiptMoved(a, b, id, target, far, who)
  {
    hide Norm, AuditEntry, RawEntry, Commit, CanTransition, LinkedGate, LinkedDirective, GateBlocked, MoveGate,
        GateFollows, LinkClash;
    var r := a.receipts[id];
    CommitReceiptThenLinks(a, tx.receipt, tx.directive, tx.gate);
    if r.status == Pending {
      LinkedExecuting(a, a, r.body.relatedCode);
      LinkedGateAt(far, d.value.row.body.relatedCode);
      var audits := a.audits + [AuditEntry(who, TransitionAction, ExecutionConfirmation, id, r.status, target)];
      var outcome := if target == Confirmed then Completed else Aborted;
      var goal := if target == Confirmed then d.value.row.body.gateState else Locked;
      var before := audits + [AuditEntry(who, ExecutionOutcome, OperationDirective, d.value.id, Executing, outcome)];
      MovedGateFollows(a, b, tx.gate, gate.value, goal, before, ExecutionOutcome, who);
      assert SettledWith(a, b, d.value.id, gate.value.id, r.body.relatedCode, target, far, audits, who);
    }
  }

  lemma PlanBecomes(a: DB, b: DB, call: Call, v: Views, who: Caller, tx: Tx)
    requires Plan(call, v, who) == Ok(tx) && Commit(a, tx) == Ok(b) && (HasExpected(call) ==> v.own == a)
    requires call.ReceiptTransition? && tx.directive.Write? ==> v.key == a && v.link == a
    requires (call.DirectiveTransition? || call.ReceiptTransition?) && tx.gate.Write? ==> v.far == a
    ensures Becomes(a, b, call, v, who)
  {
    if call.DirectiveTransition? {
      hide PlanDirectiveTransition, DirectiveMoved, FindByCode, Commit;
      var current := Find(a.directives, call.id);
      var gate := if current.None? then None else LinkedGate(v.far, current.value.body.relatedCode);
      DirectiveTransitionBecomes(a, b, call.id, call.expected, call.target, gate, v.far, who, tx);
    } else if call.ReceiptTransition? {
      hide PlanReceiptTransition, ReceiptMoved, FindByCode, LinkedDirective, Commit;
      var current := Find(a.receipts, call.id);
      var d := if current.None? then None else LinkedDirective(v.key, v.link, current.value.body.relatedCode);
      var gate := if d.None? then None else LinkedGate(v.far, d.value.row.body.relatedCode);
      SettlesLinked(call.id, current, d, gate, call.expected, call.target, who);
      ReceiptTransitionBecomes(a, b, call.id, call.expected, call.target, d, gate, v.far, who, tx);
    } else {
      hide Plan, Commit, Becomes;
      if call.GateCreate? || call.GateUpdate? || call.GateTransition? || call.GateDelete? {
        GateCallBecomes(a, b, call, v, who, tx);
      } else if call.DirectiveCreate? || call.DirectiveUpdate? || call.DirectiveDelete? {
        DirectiveEditBecomes(a, b, call, v, who, tx);
      } else {
        ReceiptEditBecomes(a, b, call, v, who, tx);
      }
    }
  }

  lemma SettlesLinked(id: Id, r: Option<Row<Receipt>>, d: Option<Keyed<Directive>>, gate: Option<Keyed<Gate>>,
      expected: nat, target: Status, who: Caller)
    requires PlanReceiptTransition(id, r, d, gate, expected, target, who).Ok?
    ensures r.Some?
    ensures PlanReceiptTransition(id, r, d, gate, expected, target, who).value.directive.Write? ==>
        d.Some? && gate.Some?
  {
    hide MoveGate, GateBlocked, GateAfterOutcome;
  }

  /** What a committed request does, in every interleaving of honest clients: it makes of the state at its commit what
      the reference says, reading its own row, and every other row it writes, there. */
  lemma CommittedEffect(h: seq<DB>, e: Event)
    requires Ordered(h) && InOrder(h, e) && Commits(h, e) && Shown(h, e)
    ensures var v := if IsDelete(e.call) then ViewsAt(h, e) else ReadsAtCommit(h, e, Planned(h, e).value);
            Becomes(Now(h), After(h, e), e.call, v, e.who)
  {
    hide Plan, Commit, Shown, Ordered, Becomes;
    var tx := Planned(h, e).value;
    if IsDelete(e.call) {
      PlanBecomes(Now(h), After(h, e), e.call, ViewsAt(h, e), e.who, tx);
    } else {
      ReadsSettleAtCommit(h, e);
      PlanBecomes(Now(h), After(h, e), e.call, ReadsAtCommit(h, e, tx), e.who, tx);
    }
  }
}
