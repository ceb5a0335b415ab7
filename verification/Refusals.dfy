/** What a refusal means: each error a request is answered with has its written-out reason in the stored rows. */
module Refusals {
  import opened Prelude
  import opened Text
  import opened Status
  import opened Model
  import opened Transactions
  import opened Planning
  import opened Protocol
  import opened Dispatch
  import Grounding
  import opened Effects
  import opened Acceptance

  ghost predicate NoGate(db: DB, code: string) {
    forall g :: !GateAt(db, g, code)
  }

  ghost predicate NoDirective(db: DB, code: string) {
    forall d :: !DirectiveAt(db, d, code)
  }

  /** A live directive carries the code, and it is not executing. */
  ghost predicate NotExecuting(db: DB, code: string) {
    exists d :: DirectiveAt(db, d, code) && db.directives[d].status != Executing
  }

  ghost predicate UnfitGate(db: DB, f: Fields) {
    exists g :: GateAt(db, g, f.relatedCode)
      && (db.gates[g].status == Locked || !SameLetters(TrimSpace(f.facility), db.gates[g].body.facility))
  }

  predicate Found<T>(t: Table<T>, id: Id) {
    id in t && !t[id].deleted
  }

  predicate StaleAt<T>(t: Table<T>, id: Id, expected: nat) {
    id in t && !t[id].deleted && t[id].version != expected
  }

  /** A transition of directive `d` that starts it, or aborts it while executing. */
  predicate AsksGate(d: Row<Directive>, target: Status) {
    target == Executing || (d.status == Executing && target == Aborted)
  }

  predicate RoleFits(target: Status, role: Role) {
    || (target == Approved && role in {Reviewer, Admin})
    || ((target == Pending || target == Executing) && role in {Operator, Admin})
    || (target == Aborted && role in {Operator, Reviewer, Admin})
  }

  /** The gate cannot go where a start or an abort wants it; a locked one under a start is another matter. */
  ghost predicate GateStuck(db: DB, d: Row<Directive>, target: Status) {
    exists g :: GateAt(db, g, d.body.relatedCode)
      && var s := db.gates[g].status;
         if target == Executing then s != Locked && s != d.body.gateState && s !in {Open, Closed, Moving}
         else s !in {Open, Closed, Moving, Locked}
  }

  ghost predicate OutcomeStuck(db: DB, link: string, target: Status) {
    exists d, g :: ExecutingAt(db, db, d, link) && GateAt(db, g, db.directives[d].body.relatedCode)
      && var goal := if target == Confirmed then db.directives[d].body.gateState else Locked;
         db.gates[g].status != goal && !GateEdge(db.gates[g].status, goal)
  }

  /** Everything a gate update asks of the request, apart from the version. */
  predicate GateFieldsFit(g: Row<Gate>, f: Fields) {
    FieldsGiven(g.code, f) && SameLetters(TrimSpace(f.relatedCode), g.body.relatedCode)
  }

  predicate SameFacility(f: Fields, reservoir: Option<Reservoir>) {
    reservoir.Some? && SameLetters(TrimSpace(f.facility), reservoir.value.facility)
  }

  predicate ReceiptFieldsFit(r: Row<Receipt>, f: Fields) {
    FieldsGiven(r.code, f) && r.status == Pending && SameLetters(TrimSpace(f.relatedCode), r.body.relatedCode)
  }

  ghost predicate IsExecuting(db: DB, code: string) {
    exists d :: ExecutingAt(db, db, d, code)
  }

  ghost predicate LiveLinked(db: DB, link: string) {
    exists r :: Found(db.receipts, r) && db.receipts[r].body.relatedCode == link
  }

  /** The transition is an edge of the graph, not the completion, and in the caller's role. */
  predicate MayAsk(d: Row<Directive>, target: Status, who: Caller) {
    DirectiveEdge(d.status, target) && target != Completed && RoleFits(target, who.role)
  }

  /** Everything a transition asks apart from the version and the records already there. */
  ghost predicate TransitionFits(db: DB, d: Row<Directive>, target: Status, who: Caller) {
    && MayAsk(d, target, who)
    && (target == Executing ==> MayStart(db, d))
    && (target == Aborted && d.status == Executing ==> MayLock(db, d))
    && (target == Approved ==> d.body.submittedBy != "" && !SameLetters(d.body.submittedBy, who.actor))
  }

  ghost predicate Missing(db: DB, call: Call, who: Caller) {
    match call
    case GateCreate(_, code, f, reservoir) => FieldsGiven(code, f) && reservoir == None
    case GateUpdate(id, _, f, reservoir) => !Found(db.gates, id)
        || (GateFieldsFit(db.gates[id], f) && reservoir == None)
    case GateTransition(id, _, _) => !Found(db.gates, id)
    case GateDelete(id) => !Found(db.gates, id)
    case DirectiveCreate(_, code, f) => FieldsGiven(code, f) && NoGate(db, f.relatedCode)
    case DirectiveUpdate(id, _, f) =>
      !Found(db.directives, id)
      || (db.directives[id].status == Draft && FieldsGiven(db.directives[id].code, f) && NoGate(db, f.relatedCode))
    case DirectiveTransition(id, _, target) =>
      !Found(db.directives, id)
      || (MayAsk(db.directives[id], target, who) && AsksGate(db.directives[id], target)
          && NoGate(db, db.directives[id].body.relatedCode))
    case DirectiveDelete(id) => !Found(db.directives, id)
    case ReceiptCreate(_, code, f) => FieldsGiven(code, f) && NoDirective(db, f.relatedCode)
    case ReceiptUpdate(id, _, f) =>
      !Found(db.receipts, id)
      || (ReceiptFieldsFit(db.receipts[id], f) && NoDirective(db, db.receipts[id].body.relatedCode))
    case ReceiptTransition(id, _, target) =>
      !Found(db.receipts, id)
      || (db.receipts[id].status == Pending && ReceiptEdge(Pending, target)
          && (NoDirective(db, db.receipts[id].body.relatedCode)
              || exists d :: ExecutingAt(db, db, d, db.receipts[id].body.relatedCode)
                   && NoGate(db, db.directives[d].body.relatedCode)))
    case ReceiptDelete(id) => !Found(db.receipts, id)
  }

  /** Everything else about the request is in order, and its version is not the stored one. */
  ghost predicate Stale(db: DB, call: Call, who: Caller) {
    match call
    case GateUpdate(id, expected, f, reservoir) =>
      StaleAt(db.gates, id, expected) && GateFieldsFit(db.gates[id], f) && SameFacility(f, reservoir)
    case GateTransition(id, expected, target) => StaleAt(db.gates, id, expected)
        && GateEdge(db.gates[id].status, target)
    case DirectiveUpdate(id, expected, f) =>
      && StaleAt(db.directives, id, expected) && db.directives[id].status == Draft
      && FieldsGiven(db.directives[id].code, f) && FitGate(db, f)
    case DirectiveTransition(id, expected, target) =>
      StaleAt(db.directives, id, expected) && TransitionFits(db, db.directives[id], target, who)
    case ReceiptUpdate(id, expected, f) =>
      && StaleAt(db.receipts, id, expected) && ReceiptFieldsFit(db.receipts[id], f)
      && IsExecuting(db, db.receipts[id].body.relatedCode)
    case ReceiptTransition(id, expected, target) =>
      && StaleAt(db.receipts, id, expected) && ReceiptEdge(db.receipts[id].status, target)
      && (db.receipts[id].status == Pending ==> MaySettle(db, db.receipts[id].body.relatedCode, target))
    case _ => false
  }

  /** Everything else about the request is in order, and a unique index refuses it. */
  ghost predicate Duplicate(db: DB, call: Call, who: Caller) {
    match call
    case GateCreate(id, code, f, reservoir) => FieldsGiven(code, f) && SameFacility(f, reservoir)
        && !Unused(db.gates, id, code)
    case DirectiveCreate(id, code, f) => FieldsGiven(code, f) && FitGate(db, f) && !Unused(db.directives, id, code)
    case DirectiveTransition(id, expected, target) =>
      && LiveAt(db.directives, id, expected) && TransitionFits(db, db.directives[id], target, who)
      && ((target == Pending && !NoRecord(db, id, SubmittedStage))
          || (target == Approved && !NoRecord(db, id, ApprovedStage)))
    case ReceiptCreate(id, code, f) =>
      && FieldsGiven(code, f) && IsExecuting(db, f.relatedCode) && !LiveLinked(db, Norm(f.relatedCode))
      && (!Unused(db.receipts, id, code) || !Unlinked(db, Norm(f.relatedCode)))
    case _ => false
  }

  ghost predicate Malformed(db: DB, call: Call, who: Caller) {
    match call
    case GateCreate(_, code, f, reservoir) => !FieldsGiven(code, f) || (reservoir.Some? && !SameFacility(f, reservoir))
    case GateUpdate(id, _, f, reservoir) =>
      Found(db.gates, id) && (!GateFieldsFit(db.gates[id], f) || (reservoir.Some? && !SameFacility(f, reservoir)))
    case DirectiveCreate(_, code, f) => !FieldsGiven(code, f) || UnfitGate(db, f)
    case DirectiveUpdate(id, _, f) =>
      && Found(db.directives, id) && db.directives[id].status == Draft
      && (!FieldsGiven(db.directives[id].code, f) || UnfitGate(db, f))
    case DirectiveTransition(id, _, target) =>
      && Found(db.directives, id) && MayAsk(db.directives[id], target, who) && target == Executing
      && exists g :: GateAt(db, g, db.directives[id].body.relatedCode) && db.gates[g].status == Locked
    case ReceiptCreate(_, code, f) =>
      !FieldsGiven(code, f) || NotExecuting(db, f.relatedCode)
      || (IsExecuting(db, f.relatedCode) && LiveLinked(db, Norm(f.relatedCode)))
    case ReceiptUpdate(id, _, f) =>
      && Found(db.receipts, id)
      && var r := db.receipts[id];
         || !FieldsGiven(r.code, f)
         || (r.status == Pending
             && (!SameLetters(TrimSpace(f.relatedCode), r.body.relatedCode) || NotExecuting(db, r.body.relatedCode)))
    case ReceiptTransition(id, _, target) =>
      && Found(db.receipts, id) && db.receipts[id].status == Pending && ReceiptEdge(Pending, target)
      && NotExecuting(db, db.receipts[id].body.relatedCode)
    case _ => false
  }

  ghost predicate OffGraph(db: DB, call: Call, who: Caller) {
    match call
    case GateTransition(id, _, target) => Found(db.gates, id) && !GateEdge(db.gates[id].status, target)
    case DirectiveTransition(id, _, target) =>
      && Found(db.directives, id)
      && var d := db.directives[id];
         || !DirectiveEdge(d.status, target) || target == Completed
         || (MayAsk(d, target, who) && AsksGate(d, target) && GateStuck(db, d, target))
    case ReceiptTransition(id, _, target) =>
      && Found(db.receipts, id)
      && var r := db.receipts[id];
         || !ReceiptEdge(r.status, target)
         || (r.status == Pending && IsExecuting(db, r.body.relatedCode) && OutcomeStuck(db, r.body.relatedCode, target))
    case _ => false
  }

  predicate Unauthorised(db: DB, call: Call, who: Caller) {
    && call.DirectiveTransition? && Found(db.directives, call.id)
    && DirectiveEdge(db.directives[call.id].status, call.target) && call.target != Completed
    && !RoleFits(call.target, who.role)
  }

  predicate OnePerson(db: DB, call: Call, who: Caller) {
    && call.DirectiveTransition? && call.target == Approved && Found(db.directives, call.id)
    && MayAsk(db.directives[call.id], Approved, who)
    && var submitter := db.directives[call.id].body.submittedBy;
       submitter == "" || SameLetters(submitter, who.actor)
  }

  predicate Immutable(db: DB, call: Call) {
    match call
    case DirectiveUpdate(id, _, _) => Found(db.directives, id) && db.directives[id].status != Draft
    case DirectiveDelete(id) => Found(db.directives, id) && db.directives[id].status != Draft
    case ReceiptUpdate(id, _, f) =>
      Found(db.receipts, id) && FieldsGiven(db.receipts[id].code, f) && db.receipts[id].status != Pending
    case ReceiptDelete(id) => Found(db.receipts, id) && db.receipts[id].status != Pending
    case _ => false
  }

  ghost predicate Reason(db: DB, call: Call, who: Caller, err: Error) {
    match err
    case NotFound => Missing(db, call, who)
    case VersionConflict => Stale(db, call, who)
    case DuplicateKey => Duplicate(db, call, who)
    case InvalidInput => Malformed(db, call, who)
    case InvalidTransition => OffGraph(db, call, who)
    case Forbidden => Unauthorised(db, call, who)
    case TwoPersonRequired => OnePerson(db, call, who)
    case ImmutableState => Immutable(db, call)
    case StorageFault => false
  }

  // ---- Lookups that fail ----

  lemma DirectiveLookup(db: DB, code: string)
    requires UniqueCodes(db.directives)
    ensures LinkedDirective(db, db, code).None? ==> NoDirective(db, code)
    ensures var d := LinkedDirective(db, db, code);
            d.Some? ==>
              && Live(db.directives, d.value.id) && db.directives[d.value.id] == d.value.row
              && DirectiveAt(db, d.value.id, code)
              && (d.value.row.status == Executing ==> ExecutingAt(db, db, d.value.id, code))
              && (d.value.row.status != Executing ==> NotExecuting(db, code))
  {
    hide Norm;
    LinkedExecuting(db, db, code);
    if LinkedDirective(db, db, code).None? {
      forall d | DirectiveAt(db, d, code)
        ensures false
      {
        ResolvesTo(db.directives, d);
      }
    }
  }

  lemma NoGateIff(db: DB, code: string)
    requires UniqueCodes(db.gates)
    ensures LinkedGate(db, code).None? <==> NoGate(db, code)
  {
    hide Norm, LinkedGate, GateAt;
    GateLookup(db, code);
    var g := LinkedGate(db, code);
    assert g.Some? ==> GateAt(db, g.value.id, code);
  }

  lemma ServedOrWhy(db: DB, call: Call, who: Caller)
    ensures var p := Plan(call, Views(db, db, db, db), who);
            Serially(db, call, who).Err? ==>
              if p.Err? then Serially(db, call, who) == Err(p.error)
              else Commit(db, p.value).Err? && Serially(db, call, who) == Err(Commit(db, p.value).error)
  {
    hide Plan, Commit;
  }

  // ---- One kind of request at a time ----

  lemma GateCallRefused(db: DB, call: Call, who: Caller)
    requires call.GateCreate? || call.GateUpdate? || call.GateTransition? || call.GateDelete?
    requires Serially(db, call, who).Err?
    ensures Reason(db, call, who, Serially(db, call, who).error)
  {
    hide EqualFold, SameLetters, CanTransition, Norm, TrimSpace, AuditEntry, RawEntry, Commit;
    FoldsAreLetterwise();
    AllEdgesWritten();
    ServedOrWhy(db, call, who);
    var p := Plan(call, Views(db, db, db, db), who);
    if p.Ok? {
      CommitOnlyGate(db, p.value.gate.change, p.value.gate.entry);
    }
  }

  lemma DirectiveEditRefused(db: DB, call: Call, who: Caller)
    requires UniqueCodes(db.gates) && (call.DirectiveCreate? || call.DirectiveUpdate? || call.DirectiveDelete?)
    requires Serially(db, call, who).Err?
    ensures Reason(db, call, who, Serially(db, call, who).error)
  {
    hide EqualFold, SameLetters, Norm, TrimSpace, AuditEntry, RawEntry, Commit, LinkedGate, GateAt, NoGate;
    FoldsAreLetterwise();
    ServedOrWhy(db, call, who);
    if !call.DirectiveDelete? {
      GateLookup(db, call.fields.relatedCode);
      NoGateIff(db, call.fields.relatedCode);
    }
    var p := Plan(call, Views(db, db, db, db), who);
    if p.Ok? {
      CommitOnlyDirective(db, p.value.directive.change, p.value.directive.entry);
    }
  }

  lemma DirectiveTransitionRefused(db: DB, id: Id, expected: nat, target: Status, who: Caller)
    requires UniqueCodes(db.gates)
    requires Serially(db, DirectiveTransition(id, expected, target), who).Err?
    ensures Reason(db, DirectiveTransition(id, expected, target), who,
        Serially(db, DirectiveTransition(id, expected, target), who).error)
  {
    hide SameLetters, Norm, Commit, LinkedGate, GateAt, NoGate, PlanDirectiveTransition;
    var call := DirectiveTransition(id, expected, target);
    ServedOrWhy(db, call, who);
    var current := Find(db.directives, id);
    var gate := if current.None? then None else LinkedGate(db, current.value.body.relatedCode);
    var p := Plan(call, Views(db, db, db, db), who);
    if current.Some? {
      var code := current.value.body.relatedCode;
      GateLookup(db, code);
      NoGateIff(db, code);
      GateLive(db, code);
    }
    if p.Err? {
      TransitionRefused(id, current, gate, expected, target, who);
      if current.Some? && gate.Some? {
        assert GateAt(db, gate.value.id, current.value.body.relatedCode);
      }
    } else {
      TransitionPlanned(id, current, gate, expected, target, who);
      TransitionWrites(id, current, gate, expected, target, who);
      CommitDirectiveThenGate(db, p.value.directive.change, p.value.approval, p.value.directive.entry, p.value.gate);
    }
  }

  lemma TransitionRefused(id: Id, current: Option<Row<Directive>>, gate: Option<Keyed<Gate>>, expected: nat,
      target: Status, who: Caller)
    requires PlanDirectiveTransition(id, current, gate, expected, target, who).Err?
    ensures match PlanDirectiveTransition(id, current, gate, expected, target, who).error
            case NotFound =>
              current.None? || (MayAsk(current.value, target, who) && AsksGate(current.value, target) && gate.None?)
            case InvalidInput =>
              && current.Some? && MayAsk(current.value, target, who) && target == Executing
              && gate.Some? && gate.value.row.status == Locked
            case InvalidTransition =>
              && current.Some?
              && (!DirectiveEdge(current.value.status, target) || target == Completed
                  || (MayAsk(current.value, target, who) && AsksGate(current.value, target) && gate.Some?
                      && var s := gate.value.row.status;
                         if target == Executing then s != Locked && s != current.value.body.gateState
                             && s !in {Open, Closed, Moving}
                         else s !in {Open, Closed, Moving, Locked}))
            case Forbidden =>
              && current.Some? && DirectiveEdge(current.value.status, target) && target != Completed
              && !RoleFits(target, who.role)
            case TwoPersonRequired =>
              && current.Some? && target == Approved && MayAsk(current.value, Approved, who)
              && (current.value.body.submittedBy == "" || SameLetters(current.value.body.submittedBy, who.actor))
            case _ => false
  {
    hide EqualFold, SameLetters, CanTransition, RawEntry, AuditEntry, MoveGate, ApprovalFor, DirectiveAfter;
    AllEdgesWritten();
    if current.Some? {
      EqualFoldIff(current.value.body.submittedBy, who.actor);
    }
  }

  lemma ReceiptCreateRefused(db: DB, id: Id, code: string, f: Fields, who: Caller)
    requires Indexed(db) && Serially(db, ReceiptCreate(id, code, f), who).Err?
    ensures Reason(db, ReceiptCreate(id, code, f), who, Serially(db, ReceiptCreate(id, code, f), who).error)
  {
    hide Norm, TrimSpace, AuditEntry, Commit, LinkedDirective, ExecutingAt, DirectiveAt, NoDirective, NotExecuting;
    var call := ReceiptCreate(id, code, f);
    ServedOrWhy(db, call, who);
    NormIdempotent(f.relatedCode);
    DirectiveLookup(db, f.relatedCode);
    ExecutingLookup(db, f.relatedCode);
    var p := Plan(call, Views(db, db, db, db), who);
    if p.Ok? {
      CommitOnlyReceipt(db, p.value.receipt.change, p.value.receipt.entry);
    }
  }

  lemma UpdateRefusal(id: Id, r: Option<Row<Receipt>>, d: Option<Keyed<Directive>>, expected: nat, f: Fields,
      who: Caller)
    ensures match PlanReceiptUpdate(id, r, d, expected, f, who)
            case Ok(tx) =>
              && r.Some? && ReceiptFieldsFit(r.value, f) && d.Some? && d.value.row.status == Executing
                  && tx == NO_WRITES.(receipt := tx.receipt) && tx.receipt.Write?
              && tx.receipt.change.Overwrite? && tx.receipt.change.id == id && tx.receipt.change.expected == expected
              && tx.receipt.change.row.body.relatedCode == d.value.row.code
            case Err(NotFound) => r.None? || (ReceiptFieldsFit(r.value, f) && d.None?)
            case Err(InvalidInput) =>
              && r.Some?
              && (!FieldsGiven(r.value.code, f)
                  || (r.value.status == Pending
                      && (!SameLetters(TrimSpace(f.relatedCode), r.value.body.relatedCode)
                          || (d.Some? && d.value.row.status != Executing))))
            case Err(ImmutableState) => r.Some? && FieldsGiven(r.value.code, f) && r.value.status != Pending
            case Err(_) => false
  {
    hide EqualFold, SameLetters, TrimSpace, AuditEntry;
    FoldsAreLetterwise();
  }

  lemma ReceiptUpdateRefused(db: DB, id: Id, expected: nat, f: Fields, who: Caller)
    requires Indexed(db) && Grounding.LinksStored(db) && Serially(db, ReceiptUpdate(id, expected, f), who).Err?
    ensures Reason(db, ReceiptUpdate(id, expected, f), who, Serially(db, ReceiptUpdate(id, expected, f), who).error)
  {
    hide SameLetters, Norm, TrimSpace, Commit, LinkedDirective, ExecutingAt, DirectiveAt, NoDirective, NotExecuting,
      PlanReceiptUpdate;
    var call := ReceiptUpdate(id, expected, f);
    ServedOrWhy(db, call, who);
    var r := Find(db.receipts, id);
    var d := if r.None? then None else LinkedDirective(db, db, r.value.body.relatedCode);
    UpdateRefusal(id, r, d, expected, f, who);
    if r.Some? {
      Grounding.LinkIsNormal(db, id);
      DirectiveLookup(db, r.value.body.relatedCode);
      ExecutingLookup(db, r.value.body.relatedCode);
    }
    var p := Plan(call, Views(db, db, db, db), who);
    if p.Ok? {
      CommitOnlyReceipt(db, p.value.receipt.change, p.value.receipt.entry);
      NoClash(db.receipts, id, p.value.receipt.change.row);
    }
  }

  lemma ReceiptDeleteRefused(db: DB, id: Id, who: Caller)
    requires Serially(db, ReceiptDelete(id), who).Err?
    ensures Reason(db, ReceiptDelete(id), who, Serially(db, ReceiptDelete(id), who).error)
  {
    hide AuditEntry, Commit;
    ServedOrWhy(db, ReceiptDelete(id), who);
    var p := Plan(ReceiptDelete(id), Views(db, db, db, db), who);
    if p.Ok? {
      CommitOnlyReceipt(db, p.value.receipt.change, p.value.receipt.entry);
    }
  }

  lemma OutcomeRefusal(id: Id, r: Option<Row<Receipt>>, d: Option<Keyed<Directive>>, gate: Option<Keyed<Gate>>,
      expected: nat, target: Status, who: Caller)
    requires PlanReceiptTransition(id, r, d, gate, expected, target, who).Err?
    ensures match PlanReceiptTransition(id, r, d, gate, expected, target, who).error
            case NotFound =>
              r.None?
              || (r.value.status == Pending && ReceiptEdge(Pending, target)
                  && (d.None? || (d.value.row.status == Executing && gate.None?)))
            case InvalidInput =>
              && r.Some? && r.value.status == Pending && ReceiptEdge(Pending, target)
              && d.Some? && d.value.row.status != Executing
            case InvalidTransition =>
              && r.Some?
              && (!ReceiptEdge(r.value.status, target)
                  || (r.value.status == Pending && d.Some? && d.value.row.status == Executing && gate.Some?
                      && var goal := if target == Confirmed then d.value.row.body.gateState else Locked;
                         gate.value.row.status != goal && !GateEdge(gate.value.row.status, goal)))
            case _ => false
  {
    hide CanTransition, AuditEntry, MoveGate;
    AllEdgesWritten();
  }

  lemma ReceiptTransitionRefused(db: DB, id: Id, expected: nat, target: Status, who: Caller)
    requires Indexed(db) && Serially(db, ReceiptTransition(id, expected, target), who).Err?
    ensures Reason(db, ReceiptTransition(id, expected, target), who,
        Serially(db, ReceiptTransition(id, expected, target), who).error)
  {
    hide Norm, Commit, LinkedGate, GateAt, NoGate, LinkedDirective, ExecutingAt, DirectiveAt, NoDirective,
        NotExecuting, PlanReceiptTransition;
    var call := ReceiptTransition(id, expected, target);
    ServedOrWhy(db, call, who);
    var r := Find(db.receipts, id);
    var d := if r.None? then None else LinkedDirective(db, db, r.value.body.relatedCode);
    var gate := if d.None? then None else LinkedGate(db, d.value.row.body.relatedCode);
    var p := Plan(call, Views(db, db, db, db), who);
    if r.Some? {
      DirectiveLookup(db, r.value.body.relatedCode);
      if d.Some? {
        GateLookup(db, d.value.row.body.relatedCode);
        NoGateIff(db, d.value.row.body.relatedCode);
        GateLive(db, d.value.row.body.relatedCode);
      }
    }
    if p.Err? {
      OutcomeRefusal(id, r, d, gate, expected, target, who);
    } else {
      hide Indexed;
      OutcomeCommitRefused(db, id, r, d, gate, expected, target, who);
      OutcomeAllowed(id, r, d, gate, expected, target, who);
      if r.value.status == Pending {
        assert ExecutingAt(db, db, d.value.id, r.value.body.relatedCode);
        assert GateAt(db, gate.value.id, d.value.row.body.relatedCode);
      }
    }
  }

  lemma OutcomeAllowed(id: Id, r: Option<Row<Receipt>>, d: Option<Keyed<Directive>>, gate: Option<Keyed<Gate>>,
      expected: nat, target: Status, who: Caller)
    requires PlanReceiptTransition(id, r, d, gate, expected, target, who).Ok?
    ensures r.Some? && ReceiptEdge(r.value.status, target)
    ensures r.value.status == Pending ==>
              && d.Some? && d.value.row.status == Executing && gate.Some?
              && var goal := if target == Confirmed then d.value.row.body.gateState else Locked;
                 gate.value.row.status == goal || GateEdge(gate.value.row.status, goal)
  {
    hide CanTransition, AuditEntry, MoveGate;
    AllEdgesWritten();
  }

  lemma OutcomeCommitRefused(db: DB, id: Id, r: Option<Row<Receipt>>, d: Option<Keyed<Directive>>,
      gate: Option<Keyed<Gate>>,
      expected: nat, target: Status, who: Caller)
    requires Indexed(db) && r == Find(db.receipts, id)
        && PlanReceiptTransition(id, r, d, gate, expected, target, who).Ok?
    requires d.Some? ==> Live(db.directives, d.value.id) && db.directives[d.value.id] == d.value.row
    requires gate.Some? ==> Live(db.gates, gate.value.id) && db.gates[gate.value.id] == gate.value.row
    ensures var c := Commit(db, PlanReceiptTransition(id, r, d, gate, expected, target, who).value);
            c.Err? ==> c.error == VersionConflict && StaleAt(db.receipts, id, expected)
  {
    hide CanTransition, AuditEntry, GateAfterOutcome, GateBlocked, Commit;
    var tx := PlanReceiptTransition(id, r, d, gate, expected, target, who).value;
    CommitReceiptThenLinks(db, tx.receipt, tx.directive, tx.gate);
    NoClash(db.receipts, id, tx.receipt.change.row);
  }

  /** Why a request was refused: alone in any reachable state, the error it is answered with names something true of the
      stored rows, the request or the caller. */
  lemma RefusedForReason(db: DB, call: Call, who: Caller)
    requires Indexed(db) && Grounding.LinksStored(db) && Serially(db, call, who).Err?
    ensures Reason(db, call, who, Serially(db, call, who).error)
  {
    hide Serially, Reason;
    match call
    case GateCreate(_, _, _, _) => GateCallRefused(db, call, who);
    case GateUpdate(_, _, _, _) => GateCallRefused(db, call, who);
    case GateTransition(_, _, _) => GateCallRefused(db, call, who);
    case GateDelete(_) => GateCallRefused(db, call, who);
    case DirectiveCreate(_, _, _) => DirectiveEditRefused(db, call, who);
    case DirectiveUpdate(_, _, _) => DirectiveEditRefused(db, call, who);
    case DirectiveTransition(id, expected, target) => DirectiveTransitionRefused(db, id, expected, target, who);
    case DirectiveDelete(_) => DirectiveEditRefused(db, call, who);
    case ReceiptCreate(id, code, f) => ReceiptCreateRefused(db, id, code, f, who);
    case ReceiptUpdate(id, expected, f) => ReceiptUpdateRefused(db, id, expected, f, who);
    case ReceiptTransition(id, expected, target) => ReceiptTransitionRefused(db, id, expected, target, who);
    case ReceiptDelete(id) => ReceiptDeleteRefused(db, id, who);
  }

  // ---- The answer is determined ----

  lemma OneRowPerCode(db: DB)
    requires Indexed(db)
    ensures forall a, b, code :: GateAt(db, a, code) && GateAt(db, b, code) ==> a == b
    ensures forall a, b, code :: DirectiveAt(db, a, code) && DirectiveAt(db, b, code) ==> a == b
  {
    hide Norm;
  }

  lemma ReasonsExcludeForGates(db: DB, call: Call, who: Caller, x: Error, y: Error)
    requires call.GateCreate? || call.GateUpdate? || call.GateTransition? || call.GateDelete?
    requires Reason(db, call, who, x)
    ensures !Acceptable(db, call, who) && (Reason(db, call, who, y) ==> x == y)
  {
    hide SameLetters, Norm, TrimSpace;
  }

  lemma ReasonsExcludeForDirectiveEdits(db: DB, call: Call, who: Caller, x: Error, y: Error)
    requires Indexed(db) && (call.DirectiveCreate? || call.DirectiveUpdate? || call.DirectiveDelete?)
    requires Reason(db, call, who, x)
    ensures !Acceptable(db, call, who) && (Reason(db, call, who, y) ==> x == y)
  {
    hide SameLetters, Norm, TrimSpace, GateAt, Unused;
    OneRowPerCode(db);
    hide Indexed;
  }

  lemma ReasonsExcludeForTransitions(db: DB, call: Call, who: Caller, x: Error, y: Error)
    requires Indexed(db) && call.DirectiveTransition?
    requires Reason(db, call, who, x)
    ensures !Acceptable(db, call, who) && (Reason(db, call, who, y) ==> x == y)
  {
    hide SameLetters, Norm, TrimSpace, GateAt, NoRecord;
    OneRowPerCode(db);
    hide Indexed;
  }

  lemma ReasonsExcludeForReceiptEdits(db: DB, call: Call, who: Caller, x: Error, y: Error)
    requires Indexed(db) && (call.ReceiptCreate? || call.ReceiptUpdate? || call.ReceiptDelete?)
    requires Reason(db, call, who, x)
    ensures !Acceptable(db, call, who) && (Reason(db, call, who, y) ==> x == y)
  {
    hide SameLetters, Norm, TrimSpace, DirectiveAt, Unused;
    OneRowPerCode(db);
    hide Indexed;
  }

  lemma ReasonsExcludeForOutcomes(db: DB, call: Call, who: Caller, x: Error, y: Error)
    requires Indexed(db) && call.ReceiptTransition?
    requires Reason(db, call, who, x)
    ensures !Acceptable(db, call, who) && (Reason(db, call, who, y) ==> x == y)
  {
    hide Norm, GateAt, DirectiveAt;
    OneRowPerCode(db);
    hide Indexed;
  }

  /** The answer to every request, alone in any reachable state: success if and only if it is acceptable, and an error
      if and only if its reason holds. */
  lemma AnsweredIff(db: DB, call: Call, who: Caller, err: Error)
    requires Indexed(db) && Grounding.LinksStored(db)
    ensures Serially(db, call, who).Ok? <==> Acceptable(db, call, who)
    ensures Serially(db, call, who) == Err(err) <==> Reason(db, call, who, err)
  {
    hide Serially, Reason, Acceptable;
    ServedIff(db, call, who);
    if Reason(db, call, who, err) {
      var y := if Serially(db, call, who).Err? then Serially(db, call, who).error else err;
      if call.GateCreate? || call.GateUpdate? || call.GateTransition? || call.GateDelete? {
        ReasonsExcludeForGates(db, call, who, err, y);
      } else if call.DirectiveTransition? {
        ReasonsExcludeForTransitions(db, call, who, err, y);
      } else if call.DirectiveCreate? || call.DirectiveUpdate? || call.DirectiveDelete? {
        ReasonsExcludeForDirectiveEdits(db, call, who, err, y);
      } else if call.ReceiptTransition? {
        ReasonsExcludeForOutcomes(db, call, who, err, y);
      } else {
        ReasonsExcludeForReceiptEdits(db, call, who, err, y);
      }
    }
    if Serially(db, call, who).Err? {
      RefusedForReason(db, call, who);
    }
  }
}
