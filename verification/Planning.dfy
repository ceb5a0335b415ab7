/** The checks and computations each service makes on the rows it has read, and the transaction
    it then asks for. */
module Planning {
  import opened Prelude
  import opened Text
  import opened Status
  import opened Model
  import opened Transactions

  /** The editable columns of a create or update request. */
  datatype Fields = Fields(
    name: string, facility: string, owner: string, category: string, riskLevel: string, details: string,
    relatedCode: string, gateState: Status)

  /** The reservoir a gate belongs to, as far as the gate service looks at it. */
  datatype Reservoir = Reservoir(code: string, facility: string)

  predicate Blankish(s: string) {
    TrimSpace(s) == ""
  }

  predicate BusinessFieldsMissing(code: string, f: Fields) {
    Blankish(code) || Blankish(f.name) || Blankish(f.facility) || Blankish(f.owner)
  }

  function PayloadOf(f: Fields): Payload {
    Payload(TrimSpace(f.name), TrimSpace(f.owner), f.details)
  }

  function EntryTime(who: Caller, kind: Kind): int {
    match kind
    case GateUnit => who.later.gate
    case OperationDirective => who.later.directive
    case ExecutionConfirmation => who.later.receipt
  }

  /** An entry written through the audit service, which fills in missing identities and reads the clock itself. */
  function AuditEntry(who: Caller, action: Action, kind: Kind, id: Id, before: Status, after: Status): Audit {
    Audit(if who.actor == "" then "system" else who.actor,
          if who.requestId == "" then "untracked" else who.requestId,
          action, kind, id, before, after, EntryTime(who, kind))
  }

  /** An entry the directive and gate services build themselves, with the identities as given. */
  function RawEntry(who: Caller, kind: Kind, id: Id, before: Status, after: Status): Audit {
    Audit(who.actor, who.requestId, TransitionAction, kind, id, before, after, who.now)
  }

  function Rewrite<T>(id: Id, expected: nat, row: Row<T>, entry: Audit): RowWrite<T> {
    Write(Overwrite(id, expected, row.(version := expected + 1)), entry)
  }

  // ---- Gates ----

  function GateBody(f: Fields, link: string): Gate {
    Gate(TrimSpace(f.facility), TrimSpace(f.category), f.riskLevel, link, PayloadOf(f))
  }

  function PlanGateCreate(newId: Id, code: string, f: Fields, reservoir: Option<Reservoir>, who: Caller): Result<Tx> {
    if BusinessFieldsMissing(code, f) then Err(InvalidInput)
    else if reservoir.None? then Err(NotFound)
    else if !EqualFold(TrimSpace(f.facility), reservoir.value.facility) then Err(InvalidInput)
    else
      var row := Row(Norm(code), Initial(GateUnit), 1, false, GateBody(f, Norm(f.relatedCode)));
      Ok(NO_WRITES.(gate := Write(Insert(newId, row), AuditEntry(who, CreateAction, GateUnit, newId, Blank,
          row.status))))
  }

  function PlanGateUpdate(id: Id, current: Option<Row<Gate>>, reservoir: Option<Reservoir>, expected: nat, f: Fields,
      who: Caller): Result<Tx> {
    if current.None? then Err(NotFound)
    else
      var g := current.value;
      if BusinessFieldsMissing(g.code, f) then Err(InvalidInput)
      else if !EqualFold(TrimSpace(f.relatedCode), g.body.relatedCode) then Err(InvalidInput)
      else if reservoir.None? then Err(NotFound)
      else if !EqualFold(TrimSpace(f.facility), reservoir.value.facility) then Err(InvalidInput)
      else
        var row := g.(body := GateBody(f, reservoir.value.code));
        Ok(NO_WRITES.(gate := Rewrite(id, expected, row, AuditEntry(who, UpdateAction, GateUnit, id, g.status,
            g.status))))
  }

  function PlanGateTransition(id: Id, current: Option<Row<Gate>>, expected: nat, target: Status,
      who: Caller): Result<Tx> {
    if current.None? then Err(NotFound)
    else
      var g := current.value;
      if !CanTransition(GateUnit, g.status, target) then Err(InvalidTransition)
      else Ok(NO_WRITES.(gate := Rewrite(id, expected, g.(status := target),
          RawEntry(who, GateUnit, id, g.status, target))))
  }

  function PlanGateDelete(id: Id, current: Option<Row<Gate>>, who: Caller): Result<Tx> {
    if current.None? then Err(NotFound)
    else Ok(NO_WRITES.(gate := Write(SoftDelete(id), AuditEntry(who, DeleteAction, GateUnit, id, current.value.status,
        Removed))))
  }

  /** A gate moved as a side effect of another aggregate's transition; nothing is written when it is there already. */
  function MoveGate(g: Keyed<Gate>, target: Status, action: Action, who: Caller): RowWrite<Gate> {
    if g.row.status == target then Skip
    else Rewrite(g.id, g.row.version, g.row.(status := target),
        AuditEntry(who, action, GateUnit, g.id, g.row.status, target))
  }

  predicate GateBlocked(g: Row<Gate>, target: Status) {
    g.status != target && !CanTransition(GateUnit, g.status, target)
  }

  // ---- Directives ----

  predicate GateUnfit(f: Fields, gate: Row<Gate>) {
    !EqualFold(TrimSpace(f.facility), gate.body.facility) || gate.status == Locked
  }

  function PlanDirectiveCreate(newId: Id, code: string, f: Fields, gate: Option<Keyed<Gate>>, who: Caller): Result<Tx> {
    if BusinessFieldsMissing(code, f) then Err(InvalidInput)
    else if gate.None? then Err(NotFound)
    else if GateUnfit(f, gate.value.row) then Err(InvalidInput)
    else
      var gateState := if f.gateState == Blank then Closed else f.gateState;
      var body := Directive(TrimSpace(f.facility), TrimSpace(f.category), f.riskLevel, Norm(f.relatedCode), gateState,
          PayloadOf(f), "", None, "", None);
      var row := Row(Norm(code), Initial(OperationDirective), 1, false, body);
      Ok(NO_WRITES.(directive := Write(Insert(newId, row), AuditEntry(who, CreateAction, OperationDirective, newId,
          Blank, row.status))))
  }

  function PlanDirectiveUpdate(id: Id, current: Option<Row<Directive>>, gate: Option<Keyed<Gate>>, expected: nat,
      f: Fields, who: Caller): Result<Tx> {
    if current.None? then Err(NotFound)
    else
      var d := current.value;
      if d.status != Draft then Err(ImmutableState)
      else if BusinessFieldsMissing(d.code, f) then Err(InvalidInput)
      else if gate.None? then Err(NotFound)
      else if GateUnfit(f, gate.value.row) then Err(InvalidInput)
      else
        var body := d.body.(
          facility := TrimSpace(f.facility), category := TrimSpace(f.category), riskLevel := f.riskLevel,
          relatedCode := Norm(f.relatedCode), payload := PayloadOf(f),
          gateState := if f.gateState == Blank then d.body.gateState else f.gateState);
        Ok(NO_WRITES.(directive := Rewrite(id, expected, d.(body := body),
            AuditEntry(who, UpdateAction, OperationDirective, id, d.status, d.status))))
  }

  predicate DirectiveRoleAllowed(target: Status, role: Role) {
    match target
    case Pending => role == Operator || role == Admin
    case Approved => role == Reviewer || role == Admin
    case Executing => role == Operator || role == Admin
    case Aborted => role == Operator || role == Reviewer || role == Admin
    case _ => false
  }

  /** Starting a directive and aborting a started one reach the gate. */
  predicate ReachesGate(from: Status, target: Status) {
    target == Executing || (from == Executing && target == Aborted)
  }

  /** Where the gate has to go; a gate already at the directive's target is left alone. */
  function DispatchTarget(d: Row<Directive>, gate: Row<Gate>, target: Status): Status {
    if target == Aborted then Locked
    else if gate.status != d.body.gateState then Moving
    else gate.status
  }

  function DirectiveAfter(d: Row<Directive>, target: Status, who: Caller): Row<Directive> {
    match target
    case Pending => d.(status := target, body := d.body.(submittedBy := who.actor, submittedAt := Some(who.now)))
    case Approved => d.(status := target, body := d.body.(approvedBy := who.actor, approvedAt := Some(who.now)))
    case _ => d.(status := target)
  }

  function ApprovalFor(id: Id, before: Status, target: Status, who: Caller): Option<Approval> {
    match target
    case Pending => Some(Approval(id, SubmittedStage, who.actor, who.role, who.requestId, before, target, who.now))
    case Approved => Some(Approval(id, ApprovedStage, who.actor, who.role, who.requestId, before, target, who.now))
    case _ => None
  }

  function PlanDirectiveTransition(id: Id, current: Option<Row<Directive>>, gate: Option<Keyed<Gate>>, expected: nat,
      target: Status, who: Caller): Result<Tx> {
    if current.None? then Err(NotFound)
    else
      var d := current.value;
      if !CanTransition(OperationDirective, d.status, target) then Err(InvalidTransition)
      else if target == Completed then Err(InvalidTransition)
      else if !DirectiveRoleAllowed(target, who.role) then Err(Forbidden)
      else if ReachesGate(d.status, target) && gate.None? then Err(NotFound)
      else if target == Executing && gate.value.row.status == Locked then Err(InvalidInput)
      else if ReachesGate(d.status, target) && GateBlocked(gate.value.row, DispatchTarget(d, gate.value.row, target))
          then Err(InvalidTransition)
      else if target == Approved && (d.body.submittedBy == "" || EqualFold(d.body.submittedBy, who.actor))
          then Err(TwoPersonRequired)
      else
        Ok(Tx(Skip,
              Rewrite(id, expected, DirectiveAfter(d, target, who),
                  RawEntry(who, OperationDirective, id, d.status, target)),
              ApprovalFor(id, d.status, target, who),
              if ReachesGate(d.status, target)
              then MoveGate(gate.value, DispatchTarget(d, gate.value.row, target), DirectiveExecution, who)
              else Skip))
  }

  function PlanDirectiveDelete(id: Id, current: Option<Row<Directive>>, who: Caller): Result<Tx> {
    if current.None? then Err(NotFound)
    else if current.value.status != Draft then Err(ImmutableState)
    else Ok(NO_WRITES.(directive := Write(SoftDelete(id), AuditEntry(who, DeleteAction, OperationDirective, id,
        current.value.status, Removed))))
  }

  // ---- Receipts ----

  function RequireExecuting(d: Option<Keyed<Directive>>): Result<Keyed<Directive>> {
    if d.None? then Err(NotFound)
    else if d.value.row.status != Executing then Err(InvalidInput)
    else Ok(d.value)
  }

  function ReceiptBody(f: Fields, d: Row<Directive>, confirmedBy: string, confirmedAt: Option<int>): Receipt {
    Receipt(d.body.facility, d.body.category, d.body.riskLevel, d.code, PayloadOf(f), confirmedBy, confirmedAt)
  }

  function PlanReceiptCreate(newId: Id, code: string, f: Fields, directive: Option<Keyed<Directive>>,
      alreadyLinked: bool, who: Caller): Result<Tx> {
    if BusinessFieldsMissing(code, f) then Err(InvalidInput)
    else
      var d :- RequireExecuting(directive);
      if alreadyLinked then Err(InvalidInput)
      else
        var row := Row(Norm(code), Initial(ExecutionConfirmation), 1, false, ReceiptBody(f, d.row, "", None));
        Ok(NO_WRITES.(receipt := Write(Insert(newId, row), AuditEntry(who, CreateAction, ExecutionConfirmation, newId,
            Blank, row.status))))
  }

  function PlanReceiptUpdate(id: Id, current: Option<Row<Receipt>>, directive: Option<Keyed<Directive>>, expected: nat,
      f: Fields, who: Caller): Result<Tx> {
    if current.None? then Err(NotFound)
    else
      var r := current.value;
      if BusinessFieldsMissing(r.code, f) then Err(InvalidInput)
      else if r.status != Pending then Err(ImmutableState)
      else if !EqualFold(TrimSpace(f.relatedCode), r.body.relatedCode) then Err(InvalidInput)
      else
        var d :- RequireExecuting(directive);
        var row := r.(body := ReceiptBody(f, d.row, r.body.confirmedBy, r.body.confirmedAt));
        Ok(NO_WRITES.(receipt := Rewrite(id, expected, row,
            AuditEntry(who, UpdateAction, ExecutionConfirmation, id, r.status, r.status))))
  }

  function ReceiptAfter(r: Row<Receipt>, target: Status, who: Caller): Row<Receipt> {
    if target == Confirmed then r.(status := target, body :=
        r.body.(confirmedBy := who.actor, confirmedAt := Some(who.now)))
    else r.(status := target)
  }

  function OutcomeFor(target: Status): Status {
    if target == Confirmed then Completed else Aborted
  }

  function GateAfterOutcome(d: Row<Directive>, target: Status): Status {
    if target == Confirmed then d.body.gateState else Locked
  }

  function PlanReceiptTransition(id: Id, current: Option<Row<Receipt>>, directive: Option<Keyed<Directive>>,
      gate: Option<Keyed<Gate>>, expected: nat, target: Status, who: Caller): Result<Tx> {
    if current.None? then Err(NotFound)
    else
      var r := current.value;
      if !CanTransition(ExecutionConfirmation, r.status, target) then Err(InvalidTransition)
      else
        var own := Rewrite(id, expected, ReceiptAfter(r, target, who),
            AuditEntry(who, TransitionAction, ExecutionConfirmation, id, r.status, target));
        if r.status != Pending then Ok(NO_WRITES.(receipt := own))
        else
          var d :- RequireExecuting(directive);
          if gate.None? then Err(NotFound)
          else if GateBlocked(gate.value.row, GateAfterOutcome(d.row, target)) then Err(InvalidTransition)
          else
            Ok(Tx(own,
                  Rewrite(d.id, d.row.version, d.row.(status := OutcomeFor(target)),
                      AuditEntry(who, ExecutionOutcome, OperationDirective, d.id, d.row.status, OutcomeFor(target))),
                  None,
                  MoveGate(gate.value, GateAfterOutcome(d.row, target), ExecutionOutcome, who)))
  }

  function PlanReceiptDelete(id: Id, current: Option<Row<Receipt>>, who: Caller): Result<Tx> {
    if current.None? then Err(NotFound)
    else if current.value.status != Pending then Err(ImmutableState)
    else Ok(NO_WRITES.(receipt := Write(SoftDelete(id), AuditEntry(who, DeleteAction, ExecutionConfirmation, id,
        current.value.status, Removed))))
  }
}
