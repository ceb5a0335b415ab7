/** Rows, log entries and the database state. */
module Model {
  import opened Prelude
  import opened Status

  type Id = nat

  /** Columns every aggregate shares. `deleted` is the soft-delete mark. */
  datatype Row<+T> = Row(code: string, status: Status, version: nat, deleted: bool, body: T)

  type Table<T> = map<Id, Row<T>>

  /** A row together with its primary key, as a lookup by code returns it. */
  datatype Keyed<+T> = Keyed(id: Id, row: Row<T>)

  /** Name, owner, and all other free-text and metric columns as one value. */
  datatype Payload = Payload(name: string, owner: string, details: string)

  datatype Gate = Gate(facility: string, category: string, riskLevel: string, relatedCode: string, payload: Payload)

  datatype Directive = Directive(
    facility: string, category: string, riskLevel: string, relatedCode: string, gateState: Status, payload: Payload,
    submittedBy: string, submittedAt: Option<int>, approvedBy: string, approvedAt: Option<int>)

  datatype Receipt = Receipt(
    facility: string, category: string, riskLevel: string, relatedCode: string, payload: Payload,
    confirmedBy: string, confirmedAt: Option<int>)

  datatype Role = Viewer | Operator | Reviewer | Admin | NoRole

  /** The clock as the audit service reads it again for the entry about each table's row. */
  datatype Clocks = Clocks(gate: int, directive: int, receipt: int)

  /** Who asks; the time the service reads from its clock while handling the request; and the later readings. */
  datatype Caller = Caller(actor: string, role: Role, requestId: string, now: int, later: Clocks)

  datatype Stage = SubmittedStage | ApprovedStage

  datatype Approval = Approval(
    directiveId: Id, stage: Stage, actor: string, role: Role, requestId: string,
    fromState: Status, toState: Status, createdAt: int)

  datatype Action =
    | CreateAction | UpdateAction | TransitionAction | DeleteAction
    | ExecutionOutcome | DirectiveExecution

  datatype Audit = Audit(
    actor: string, requestId: string, action: Action, kind: Kind, entityId: Id,
    before: Status, after: Status, createdAt: int)

  datatype DB = DB(
    gates: Table<Gate>, directives: Table<Directive>, receipts: Table<Receipt>,
    approvals: seq<Approval>, audits: seq<Audit>)

  predicate Live<T>(t: Table<T>, id: Id) {
    id in t && !t[id].deleted
  }

  /** A read by primary key, which skips soft-deleted rows. */
  function Find<T>(t: Table<T>, id: Id): Option<Row<T>> {
    if Live(t, id) then Some(t[id]) else None
  }

  ghost predicate CarriesCode<T>(t: Table<T>, id: Id, code: string) {
    Live(t, id) && t[id].code == code
  }

  /** A read by code: any live row carrying it. Codes are unique, so there is at most one. */
  ghost function FindByCode<T>(t: Table<T>, code: string): (r: Option<Keyed<T>>)
    ensures r.Some? ==> CarriesCode(t, r.value.id, code) && r.value.row == t[r.value.id]
    ensures r.None? ==> forall id :: !CarriesCode(t, id, code)
  {
    if exists id :: CarriesCode(t, id, code) then
      var id :| CarriesCode(t, id, code);
      Some(Keyed(id, t[id]))
    else
      None
  }
}
