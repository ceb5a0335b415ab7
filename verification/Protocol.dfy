/** Runs of the system: any number of requests whose reads and transactions interleave.
    A history lists the committed states; a request names the positions at which each of its reads
    happened, and its transaction commits, or fails, against the last state. */
module Protocol {
  import opened Prelude
  import opened Text
  import opened Status
  import opened Model
  import opened Transactions
  import opened Planning

  /** `newId` is the key the database will allocate; `reservoir` is what the reservoir lookup returned. */
  datatype Call =
    | GateCreate(newId: Id, code: string, fields: Fields, reservoir: Option<Reservoir>)
    | GateUpdate(id: Id, expected: nat, fields: Fields, reservoir: Option<Reservoir>)
    | GateTransition(id: Id, expected: nat, target: Status)
    | GateDelete(id: Id)
    | DirectiveCreate(newId: Id, code: string, fields: Fields)
    | DirectiveUpdate(id: Id, expected: nat, fields: Fields)
    | DirectiveTransition(id: Id, expected: nat, target: Status)
    | DirectiveDelete(id: Id)
    | ReceiptCreate(newId: Id, code: string, fields: Fields)
    | ReceiptUpdate(id: Id, expected: nat, fields: Fields)
    | ReceiptTransition(id: Id, expected: nat, target: Status)
    | ReceiptDelete(id: Id)

  /** The states seen by a request's reads: of its own row; of the directive's key by code, then of that
      directive's row by key; and of the linked gate, or of the existing receipts when one is created. */
  datatype Views = Views(own: DB, key: DB, link: DB, far: DB)

  /** The directive repository resolves a code to a key and then reads that key again. */
  ghost function LinkedDirective(key: DB, link: DB, code: string): Option<Keyed<Directive>> {
    var hit := FindByCode(key.directives, Norm(code));
    if hit.None? then None
    else
      var row := Find(link.directives, hit.value.id);
      if row.None? then None else Some(Keyed(hit.value.id, row.value))
  }

  ghost function LinkedGate(db: DB, code: string): Option<Keyed<Gate>> {
    FindByCode(db.gates, Norm(code))
  }

  predicate HasReceipt(t: Table<Receipt>, link: string) {
    exists r :: r in t && !t[r].deleted && t[r].body.relatedCode == Norm(link)
  }

  ghost function Plan(call: Call, v: Views, who: Caller): Result<Tx> {
    match call
    case GateCreate(newId, code, f, reservoir) => PlanGateCreate(newId, code, f, reservoir, who)
    case GateUpdate(id, expected, f, reservoir) => PlanGateUpdate(id, Find(v.own.gates, id), reservoir, expected, f,
        who)
    case GateTransition(id, expected, target) => PlanGateTransition(id, Find(v.own.gates, id), expected, target, who)
    case GateDelete(id) => PlanGateDelete(id, Find(v.own.gates, id), who)
    case DirectiveCreate(newId, code, f) => PlanDirectiveCreate(newId, code, f, LinkedGate(v.far, f.relatedCode), who)
    case DirectiveUpdate(id, expected, f) =>
      PlanDirectiveUpdate(id, Find(v.own.directives, id), LinkedGate(v.far, f.relatedCode), expected, f, who)
    case DirectiveTransition(id, expected, target) =>
      var current := Find(v.own.directives, id);
      PlanDirectiveTransition(id, current, if current.None? then None
          else LinkedGate(v.far, current.value.body.relatedCode), expected, target, who)
    case DirectiveDelete(id) => PlanDirectiveDelete(id, Find(v.own.directives, id), who)
    case ReceiptCreate(newId, code, f) =>
      var d := LinkedDirective(v.key, v.link, f.relatedCode);
      PlanReceiptCreate(newId, code, f, d, d.Some? && HasReceipt(v.far.receipts, d.value.row.code), who)
    case ReceiptUpdate(id, expected, f) =>
      var current := Find(v.own.receipts, id);
      PlanReceiptUpdate(id, current, if current.None? then None
          else LinkedDirective(v.key, v.link, current.value.body.relatedCode), expected, f, who)
    case ReceiptTransition(id, expected, target) =>
      var current := Find(v.own.receipts, id);
      var d := if current.None? then None else LinkedDirective(v.key, v.link, current.value.body.relatedCode);
      PlanReceiptTransition(id, current, d, if d.None? then None
          else LinkedGate(v.far, d.value.row.body.relatedCode), expected, target, who)
    case ReceiptDelete(id) => PlanReceiptDelete(id, Find(v.own.receipts, id), who)
  }

  /** One request: its reads happen in order, at the given positions; `fault` is an I/O failure of its transaction. */
  datatype Event = Event(call: Call, who: Caller, own: nat, key: nat, link: nat, far: nat, fault: bool)

  ghost predicate InOrder(h: seq<DB>, e: Event) {
    e.own <= e.key <= e.link <= e.far < |h|
  }

  ghost function ViewsAt(h: seq<DB>, e: Event): Views
    requires InOrder(h, e)
  {
    Views(h[e.own], h[e.key], h[e.link], h[e.far])
  }

  ghost function Planned(h: seq<DB>, e: Event): Result<Tx>
    requires InOrder(h, e)
  {
    Plan(e.call, ViewsAt(h, e), e.who)
  }

  function Now(h: seq<DB>): DB
    requires h != []
  {
    h[|h| - 1]
  }

  /** The request gets through: its checks pass on what it read and its transaction commits. */
  ghost predicate Commits(h: seq<DB>, e: Event)
    requires InOrder(h, e)
  {
    !e.fault && Planned(h, e).Ok? && Commit(Now(h), Planned(h, e).value).Ok?
  }

  ghost function After(h: seq<DB>, e: Event): DB
    requires InOrder(h, e)
  {
    if Commits(h, e) then Commit(Now(h), Planned(h, e).value).value else Now(h)
  }

  lemma CommitsPlans(h: seq<DB>, e: Event)
    requires InOrder(h, e) && Commits(h, e)
    ensures Planned(h, e).Ok?
  {
  }

  lemma RefusedStays(h: seq<DB>, e: Event)
    requires InOrder(h, e) && !Commits(h, e)
    ensures After(h, e) == Now(h)
  {
  }

  /** The history as it was after the first `i` requests. */
  function Upto(h: seq<DB>, i: nat): seq<DB>
    requires i < |h|
  {
    h[..i + 1]
  }

  ghost predicate IsRun(h: seq<DB>, es: seq<Event>) {
    |h| == |es| + 1
    && forall i :: 0 <= i < |es| ==> InOrder(Upto(h, i), es[i]) && h[i + 1] == After(Upto(h, i), es[i])
  }

  function VersionIn(db: DB, call: Call): Option<nat> {
    match call
    case GateUpdate(id, _, _, _) => if id in db.gates then Some(db.gates[id].version) else None
    case GateTransition(id, _, _) => if id in db.gates then Some(db.gates[id].version) else None
    case DirectiveUpdate(id, _, _) => if id in db.directives then Some(db.directives[id].version) else None
    case DirectiveTransition(id, _, _) => if id in db.directives then Some(db.directives[id].version) else None
    case ReceiptUpdate(id, _, _) => if id in db.receipts then Some(db.receipts[id].version) else None
    case ReceiptTransition(id, _, _) => if id in db.receipts then Some(db.receipts[id].version) else None
    case _ => None
  }

  predicate HasExpected(call: Call) {
    call.GateUpdate? || call.GateTransition? || call.DirectiveUpdate? || call.DirectiveTransition?
        || call.ReceiptUpdate? || call.ReceiptTransition?
  }

  /** The expected version was shown to the client: some state no later than the service's read carried it. */
  ghost predicate Shown(h: seq<DB>, e: Event)
    requires InOrder(h, e)
  {
    HasExpected(e.call) ==> exists s :: 0 <= s <= e.own && VersionIn(h[s], e.call) == Some(e.call.expected)
  }

  ghost predicate Honest(h: seq<DB>, es: seq<Event>)
    requires IsRun(h, es)
  {
    forall i :: 0 <= i < |es| ==> Shown(Upto(h, i), es[i])
  }
}
