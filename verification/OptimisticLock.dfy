/** A committed request has the effect of having read, at commit time, every row it writes. */
module OptimisticLock {
  import opened Prelude
  import opened Text
  import opened Status
  import opened Model
  import opened Transactions
  import opened Planning
  import opened Protocol
  import opened Evolution

  /** The reads of a request, moved to the moment of its commit wherever it writes the row it read. */
  ghost function ReadsAtCommit(h: seq<DB>, e: Event, tx: Tx): Views
    requires InOrder(h, e)
  {
    var now := Now(h);
    Views(now,
          if tx.directive.Write? then now else h[e.key],
          if tx.directive.Write? then now else h[e.link],
          if tx.gate.Write? then now else h[e.far])
  }

  predicate IsDelete(call: Call) {
    call.GateDelete? || call.DirectiveDelete? || call.ReceiptDelete?
  }

  /** The row a request names by key, in one state, whatever its table. */
  ghost function OwnRow(db: DB, call: Call): (Option<Row<Gate>>, Option<Row<Directive>>, Option<Row<Receipt>>) {
    match call
    case GateUpdate(id, _, _, _) => (Find(db.gates, id), None, None)
    case GateTransition(id, _, _) => (Find(db.gates, id), None, None)
    case DirectiveUpdate(id, _, _) => (None, Find(db.directives, id), None)
    case DirectiveTransition(id, _, _) => (None, Find(db.directives, id), None)
    case ReceiptUpdate(id, _, _) => (None, None, Find(db.receipts, id))
    case ReceiptTransition(id, _, _) => (None, None, Find(db.receipts, id))
    case _ => (None, None, None)
  }

  predicate OwnLive(db: DB, call: Call) {
    match call
    case GateUpdate(id, _, _, _) => Live(db.gates, id)
    case GateTransition(id, _, _) => Live(db.gates, id)
    case DirectiveUpdate(id, _, _) => Live(db.directives, id)
    case DirectiveTransition(id, _, _) => Live(db.directives, id)
    case ReceiptUpdate(id, _, _) => Live(db.receipts, id)
    case ReceiptTransition(id, _, _) => Live(db.receipts, id)
    case _ => true
  }

  predicate Overwrites<T>(w: RowWrite<T>, id: Id, expected: nat) {
    w.Write? && w.change.Overwrite? && w.change.id == id && w.change.expected == expected
  }

  /** The write to a request's own row compares the version the client sent. */
  predicate ComparesExpected(call: Call, tx: Tx) {
    match call
    case GateUpdate(id, expected, _, _) => Overwrites(tx.gate, id, expected)
    case GateTransition(id, expected, _) => Overwrites(tx.gate, id, expected)
    case DirectiveUpdate(id, expected, _) => Overwrites(tx.directive, id, expected)
    case DirectiveTransition(id, expected, _) => Overwrites(tx.directive, id, expected)
    case ReceiptUpdate(id, expected, _) => Overwrites(tx.receipt, id, expected)
    case ReceiptTransition(id, expected, _) => Overwrites(tx.receipt, id, expected)
    case _ => true
  }

  lemma PlanComparesExpected(call: Call, v: Views, who: Caller)
    requires Plan(call, v, who).Ok?
    ensures OwnLive(v.own, call) && ComparesExpected(call, Plan(call, v, who).value)
  {
    hide LinkedDirective, LinkedGate, HasReceipt, EqualFold, BusinessFieldsMissing, PayloadOf, GateUnfit, AuditEntry,
        RawEntry;
  }

  /** Each overwritten row is live and still at the version compared. */
  ghost predicate Matches<T>(t: Table<T>, w: RowWrite<T>) {
    w.Write? && w.change.Overwrite? ==> Live(t, w.change.id) && t[w.change.id].version == w.change.expected
  }

  lemma CommitMatches(db: DB, tx: Tx)
    requires Commit(db, tx).Ok?
    ensures Matches(db.gates, tx.gate) && Matches(db.directives, tx.directive) && Matches(db.receipts, tx.receipt)
  {
  }

  lemma CommitFindsExpected(h: seq<DB>, e: Event)
    requires InOrder(h, e) && HasExpected(e.call) && Commits(h, e)
    ensures OwnLive(h[e.own], e.call) && OwnLive(Now(h), e.call) && VersionIn(Now(h), e.call) == Some(e.call.expected)
  {
    hide Plan, Commit;
    PlanComparesExpected(e.call, ViewsAt(h, e), e.who);
    CommitMatches(Now(h), Planned(h, e).value);
  }

  lemma SameVersionSameRow(a: DB, b: DB, call: Call)
    requires Later(a, b) && HasExpected(call) && OwnLive(a, call) && OwnLive(b, call)
    ensures OwnRow(a, call) == OwnRow(b, call) <==> VersionIn(a, call) == VersionIn(b, call)
  {
  }

  lemma VersionsGrow(a: DB, b: DB, call: Call)
    requires Later(a, b) && VersionIn(a, call).Some?
    ensures VersionIn(b, call).Some? && VersionIn(a, call).value <= VersionIn(b, call).value
  {
  }

  /** The own row of a committed request: the row read and the row at commit are equal exactly when
      the version sent is the version read, a comparison the services do not make. */
  lemma OwnRowUnchangedIff(h: seq<DB>, e: Event)
    requires Ordered(h) && InOrder(h, e) && HasExpected(e.call) && Commits(h, e)
    ensures OwnRow(h[e.own], e.call) == OwnRow(Now(h), e.call) <==> VersionIn(h[e.own], e.call) == Some(e.call.expected)
    ensures VersionIn(h[e.own], e.call).Some? && VersionIn(h[e.own], e.call).value <= e.call.expected
  {
    hide Commits, Indexed, OwnRow, VersionIn, Later;
    CommitFindsExpected(h, e);
    assert Later(h[e.own], Now(h));
    SameVersionSameRow(h[e.own], Now(h), e.call);
    assert VersionIn(h[e.own], e.call).Some? by { LiveHasVersion(h[e.own], e.call); }
    VersionsGrow(h[e.own], Now(h), e.call);
  }

  lemma LiveHasVersion(db: DB, call: Call)
    requires HasExpected(call) && OwnLive(db, call)
    ensures VersionIn(db, call).Some?
  {
  }

  /** A version that was shown is never newer than the row read, so the row read is the row at commit. */
  lemma ShownIsRead(h: seq<DB>, e: Event)
    requires Ordered(h) && InOrder(h, e) && HasExpected(e.call) && Commits(h, e) && Shown(h, e)
    ensures OwnRow(h[e.own], e.call) == OwnRow(Now(h), e.call)
  {
    hide Commits, Indexed, OwnRow, VersionIn, Later;
    OwnRowUnchangedIff(h, e);
    var s :| 0 <= s <= e.own && VersionIn(h[s], e.call) == Some(e.call.expected);
    assert Later(h[s], h[e.own]);
    VersionsGrow(h[s], h[e.own], e.call);
  }

  lemma DirectiveRead(h: seq<DB>, key: nat, link: nat, code: string, d: Keyed<Directive>)
    requires Ordered(h) && key <= link < |h|
    requires LinkedDirective(h[key], h[link], code) == Some(d)
    requires Live(Now(h).directives, d.id) && Now(h).directives[d.id].version == d.row.version
    ensures LinkedDirective(Now(h), Now(h), code) == Some(d)
  {
    assert Later(h[key], Now(h)) && Later(h[link], Now(h)) && Indexed(Now(h));
    LookupStable(h[key].directives, Now(h).directives, Norm(code));
  }

  lemma GateRead(h: seq<DB>, far: nat, code: string, g: Keyed<Gate>)
    requires Ordered(h) && far < |h|
    requires LinkedGate(h[far], code) == Some(g)
    requires Live(Now(h).gates, g.id) && Now(h).gates[g.id].version == g.row.version
    ensures LinkedGate(Now(h), code) == Some(g)
  {
    assert Later(h[far], Now(h)) && Indexed(Now(h));
    LookupStable(h[far].gates, Now(h).gates, Norm(code));
  }

  lemma DirectiveTransitionWrites(id: Id, current: Option<Row<Directive>>, gate: Option<Keyed<Gate>>, expected: nat,
      target: Status, who: Caller)
    requires PlanDirectiveTransition(id, current, gate, expected, target, who).Ok?
    ensures var tx := PlanDirectiveTransition(id, current, gate, expected, target, who).value;
            tx.gate.Write? ==> gate.Some? && Overwrites(tx.gate, gate.value.id, gate.value.row.version)
  {
    hide DirectiveAfter, ApprovalFor, RawEntry, AuditEntry, EqualFold;
  }

  lemma ReceiptTransitionWrites(id: Id, current: Option<Row<Receipt>>, d: Option<Keyed<Directive>>,
      gate: Option<Keyed<Gate>>, expected: nat, target: Status, who: Caller)
    requires PlanReceiptTransition(id, current, d, gate, expected, target, who).Ok?
    ensures var tx := PlanReceiptTransition(id, current, d, gate, expected, target, who).value;
            && (tx.directive.Write? ==> d.Some? && Overwrites(tx.directive, d.value.id, d.value.row.version))
            && (tx.gate.Write? ==>
                tx.directive.Write? && gate.Some? && Overwrites(tx.gate, gate.value.id, gate.value.row.version))
  {
    hide ReceiptAfter, AuditEntry, OutcomeFor, GateAfterOutcome;
  }

  lemma SettledDirectiveTransition(h: seq<DB>, e: Event)
    requires Ordered(h) && InOrder(h, e) && Commits(h, e) && Shown(h, e) && e.call.DirectiveTransition?
    ensures Planned(h, e) == Plan(e.call, ReadsAtCommit(h, e, Planned(h, e).value), e.who)
  {
    hide Commit, Indexed, Later, LinkedGate, PlanDirectiveTransition, Shown;
    ShownIsRead(h, e);
    var tx := Planned(h, e).value;
    CommitMatches(Now(h), tx);
    var current := Find(h[e.own].directives, e.call.id);
    if tx.gate.Write? && current.Some? {
      var gate := LinkedGate(h[e.far], current.value.body.relatedCode);
      DirectiveTransitionWrites(e.call.id, current, gate, e.call.expected, e.call.target, e.who);
      GateRead(h, e.far, current.value.body.relatedCode, gate.value);
    } else if tx.gate.Write? {
      DirectiveTransitionWrites(e.call.id, current, None, e.call.expected, e.call.target, e.who);
    }
  }

  lemma NoCurrentReceipt(id: Id, d: Option<Keyed<Directive>>, gate: Option<Keyed<Gate>>, expected: nat, target: Status,
      who: Caller)
    ensures PlanReceiptTransition(id, None, d, gate, expected, target, who).Err?
  {
  }

  lemma SettledReceiptTransition(h: seq<DB>, e: Event)
    requires Ordered(h) && InOrder(h, e) && Commits(h, e) && Shown(h, e) && e.call.ReceiptTransition?
    ensures Planned(h, e) == Plan(e.call, ReadsAtCommit(h, e, Planned(h, e).value), e.who)
  {
    hide Commit, Indexed, Later, LinkedGate, LinkedDirective, PlanReceiptTransition, Shown;
    ShownIsRead(h, e);
    var tx := Planned(h, e).value;
    CommitMatches(Now(h), tx);
    var current := Find(h[e.own].receipts, e.call.id);
    if current.None? {
      NoCurrentReceipt(e.call.id, None, None, e.call.expected, e.call.target, e.who);
    } else {
      var code := current.value.body.relatedCode;
      var d := LinkedDirective(h[e.key], h[e.link], code);
      var gate := if d.None? then None else LinkedGate(h[e.far], d.value.row.body.relatedCode);
      ReceiptTransitionWrites(e.call.id, current, d, gate, e.call.expected, e.call.target, e.who);
      if tx.directive.Write? {
        DirectiveRead(h, e.key, e.link, code, d.value);
        if tx.gate.Write? {
          GateRead(h, e.far, d.value.row.body.relatedCode, gate.value);
        }
      }
    }
  }

  lemma SettledOther(h: seq<DB>, e: Event)
    requires Ordered(h) && InOrder(h, e) && Commits(h, e) && Shown(h, e)
    requires !IsDelete(e.call) && !e.call.DirectiveTransition? && !e.call.ReceiptTransition?
    ensures Planned(h, e) == Plan(e.call, ReadsAtCommit(h, e, Planned(h, e).value), e.who)
  {
    hide Commit, Indexed, Later, LinkedGate, LinkedDirective, HasReceipt, Shown, EqualFold, BusinessFieldsMissing,
        GateUnfit,
         PayloadOf, AuditEntry, RawEntry, PlanGateTransition, PlanGateCreate, PlanGateUpdate;
    if HasExpected(e.call) {
      ShownIsRead(h, e);
    }
  }

  /** Optimistic-lock refinement: in every interleaving, a create, update or transition that commits,
      sent with a version the client was shown, asks for exactly the transaction it would have asked for
      had it read, at commit time, every row it writes. */
  lemma ReadsSettleAtCommit(h: seq<DB>, e: Event)
    requires Ordered(h) && InOrder(h, e) && Commits(h, e) && Shown(h, e) && !IsDelete(e.call)
    ensures Planned(h, e) == Plan(e.call, ReadsAtCommit(h, e, Planned(h, e).value), e.who)
  {
    hide Commits, Planned, Ordered, Shown;
    if e.call.DirectiveTransition? {
      SettledDirectiveTransition(h, e);
    } else if e.call.ReceiptTransition? {
      SettledReceiptTransition(h, e);
    } else {
      SettledOther(h, e);
    }
  }
}
