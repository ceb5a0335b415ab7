/** The receipt service: evidence of execution, and the three-row outcome of a directive. */
module ReceiptService {
  import opened Prelude
  import opened Text
  import opened Status
  import opened Model
  import opened Transactions
  import opened Planning
  import opened Protocol
  import opened Store
  import opened Serving

  class ExecutionConfirmationService {
    const db: Database

    constructor (db: Database)
      ensures this.db == db
    {
      this.db := db;
    }

    /** Runs the one-row transaction a request has planned, unless its checks refused it. */
    method Finish(p: Result<Tx>, ghost planned: Event, ghost past: seq<DB>, io: nat -> bool)
      returns (err: Option<Error>, ghost e: Event, ghost at: nat)
      requires db.Idle() && InOrder(db.history, planned) && Planned(db.history, planned) == p && !planned.fault
      requires past <= db.history && |past| <= planned.own + 1
      requires p.Ok? ==> p.value.receipt.Write? && p.value == NO_WRITES.(receipt := p.value.receipt)
      modifies db
      ensures e == planned.(fault := e.fault) && ((forall k :: !io(k)) ==> !e.fault)
      ensures Handled(db, past, old(db.own), e, at)
      ensures if Done(db.history, e, at) then err.None? && p.Ok? && db.history[at + 1] == Now(db.history)
          && Commit(db.history[at], p.value) == Ok(db.history[at + 1])
              else err == Some(Refusal(Upto(db.history, at), e))
    {
      hide Plan, Planned, Commit, Commits, Refusal, After, Indexed, Accounted;
      ghost var h := db.history;
      if p.Err? {
        at := |h| - 1;
        WholePrefix(h);
        Refused(h, planned);
        return Some(p.error), planned, at;
      }
      db.Yield();
      PlanStays(h, db.history, planned);
      h := db.history;
      at := |h| - 1;
      ghost var fault;
      err, fault := db.SaveReceipt(p.value.receipt.change, p.value.receipt.entry, io);
      FaultUnplanned(h, planned, fault);
      e := planned.(fault := fault);
      Concluded(h, e, p.value, db.history, err);
    }

    method PrepareCreate(newId: Id, code: string, f: Fields, who: Caller) returns (p: Result<Tx>, ghost e: Event)
      requires db.Idle()
      modifies db
      ensures Prepared(db, old(db.history), old(db.own), ReceiptCreate(newId, code, f), who, p, e)
      ensures p.Ok? ==>
          p.value.receipt.Write? && p.value == NO_WRITES.(receipt := p.value.receipt)
          && p.value.receipt.change.Insert? && p.value.receipt.change.id == newId
    {
      hide Indexed, Accounted, FindByCode, EqualFold, AuditEntry, RawEntry, BusinessFieldsMissing, PayloadOf, Norm,
          LinkedDirective, HasReceipt;
      ghost var now := |db.history| - 1;
      e := Event(ReceiptCreate(newId, code, f), who, now, now, now, now, false);
      if BusinessFieldsMissing(code, f) {
        return Err(InvalidInput), e;
      }
      var hit;
      ghost var key;
      hit, key, now := db.GetDirectiveByCode(f.relatedCode);
      e := e.(key := key, link := now, far := now);
      var checked := RequireExecuting(hit);
      if checked.Err? {
        return Err(checked.error), e;
      }
      var directive := checked.value.row;
      var count;
      count, now := db.CountByDirectiveCode(directive.code);
      e := e.(far := now);
      if count > 0 {
        return Err(InvalidInput), e;
      }
      var item := Row(Norm(code), Initial(ExecutionConfirmation), 1, false, ReceiptBody(f, directive, "", None));
      p := Ok(NO_WRITES.(receipt := Write(Insert(newId, item),
          AuditEntry(who, CreateAction, ExecutionConfirmation, newId, Blank, item.status))));
    }

    method Create(newId: Id, code: string, f: Fields, who: Caller, io: nat -> bool)
      returns (r: Result<Row<Receipt>>, ghost e: Event, ghost at: nat)
      requires db.Idle()
      modifies db
      ensures e.call == ReceiptCreate(newId, code, f) && e.who == who && ((forall k :: !io(k)) ==> !e.fault)
      ensures Handled(db, old(db.history), old(db.own), e, at)
      ensures if Done(db.history, e, at) then newId in db.history[at + 1].receipts
          && r == Ok(db.history[at + 1].receipts[newId])
              else r == Err(Refusal(Upto(db.history, at), e))
    {
      hide Plan, Planned, Commit, Commits, Refusal, After, Indexed, Accounted, InOrder;
      var p;
      p, e := PrepareCreate(newId, code, f, who);
      var err;
      err, e, at := Finish(p, e, old(db.history), io);
      if err.Some? {
        return Err(err.value), e, at;
      }
      CommitOnlyReceipt(db.history[at], p.value.receipt.change, p.value.receipt.entry);
      r := Ok(p.value.receipt.change.row);
    }

    method PrepareUpdate(id: Id, expected: nat, f: Fields, who: Caller) returns (p: Result<Tx>, ghost e: Event)
      requires db.Idle()
      modifies db
      ensures Prepared(db, old(db.history), old(db.own), ReceiptUpdate(id, expected, f), who, p, e)
      ensures p.Ok? ==> p.value.receipt.Write? && p.value == NO_WRITES.(receipt := p.value.receipt)
    {
      hide Indexed, Accounted, FindByCode, EqualFold, AuditEntry, RawEntry, BusinessFieldsMissing, PayloadOf, Norm,
          LinkedDirective;
      var found;
      ghost var now, key;
      found, now := db.GetReceipt(id);
      e := Event(ReceiptUpdate(id, expected, f), who, now, now, now, now, false);
      if found.None? {
        return Err(NotFound), e;
      }
      var current := found.value;
      if BusinessFieldsMissing(current.code, f) {
        return Err(InvalidInput), e;
      }
      if current.status != Pending {
        return Err(ImmutableState), e;
      }
      if !EqualFold(TrimSpace(f.relatedCode), current.body.relatedCode) {
        return Err(InvalidInput), e;
      }
      var hit;
      hit, key, now := db.GetDirectiveByCode(current.body.relatedCode);
      e := e.(key := key, link := now, far := now);
      var checked := RequireExecuting(hit);
      if checked.Err? {
        return Err(checked.error), e;
      }
      var directive := checked.value.row;
      current := current.(body := current.body.(facility := directive.body.facility, category :=
          directive.body.category));
      current := current.(body := current.body.(riskLevel := directive.body.riskLevel, relatedCode := directive.code,
          payload := PayloadOf(f)));
      current := current.(version := expected + 1);
      p := Ok(NO_WRITES.(receipt := Write(Overwrite(id, expected, current),
          AuditEntry(who, UpdateAction, ExecutionConfirmation, id, current.status, current.status))));
    }

    method Update(id: Id, expected: nat, f: Fields, who: Caller, io: nat -> bool)
      returns (r: Result<Row<Receipt>>, ghost e: Event, ghost at: nat)
      requires db.Idle()
      modifies db
      ensures e.call == ReceiptUpdate(id, expected, f) && e.who == who && ((forall k :: !io(k)) ==> !e.fault)
      ensures Handled(db, old(db.history), old(db.own), e, at)
      ensures r == if Done(db.history, e, at) then Reread(Find(Now(db.history).receipts, id))
          else Err(Refusal(Upto(db.history, at), e))
    {
      hide Plan, Planned, Commit, Commits, Refusal, After, Indexed, Accounted, InOrder;
      var p;
      p, e := PrepareUpdate(id, expected, f, who);
      var err;
      err, e, at := Finish(p, e, old(db.history), io);
      if err.Some? {
        return Err(err.value), e, at;
      }
      ghost var k := db.history;
      var row, last := db.GetReceipt(id);
      SamePrefix(k, db.history, at);
      r := if row.None? then Err(NotFound) else Ok(row.value);
    }

    method PrepareDelete(id: Id, who: Caller) returns (p: Result<Tx>, ghost e: Event)
      requires db.Idle()
      modifies db
      ensures Prepared(db, old(db.history), old(db.own), ReceiptDelete(id), who, p, e)
      ensures p.Ok? ==> p.value.receipt.Write? && p.value == NO_WRITES.(receipt := p.value.receipt)
    {
      hide Indexed, Accounted, FindByCode, EqualFold, AuditEntry, RawEntry, BusinessFieldsMissing, PayloadOf, Norm;
      var found;
      ghost var now;
      found, now := db.GetReceipt(id);
      e := Event(ReceiptDelete(id), who, now, now, now, now, false);
      if found.None? {
        return Err(NotFound), e;
      }
      if found.value.status != Pending {
        return Err(ImmutableState), e;
      }
      p := Ok(NO_WRITES.(receipt := Write(SoftDelete(id), AuditEntry(who, DeleteAction, ExecutionConfirmation, id,
          found.value.status, Removed))));
    }

    method Delete(id: Id, who: Caller, io: nat -> bool) returns (err: Option<Error>, ghost e: Event, ghost at: nat)
      requires db.Idle()
      modifies db
      ensures e.call == ReceiptDelete(id) && e.who == who && ((forall k :: !io(k)) ==> !e.fault)
      ensures Handled(db, old(db.history), old(db.own), e, at)
      ensures err == if Done(db.history, e, at) then None else Some(Refusal(Upto(db.history, at), e))
    {
      hide Plan, Planned, Commit, Commits, Refusal, After, Indexed, Accounted, InOrder;
      var p;
      p, e := PrepareDelete(id, who);
      err, e, at := Finish(p, e, old(db.history), io);
    }

    /** The outcome transaction: the receipt, then the directive it settles, then the gate when it has to move. */
    method RecordOutcome(own: RowWrite<Receipt>, directive: RowWrite<Directive>, gate: RowWrite<Gate>, io: nat -> bool)
      returns (err: Option<Error>, ghost fault: bool)
      requires db.Idle() && own.Write? && (directive.Skip? ==> gate.Skip?)
      modifies db
      ensures db.Idle() && db.Settled(old(db.State()), Tx(own, directive, None, gate), old(db.history), old(db.own),
          err, fault)
      ensures (forall k :: !io(k)) ==> !fault
    {
      hide Apply, ApplyWrite, ApplyReceipt, Entry, Indexed, Commit, LinkClash, Accounted;
      ghost var tx := Tx(own, directive, None, gate);
      CommitReceiptThenLinks(db.State(), own, directive, gate);
      if Commit(db.State(), tx).Ok? {
        CommitKeepsIndexes(db.State(), tx);
        AccountedMore(db.history, db.own, db.script, Commit(db.State(), tx).value, true);
      }
      db.Begin();
      err, fault := WriteOutcome(own, directive, gate, io);
      db.End(err);
    }

    /** The statements of the outcome, up to the first that fails. */
    method WriteOutcome(own: RowWrite<Receipt>, directive: RowWrite<Directive>, gate: RowWrite<Gate>, io: nat -> bool)
      returns (err: Option<Error>, ghost fault: bool)
      requires own.Write? && (directive.Skip? ==> gate.Skip?)
      modifies db`receipts, db`directives, db`gates, db`audits
      ensures err.None? ==>
                && !fault && ApplyReceipt(old(db.receipts), own) == Ok(db.receipts)
                && ApplyWrite(old(db.directives), directive) == Ok(db.directives)
                && ApplyWrite(old(db.gates), gate) == Ok(db.gates)
                && db.audits == old(db.audits) + [own.entry] + Entry(directive) + Entry(gate)
      ensures err.Some? ==>
                if fault then err == Some(StorageFault)
                else if ApplyReceipt(old(db.receipts), own).Err?
                    then ApplyReceipt(old(db.receipts), own) == Err(err.value)
                else if ApplyWrite(old(db.directives), directive).Err?
                    then ApplyWrite(old(db.directives), directive) == Err(err.value)
                else ApplyWrite(old(db.gates), gate) == Err(err.value)
      ensures (forall k :: !io(k)) ==> !fault
    {
      hide Apply, LinkClash;
      err := db.ExecReceipt(own.change, io(0));
      if err.Some? {
        return err, io(0);
      }
      err := db.AppendAudit(own.entry, io(1));
      if err.Some? || directive.Skip? {
        return err, io(1);
      }
      err := db.ExecDirective(directive.change, io(2));
      if err.Some? {
        return err, io(2);
      }
      err := db.AppendAudit(directive.entry, io(3));
      if err.Some? || gate.Skip? {
        return err, io(3);
      }
      err := db.ExecGate(gate.change, io(4));
      if err.Some? {
        return err, io(4);
      }
      err := db.AppendAudit(gate.entry, io(5));
      fault := io(5);
    }

    /** The reads and checks of a transition, and the rows it will write. A settled receipt looks at no other row. */
    method PrepareTransition(id: Id, expected: nat, target: Status, who: Caller) returns (p: Result<Tx>, ghost e: Event)
      requires db.Idle()
      modifies db
      ensures Prepared(db, old(db.history), old(db.own), ReceiptTransition(id, expected, target), who, p, e)
      ensures p.Ok? ==>
          p.value.receipt.Write? && p.value.approval.None? && (p.value.directive.Skip? ==> p.value.gate.Skip?)
    {
      hide Indexed, Accounted, LinkedDirective, LinkedGate, Plan, Planned, PlanReceiptTransition, Upto, CanTransition;
      ghost var now, key;
      var found;
      found, now := db.GetReceipt(id);
      e := Event(ReceiptTransition(id, expected, target), who, now, now, now, now, false);
      var directive: Option<Keyed<Directive>> := None;
      var gate: Option<Keyed<Gate>> := None;
      if found.Some? && CanTransition(ExecutionConfirmation, found.value.status, target)
          && found.value.status == Pending {
        directive, key, now := db.GetDirectiveByCode(found.value.body.relatedCode);
        e := e.(key := key, link := now, far := now);
        if RequireExecuting(directive).Ok? {
          gate, now := db.GetGateByCode(directive.value.row.body.relatedCode);
          e := e.(far := now);
        }
      }
      RowsRead(db.history, e, found, directive, gate);
      p := Decide(id, found, directive, gate, expected, target, who);
    }

    /** Runs the transaction of a planned transition, unless the checks refused it. */
    method FinishTransition(p: Result<Tx>, ghost planned: Event, ghost past: seq<DB>, io: nat -> bool)
      returns (err: Option<Error>, ghost e: Event, ghost at: nat)
      requires db.Idle() && InOrder(db.history, planned) && Planned(db.history, planned) == p && !planned.fault
      requires past <= db.history && |past| <= planned.own + 1
      requires p.Ok? ==>
          p.value.receipt.Write? && p.value.approval.None? && (p.value.directive.Skip? ==> p.value.gate.Skip?)
      modifies db
      ensures e == planned.(fault := e.fault) && ((forall k :: !io(k)) ==> !e.fault)
      ensures Handled(db, past, old(db.own), e, at)
      ensures err == if Done(db.history, e, at) then None else Some(Refusal(Upto(db.history, at), e))
    {
      hide Plan, Planned, Commit, Commits, Refusal, After, Indexed, Accounted;
      ghost var h := db.history;
      if p.Err? {
        at := |h| - 1;
        WholePrefix(h);
        Refused(h, planned);
        return Some(p.error), planned, at;
      }
      db.Yield();
      PlanStays(h, db.history, planned);
      h := db.history;
      at := |h| - 1;
      var tx := p.value;
      ghost var fault;
      err, fault := RecordOutcome(tx.receipt, tx.directive, tx.gate, io);
      FaultUnplanned(h, planned, fault);
      e := planned.(fault := fault);
      Concluded(h, e, tx, db.history, err);
    }

    /** Confirms, fails or cancels a receipt; the first two settle its directive and gate with it. */
    method Transition(id: Id, expected: nat, target: Status, who: Caller, io: nat -> bool)
      returns (r: Result<Row<Receipt>>, ghost e: Event, ghost at: nat)
      requires db.Idle()
      modifies db
      ensures e.call == ReceiptTransition(id, expected, target) && e.who == who && ((forall k :: !io(k)) ==> !e.fault)
      ensures Handled(db, old(db.history), old(db.own), e, at)
      ensures r == if Done(db.history, e, at) then Reread(Find(Now(db.history).receipts, id))
          else Err(Refusal(Upto(db.history, at), e))
    {
      hide Plan, Planned, Commit, Commits, Refusal, After, Indexed, Accounted, InOrder;
      var p;
      p, e := PrepareTransition(id, expected, target, who);
      var err;
      err, e, at := FinishTransition(p, e, old(db.history), io);
      if err.Some? {
        return Err(err.value), e, at;
      }
      ghost var k := db.history;
      var row, last := db.GetReceipt(id);
      SamePrefix(k, db.history, at);
      r := if row.None? then Err(NotFound) else Ok(row.value);
    }

    /** The decision on the rows read, in the service's order of checks. */
    static method Decide(id: Id, found: Option<Row<Receipt>>, hit: Option<Keyed<Directive>>,
        linked: Option<Keyed<Gate>>, expected: nat, target: Status, who: Caller)
      returns (p: Result<Tx>)
      ensures p == PlanReceiptTransition(id, found, hit, linked, expected, target, who)
      ensures p.Ok? ==>
          p.value.receipt.Write? && p.value.approval.None? && (p.value.directive.Skip? ==> p.value.gate.Skip?)
    {
      hide AuditEntry, CanTransition;
      if found.None? {
        return Err(NotFound);
      }
      var current := found.value;
      if !CanTransition(ExecutionConfirmation, current.status, target) {
        return Err(InvalidTransition);
      }
      var before := current.status;
      current := current.(status := target);
      if target == Confirmed {
        current := current.(body := current.body.(confirmedBy := who.actor, confirmedAt := Some(who.now)));
      }
      current := current.(version := expected + 1);
      var own := Write(Overwrite(id, expected, current),
          AuditEntry(who, TransitionAction, ExecutionConfirmation, id, before, target));
      if before != Pending {
        return Ok(NO_WRITES.(receipt := own));
      }
      var checked := RequireExecuting(hit);
      if checked.Err? {
        return Err(checked.error);
      }
      if linked.None? {
        return Err(NotFound);
      }
      var directive, gate := checked.value.row, linked.value.row;
      var directiveTarget, gateTarget := Aborted, Locked;
      if target == Confirmed {
        directiveTarget, gateTarget := Completed, directive.body.gateState;
      }
      if gate.status != gateTarget && !CanTransition(GateUnit, gate.status, gateTarget) {
        return Err(InvalidTransition);
      }
      var directiveBefore := directive.status;
      directive := directive.(status := directiveTarget);
      directive := directive.(version := directive.version + 1);
      var outcome := Write(Overwrite(checked.value.id, directive.version - 1, directive),
        AuditEntry(who, ExecutionOutcome, OperationDirective, checked.value.id, directiveBefore, directiveTarget));
      if gate.status == gateTarget {
        return Ok(Tx(own, outcome, None, Skip));
      }
      var gateBefore := gate.status;
      gate := gate.(status := gateTarget);
      gate := gate.(version := gate.version + 1);
      var move := Write(Overwrite(linked.value.id, gate.version - 1, gate),
        AuditEntry(who, ExecutionOutcome, GateUnit, linked.value.id, gateBefore, gateTarget));
      p := Ok(Tx(own, outcome, None, move));
    }
  }

  /** The directive and the gate are read only when the checks before them pass; what is not read plays no part. */
  lemma RowsRead(h: seq<DB>, e: Event, found: Option<Row<Receipt>>, d: Option<Keyed<Directive>>,
      gate: Option<Keyed<Gate>>)
    requires InOrder(h, e) && e.call.ReceiptTransition? && found == Find(h[e.own].receipts, e.call.id)
    requires
      if found.Some? && CanTransition(ExecutionConfirmation, found.value.status, e.call.target)
          && found.value.status == Pending then
        && d == LinkedDirective(h[e.key], h[e.link], found.value.body.relatedCode)
        && gate == if RequireExecuting(d).Ok? then LinkedGate(h[e.far], d.value.row.body.relatedCode) else None
      else d == None && gate == None
    ensures Planned(h, e) == PlanReceiptTransition(e.call.id, found, d, gate, e.call.expected, e.call.target, e.who)
  {
    hide LinkedDirective, LinkedGate, PlanReceiptTransition, CanTransition;
    if found.Some? {
      if !CanTransition(ExecutionConfirmation, found.value.status, e.call.target) || found.value.status != Pending {
        LinksUnread(e.call.id, found, e.call.expected, e.call.target, e.who);
      } else if RequireExecuting(d).Err? {
        GateUnneeded(e.call.id, found, d, gate, e.call.expected, e.call.target, e.who);
      }
    } else {
      MissingReceipt(e.call.id, e.call.expected, e.call.target, e.who);
    }
  }

  lemma MissingReceipt(id: Id, expected: nat, target: Status, who: Caller)
    ensures forall d, g :: PlanReceiptTransition(id, None, d, g, expected, target, who) == Err(NotFound)
  {
  }

  /** Without an executing directive the gate plays no part. */
  lemma GateUnneeded(id: Id, found: Option<Row<Receipt>>, d: Option<Keyed<Directive>>, g1: Option<Keyed<Gate>>,
      expected: nat, target: Status, who: Caller)
    requires found.Some? && found.value.status == Pending && RequireExecuting(d).Err?
    ensures forall g2 ::
        PlanReceiptTransition(id, found, d, g1, expected, target, who) ==
        PlanReceiptTransition(id, found, d, g2, expected, target, who)
  {
  }

  /** A receipt that is settled, or may not move there, looks at no other row. */
  lemma LinksUnread(id: Id, found: Option<Row<Receipt>>, expected: nat, target: Status, who: Caller)
    requires found.Some? && (found.value.status != Pending || !CanTransition(ExecutionConfirmation, found.value.status,
        target))
    ensures forall d2, g2 ::
        PlanReceiptTransition(id, found, None, None, expected, target, who) ==
        PlanReceiptTransition(id, found, d2, g2, expected, target, who)
  {
  }
}
