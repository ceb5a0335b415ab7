/** The directive service. */
module DirectiveService {
  import opened Prelude
  import opened Text
  import opened Status
  import opened Model
  import opened Transactions
  import opened Planning
  import opened Protocol
  import opened Store
  import opened Serving

  class OperationDirectiveService {
    const db: Database

    constructor (db: Database)
      ensures this.db == db
    {
      this.db := db;
    }

    /** Runs the one-row transaction a request has planned, unless its checks refused it. */
    method Finish(p: Result<Tx>, ghost planned: Event, ghost past: seq<DB>, io: nat -> bool)
      returns (err: Option<Error>, ghost e: Event, ghost at: nat)
      requires db.Idle() && InOrder(db.history, planned) && Planned(db.history, planned) == p && !planned.fault
      requires past <= db.history && |past| <= planned.own + 1
      requires p.Ok? ==> p.value.directive.Write? && p.value == NO_WRITES.(directive := p.value.directive)
      modifies db
      ensures e == planned.(fault := e.fault) && ((forall k :: !io(k)) ==> !e.fault)
      ensures Handled(db, past, old(db.own), e, at)
      ensures if Done(db.history, e, at) then err.None? && p.Ok? && db.history[at + 1] == Now(db.history)
          && Commit(db.history[at], p.value) == Ok(db.history[at + 1])
              else err == Some(Refusal(Upto(db.history, at), e))
    {
      hide Plan, Planned, Commit, Commits, Refusal, After, Indexed, Accounted;
      ghost var h := db.history;
      if p.Err? {
        at := |h| - 1;
        WholePrefix(h);
        Refused(h, planned);
        return Some(p.error), planned, at;
      }
      db.Yield();
      PlanStays(h, db.history, planned);
      h := db.history;
      at := |h| - 1;
      ghost var fault;
      err, fault := db.SaveDirective(p.value.directive.change, p.value.directive.entry, io);
      FaultUnplanned(h, planned, fault);
      e := planned.(fault := fault);
      Concluded(h, e, p.value, db.history, err);
    }

    method PrepareCreate(newId: Id, code: string, f: Fields, who: Caller) returns (p: Result<Tx>, ghost e: Event)
      requires db.Idle()
      modifies db
      ensures Prepared(db, old(db.history), old(db.own), DirectiveCreate(newId, code, f), who, p, e)
      ensures p.Ok? ==>
          p.value.directive.Write? && p.value == NO_WRITES.(directive := p.value.directive)
          && p.value.directive.change.Insert? && p.value.directive.change.id == newId
    {
      hide Indexed, Accounted, FindByCode, EqualFold, AuditEntry, RawEntry, BusinessFieldsMissing, PayloadOf, Norm,
          GateUnfit;
      ghost var now := |db.history| - 1;
      e := Event(DirectiveCreate(newId, code, f), who, now, now, now, now, false);
      if BusinessFieldsMissing(code, f) {
        return Err(InvalidInput), e;
      }
      var gate;
      gate, now := db.GetGateByCode(f.relatedCode);
      e := e.(far := now);
      if gate.None? {
        return Err(NotFound), e;
      }
      if GateUnfit(f, gate.value.row) {
        return Err(InvalidInput), e;
      }
      var gateState := f.gateState;
      if gateState == Blank {
        gateState := Closed;
      }
      var body := Directive(TrimSpace(f.facility), TrimSpace(f.category), f.riskLevel, Norm(f.relatedCode), gateState,
          PayloadOf(f), "", None, "", None);
      var item := Row(Norm(code), Initial(OperationDirective), 1, false, body);
      p := Ok(NO_WRITES.(directive := Write(Insert(newId, item),
          AuditEntry(who, CreateAction, OperationDirective, newId, Blank, item.status))));
    }

    method Create(newId: Id, code: string, f: Fields, who: Caller, io: nat -> bool)
      returns (r: Result<Row<Directive>>, ghost e: Event, ghost at: nat)
      requires db.Idle()
      modifies db
      ensures e.call == DirectiveCreate(newId, code, f) && e.who == who && ((forall k :: !io(k)) ==> !e.fault)
      ensures Handled(db, old(db.history), old(db.own), e, at)
      ensures if Done(db.history, e, at) then newId in db.history[at + 1].directives
          && r == Ok(db.history[at + 1].directives[newId])
              else r == Err(Refusal(Upto(db.history, at), e))
    {
      hide Plan, Planned, Commit, Commits, Refusal, After, Indexed, Accounted, InOrder;
      var p;
      p, e := PrepareCreate(newId, code, f, who);
      var err;
      err, e, at := Finish(p, e, old(db.history), io);
      if err.Some? {
        return Err(err.value), e, at;
      }
      CommitOnlyDirective(db.history[at], p.value.directive.change, p.value.directive.entry);
      r := Ok(p.value.directive.change.row);
    }

    method PrepareUpdate(id: Id, expected: nat, f: Fields, who: Caller) returns (p: Result<Tx>, ghost e: Event)
      requires db.Idle()
      modifies db
      ensures Prepared(db, old(db.history), old(db.own), DirectiveUpdate(id, expected, f), who, p, e)
      ensures p.Ok? ==> p.value.directive.Write? && p.value == NO_WRITES.(directive := p.value.directive)
    {
      hide Indexed, Accounted, FindByCode, EqualFold, AuditEntry, RawEntry, BusinessFieldsMissing, PayloadOf, Norm,
          GateUnfit;
      var found;
      ghost var now;
      found, now := db.GetDirective(id);
      e := Event(DirectiveUpdate(id, expected, f), who, now, now, now, now, false);
      if found.None? {
        return Err(NotFound), e;
      }
      var current := found.value;
      if current.status != Draft {
        return Err(ImmutableState), e;
      }
      if BusinessFieldsMissing(current.code, f) {
        return Err(InvalidInput), e;
      }
      var gate;
      gate, now := db.GetGateByCode(f.relatedCode);
      e := e.(far := now);
      if gate.None? {
        return Err(NotFound), e;
      }
      if GateUnfit(f, gate.value.row) {
        return Err(InvalidInput), e;
      }
      current := current.(body := current.body.(facility := TrimSpace(f.facility), category := TrimSpace(f.category),
          riskLevel := f.riskLevel));
      current := current.(body := current.body.(relatedCode := Norm(f.relatedCode), payload := PayloadOf(f)));
      if f.gateState != Blank {
        current := current.(body := current.body.(gateState := f.gateState));
      }
      current := current.(version := expected + 1);
      p := Ok(NO_WRITES.(directive := Write(Overwrite(id, expected, current),
          AuditEntry(who, UpdateAction, OperationDirective, id, current.status, current.status))));
    }

    method Update(id: Id, expected: nat, f: Fields, who: Caller, io: nat -> bool)
      returns (r: Result<Row<Directive>>, ghost e: Event, ghost at: nat)
      requires db.Idle()
      modifies db
      ensures e.call == DirectiveUpdate(id, expected, f) && e.who == who && ((forall k :: !io(k)) ==> !e.fault)
      ensures Handled(db, old(db.history), old(db.own), e, at)
      ensures r == if Done(db.history, e, at) then Reread(Find(Now(db.history).directives, id))
          else Err(Refusal(Upto(db.history, at), e))
    {
      hide Plan, Planned, Commit, Commits, Refusal, After, Indexed, Accounted, InOrder;
      var p;
      p, e := PrepareUpdate(id, expected, f, who);
      var err;
      err, e, at := Finish(p, e, old(db.history), io);
      if err.Some? {
        return Err(err.value), e, at;
      }
      ghost var k := db.history;
      var row, last := db.GetDirective(id);
      SamePrefix(k, db.history, at);
      r := if row.None? then Err(NotFound) else Ok(row.value);
    }

    method PrepareDelete(id: Id, who: Caller) returns (p: Result<Tx>, ghost e: Event)
      requires db.Idle()
      modifies db
      ensures Prepared(db, old(db.history), old(db.own), DirectiveDelete(id), who, p, e)
      ensures p.Ok? ==> p.value.directive.Write? && p.value == NO_WRITES.(directive := p.value.directive)
    {
      hide Indexed, Accounted, FindByCode, EqualFold, AuditEntry, RawEntry, BusinessFieldsMissing, PayloadOf, Norm;
      var found;
      ghost var now;
      found, now := db.GetDirective(id);
      e := Event(DirectiveDelete(id), who, now, now, now, now, false);
      if found.None? {
        return Err(NotFound), e;
      }
      if found.value.status != Draft {
        return Err(ImmutableState), e;
      }
      p := Ok(NO_WRITES.(directive := Write(SoftDelete(id),
          AuditEntry(who, DeleteAction, OperationDirective, id, found.value.status, Removed))));
    }

    method Delete(id: Id, who: Caller, io: nat -> bool) returns (err: Option<Error>, ghost e: Event, ghost at: nat)
      requires db.Idle()
      modifies db
      ensures e.call == DirectiveDelete(id) && e.who == who && ((forall k :: !io(k)) ==> !e.fault)
      ensures Handled(db, old(db.history), old(db.own), e, at)
      ensures err == if Done(db.history, e, at) then None else Some(Refusal(Upto(db.history, at), e))
    {
      hide Plan, Planned, Commit, Commits, Refusal, After, Indexed, Accounted, InOrder;
      var p;
      p, e := PrepareDelete(id, who);
      err, e, at := Finish(p, e, old(db.history), io);
    }

    /** The repository's own transaction, nested in the service's: row, approval record, audit entry. */
    method TransitionWithApproval(c: Change<Directive>, approval: Option<Approval>, audit: Audit, io: nat -> bool)
      returns (err: Option<Error>, ghost fault: bool)
      requires db.savepoints != []
      modifies db
      ensures db.savepoints == old(db.savepoints) && db.agenda == old(db.agenda) && db.history == old(db.history)
          && db.own == old(db.own)
      ensures db.gates == old(db.gates) && db.receipts == old(db.receipts)
      ensures err.None? ==>
                && !fault && Apply(old(db.directives), c) == Ok(db.directives)
                && ApplyApproval(old(db.approvals), approval) == Ok(db.approvals)
                    && db.audits == old(db.audits) + [audit]
      ensures err.Some? ==> db.State() == old(db.State())
      ensures err.Some? ==>
                if fault then err == Some(StorageFault)
                else if Apply(db.directives, c).Err? then Apply(db.directives, c) == Err(err.value)
                else ApplyApproval(db.approvals, approval) == Err(err.value)
      ensures (forall k :: !io(k)) ==> !fault
    {
      hide Apply, StageTaken;
      db.Begin();
      err := db.ExecDirective(c, io(0));
      fault := io(0);
      if err.None? && approval.Some? {
        err := db.AppendApproval(approval.value, io(1));
        fault := io(1);
      }
      if err.None? {
        err := db.AppendAudit(audit, io(2));
        fault := io(2);
      }
      db.End(err);
    }

    /** The service's transaction: the repository's transaction, then the gate when it has to move. */
    method RecordTransition(c: Change<Directive>, approval: Option<Approval>, audit: Audit, gate: RowWrite<Gate>,
        io: nat -> bool)
      returns (err: Option<Error>, ghost fault: bool)
      requires db.Idle()
      modifies db
      ensures db.Idle() && db.Settled(old(db.State()), Tx(Skip, Write(c, audit), approval, gate), old(db.history),
          old(db.own), err, fault)
      ensures (forall k :: !io(k)) ==> !fault
    {
      hide Apply, Indexed, ApplyApproval, Commit, Accounted;
      ghost var tx := Tx(Skip, Write(c, audit), approval, gate);
      CommitDirectiveThenGate(db.State(), c, approval, audit, gate);
      if Commit(db.State(), tx).Ok? {
        CommitKeepsIndexes(db.State(), tx);
        AccountedMore(db.history, db.own, db.script, Commit(db.State(), tx).value, true);
      }
      db.Begin();
      err, fault := TransitionWithApproval(c, approval, audit, io);
      if err.None? && gate.Write? {
        err := db.ExecGate(gate.change, io(3));
        fault := io(3);
        if err.None? {
          err := db.AppendAudit(gate.entry, io(4));
          fault := io(4);
        }
      }
      if err.None? {
        assert db.audits == old(db.audits) + [audit] + Entry(gate);
        assert ApplyWrite(old(db.gates), gate) == Ok(db.gates);
      }
      db.End(err);
    }

    /** The reads and checks of a transition, and the rows it will write. The gate is read only when reached. */
    method PrepareTransition(id: Id, expected: nat, target: Status, who: Caller) returns (p: Result<Tx>, ghost e: Event)
      requires db.Idle()
      modifies db
      ensures Prepared(db, old(db.history), old(db.own), DirectiveTransition(id, expected, target), who, p, e)
      ensures p.Ok? ==> p.value.receipt.Skip? && p.value.directive.Write?
    {
      hide Indexed, Accounted, LinkedGate, Plan, Planned, PlanDirectiveTransition, Upto, CanTransition;
      ghost var at;
      var found;
      found, at := db.GetDirective(id);
      e := Event(DirectiveTransition(id, expected, target), who, at, at, at, at, false);
      var gate: Option<Keyed<Gate>> := None;
      if found.Some? && LooksAtGate(found.value, target, who) {
        gate, at := db.GetGateByCode(found.value.body.relatedCode);
        e := e.(far := at);
      }
      GateReadIfReached(db.history, e, found, gate);
      p := Decide(id, found, gate, expected, target, who);
    }

    /** Runs the transaction of a planned transition, unless the checks refused it. */
    method FinishTransition(p: Result<Tx>, ghost planned: Event, ghost past: seq<DB>, io: nat -> bool)
      returns (err: Option<Error>, ghost e: Event, ghost at: nat)
      requires db.Idle() && InOrder(db.history, planned) && Planned(db.history, planned) == p && !planned.fault
      requires past <= db.history && |past| <= planned.own + 1
      requires p.Ok? ==> p.value.receipt.Skip? && p.value.directive.Write?
      modifies db
      ensures e == planned.(fault := e.fault) && ((forall k :: !io(k)) ==> !e.fault)
      ensures Handled(db, past, old(db.own), e, at)
      ensures err == if Done(db.history, e, at) then None else Some(Refusal(Upto(db.history, at), e))
    {
      hide Plan, Planned, Commit, Commits, Refusal, After, Indexed, Accounted;
      ghost var h := db.history;
      if p.Err? {
        at := |h| - 1;
        WholePrefix(h);
        Refused(h, planned);
        return Some(p.error), planned, at;
      }
      db.Yield();
      PlanStays(h, db.history, planned);
      h := db.history;
      at := |h| - 1;
      var tx := p.value;
      ghost var fault;
      err, fault := RecordTransition(tx.directive.change, tx.approval, tx.directive.entry, tx.gate, io);
      FaultUnplanned(h, planned, fault);
      e := planned.(fault := fault);
      Concluded(h, e, tx, db.history, err);
    }

    /** Moves a directive along its graph, with the two-person rule and the gate side effects. */
    method Transition(id: Id, expected: nat, target: Status, who: Caller, io: nat -> bool)
      returns (r: Result<Row<Directive>>, ghost e: Event, ghost at: nat)
      requires db.Idle()
      modifies db
      ensures e.call == DirectiveTransition(id, expected, target) && e.who == who && ((forall k :: !io(k)) ==> !e.fault)
      ensures Handled(db, old(db.history), old(db.own), e, at)
      ensures r == if Done(db.history, e, at) then Reread(Find(Now(db.history).directives, id))
          else Err(Refusal(Upto(db.history, at), e))
    {
      hide Plan, Planned, Commit, Commits, Refusal, After, Indexed, Accounted, InOrder;
      var p;
      p, e := PrepareTransition(id, expected, target, who);
      var err;
      err, e, at := FinishTransition(p, e, old(db.history), io);
      if err.Some? {
        return Err(err.value), e, at;
      }
      ghost var k := db.history;
      var row, last := db.GetDirective(id);
      SamePrefix(k, db.history, at);
      r := if row.None? then Err(NotFound) else Ok(row.value);
    }

    /** The decision on the rows read, in the service's order of checks. */
    static method Decide(id: Id, found: Option<Row<Directive>>, linked: Option<Keyed<Gate>>, expected: nat,
        target: Status, who: Caller)
      returns (p: Result<Tx>)
      ensures p == PlanDirectiveTransition(id, found, linked, expected, target, who)
      ensures p.Ok? ==> p.value.receipt.Skip? && p.value.directive.Write?
    {
      hide EqualFold, AuditEntry, RawEntry;
      if found.None? {
        return Err(NotFound);
      }
      var current := found.value;
      if !CanTransition(OperationDirective, current.status, target) {
        return Err(InvalidTransition);
      }
      if target == Completed {
        return Err(InvalidTransition);
      }
      if !DirectiveRoleAllowed(target, who.role) {
        return Err(Forbidden);
      }
      var gateWrite: RowWrite<Gate> := Skip;
      if ReachesGate(current.status, target) {
        if linked.None? {
          return Err(NotFound);
        }
        var gate := linked.value.row;
        if target == Executing && gate.status == Locked {
          return Err(InvalidInput);
        }
        var gateTarget := gate.status;
        if target == Aborted {
          gateTarget := Locked;
        } else if gate.status != current.body.gateState {
          gateTarget := Moving;
        }
        if gate.status != gateTarget {
          if !CanTransition(GateUnit, gate.status, gateTarget) {
            return Err(InvalidTransition);
          }
          var gateBefore := gate.status;
          gate := gate.(status := gateTarget);
          gate := gate.(version := gate.version + 1);
          gateWrite := Write(Overwrite(linked.value.id, gate.version - 1, gate),
              AuditEntry(who, DirectiveExecution, GateUnit, linked.value.id, gateBefore, gateTarget));
        }
      }
      if target == Approved {
        if current.body.submittedBy == "" || EqualFold(current.body.submittedBy, who.actor) {
          return Err(TwoPersonRequired);
        }
      }
      var before := current.status;
      current := current.(status := target);
      var approval := None;
      if target == Pending {
        current := current.(body := current.body.(submittedBy := who.actor, submittedAt := Some(who.now)));
        approval := Some(Approval(id, SubmittedStage, who.actor, who.role, who.requestId, before, target, who.now));
      }
      if target == Approved {
        current := current.(body := current.body.(approvedBy := who.actor, approvedAt := Some(who.now)));
        approval := Some(Approval(id, ApprovedStage, who.actor, who.role, who.requestId, before, target, who.now));
      }
      current := current.(version := expected + 1);
      var audit := RawEntry(who, OperationDirective, id, before, target);
      p := Ok(Tx(Skip, Write(Overwrite(id, expected, current), audit), approval, gateWrite));
    }
  }

  /** The checks that come before the gate is read all pass, and the transition reaches the gate. */
  predicate LooksAtGate(d: Row<Directive>, target: Status, who: Caller) {
    CanTransition(OperationDirective, d.status, target) && DirectiveRoleAllowed(target, who.role)
        && ReachesGate(d.status, target)
  }

  /** The gate is read only when it is reached; what is not read plays no part. */
  lemma GateReadIfReached(h: seq<DB>, e: Event, found: Option<Row<Directive>>, gate: Option<Keyed<Gate>>)
    requires InOrder(h, e) && e.call.DirectiveTransition? && found == Find(h[e.own].directives, e.call.id)
    requires gate ==
        if found.Some? && LooksAtGate(found.value, e.call.target, e.who)
        then LinkedGate(h[e.far], found.value.body.relatedCode) else None
    ensures Planned(h, e) == PlanDirectiveTransition(e.call.id, found, gate, e.call.expected, e.call.target, e.who)
  {
    hide LinkedGate, PlanDirectiveTransition, LooksAtGate;
    if found.Some? && !LooksAtGate(found.value, e.call.target, e.who) {
      GateUnread(e.call.id, found, gate, LinkedGate(h[e.far], found.value.body.relatedCode), e.call.expected,
        e.call.target, e.who);
    }
  }

  lemma GateUnread(id: Id, found: Option<Row<Directive>>, g1: Option<Keyed<Gate>>, g2: Option<Keyed<Gate>>,
      expected: nat, target: Status, who: Caller)
    requires found.Some? && !LooksAtGate(found.value, target, who)
    ensures PlanDirectiveTransition(id, found, g1, expected, target, who) ==
        PlanDirectiveTransition(id, found, g2, expected, target, who)
  {
  }
}
