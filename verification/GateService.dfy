/** The gate service: the manual writer of gate rows. */
module GateService {
  import opened Prelude
  import opened Text
  import opened Status
  import opened Model
  import opened Transactions
  import opened Planning
  import opened Protocol
  import opened Store
  import opened Serving

  class GateUnitService {
    const db: Database

    constructor (db: Database)
      ensures this.db == db
    {
      this.db := db;
    }

    /** Runs the one-row transaction a request has planned, unless its checks refused it. */
    method Finish(p: Result<Tx>, ghost planned: Event, ghost past: seq<DB>, io: nat -> bool)
      returns (err: Option<Error>, ghost e: Event, ghost at: nat)
      requires db.Idle() && InOrder(db.history, planned) && Planned(db.history, planned) == p && !planned.fault
      requires past <= db.history && |past| <= planned.own + 1
      requires p.Ok? ==> p.value.gate.Write? && p.value == NO_WRITES.(gate := p.value.gate)
      modifies db
      ensures e == planned.(fault := e.fault) && ((forall k :: !io(k)) ==> !e.fault)
      ensures Handled(db, past, old(db.own), e, at)
      ensures if Done(db.history, e, at) then err.None? && p.Ok? && db.history[at + 1] == Now(db.history)
          && Commit(db.history[at], p.value) == Ok(db.history[at + 1])
              else err == Some(Refusal(Upto(db.history, at), e))
    {
      hide Plan, Planned, Commit, Commits, Refusal, After, Indexed, Accounted;
      ghost var h := db.history;
      if p.Err? {
        at := |h| - 1;
        WholePrefix(h);
        Refused(h, planned);
        return Some(p.error), planned, at;
      }
      db.Yield();
      PlanStays(h, db.history, planned);
      h := db.history;
      at := |h| - 1;
      ghost var fault;
      err, fault := db.SaveGate(p.value.gate.change, p.value.gate.entry, io);
      FaultUnplanned(h, planned, fault);
      e := planned.(fault := fault);
      Concluded(h, e, p.value, db.history, err);
    }

    method PrepareCreate(newId: Id, code: string, f: Fields, reservoir: Option<Reservoir>, who: Caller)
        returns (p: Result<Tx>, ghost e: Event)
      requires db.Idle()
      modifies db
      ensures Prepared(db, old(db.history), old(db.own), GateCreate(newId, code, f, reservoir), who, p, e)
      ensures p.Ok? ==>
          p.value.gate.Write? && p.value == NO_WRITES.(gate := p.value.gate)
          && p.value.gate.change.Insert? && p.value.gate.change.id == newId
    {
      hide Indexed, Accounted, FindByCode, EqualFold, AuditEntry, RawEntry, BusinessFieldsMissing, PayloadOf, Norm;
      ghost var now := |db.history| - 1;
      e := Event(GateCreate(newId, code, f, reservoir), who, now, now, now, now, false);
      if BusinessFieldsMissing(code, f) {
        return Err(InvalidInput), e;
      }
      if reservoir.None? {
        return Err(NotFound), e;
      }
      if !EqualFold(TrimSpace(f.facility), reservoir.value.facility) {
        return Err(InvalidInput), e;
      }
      var item := Row(Norm(code), Initial(GateUnit), 1, false, GateBody(f, Norm(f.relatedCode)));
      p := Ok(NO_WRITES.(gate := Write(Insert(newId, item),
          AuditEntry(who, CreateAction, GateUnit, newId, Blank, item.status))));
    }

    method Create(newId: Id, code: string, f: Fields, reservoir: Option<Reservoir>, who: Caller, io: nat -> bool)
      returns (r: Result<Row<Gate>>, ghost e: Event, ghost at: nat)
      requires db.Idle()
      modifies db
      ensures e.call == GateCreate(newId, code, f, reservoir) && e.who == who && ((forall k :: !io(k)) ==> !e.fault)
      ensures Handled(db, old(db.history), old(db.own), e, at)
      ensures if Done(db.history, e, at) then newId in db.history[at + 1].gates
          && r == Ok(db.history[at + 1].gates[newId])
              else r == Err(Refusal(Upto(db.history, at), e))
    {
      hide Plan, Planned, Commit, Commits, Refusal, After, Indexed, Accounted, InOrder;
      var p;
      p, e := PrepareCreate(newId, code, f, reservoir, who);
      var err;
      err, e, at := Finish(p, e, old(db.history), io);
      if err.Some? {
        return Err(err.value), e, at;
      }
      CommitOnlyGate(db.history[at], p.value.gate.change, p.value.gate.entry);
      r := Ok(p.value.gate.change.row);
    }

    method PrepareUpdate(id: Id, expected: nat, f: Fields, reservoir: Option<Reservoir>, who: Caller)
        returns (p: Result<Tx>, ghost e: Event)
      requires db.Idle()
      modifies db
      ensures Prepared(db, old(db.history), old(db.own), GateUpdate(id, expected, f, reservoir), who, p, e)
      ensures p.Ok? ==> p.value.gate.Write? && p.value == NO_WRITES.(gate := p.value.gate)
    {
      hide Indexed, Accounted, FindByCode, EqualFold, AuditEntry, RawEntry, BusinessFieldsMissing, PayloadOf, Norm;
      var found;
      ghost var now;
      found, now := db.GetGate(id);
      e := Event(GateUpdate(id, expected, f, reservoir), who, now, now, now, now, false);
      if found.None? {
        return Err(NotFound), e;
      }
      var current := found.value;
      if BusinessFieldsMissing(current.code, f) {
        return Err(InvalidInput), e;
      }
      if !EqualFold(TrimSpace(f.relatedCode), current.body.relatedCode) {
        return Err(InvalidInput), e;
      }
      if reservoir.None? {
        return Err(NotFound), e;
      }
      if !EqualFold(TrimSpace(f.facility), reservoir.value.facility) {
        return Err(InvalidInput), e;
      }
      current := current.(body := GateBody(f, reservoir.value.code));
      current := current.(version := expected + 1);
      p := Ok(NO_WRITES.(gate := Write(Overwrite(id, expected, current),
          AuditEntry(who, UpdateAction, GateUnit, id, current.status, current.status))));
    }

    method Update(id: Id, expected: nat, f: Fields, reservoir: Option<Reservoir>, who: Caller, io: nat -> bool)
      returns (r: Result<Row<Gate>>, ghost e: Event, ghost at: nat)
      requires db.Idle()
      modifies db
      ensures e.call == GateUpdate(id, expected, f, reservoir) && e.who == who && ((forall k :: !io(k)) ==> !e.fault)
      ensures Handled(db, old(db.history), old(db.own), e, at)
      ensures r == if Done(db.history, e, at) then Reread(Find(Now(db.history).gates, id))
          else Err(Refusal(Upto(db.history, at), e))
    {
      hide Plan, Planned, Commit, Commits, Refusal, After, Indexed, Accounted, InOrder;
      var p;
      p, e := PrepareUpdate(id, expected, f, reservoir, who);
      var err;
      err, e, at := Finish(p, e, old(db.history), io);
      if err.Some? {
        return Err(err.value), e, at;
      }
      ghost var k := db.history;
      var row, last := db.GetGate(id);
      SamePrefix(k, db.history, at);
      r := if row.None? then Err(NotFound) else Ok(row.value);
    }

    method PrepareTransition(id: Id, expected: nat, target: Status, who: Caller) returns (p: Result<Tx>, ghost e: Event)
      requires db.Idle()
      modifies db
      ensures Prepared(db, old(db.history), old(db.own), GateTransition(id, expected, target), who, p, e)
      ensures p.Ok? ==> p.value.gate.Write? && p.value == NO_WRITES.(gate := p.value.gate)
    {
      hide Indexed, Accounted, FindByCode, EqualFold, AuditEntry, RawEntry, BusinessFieldsMissing, PayloadOf, Norm;
      var found;
      ghost var now;
      found, now := db.GetGate(id);
      e := Event(GateTransition(id, expected, target), who, now, now, now, now, false);
      if found.None? {
        return Err(NotFound), e;
      }
      var current := found.value;
      if !CanTransition(GateUnit, current.status, target) {
        return Err(InvalidTransition), e;
      }
      var before := current.status;
      current := current.(status := target);
      current := current.(version := expected + 1);
      p := Ok(NO_WRITES.(gate := Write(Overwrite(id, expected, current), RawEntry(who, GateUnit, id, before, target))));
    }

    method Transition(id: Id, expected: nat, target: Status, who: Caller, io: nat -> bool)
      returns (r: Result<Row<Gate>>, ghost e: Event, ghost at: nat)
      requires db.Idle()
      modifies db
      ensures e.call == GateTransition(id, expected, target) && e.who == who && ((forall k :: !io(k)) ==> !e.fault)
      ensures Handled(db, old(db.history), old(db.own), e, at)
      ensures r == if Done(db.history, e, at) then Reread(Find(Now(db.history).gates, id))
          else Err(Refusal(Upto(db.history, at), e))
    {
      hide Plan, Planned, Commit, Commits, Refusal, After, Indexed, Accounted, InOrder;
      var p;
      p, e := PrepareTransition(id, expected, target, who);
      var err;
      err, e, at := Finish(p, e, old(db.history), io);
      if err.Some? {
        return Err(err.value), e, at;
      }
      ghost var k := db.history;
      var row, last := db.GetGate(id);
      SamePrefix(k, db.history, at);
      r := if row.None? then Err(NotFound) else Ok(row.value);
    }

    method PrepareDelete(id: Id, who: Caller) returns (p: Result<Tx>, ghost e: Event)
      requires db.Idle()
      modifies db
      ensures Prepared(db, old(db.history), old(db.own), GateDelete(id), who, p, e)
      ensures p.Ok? ==> p.value.gate.Write? && p.value == NO_WRITES.(gate := p.value.gate)
    {
      hide Indexed, Accounted, FindByCode, EqualFold, AuditEntry, RawEntry, BusinessFieldsMissing, PayloadOf, Norm;
      var found;
      ghost var now;
      found, now := db.GetGate(id);
      e := Event(GateDelete(id), who, now, now, now, now, false);
      if found.None? {
        return Err(NotFound), e;
      }
      p := Ok(NO_WRITES.(gate := Write(SoftDelete(id), AuditEntry(who, DeleteAction, GateUnit, id, found.value.status,
          Removed))));
    }

    method Delete(id: Id, who: Caller, io: nat -> bool) returns (err: Option<Error>, ghost e: Event, ghost at: nat)
      requires db.Idle()
      modifies db
      ensures e.call == GateDelete(id) && e.who == who && ((forall k :: !io(k)) ==> !e.fault)
      ensures Handled(db, old(db.history), old(db.own), e, at)
      ensures err == if Done(db.history, e, at) then None else Some(Refusal(Upto(db.history, at), e))
    {
      hide Plan, Planned, Commit, Commits, Refusal, After, Indexed, Accounted, InOrder;
      var p;
      p, e := PrepareDelete(id, who);
      err, e, at := Finish(p, e, old(db.history), io);
    }
  }
}
